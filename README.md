# UBC SiEPIC PDK: pin annotation, pin stripping and label helpers

This project models the part of the UBC SiEPIC EBeam process design kit that
holds its own logic. The rest of the kit delegates to the layout library.

- **`ubcpdk/import_gds.py`:**
  - the port-orientation heuristic `guess_port_orientaton`;
  - pin stripping, `remove_pins` and `remove_pins_recursive`;
  - `add_ports_from_siepic_pins`. This pass turns SiEPIC pins, which are two-point marker paths next to text labels, into ports.
- **`ubcpdk/components.py`:**
  - the device-label helpers `clean_name`, `get_input_label_text` and `get_input_labels`;
  - `add_label_electrical`.

Files:

- `wrappers.dfy`: the `Option` and `Result` types.
- `layout.dfy` (module `Layout`): the layout library's data as this code sees it.
  - Value types: points, GDS layers, labels, ports, marker paths and polygons.
  - numpy's `isclose` on real coordinates.
  - The mutable cell `Component` and its instance `Reference`. Only the reference's `parent` is reassigned.
  - Ghost bookkeeping keeps the instancing graph acyclic.
- `import_gds.dfy` (module `ImportGds`):
  - The orientation table as a function, with one lemma per priority rule.
  - `RemovePins` and the recursive `RemovePinsRecursive` as methods on the cells.
  - The annotation pass, as:
    - a specification on values: `SweepFrom` for the label loop, `FreshName` for the name loop, `Step` for one path and `Annotate` for all paths;
    - lemmas about that specification;
    - methods (`PopMatches`, `DedupName`, `AnnotatePath`, `AddPortsFromSiepicPins`) whose loops are proved equal to it.
- `components.dfy` (module `Components`): the label helpers as functions with `Result` errors, and `AddLabelElectrical` as a method on the cell.

The pin annotation pass is modelled as the code behaves, including three quirks.

- **Popping during `enumerate`:** the loop pops labels from the list it is walking. The label that moves into a popped slot is never examined. When several labels match, the last one popped names the port.
- **Dedup counter:** the counter in the name loop is never incremented, so repeated names become `x_1`, `x_1_1`, `x_1_1_1`, and so on. The comment "add a number to it" and the counter `i = 1` that is never incremented (ubcpdk/import_gds.py:115-118) suggest that `x_1`, `x_2`, ... was meant. The model follows the code; `FreshNameRepeatsSuffix` shows the difference on a concrete map.
- **Unlayered pins:** a labelled path that is on neither pin layer still removes its labels from the pool.

## Model

| member | source | states |
|---|---|---|
| Layout.Midpoint | ubcpdk/import_gds.py:87 | the port center is equidistant from both ends of the pin's spine |
| ImportGds.Contains | ubcpdk/import_gds.py:18-24 | Python's `in` on strings; a match is never longer than the text searched |
| ImportGds.ContainsOccurs | ubcpdk/import_gds.py:18-24 | `Contains` holds exactly when the pattern occurs at some index of the text |
| ImportGds.GuessPortOrientation | ubcpdk/import_gds.py:15-31 | the heuristic is total and always yields one of 0, 90, 180, 270 |
| ImportGds.GratingCouplerFirst | ubcpdk/import_gds.py:18-19 | a name containing "gc" gives 0 whatever the label, position or port count |
| ImportGds.Opt1Second | ubcpdk/import_gds.py:20-21 | otherwise label "opt1" gives 180, for crossings and four-port cells too |
| ImportGds.CrossingThird | ubcpdk/import_gds.py:22-25 | otherwise a crossing port gives 90 above the axis and 270 below it |
| ImportGds.CrossingOnAxisFallsThrough | ubcpdk/import_gds.py:22-31 | a crossing port on y == 0 gets what a port of a non-crossing cell would get |
| ImportGds.FourPortFourth | ubcpdk/import_gds.py:26-30 | for any cell name without "gc", and without "crossing" unless the port is on the axis, four ports map "opt2" to 180 and "opt3"/"opt4" to 0 |
| ImportGds.FallbackLast | ubcpdk/import_gds.py:31 | with no earlier rule, 180 exactly when x <= 0, else 0 |
| ImportGds.RemoveLayers | ubcpdk/import_gds.py:36 | no polygon left is on a removed layer, and none is added |
| ImportGds.RemoveLayersKeepsOthers | ubcpdk/import_gds.py:36 | the polygons of every layer not removed are unchanged, in order |
| ImportGds.RemoveLayersIdempotent | ubcpdk/import_gds.py:36 | removing the marker layers twice equals removing them once |
| ImportGds.RemovePins | ubcpdk/import_gds.py:34-39 | the same cell is returned, stripped of DEVREC/PORT/PORTE polygons and of its paths, with its bounding box invalidated |
| ImportGds.RemovePinsRecursive | ubcpdk/import_gds.py:42-48 | every cell reachable through references is stripped and pin-free; the reference list is unchanged and each reference still points at its own (now stripped) child |
| ImportGds.StripChild | ubcpdk/import_gds.py:45-47 | stripping the i-th child extends the stripped region by that child's cells; cells stripped twice stay as stripped once |
| ImportGds.StripStep | ubcpdk/import_gds.py:45-47 | the stripped region after a recursive call is the old one plus the child's reachable cells |
| ImportGds.Reattach | ubcpdk/import_gds.py:47 | reassigning a reference's parent to the stripped child keeps the graph and the progress made |
| ImportGds.Matches | ubcpdk/import_gds.py:92-96 | the closeness test against the pin's center, p1 and p2; a label exactly on any of them matches |
| ImportGds.SweepFrom | ubcpdk/import_gds.py:90-98 | kept and popped labels together are as many as the pool, and every popped label is close to the pin's center, p1 or p2 |
| ImportGds.SweepConserves | ubcpdk/import_gds.py:91-98 | no label is lost or invented: kept plus popped is the pool, as a multiset |
| ImportGds.SweepEmpty | ubcpdk/import_gds.py:90-103 | nothing is popped exactly when no label matches, and then the pool is unchanged |
| ImportGds.SweepSkipsNeighbour | ubcpdk/import_gds.py:91-98 | of two adjacent matching labels only the first is popped; the second is skipped |
| ImportGds.SweepLastMatchWins | ubcpdk/import_gds.py:91-98 | with a non-match between two matches both are popped and the later one is last |
| ImportGds.Classify | ubcpdk/import_gds.py:104-111 | optical is tested before electrical; the port layer falls back to the pin layer; neither layer gives no port |
| ImportGds.ClassifyDefaultPins | ubcpdk/import_gds.py:135-140 | under the PDK's binding a PORT pin is an optical port on WG, a pin on PORTE alone is an electrical port on PORTE, and any other pin is skipped |
| ImportGds.Suffixed | ubcpdk/import_gds.py:116-118 | each round of the name loop adds the two characters "_1" after the label text |
| ImportGds.FreshSuffix | ubcpdk/import_gds.py:116-118 | the loop stops at the first number of "_1"s that gives a free name; every shorter one is taken |
| ImportGds.FreshName | ubcpdk/import_gds.py:113-118 | the chosen port name is not yet a port of the cell |
| ImportGds.FreshNameUnused | ubcpdk/import_gds.py:113-118 | a label text that is not a port name is used unchanged |
| ImportGds.FreshNameFewest | ubcpdk/import_gds.py:116-118 | the name is the label text with the fewest "_1"s that make it free |
| ImportGds.FreshNameRepeatsSuffix | ubcpdk/import_gds.py:116-118 | with "o1" and "o1_1" taken, the next "o1" becomes "o1_1_1" |
| ImportGds.NewPort | ubcpdk/import_gds.py:122-129 | the port's center is the pin's midpoint, its width the path's, its orientation the spine angle; name, type and layer are as passed in (their freshness and classification are `StepAddsPort`'s) |
| ImportGds.Step | ubcpdk/import_gds.py:82-130 | one turn of the path loop: the pool never grows, and kept plus popped labels stay as many as before |
| ImportGds.StepConserves | ubcpdk/import_gds.py:90-98 | one path turn moves labels from the pool to the popped ones and loses none |
| ImportGds.StepPorts | ubcpdk/import_gds.py:99-130 | one path turn keeps every existing port and adds at most one, exactly when it records a naming label |
| ImportGds.StepNamesPopped | ubcpdk/import_gds.py:97-113 | the label that names the new port is one this turn popped |
| ImportGds.StepNoLabel | ubcpdk/import_gds.py:99-103 | a path with no matching label adds no port and leaves the pool unchanged |
| ImportGds.StepNeitherLayer | ubcpdk/import_gds.py:98-111 | a labelled path on neither pin layer adds no port but still shrinks the pool |
| ImportGds.StepAddsPort | ubcpdk/import_gds.py:104-130 | a labelled path on a pin layer adds exactly one port, under a fresh name, with the pin's geometry and the classified type and layer |
| ImportGds.StepKeysAreNames | ubcpdk/import_gds.py:122-130 | the new port is stored under its own name |
| ImportGds.Annotate | ubcpdk/import_gds.py:81-130 | the loop over the cell's paths in order: the pool only shrinks, and kept plus popped labels stay as many as at the start |
| ImportGds.AnnotateConserves | ubcpdk/import_gds.py:81-98 | over all paths, pool plus popped labels is the starting pool |
| ImportGds.AnnotatePorts | ubcpdk/import_gds.py:81-130 | over all paths, old ports survive, ports added are at most the paths scanned, and each port-naming label was popped |
| ImportGds.AnnotateKeysAreNames | ubcpdk/import_gds.py:81-130 | every port stays stored under its own name |
| ImportGds.AnnotateFromLabels | ubcpdk/import_gds.py:78-130 | started on the cell's labels, the port-naming labels form a sub-multiset of those labels, so each label occurrence names at most one port; the port count grows by at most the number of paths |
| ImportGds.PopMatches | ubcpdk/import_gds.py:90-98 | the in-place pop loop leaves the pool the sweep keeps and returns the last popped label, or none |
| ImportGds.DedupName | ubcpdk/import_gds.py:113-118 | the `while` loop terminates with the fresh name |
| ImportGds.AnnotatePath | ubcpdk/import_gds.py:82-130 | one pass of the outer loop body, applied to the cell's port map, is one path turn |
| ImportGds.AddPortsFromSiepicPins | ubcpdk/import_gds.py:51-132 | the same cell is returned, and its ports are what the path-by-path pass over its labels computes |
| Components.CleanName | ubcpdk/components.py:69-70 | every "_" becomes "." and every other character stays in place; the length is kept |
| Components.CleanNameNoUnderscore | ubcpdk/components.py:69-70 | a cleaned name contains no "_" |
| Components.CleanNameIdempotent | ubcpdk/components.py:69-70 | cleaning twice is cleaning once |
| Components.CleanNameKeepsClean | ubcpdk/components.py:69-70 | a name without "_" is returned unchanged |
| Components.Upper | ubcpdk/components.py:409 | upper-casing keeps the length and maps each letter to its capital |
| Components.UpperHasNoLower | ubcpdk/components.py:409 | upper-cased text contains no lower-case ASCII letter |
| Components.NatToString | ubcpdk/components.py:420 | the wavelength is written as decimal digits without a leading zero |
| Components.ParseNatToString | ubcpdk/components.py:420 | the written digits read back as the number |
| Components.NatToStringFourDigits | ubcpdk/components.py:420 | a wavelength of 1000 to 9999 nm takes four characters |
| Components.Get | ubcpdk/components.py:406-407 | a lookup in `info` gives the value when the key is present, else none |
| Components.WavelengthNm | ubcpdk/components.py:420 | the nanometre value is the integer part of the wavelength times 1000 |
| Components.WavelengthNmRange | ubcpdk/components.py:413-420 | an accepted wavelength gives 1000 to 1999 nm |
| Components.ValidWavelength | ubcpdk/components.py:413-415 | a wavelength is accepted exactly when it is a number strictly between 1 and 2 |
| Components.ChooseName | ubcpdk/components.py:417 | a non-empty component name wins; otherwise the port parent's name is used |
| Components.LabelText | ubcpdk/components.py:420 | the f-string: its length is the sum of its parts, it starts "opt_in_" and ends with the device name |
| Components.GetInputLabelText | ubcpdk/components.py:392-420 | a text is produced exactly when the polarization is text whose upper case is TE or TM, the wavelength is accepted, and a name is found |
| Components.GetInputLabelTextErrors | ubcpdk/components.py:406-415 | the checks fail in order: a missing polarization, then an invalid polarization, then an invalid wavelength |
| Components.LabelTextParts | ubcpdk/components.py:420 | the label text splits back into "opt_in_", the polarization, the four digits of the wavelength, "_device_", the user name, "-" and the cleaned name |
| Components.GetInputLabelTextReadsBack | ubcpdk/components.py:417-420 | a produced text reads back as TE or TM, the wavelength in nm (1000 to 1999), the user name and the cleaned chosen name |
| Components.PyIndex | ubcpdk/components.py:444 | list indexing accepts -n..n-1, with negative indices counting from the end |
| Components.GetInputLabels | ubcpdk/components.py:423-458 | the result is a one-label list on the requested layer exactly when the grating index, the second ordered port, the label text and the grating port all exist |
| Components.GetInputLabelsPlacement | ubcpdk/components.py:444-458 | the label has the text built for the second ordered port and sits at the center of port `gc_port_name` of the chosen grating |
| Components.AddLabelElectrical | ubcpdk/components.py:749-760 | a missing port is an error and adds nothing; otherwise exactly one TEXT label is added at the port's center and the same cell is returned |

## Left out

- ImportGds.AddPortsFromSiepicPins: the final `auto_rename_ports` call (line 131) is not modelled. That renumbering belongs to the layout library. The contract describes the ports before it runs.
- ImportGds.AddPortsFromSiepicPins: the spine angle (`round(degrees(arctan2(...)) % 360)`, line 120) is floating point. It is the parameter `angle`, a function of the two spine points.
- ImportGds.AddPortsFromSiepicPins: `get_labels()` also collects the labels of instanced cells. The model starts from the cell's own label list.
- Layout.IsClose: numpy's `isclose` is evaluated on exact reals with numpy's default tolerances. Floating-point rounding is not modelled.
- Marker paths have two-point spines and a single width. `path.widths()[0][0]` is that width.
- Layer specifications are already-resolved `Layer` values; `gf.get_layer` is not modelled.
- ImportGds.RemovePins: the library's `remove_layers` is modelled as its evident filter on the cell's own polygons. Its handling of labels, of instanced cells and of flattening is not modelled.
- ImportGds.RemovePinsRecursive: the reference list of every cell is fixed when the cell is built. The recursion reassigns only a reference's `parent`, as the code does, so the list is a constant in the model.
- Port ownership: `port.parent.metadata_child.get("name")` is the port's `parentName`. Ports added by the annotation pass get the cell's own `childName`, which the library's `add_port` records.
- Components.WavelengthNm: `int(wavelength * 1000.0)` is the integer part of the exact product. A float product that rounds below a whole number is not modelled.
- Components.Upper: `str.upper()` is modelled for ASCII letters only.
- Components.GetInputLabels: the `get_input_label_text_function` parameter is fixed to `get_input_label_text`. The label anchor and `gf.get_layer` are not modelled.
- Default arguments are not modelled: every argument is passed explicitly. `username` defaults to a configuration value. `port_name` defaults to "e2" in `add_label_electrical`. `layer_label` defaults to (10, 0), `gc_port_name` to "o1" and `port_index` to 1 in `get_input_labels`.
- The `LAYER` map: WG, DEVREC and PORT follow ubc/tech.py. PORTE (1/11) and TEXT (10/0) follow the SiEPIC EBeam layer table. ubcpdk/tech.py is not part of this model.
- `import_gds` and `import_gc` (GDS file reading, caching, mirroring), the `@gf.cell` factories and the `partial`s other than the pin-layer binding (ubcpdk/import_gds.py:135-140, `DefaultPins`) are not modelled. They wrap layout-library geometry and file I/O.
- The printed warnings are not modelled. A path without a label is dropped silently, as the code's `continue` does.
