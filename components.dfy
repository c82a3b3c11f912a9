/**
 * ubcpdk/components.py: the naming and labelling helpers that test-site
 * automation reads (clean_name, get_input_label_text, get_input_labels,
 * add_label_electrical).
 */
module Components {
  import opened Wrappers
  import opened Layout

  // ---------------------------------------------------------------------------
  // Strings
  // ---------------------------------------------------------------------------

  /** clean_name: every underscore becomes a dot, every other character stays. */
  function CleanName(name: string): (r: string)
    ensures |r| == |name|
    ensures forall i :: 0 <= i < |name| ==> r[i] == if name[i] == '_' then '.' else name[i]
  {
    if name == [] then []
    else [if name[0] == '_' then '.' else name[0]] + CleanName(name[1..])
  }

  /** A cleaned name has no underscore left. */
  lemma CleanNameNoUnderscore(name: string)
    ensures '_' !in CleanName(name)
  {
    var r := CleanName(name);
    forall i | 0 <= i < |r|
      ensures r[i] != '_'
    {
    }
  }

  /** Cleaning twice is cleaning once. */
  lemma CleanNameIdempotent(name: string)
    ensures CleanName(CleanName(name)) == CleanName(name)
  {
    CleanNameNoUnderscore(name);
    CleanNameKeepsClean(CleanName(name));
  }

  /** A name without underscores is left as it is. */
  lemma CleanNameKeepsClean(name: string)
    requires '_' !in name
    ensures CleanName(name) == name
  {
    var r := CleanName(name);
    forall i | 0 <= i < |name|
      ensures r[i] == name[i]
    {
      assert name[i] in name;
    }
  }

  /** str.upper() on one ASCII character. */
  function UpperChar(c: char): (u: char)
    ensures 'a' <= c <= 'z' ==> u as int == c as int - 32
    ensures !('a' <= c <= 'z') ==> u == c
  {
    if 'a' <= c <= 'z' then (c as int - 32) as char else c
  }

  /** str.upper() on ASCII text, character by character. */
  function Upper(s: string): (r: string)
    ensures |r| == |s|
    ensures forall i :: 0 <= i < |s| ==> r[i] == UpperChar(s[i])
  {
    if s == [] then [] else [UpperChar(s[0])] + Upper(s[1..])
  }

  /** Upper-casing leaves no lower-case ASCII letter. */
  lemma UpperHasNoLower(s: string)
    ensures forall i :: 0 <= i < |Upper(s)| ==> !('a' <= Upper(s)[i] <= 'z')
  {
  }

  function DigitChar(d: nat): (c: char)
    requires d < 10
    ensures '0' <= c <= '9' && c as int - '0' as int == d
  {
    ('0' as int + d) as char
  }

  predicate IsDigits(s: string)
  {
    forall i :: 0 <= i < |s| ==> '0' <= s[i] <= '9'
  }

  /** str(n) for a non-negative int: decimal digits, no leading zero. */
  function NatToString(n: nat): (r: string)
    ensures |r| >= 1 && IsDigits(r)
    ensures |r| > 1 ==> r[0] != '0'
  {
    if n < 10 then [DigitChar(n)] else NatToString(n / 10) + [DigitChar(n % 10)]
  }

  /** The value of a string of decimal digits. */
  function ParseNat(s: string): nat
    requires IsDigits(s)
  {
    if s == [] then 0 else 10 * ParseNat(s[..|s| - 1]) + (s[|s| - 1] as int - '0' as int)
  }

  /** Reading back the digits of `n` gives `n`. */
  lemma {:induction false} ParseNatToString(n: nat)
    ensures ParseNat(NatToString(n)) == n
  {
    if n >= 10 {
      var r := NatToString(n);
      assert r[..|r| - 1] == NatToString(n / 10);
      ParseNatToString(n / 10);
    }
  }

  /** Four-digit numbers print as four characters. */
  lemma {:induction false} NatToStringFourDigits(n: nat)
    requires 1000 <= n <= 9999
    ensures |NatToString(n)| == 4
  {
    assert NatToString(n) == NatToString(n / 10) + [DigitChar(n % 10)];
    assert NatToString(n / 10) == NatToString(n / 100) + [DigitChar(n / 10 % 10)];
    assert NatToString(n / 100) == NatToString(n / 1000) + [DigitChar(n / 100 % 10)];
  }

  // ---------------------------------------------------------------------------
  // Grating-coupler labels (get_input_label_text, get_input_labels)
  // ---------------------------------------------------------------------------

  /** A value of a cell's `info` dictionary, as far as the label code tells them apart. */
  datatype InfoValue = Str(s: string) | Int(i: int) | Float(f: real) | Other

  /** A grating-coupler reference: the parent's `info` and the reference's ports. */
  datatype GratingRef = GratingRef(info: map<string, InfoValue>, ports: map<string, Port>)

  /** Why building a label fails; each is an exception in the source. */
  datatype Error =
    | PolarizationNotText               // `.upper()` on a missing or non-string polarization
    | InvalidPolarization(upper: string) // the polarization assertion
    | InvalidWavelength                 // the wavelength assertion
    | NoName                            // clean_name(None): no component name and none on the port's parent
    | IndexOutOfRange(index: int)       // list indexing
    | NoPort(name: string)              // a port name missing from a port map

  /** dict.get(key): the value, or None. */
  function Get(info: map<string, InfoValue>, key: string): (v: Option<InfoValue>)
    ensures v.Some? <==> key in info
    ensures v.Some? ==> v.value == info[key]
  {
    if key in info then Some(info[key]) else None
  }

  /** int(wavelength * 1000.0) for a positive wavelength in micrometres. */
  function WavelengthNm(wavelength: real): (nm: int)
    requires wavelength > 0.0
    ensures nm as real <= wavelength * 1000.0 < nm as real + 1.0
  {
    (wavelength * 1000.0).Floor
  }

  /** A wavelength strictly between 1 and 2 micrometres is 1000 to 1999 nanometres. */
  lemma WavelengthNmRange(wavelength: real)
    requires 1.0 < wavelength < 2.0
    ensures 1000 <= WavelengthNm(wavelength) <= 1999
  {
  }

  /** `isinstance(v, int | float) and 1.0 < v < 2.0`, with the value as a real. */
  function ValidWavelength(v: Option<InfoValue>): (r: Option<real>)
    ensures r.Some? ==> 1.0 < r.value < 2.0
    ensures r.Some? <==> (v.Some? && v.value.Float? && 1.0 < v.value.f < 2.0)
  {
    match v
    case Some(Float(f)) => if 1.0 < f < 2.0 then Some(f) else None
    case Some(Int(i)) => if 1 < i < 2 then Some(i as real) else None
    case _ => None
  }

  /** `component_name or port.parent.metadata_child.get("name")`: an empty name counts as none. */
  function ChooseName(componentName: Option<string>, parentName: Option<string>): (r: Option<string>)
    ensures componentName.Some? && componentName.value != "" ==> r == componentName
    ensures !(componentName.Some? && componentName.value != "") ==> r == parentName
  {
    if componentName.Some? && componentName.value != "" then componentName else parentName
  }

  /** The fixed text of a grating-coupler input label. */
  function LabelText(pol: string, nm: nat, username: string, name: string): (t: string)
    ensures |t| == 7 + |pol| + 1 + |NatToString(nm)| + 8 + |username| + 1 + |name|
    ensures t[..7] == "opt_in_" && t[|t| - |name|..] == name
  {
    "opt_in_" + pol + "_" + NatToString(nm) + "_device_" + username + "-" + name
  }

  /**
   * get_input_label_text: check the polarization, then the wavelength, then
   * pick the device name; on success format the label text.
   */
  function GetInputLabelText(port: Port, gc: GratingRef, componentName: Option<string>,
                             username: string): (r: Result<string, Error>)
    ensures r.Ok? <==>
      && Get(gc.info, "polarization").Some? && Get(gc.info, "polarization").value.Str?
      && Upper(Get(gc.info, "polarization").value.s) in ["TE", "TM"]
      && ValidWavelength(Get(gc.info, "wavelength")).Some?
      && ChooseName(componentName, port.parentName).Some?
  {
    var polarization := Get(gc.info, "polarization");
    var wavelength := Get(gc.info, "wavelength");
    if !(polarization.Some? && polarization.value.Str?) then Err(PolarizationNotText)
    else
      var pol := Upper(polarization.value.s);
      if pol !in ["TE", "TM"] then Err(InvalidPolarization(pol))
      else match ValidWavelength(wavelength)
        case None => Err(InvalidWavelength)
        case Some(wl) =>
          match ChooseName(componentName, port.parentName)
          case None => Err(NoName)
          case Some(name) =>
            Ok(LabelText(pol, WavelengthNm(wl), username, CleanName(name)))
  }

  /** The checks fail in the source's order: polarization, then wavelength, then the name. */
  lemma GetInputLabelTextErrors(port: Port, gc: GratingRef, componentName: Option<string>, username: string)
    ensures var pol := Get(gc.info, "polarization");
      !(pol.Some? && pol.value.Str?) ==>
        GetInputLabelText(port, gc, componentName, username) == Err(PolarizationNotText)
    ensures var pol := Get(gc.info, "polarization");
      pol.Some? && pol.value.Str? && Upper(pol.value.s) !in ["TE", "TM"] ==>
        GetInputLabelText(port, gc, componentName, username) == Err(InvalidPolarization(Upper(pol.value.s)))
    ensures var pol := Get(gc.info, "polarization");
      pol.Some? && pol.value.Str? && Upper(pol.value.s) in ["TE", "TM"]
      && ValidWavelength(Get(gc.info, "wavelength")).None? ==>
        GetInputLabelText(port, gc, componentName, username) == Err(InvalidWavelength)
  {
  }

  /**
   * A label text can be read back: it starts "opt_in_", the upper-cased
   * polarization, "_", the four digits of the wavelength in nanometres and
   * "_device_", then the user name, "-" and the cleaned device name.
   */
  lemma LabelTextParts(pol: string, wavelength: real, username: string, name: string)
    requires |pol| == 2 && 1.0 < wavelength < 2.0
    ensures var t := LabelText(pol, WavelengthNm(wavelength), username, CleanName(name));
      && |t| == 22 + |username| + 1 + |name|
      && t[..7] == "opt_in_" && t[7..9] == pol && t[9] == '_'
      && IsDigits(t[10..14]) && ParseNat(t[10..14]) == WavelengthNm(wavelength)
      && t[14..22] == "_device_" && t[22..22 + |username|] == username
      && t[22 + |username|] == '-' && t[23 + |username|..] == CleanName(name)
      && '_' !in t[23 + |username|..]
  {
    var nm := WavelengthNm(wavelength);
    NatToStringFourDigits(nm);
    ParseNatToString(nm);
    CleanNameNoUnderscore(name);
    var t := LabelText(pol, nm, username, CleanName(name));
    assert t == "opt_in_" + pol + "_" + NatToString(nm) + "_device_" + username + "-" + CleanName(name);
    assert t[10..14] == NatToString(nm);
  }

  /**
   * A successful label text reads back as the upper-cased polarization, the
   * wavelength in nanometres, the user name and the cleaned device name, the
   * name being `componentName` when it is non-empty and the port parent's
   * otherwise.
   */
  lemma GetInputLabelTextReadsBack(port: Port, gc: GratingRef, componentName: Option<string>, username: string)
    requires GetInputLabelText(port, gc, componentName, username).Ok?
    ensures var t := GetInputLabelText(port, gc, componentName, username).value;
      var pol := Upper(gc.info["polarization"].s);
      var name := ChooseName(componentName, port.parentName).value;
      && gc.info["wavelength"].Float?
      && t[..7] == "opt_in_" && t[7..9] == pol && (pol == "TE" || pol == "TM")
      && IsDigits(t[10..14]) && ParseNat(t[10..14]) == WavelengthNm(gc.info["wavelength"].f)
      && 1000 <= ParseNat(t[10..14]) <= 1999
      && t[14..22] == "_device_" && t[22..22 + |username|] == username
      && t[22 + |username|] == '-' && t[23 + |username|..] == CleanName(name)
  {
    var wl := gc.info["wavelength"].f;
    LabelTextParts(Upper(gc.info["polarization"].s), wl, username, ChooseName(componentName, port.parentName).value);
    WavelengthNmRange(wl);
  }

  /** Python's `xs[i]` position for a list of length `n`: negative indices count from the end. */
  function PyIndex(n: nat, i: int): (r: Option<nat>)
    ensures r.Some? <==> -(n as int) <= i < n
    ensures r.Some? ==> r.value < n && r.value == if i >= 0 then i else n + i
  {
    if 0 <= i < n then Some(i) else if -(n as int) <= i < 0 then Some(n + i) else None
  }

  /**
   * get_input_labels: the grating at `portIndex`, the second ordered port,
   * its label text, and one label at the grating port `gcPortName`.
   */
  function GetInputLabels(ioGratings: seq<GratingRef>, orderedPorts: seq<Port>, componentName: string,
                          layerLabel: Layer, gcPortName: string, portIndex: int,
                          username: string): (r: Result<seq<Label>, Error>)
    ensures r.Ok? ==> |r.value| == 1 && r.value[0].layer == layerLabel
    ensures r.Ok? <==>
      && PyIndex(|ioGratings|, portIndex).Some? && |orderedPorts| >= 2
      && GetInputLabelText(orderedPorts[1], ioGratings[PyIndex(|ioGratings|, portIndex).value],
                           Some(componentName), username).Ok?
      && gcPortName in ioGratings[PyIndex(|ioGratings|, portIndex).value].ports
  {
    match PyIndex(|ioGratings|, portIndex)
    case None => Err(IndexOutOfRange(portIndex))
    case Some(g) =>
      var gc := ioGratings[g];
      if |orderedPorts| < 2 then Err(IndexOutOfRange(1))
      else
        var port := orderedPorts[1];
        match GetInputLabelText(port, gc, Some(componentName), username)
        case Err(e) => Err(e)
        case Ok(text) =>
          if gcPortName !in gc.ports then Err(NoPort(gcPortName))
          else Ok([Label(text, gc.ports[gcPortName].center, layerLabel)])
  }

  /**
   * On success the one label carries the text built for the second ordered
   * port and the chosen grating, and sits on that grating's port.
   */
  lemma GetInputLabelsPlacement(ioGratings: seq<GratingRef>, orderedPorts: seq<Port>, componentName: string,
                                layerLabel: Layer, gcPortName: string, portIndex: int, username: string)
    requires GetInputLabels(ioGratings, orderedPorts, componentName, layerLabel, gcPortName,
                            portIndex, username).Ok?
    ensures var gc := ioGratings[PyIndex(|ioGratings|, portIndex).value];
      var l := GetInputLabels(ioGratings, orderedPorts, componentName, layerLabel, gcPortName,
                              portIndex, username).value[0];
      && Ok(l.text) == GetInputLabelText(orderedPorts[1], gc, Some(componentName), username)
      && l.origin == gc.ports[gcPortName].center
  {
  }

  // ---------------------------------------------------------------------------
  // Electrical labels (add_label_electrical)
  // ---------------------------------------------------------------------------

  /**
   * add_label_electrical: fail when the port is missing, otherwise add one
   * text label at the port's center and hand back the same cell.
   */
  method AddLabelElectrical(component: Component, text: string, portName: string)
    returns (r: Result<Component, Error>)
    modifies component`labels
    ensures portName !in component.ports ==>
              r == Err(NoPort(portName)) && component.labels == old(component.labels)
    ensures portName in component.ports ==>
              && r == Ok(component)
              && component.labels == old(component.labels) + [Label(text, component.ports[portName].center, TEXT)]
  {
    if portName !in component.ports {
      return Err(NoPort(portName));
    }
    component.labels := component.labels + [Label(text, component.ports[portName].center, TEXT)];
    r := Ok(component);
  }
}
