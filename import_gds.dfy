/**
 * ubcpdk/import_gds.py: the orientation heuristic, pin stripping, and the
 * pass that turns SiEPIC pins (marker paths next to text labels) into ports.
 */
module ImportGds {
  import opened Wrappers
  import opened Layout

  // ---------------------------------------------------------------------------
  // Orientation heuristic (guess_port_orientaton)
  // ---------------------------------------------------------------------------

  /** Python's `sub in s` for strings: `sub` occurs in `s` as a contiguous piece. */
  predicate Contains(s: string, sub: string)
    ensures Contains(s, sub) ==> |sub| <= |s|
    decreases |s|
  {
    sub <= s || (|s| > 0 && Contains(s[1..], sub))
  }

  /** `sub` sits in `s` starting at index `i`. */
  predicate OccursAt(s: string, sub: string, i: int)
  {
    0 <= i && i + |sub| <= |s| && s[i..i + |sub|] == sub
  }

  /** `Contains` holds exactly when `sub` occurs at some index of `s`. */
  lemma {:induction false} ContainsOccurs(s: string, sub: string)
    ensures Contains(s, sub) <==> exists i :: OccursAt(s, sub, i)
    decreases |s|
  {
    if sub <= s {
      assert OccursAt(s, sub, 0);
    } else if |s| > 0 {
      ContainsOccurs(s[1..], sub);
      forall j | OccursAt(s[1..], sub, j)
        ensures OccursAt(s, sub, j + 1)
      {
        assert s[j + 1..j + 1 + |sub|] == s[1..][j..j + |sub|];
      }
      forall i | OccursAt(s, sub, i)
        ensures OccursAt(s[1..], sub, i - 1)
      {
        assert i != 0;
        assert s[1..][i - 1..i - 1 + |sub|] == s[i..i + |sub|];
      }
    }
  }

  /**
   * A first-match-wins table from a port's position, the cell name, the port
   * label and the number of ports to an orientation in degrees.
   */
  function GuessPortOrientation(position: Point, name: string, portLabel: string, n: int): (r: int)
    ensures r in {0, 90, 180, 270}
  {
    if Contains(name, "gc") then 0
    else if portLabel == "opt1" then 180
    else if position.y > 0.0 && Contains(name, "crossing") then 90
    else if position.y < 0.0 && Contains(name, "crossing") then 270
    else if n == 4 && portLabel in {"opt1", "opt2"} then 180
    else if n == 4 && portLabel in {"opt3", "opt4"} then 0
    else if position.x <= 0.0 then 180
    else 0
  }

  /** A grating-coupler cell name decides the orientation whatever else holds. */
  lemma GratingCouplerFirst(position: Point, name: string, portLabel: string, n: int)
    requires Contains(name, "gc")
    ensures GuessPortOrientation(position, name, portLabel, n) == 0
  {
  }

  /** Otherwise label "opt1" gives 180, even for crossings and four-port cells. */
  lemma Opt1Second(position: Point, name: string, n: int)
    requires !Contains(name, "gc")
    ensures GuessPortOrientation(position, name, "opt1", n) == 180
  {
  }

  /** Otherwise a crossing port points up above the axis and down below it. */
  lemma CrossingThird(position: Point, name: string, portLabel: string, n: int)
    requires !Contains(name, "gc") && portLabel != "opt1" && Contains(name, "crossing")
    ensures position.y > 0.0 ==> GuessPortOrientation(position, name, portLabel, n) == 90
    ensures position.y < 0.0 ==> GuessPortOrientation(position, name, portLabel, n) == 270
  {
  }

  /** On the axis (y == 0) the crossing marker has no effect: the rule falls through. */
  lemma CrossingOnAxisFallsThrough(position: Point, name: string, portLabel: string, n: int)
    requires !Contains(name, "gc") && position.y == 0.0
    ensures GuessPortOrientation(position, name, portLabel, n) == GuessPortOrientation(position, "", portLabel, n)
  {
    assert !Contains("", "gc") by { assert !("gc" <= ""); }
  }

  /**
   * With no earlier rule firing (no "gc", and no crossing off the axis), a
   * four-port cell maps opt2 to 180 and opt3, opt4 to 0.
   */
  lemma FourPortFourth(position: Point, name: string, portLabel: string)
    requires !Contains(name, "gc") && portLabel in {"opt2", "opt3", "opt4"}
    requires !Contains(name, "crossing") || position.y == 0.0
    ensures GuessPortOrientation(position, name, portLabel, 4) == if portLabel == "opt2" then 180 else 0
  {
  }

  /** The final fallback: 180 exactly when x <= 0, else 0. */
  lemma FallbackLast(position: Point, name: string, portLabel: string, n: int)
    requires !Contains(name, "gc") && !Contains(name, "crossing") && portLabel != "opt1"
    requires !(n == 4 && portLabel in {"opt2", "opt3", "opt4"})
    ensures GuessPortOrientation(position, name, portLabel, n) == (if position.x <= 0.0 then 180 else 0)
  {
  }

  // ---------------------------------------------------------------------------
  // Pin stripping (remove_pins, remove_pins_recursive)
  // ---------------------------------------------------------------------------

  /** The layers remove_pins deletes: device recognition and the two pin layers. */
  const MarkerLayers: set<Layer> := {DEVREC, PORT, PORTE}

  /** The polygons not on any of `layers`, in their original order. */
  function RemoveLayers(polygons: seq<Polygon>, layers: set<Layer>): (r: seq<Polygon>)
    ensures |r| <= |polygons|
    ensures forall i :: 0 <= i < |r| ==> r[i].layer !in layers
  {
    if polygons == [] then []
    else if polygons[0].layer in layers then RemoveLayers(polygons[1..], layers)
    else [polygons[0]] + RemoveLayers(polygons[1..], layers)
  }

  /** The polygons on layer `l`, in order. */
  function OnLayer(polygons: seq<Polygon>, l: Layer): (r: seq<Polygon>)
    ensures forall i :: 0 <= i < |r| ==> r[i].layer == l
  {
    if polygons == [] then []
    else if polygons[0].layer == l then [polygons[0]] + OnLayer(polygons[1..], l)
    else OnLayer(polygons[1..], l)
  }

  /** Removing layers leaves the polygons of every other layer exactly as they were. */
  lemma {:induction false} RemoveLayersKeepsOthers(polygons: seq<Polygon>, layers: set<Layer>, l: Layer)
    requires l !in layers
    ensures OnLayer(RemoveLayers(polygons, layers), l) == OnLayer(polygons, l)
  {
    if polygons != [] {
      RemoveLayersKeepsOthers(polygons[1..], layers, l);
      if polygons[0].layer !in layers {
        assert ([polygons[0]] + RemoveLayers(polygons[1..], layers))[1..] == RemoveLayers(polygons[1..], layers);
      }
    }
  }

  /** Removing the same layers twice is removing them once. */
  lemma {:induction false} RemoveLayersIdempotent(polygons: seq<Polygon>, layers: set<Layer>)
    ensures RemoveLayers(RemoveLayers(polygons, layers), layers) == RemoveLayers(polygons, layers)
  {
    if polygons != [] {
      RemoveLayersIdempotent(polygons[1..], layers);
      if polygons[0].layer !in layers {
        assert ([polygons[0]] + RemoveLayers(polygons[1..], layers))[1..] == RemoveLayers(polygons[1..], layers);
      }
    }
  }

  /** A cell without marker paths and without polygons on the marker layers. */
  ghost predicate PinFree(c: Component)
    reads c`polygons, c`paths
  {
    c.paths == [] && forall i :: 0 <= i < |c.polygons| ==> c.polygons[i].layer !in MarkerLayers
  }

  /** remove_pins: drop the marker layers, clear the paths, invalidate the bounding box. */
  method RemovePins(component: Component) returns (r: Component)
    modifies component`polygons, component`paths, component`bbValid
    ensures r == component
    ensures component.polygons == RemoveLayers(old(component.polygons), MarkerLayers)
    ensures component.paths == [] && !component.bbValid
    ensures PinFree(component)
  {
    component.polygons := RemoveLayers(component.polygons, MarkerLayers);
    component.paths := [];
    component.bbValid := false;
    r := component;
  }

  /**
   * What the reference loop of remove_pins_recursive has achieved so far:
   * the cells in `done` are stripped, every other reachable cell still has the
   * polygons it started with (`orig`).
   */
  ghost predicate StripProgress(component: Component, done: set<Component>, orig: map<Component, seq<Polygon>>)
    reads component.Cells()`polygons, component.Cells()`paths, component.Cells()`bbValid
  {
    && done <= component.Cells() && component.Cells() <= orig.Keys
    && (forall c :: c in done ==>
          c.polygons == RemoveLayers(orig[c], MarkerLayers) && c.paths == [] && !c.bbValid)
    && (forall c :: c in component.Cells() && c !in done ==> c.polygons == orig[c])
  }

  /**
   * remove_pins_recursive: strip the cell, then every reference's parent, each
   * by a recursive call whose result is put back into the reference. Shared
   * cells are stripped once per path that reaches them.
   */
  method RemovePinsRecursive(component: Component, ghost refs: set<Reference>) returns (r: Component)
    requires component.Valid() && component.Wired(refs)
    modifies component.Cells()`polygons, component.Cells()`paths, component.Cells()`bbValid
    modifies refs`parent
    decreases component.below, 1
    ensures r == component
    ensures component.Wired(refs)
    ensures forall rf :: rf in refs ==> rf.parent == old(rf.parent)
    ensures forall c :: c in component.Cells() ==>
              && c.polygons == RemoveLayers(old(c.polygons), MarkerLayers)
              && c.paths == [] && !c.bbValid
    ensures forall c :: c in component.Cells() ==> PinFree(c)
  {
    ghost var orig := map c | c in component.Cells() :: c.polygons;
    r := RemovePins(component);
    var i := 0;
    assert component.children[..0] == [];
    while i < |component.references|
      invariant 0 <= i <= |component.references|
      invariant component.Wired(refs)
      invariant forall rf :: rf in refs ==> rf.parent == old(rf.parent)
      invariant StripProgress(component, Visited(component, i), orig)
    {
      ChildValid(component, i);
      WiredChild(component, refs, i);
      var rcell := component.references[i].parent;
      var stripped := StripChild(component, rcell, refs, i, orig);
      Reattach(component, refs, i, stripped, Visited(component, i + 1), orig);
      i := i + 1;
    }
    assert component.children[..i] == component.children;
  }

  /** The cells the reference loop has stripped once `i` references are done. */
  ghost function Visited(component: Component, i: nat): set<Component>
    requires i <= |component.children|
  {
    {component} + Reachable(component.children[..i])
  }

  /** What the reference loop needs to know about the `i`th child of a valid cell. */
  lemma ChildValid(component: Component, i: nat)
    requires component.Valid() && i < |component.children|
    ensures component.children[i].Valid() && component.children[i].below < component.below
    ensures component.children[i].Cells() <= component.Cells()
    ensures Visited(component, i) <= component.Cells()
    ensures Visited(component, i + 1) == Visited(component, i) + component.children[i].Cells()
  {
    ReachableContains(component.children, i);
    ReachablePrefix(component.children, i);
    ReachableMono(component.children, i);
  }

  /** A wired cell's `i`th reference instances its `i`th child, whose own subgraph is wired. */
  lemma WiredChild(component: Component, refs: set<Reference>, i: nat)
    requires component.Valid() && component.Wired(refs) && i < |component.references|
    ensures i < |component.children| && component.references[i].parent == component.children[i]
    ensures component.children[i].Wired(refs)
  {
    ChildValid(component, i);
  }

  /** `ref.parent = p` where `p` is the cell the reference already instances. */
  method Reattach(component: Component, ghost refs: set<Reference>, i: nat, p: Component,
                  ghost done: set<Component>, ghost orig: map<Component, seq<Polygon>>)
    requires component.Wired(refs)
    requires i < |component.references| && component.references[i].parent == p
    requires StripProgress(component, done, orig)
    modifies {component.references[i]}`parent
    ensures component.Wired(refs)
    ensures forall rf :: rf in refs ==> rf.parent == old(rf.parent)
    ensures StripProgress(component, done, orig)
  {
    component.references[i].parent := p;
  }

  /**
   * Stripping the subtree of `rcell`, whose polygons were `pre` just before,
   * extends the stripped set by that subtree.
   */
  lemma StripStep(component: Component, rcell: Component, done: set<Component>,
                  orig: map<Component, seq<Polygon>>, pre: map<Component, seq<Polygon>>)
    requires rcell.Cells() <= component.Cells() && done <= component.Cells()
    requires component.Cells() <= orig.Keys && component.Cells() <= pre.Keys
    requires forall c :: c in done ==> pre[c] == RemoveLayers(orig[c], MarkerLayers)
    requires forall c :: c in component.Cells() && c !in done ==> pre[c] == orig[c]
    requires forall c :: c in rcell.Cells() ==>
               c.polygons == RemoveLayers(pre[c], MarkerLayers) && c.paths == [] && !c.bbValid
    requires forall c :: c in component.Cells() && c !in rcell.Cells() ==> c.polygons == pre[c]
    requires forall c :: c in done && c !in rcell.Cells() ==> c.paths == [] && !c.bbValid
    ensures StripProgress(component, done + rcell.Cells(), orig)
  {
    forall c | c in rcell.Cells() && c in done
      ensures c.polygons == RemoveLayers(orig[c], MarkerLayers)
    {
      RemoveLayersIdempotent(orig[c], MarkerLayers);
    }
  }

  /** The recursive call of one turn of the reference loop, on the `i`th child. */
  method StripChild(component: Component, rcell: Component, ghost refs: set<Reference>, ghost i: nat,
                    ghost orig: map<Component, seq<Polygon>>)
    returns (stripped: Component)
    requires i < |component.children| && rcell == component.children[i]
    requires component.children[i].Valid() && component.children[i].below < component.below
    requires component.children[i].Cells() <= component.Cells()
    requires component.children[i].Wired(refs)
    requires Visited(component, i) <= component.Cells()
    requires Visited(component, i + 1) == Visited(component, i) + rcell.Cells()
    requires StripProgress(component, Visited(component, i), orig)
    modifies component.Cells()`polygons, component.Cells()`paths, component.Cells()`bbValid
    modifies refs`parent
    decreases component.below, 0
    ensures stripped == rcell
    ensures forall rf :: rf in refs ==> rf.parent == old(rf.parent)
    ensures StripProgress(component, Visited(component, i + 1), orig)
  {
    ghost var pre := map c | c in component.Cells() :: c.polygons;
    stripped := RemovePinsRecursive(rcell, refs);
    StripStep(component, rcell, Visited(component, i), orig, pre);
  }

  // ---------------------------------------------------------------------------
  // Pin-to-port annotation (add_ports_from_siepic_pins)
  // ---------------------------------------------------------------------------

  /** A label belongs to a pin when its origin is close to the pin's midpoint or to either end. */
  predicate Matches(l: Label, p1: Point, p2: Point)
    ensures l.origin == Midpoint(p1, p2) || l.origin == p1 || l.origin == p2 ==> Matches(l, p1, p2)
  {
    Close(l.origin, Midpoint(p1, p2)) || Close(l.origin, p1) || Close(l.origin, p2)
  }

  /** What one scan of the label pool leaves in the pool and what it pops, in order. */
  datatype Sweep = Sweep(kept: seq<Label>, taken: seq<Label>)

  /**
   * The `enumerate` loop over the pool from index `j` on, popping every
   * matching label while the index keeps advancing: the label that moves into
   * a popped slot is never looked at.
   */
  function SweepFrom(pool: seq<Label>, j: nat, p1: Point, p2: Point): (s: Sweep)
    ensures |s.kept| + |s.taken| == |pool|
    ensures forall k :: 0 <= k < |s.taken| ==> Matches(s.taken[k], p1, p2)
    decreases |pool|, |pool| - j
  {
    if j >= |pool| then Sweep(pool, [])
    else if Matches(pool[j], p1, p2) then
      var s := SweepFrom(pool[..j] + pool[j + 1..], j + 1, p1, p2);
      Sweep(s.kept, [pool[j]] + s.taken)
    else SweepFrom(pool, j + 1, p1, p2)
  }

  /** No label is lost or invented: the kept and the popped labels make up the pool. */
  lemma {:induction false} SweepConserves(pool: seq<Label>, j: nat, p1: Point, p2: Point)
    ensures multiset(SweepFrom(pool, j, p1, p2).kept) + multiset(SweepFrom(pool, j, p1, p2).taken)
         == multiset(pool)
    decreases |pool|, |pool| - j
  {
    if j < |pool| {
      if Matches(pool[j], p1, p2) {
        var rest := pool[..j] + pool[j + 1..];
        SweepConserves(rest, j + 1, p1, p2);
        RemoveAtConserves(pool, j);
        var s := SweepFrom(rest, j + 1, p1, p2);
        assert SweepFrom(pool, j, p1, p2) == Sweep(s.kept, [pool[j]] + s.taken);
      } else {
        SweepConserves(pool, j + 1, p1, p2);
      }
    }
  }

  /** Popping the label at `j` leaves the others. */
  lemma RemoveAtConserves(pool: seq<Label>, j: nat)
    requires j < |pool|
    ensures multiset(pool[..j] + pool[j + 1..]) + multiset{pool[j]} == multiset(pool)
  {
    assert pool == pool[..j] + [pool[j]] + pool[j + 1..];
  }

  /** Nothing is popped exactly when no label from `j` on matches; the pool is then untouched. */
  lemma {:induction false} SweepEmpty(pool: seq<Label>, j: nat, p1: Point, p2: Point)
    ensures SweepFrom(pool, j, p1, p2).taken == []
        <==> forall k :: j <= k < |pool| ==> !Matches(pool[k], p1, p2)
    ensures SweepFrom(pool, j, p1, p2).taken == [] ==> SweepFrom(pool, j, p1, p2).kept == pool
    decreases |pool| - j
  {
    if j < |pool| && !Matches(pool[j], p1, p2) {
      SweepEmpty(pool, j + 1, p1, p2);
    }
  }

  /** Two adjacent matching labels: the first is popped and the second is skipped. */
  lemma SweepSkipsNeighbour(a: Label, b: Label, p1: Point, p2: Point)
    requires Matches(a, p1, p2) && Matches(b, p1, p2)
    ensures SweepFrom([a, b], 0, p1, p2) == Sweep([b], [a])
  {
    assert [a, b][..0] + [a, b][1..] == [b];
  }

  /** With a non-matching label in between, both matches are popped and the later one is last. */
  lemma SweepLastMatchWins(a: Label, x: Label, c: Label, p1: Point, p2: Point)
    requires Matches(a, p1, p2) && !Matches(x, p1, p2) && Matches(c, p1, p2)
    ensures SweepFrom([a, x, c], 0, p1, p2) == Sweep([x], [a, c])
  {
    assert [a, x, c][..0] + [a, x, c][1..] == [x, c];
    assert [x, c][..1] + [x, c][2..] == [x];
    assert SweepFrom([x, c], 1, p1, p2) == Sweep([x], [c]);
  }

  /** A pin layer and the port layer configured for it. */
  datatype PinConfig = PinConfig(pinOptical: Layer, portOptical: Option<Layer>,
                                 pinElectrical: Layer, portElectrical: Option<Layer>)

  /** The layers the PDK binds: optical pins on PORT become WG ports, electrical pins on PORTE. */
  const DefaultPins := PinConfig(PORT, Some(WG), PORTE, None)

  /** The kind of port a pin makes and the layer the port is put on. */
  datatype PinKind = PinKind(portType: PortType, layer: Layer)

  /**
   * Optical when the path is on the optical pin layer, else electrical when it
   * is on the electrical one, else neither; the port layer falls back to the pin layer.
   */
  function Classify(path: Path, cfg: PinConfig): (r: Option<PinKind>)
    ensures cfg.pinOptical in path.layers ==> r == Some(PinKind(Optical, cfg.portOptical.GetOr(cfg.pinOptical)))
    ensures cfg.pinOptical !in path.layers && cfg.pinElectrical in path.layers ==>
              r == Some(PinKind(Electrical, cfg.portElectrical.GetOr(cfg.pinElectrical)))
    ensures r.None? <==> cfg.pinOptical !in path.layers && cfg.pinElectrical !in path.layers
  {
    if cfg.pinOptical in path.layers then Some(PinKind(Optical, cfg.portOptical.GetOr(cfg.pinOptical)))
    else if cfg.pinElectrical in path.layers then Some(PinKind(Electrical, cfg.portElectrical.GetOr(cfg.pinElectrical)))
    else None
  }

  /**
   * Under the PDK's binding a pin on PORT becomes an optical port on WG, and a
   * pin on PORTE alone an electrical port on PORTE itself.
   */
  lemma ClassifyDefaultPins(path: Path)
    ensures PORT in path.layers ==> Classify(path, DefaultPins) == Some(PinKind(Optical, WG))
    ensures PORT !in path.layers && PORTE in path.layers ==>
              Classify(path, DefaultPins) == Some(PinKind(Electrical, PORTE))
    ensures PORT !in path.layers && PORTE !in path.layers ==> Classify(path, DefaultPins) == None
  {
  }

  /** `base` followed by `k` copies of "_1". */
  function Suffixed(base: string, k: nat): (r: string)
    ensures |r| == |base| + 2 * k
    ensures r[..|base|] == base
  {
    if k == 0 then base else Suffixed(base, k - 1) + "_1"
  }

  /** The least `n >= k` for which `Suffixed(base, n)` is not a port name yet. */
  function FreshSuffix(base: string, ports: map<string, Port>, k: nat): (n: nat)
    ensures k <= n && Suffixed(base, n) !in ports
    ensures forall m :: k <= m < n ==> Suffixed(base, m) in ports
    decreases set s | s in ports && |s| >= |Suffixed(base, k)|
  {
    if Suffixed(base, k) !in ports then k
    else
      ghost var longer := set s | s in ports && |s| >= |Suffixed(base, k + 1)|;
      ghost var long := set s | s in ports && |s| >= |Suffixed(base, k)|;
      assert longer <= long && Suffixed(base, k) in long - longer;
      FreshSuffix(base, ports, k + 1)
  }

  /** The name the dedup loop settles on: the label text with the fewest "_1"s that is free. */
  function FreshName(base: string, ports: map<string, Port>): (r: string)
    ensures r !in ports
  {
    Suffixed(base, FreshSuffix(base, ports, 0))
  }

  /** The port a pin makes. */
  function NewPort(name: string, path: Path, kind: PinKind, angle: (Point, Point) -> int,
                   owner: Option<string>): (p: Port)
    ensures p.name == name && p.center == Midpoint(path.p1, path.p2) && p.width == path.width
    ensures p.orientation == angle(path.p1, path.p2)
    ensures p.layer == kind.layer && p.portType == kind.portType && p.parentName == owner
  {
    Port(name, Midpoint(path.p1, path.p2), path.width, angle(path.p1, path.p2), kind.layer, kind.portType, owner)
  }

  /**
   * The state of the annotation pass: the label pool, the port map, and (as
   * bookkeeping) every label popped so far and every label that named a port.
   */
  datatype Annotation = Annotation(pool: seq<Label>, ports: map<string, Port>,
                                   taken: seq<Label>, named: seq<Label>)

  /** One turn of the path loop. */
  function Step(a: Annotation, path: Path, cfg: PinConfig, angle: (Point, Point) -> int, owner: Option<string>): (r: Annotation)
    ensures |r.pool| <= |a.pool| && |r.pool| + |r.taken| == |a.pool| + |a.taken|
  {
    var s := SweepFrom(a.pool, 0, path.p1, path.p2);
    var swept := a.(pool := s.kept, taken := a.taken + s.taken);
    if s.taken == [] then swept
    else match Classify(path, cfg)
      case None => swept
      case Some(kind) =>
        var last := s.taken[|s.taken| - 1];
        var name := FreshName(last.text, a.ports);
        swept.(ports := a.ports[name := NewPort(name, path, kind, angle, owner)], named := a.named + [last])
  }

  /** The pass over `paths`, in order, from state `a`. */
  function Annotate(paths: seq<Path>, a: Annotation, cfg: PinConfig, angle: (Point, Point) -> int, owner: Option<string>): (r: Annotation)
    ensures |r.pool| <= |a.pool| && |r.pool| + |r.taken| == |a.pool| + |a.taken|
    decreases |paths|
  {
    if paths == [] then a
    else Step(Annotate(paths[..|paths| - 1], a, cfg, angle, owner), paths[|paths| - 1], cfg, angle, owner)
  }

  /** A name that is not taken is used as it is. */
  lemma FreshNameUnused(base: string, ports: map<string, Port>)
    requires base !in ports
    ensures FreshName(base, ports) == base
  {
  }

  /** The dedup loop appends the fewest "_1"s that make the name free, and no fewer. */
  lemma FreshNameFewest(base: string, ports: map<string, Port>, n: nat)
    requires Suffixed(base, n) !in ports
    requires forall m :: 0 <= m < n ==> Suffixed(base, m) in ports
    ensures FreshName(base, ports) == Suffixed(base, n)
  {
    var f := FreshSuffix(base, ports, 0);
    if f < n {
      assert false;
    } else if n < f {
      assert false;
    }
  }

  /**
   * The suffix counter never advances: with "o1" and "o1_1" taken the third
   * "o1" becomes "o1_1_1", not "o1_2".
   */
  lemma FreshNameRepeatsSuffix(ports: map<string, Port>)
    requires "o1" in ports && "o1_1" in ports && "o1_1_1" !in ports
    ensures FreshName("o1", ports) == "o1_1_1"
  {
    assert Suffixed("o1", 1) == "o1_1";
    assert Suffixed("o1", 2) == "o1_1_1";
    FreshNameFewest("o1", ports, 2);
  }

  /** One path turn pops labels but never loses one. */
  lemma StepConserves(a: Annotation, path: Path, cfg: PinConfig, angle: (Point, Point) -> int, owner: Option<string>)
    ensures var b := Step(a, path, cfg, angle, owner);
      multiset(b.pool) + multiset(b.taken) == multiset(a.pool) + multiset(a.taken)
  {
    SweepConserves(a.pool, 0, path.p1, path.p2);
  }

  /** One path turn keeps every existing port and adds at most one, named by the label it records. */
  lemma StepPorts(a: Annotation, path: Path, cfg: PinConfig, angle: (Point, Point) -> int, owner: Option<string>)
    ensures var b := Step(a, path, cfg, angle, owner);
      && (forall k :: k in a.ports ==> k in b.ports && b.ports[k] == a.ports[k])
      && |a.named| <= |b.named| <= |a.named| + 1
      && |b.ports| == |a.ports| + (|b.named| - |a.named|)
  {
    var s := SweepFrom(a.pool, 0, path.p1, path.p2);
    var b := Step(a, path, cfg, angle, owner);
    if s.taken != [] && Classify(path, cfg).Some? {
      var name := FreshName(s.taken[|s.taken| - 1].text, a.ports);
      assert name !in a.ports && b.ports.Keys == a.ports.Keys + {name};
    }
  }

  /** A label that names a port in a path turn is one that turn popped. */
  lemma StepNamesPopped(a: Annotation, path: Path, cfg: PinConfig, angle: (Point, Point) -> int, owner: Option<string>)
    requires multiset(a.named) <= multiset(a.taken)
    ensures var b := Step(a, path, cfg, angle, owner);
      multiset(b.named) <= multiset(b.taken)
  {
    var s := SweepFrom(a.pool, 0, path.p1, path.p2);
    var b := Step(a, path, cfg, angle, owner);
    assert multiset(b.taken) == multiset(a.taken) + multiset(s.taken);
    if s.taken != [] && Classify(path, cfg).Some? {
      var last := s.taken[|s.taken| - 1];
      assert b.named == a.named + [last];
      assert last in s.taken;
    }
  }

  /** A path with no label close to it changes nothing. */
  lemma StepNoLabel(a: Annotation, path: Path, cfg: PinConfig, angle: (Point, Point) -> int, owner: Option<string>)
    requires forall k :: 0 <= k < |a.pool| ==> !Matches(a.pool[k], path.p1, path.p2)
    ensures Step(a, path, cfg, angle, owner) == a
  {
    SweepEmpty(a.pool, 0, path.p1, path.p2);
  }

  /**
   * A path on neither pin layer adds no port, yet the labels close to it
   * leave the pool all the same.
   */
  lemma StepNeitherLayer(a: Annotation, path: Path, cfg: PinConfig, angle: (Point, Point) -> int, owner: Option<string>, k: nat)
    requires cfg.pinOptical !in path.layers && cfg.pinElectrical !in path.layers
    requires k < |a.pool| && Matches(a.pool[k], path.p1, path.p2)
    ensures Step(a, path, cfg, angle, owner).ports == a.ports
    ensures |Step(a, path, cfg, angle, owner).pool| < |a.pool|
  {
    SweepEmpty(a.pool, 0, path.p1, path.p2);
  }

  /**
   * A labelled path on a pin layer adds exactly one port: under a fresh name,
   * at the path's midpoint, with the path's width, the angle of its spine, and
   * the classified type and layer.
   */
  lemma StepAddsPort(a: Annotation, path: Path, cfg: PinConfig, angle: (Point, Point) -> int, owner: Option<string>, k: nat)
    requires cfg.pinOptical in path.layers || cfg.pinElectrical in path.layers
    requires k < |a.pool| && Matches(a.pool[k], path.p1, path.p2)
    ensures var b := Step(a, path, cfg, angle, owner);
      && |b.named| == |a.named| + 1
      && var name := FreshName(b.named[|a.named|].text, a.ports);
      && name !in a.ports && b.ports.Keys == a.ports.Keys + {name}
      && b.ports[name].name == name
      && b.ports[name].center == Midpoint(path.p1, path.p2)
      && b.ports[name].width == path.width
      && b.ports[name].orientation == angle(path.p1, path.p2)
      && Some(PinKind(b.ports[name].portType, b.ports[name].layer)) == Classify(path, cfg)
  {
    SweepEmpty(a.pool, 0, path.p1, path.p2);
  }

  /** A port added by a path turn is stored under its own name. */
  lemma StepKeysAreNames(a: Annotation, path: Path, cfg: PinConfig, angle: (Point, Point) -> int, owner: Option<string>)
    requires forall k :: k in a.ports ==> a.ports[k].name == k
    ensures var b := Step(a, path, cfg, angle, owner);
      forall k :: k in b.ports ==> b.ports[k].name == k
  {
  }

  /** Over the whole pass no label is lost or invented. */
  lemma {:induction false} AnnotateConserves(paths: seq<Path>, a: Annotation, cfg: PinConfig,
                                             angle: (Point, Point) -> int, owner: Option<string>)
    ensures var b := Annotate(paths, a, cfg, angle, owner);
      multiset(b.pool) + multiset(b.taken) == multiset(a.pool) + multiset(a.taken)
    decreases |paths|
  {
    if paths != [] {
      AnnotateConserves(paths[..|paths| - 1], a, cfg, angle, owner);
      StepConserves(Annotate(paths[..|paths| - 1], a, cfg, angle, owner), paths[|paths| - 1], cfg, angle, owner);
    }
  }

  /**
   * Over the whole pass every existing port survives, each path adds at most
   * one port, and every port-naming label was popped.
   */
  lemma {:induction false} AnnotatePorts(paths: seq<Path>, a: Annotation, cfg: PinConfig,
                                         angle: (Point, Point) -> int, owner: Option<string>)
    requires multiset(a.named) <= multiset(a.taken)
    ensures var b := Annotate(paths, a, cfg, angle, owner);
      && (forall k :: k in a.ports ==> k in b.ports && b.ports[k] == a.ports[k])
      && |a.named| <= |b.named| <= |a.named| + |paths|
      && |b.ports| == |a.ports| + (|b.named| - |a.named|)
      && multiset(b.named) <= multiset(b.taken)
    decreases |paths|
  {
    if paths != [] {
      AnnotatePorts(paths[..|paths| - 1], a, cfg, angle, owner);
      StepPorts(Annotate(paths[..|paths| - 1], a, cfg, angle, owner), paths[|paths| - 1], cfg, angle, owner);
      StepNamesPopped(Annotate(paths[..|paths| - 1], a, cfg, angle, owner), paths[|paths| - 1], cfg, angle, owner);
    }
  }

  /** Each port is stored under its own name, before and after the pass. */
  lemma {:induction false} AnnotateKeysAreNames(paths: seq<Path>, a: Annotation, cfg: PinConfig,
                                                angle: (Point, Point) -> int, owner: Option<string>)
    requires forall k :: k in a.ports ==> a.ports[k].name == k
    ensures forall k :: k in Annotate(paths, a, cfg, angle, owner).ports ==>
              Annotate(paths, a, cfg, angle, owner).ports[k].name == k
    decreases |paths|
  {
    if paths != [] {
      var prev := Annotate(paths[..|paths| - 1], a, cfg, angle, owner);
      AnnotateKeysAreNames(paths[..|paths| - 1], a, cfg, angle, owner);
      assert forall k :: k in prev.ports ==> prev.ports[k].name == k;
      StepKeysAreNames(prev, paths[|paths| - 1], cfg, angle, owner);
    }
  }

  /**
   * Started on a cell's labels: the labels that name ports are distinct
   * members of the cell's labels (none names two ports), the ports added are
   * at most the paths scanned, and the pool ends as a sub-multiset of the labels.
   */
  lemma AnnotateFromLabels(paths: seq<Path>, labels: seq<Label>, ports: map<string, Port>,
                           cfg: PinConfig, angle: (Point, Point) -> int, owner: Option<string>)
    ensures var b := Annotate(paths, Annotation(labels, ports, [], []), cfg, angle, owner);
      && multiset(b.named) <= multiset(labels)
      && multiset(b.pool) + multiset(b.taken) == multiset(labels)
      && |ports| <= |b.ports| <= |ports| + |paths|
  {
    var b := Annotate(paths, Annotation(labels, ports, [], []), cfg, angle, owner);
    AnnotateConserves(paths, Annotation(labels, ports, [], []), cfg, angle, owner);
    AnnotatePorts(paths, Annotation(labels, ports, [], []), cfg, angle, owner);
    assert multiset(b.taken) <= multiset(b.pool) + multiset(b.taken);
  }

  /**
   * The label loop of one path: pop every label matching the pin from the
   * pool, walking it with `enumerate`, and keep the last one popped.
   */
  method PopMatches(labels: seq<Label>, p1: Point, p2: Point) returns (pool: seq<Label>, found: Option<Label>)
    ensures pool == SweepFrom(labels, 0, p1, p2).kept
    ensures var taken := SweepFrom(labels, 0, p1, p2).taken;
      found == if taken == [] then None else Some(taken[|taken| - 1])
  {
    pool := labels;
    found := None;
    ghost var popped: seq<Label> := [];
    var i := 0;
    while i < |pool|
      invariant i <= |pool| + 1
      invariant SweepFrom(labels, 0, p1, p2)
             == Sweep(SweepFrom(pool, i, p1, p2).kept, popped + SweepFrom(pool, i, p1, p2).taken)
      invariant found == if popped == [] then None else Some(popped[|popped| - 1])
      decreases |pool| + 1 - i
    {
      if Matches(pool[i], p1, p2) {
        found := Some(pool[i]);
        ghost var rest := SweepFrom(pool[..i] + pool[i + 1..], i + 1, p1, p2).taken;
        assert popped + ([pool[i]] + rest) == (popped + [pool[i]]) + rest;
        popped := popped + [pool[i]];
        pool := pool[..i] + pool[i + 1..];
      }
      i := i + 1;
    }
  }

  /** The dedup loop: append "_1" to the label text until no port has that name. */
  method DedupName(text: string, ports: map<string, Port>) returns (portName: string)
    ensures portName == FreshName(text, ports)
  {
    portName := text;
    ghost var n := 0;
    while portName in ports
      invariant portName == Suffixed(text, n)
      invariant FreshSuffix(text, ports, n) == FreshSuffix(text, ports, 0)
      decreases set s | s in ports && |s| >= |portName|
    {
      ghost var long := set s | s in ports && |s| >= |portName|;
      ghost var used := portName;
      portName := portName + "_1";
      n := n + 1;
      assert (set s | s in ports && |s| >= |portName|) <= long;
      assert used in long && used !in set s | s in ports && |s| >= |portName|;
    }
  }

  /** One pass of the outer loop: pop the labels next to `path`, then add its port if it earns one. */
  method AnnotatePath(c: Component, pool: seq<Label>, path: Path, cfg: PinConfig, angle: (Point, Point) -> int,
                      owner: Option<string>, ghost taken: seq<Label>, ghost named: seq<Label>)
    returns (rest: seq<Label>, ghost taken': seq<Label>, ghost named': seq<Label>)
    modifies c`ports
    ensures Annotation(rest, c.ports, taken', named')
         == Step(Annotation(pool, old(c.ports), taken, named), path, cfg, angle, owner)
  {
    ghost var before := Annotation(pool, c.ports, taken, named);
    var found;
    rest, found := PopMatches(pool, path.p1, path.p2);
    taken' := taken + SweepFrom(pool, 0, path.p1, path.p2).taken;
    named' := named;
    if found.Some? {
      var kind := Classify(path, cfg);
      if kind.Some? {
        var portName := DedupName(found.value.text, c.ports);
        c.ports := c.ports[portName := NewPort(portName, path, kind.value, angle, owner)];
        named' := named + [found.value];
      }
    }
  }

  /**
   * add_ports_from_siepic_pins, up to the final renaming: scan the marker
   * paths in order, pop the labels next to each from a copy of the cell's
   * labels, and add a port for each labelled pin on a pin layer.
   */
  method AddPortsFromSiepicPins(component: Component, cfg: PinConfig, angle: (Point, Point) -> int)
    returns (c: Component)
    modifies component`ports
    ensures c == component
    ensures component.ports
         == Annotate(component.paths, Annotation(component.labels, old(component.ports), [], []), cfg, angle, component.childName).ports
  {
    c := component;
    var paths := c.paths;
    var labels := c.labels;
    var owner := c.childName;
    ghost var init := Annotation(c.labels, c.ports, [], []);
    ghost var taken: seq<Label> := [];
    ghost var named: seq<Label> := [];
    var k := 0;
    while k < |paths|
      invariant 0 <= k <= |paths|
      invariant Annotate(paths[..k], init, cfg, angle, owner) == Annotation(labels, c.ports, taken, named)
    {
      labels, taken, named := AnnotatePath(c, labels, paths[k], cfg, angle, owner, taken, named);
      assert paths[..k + 1][..k] == paths[..k];
      k := k + 1;
    }
    assert paths[..k] == paths;
  }
}
