/**
 * The part of the layout library's data model that the PDK code touches:
 * points, GDS layers, labels, ports, marker paths, polygons, and the mutable
 * cell (`Component`) with its instance references (`ComponentReference`).
 */
module Layout {
  import opened Wrappers

  /** A point of the layout plane, in micrometres. */
  datatype Point = Point(x: real, y: real)

  /** A GDS (layer, datatype) pair. */
  datatype Layer = Layer(number: int, purpose: int)

  // The process layer table. WG, DEVREC and PORT are the values of ubc/tech.py;
  // PORTE and TEXT follow the SiEPIC EBeam layer table (PinRecM 1/11, Text 10/0).
  const WG := Layer(1, 0)
  const DEVREC := Layer(68, 0)
  const PORT := Layer(1, 10)
  const PORTE := Layer(1, 11)
  const TEXT := Layer(10, 0)

  /** A text annotation placed at `origin`. */
  datatype Label = Label(text: string, origin: Point, layer: Layer)

  datatype PortType = Optical | Electrical

  /**
   * A named connection point. `parentName` is the `name` that the cell owning
   * the port records for the cell it wraps (its `metadata_child`), if any.
   */
  datatype Port = Port(name: string, center: Point, width: real, orientation: int,
                       layer: Layer, portType: PortType, parentName: Option<string>)

  /** A two-point marker path (a pin): its spine, its layers and its first width. */
  datatype Path = Path(p1: Point, p2: Point, layers: seq<Layer>, width: real)

  datatype Polygon = Polygon(layer: Layer, points: seq<Point>)

  /** The midpoint of a pin's spine, `(p1 + p2) / 2`. */
  function Midpoint(p1: Point, p2: Point): (c: Point)
    ensures c.x - p1.x == p2.x - c.x && c.y - p1.y == p2.y - c.y
  {
    Point((p1.x + p2.x) / 2.0, (p1.y + p2.y) / 2.0)
  }

  function Abs(a: real): real { if a < 0.0 then -a else a }

  // numpy.isclose's default tolerances
  const RTOL: real := 0.00001
  const ATOL: real := 0.00000001

  /** numpy.isclose(a, b): |a - b| <= atol + rtol * |b| (not symmetric in a and b). */
  predicate IsClose(a: real, b: real) {
    Abs(a - b) <= ATOL + RTOL * Abs(b)
  }

  /** all(isclose(a, b)) for two points, compared coordinate by coordinate. */
  predicate Close(a: Point, b: Point) {
    IsClose(a.x, b.x) && IsClose(a.y, b.y)
  }

  /** An instance of a cell inside another cell; `parent` is the instanced cell. */
  class Reference {
    var parent: Component

    constructor (parent: Component)
      ensures this.parent == parent
    {
      this.parent := parent;
    }
  }

  /** One new reference per child, in order. */
  method NewReferences(children: seq<Component>) returns (rs: seq<Reference>)
    ensures |rs| == |children|
    ensures forall j :: 0 <= j < |rs| ==> fresh(rs[j]) && rs[j].parent == children[j]
  {
    rs := [];
    var i := 0;
    while i < |children|
      invariant 0 <= i <= |children| && |rs| == i
      invariant forall j :: 0 <= j < i ==> fresh(rs[j]) && rs[j].parent == children[j]
    {
      var r := new Reference(children[i]);
      rs := rs + [r];
      i := i + 1;
    }
  }

  /** The cells reachable from the given children, each child included. */
  ghost function Reachable(children: seq<Component>): set<Component>
  {
    if children == [] then {}
    else Reachable(children[..|children| - 1]) + children[|children| - 1].Cells()
  }

  lemma {:induction false} ReachableContains(children: seq<Component>, i: nat)
    requires i < |children|
    ensures children[i].Cells() <= Reachable(children)
    decreases |children|
  {
    if i < |children| - 1 {
      ReachableContains(children[..|children| - 1], i);
    }
  }

  /** Taking one more child adds that child's cells. */
  lemma ReachablePrefix(children: seq<Component>, i: nat)
    requires i < |children|
    ensures Reachable(children[..i + 1]) == Reachable(children[..i]) + children[i].Cells()
  {
    assert children[..i + 1][..i] == children[..i];
  }

  /** A prefix of the children reaches no more than all of them. */
  lemma ReachableMono(children: seq<Component>, i: nat)
    requires i <= |children|
    ensures Reachable(children[..i]) <= Reachable(children)
  {
    forall c | c in Reachable(children[..i])
      ensures c in Reachable(children)
    {
      var k := ReachableIndex(children[..i], c);
      ReachableContains(children, k);
    }
  }

  lemma {:induction false} ReachableIndex(children: seq<Component>, c: Component) returns (i: nat)
    requires c in Reachable(children)
    ensures i < |children| && c in children[i].Cells()
    decreases |children|
  {
    if c in children[|children| - 1].Cells() {
      i := |children| - 1;
    } else {
      i := ReachableIndex(children[..|children| - 1], c);
    }
  }

  /** A cell whose reachable set is the union of its children's is valid when they are. */
  lemma ComposedValid(c: Component)
    requires c !in c.below && c.below == Reachable(c.children)
    requires forall i :: 0 <= i < |c.children| ==> c.children[i].Valid()
    ensures c.Valid()
  {
    forall i | 0 <= i < |c.children|
      ensures c.children[i].below < c.below
    {
      ReachableContains(c.children, i);
    }
  }

  /**
   * A layout cell. The instancing graph is a DAG: `children` records the cell
   * each reference instanced when the cell was built and `below` every cell
   * reachable from it.
   */
  class Component {
    var polygons: seq<Polygon>
    var paths: seq<Path>
    var labels: seq<Label>
    var ports: map<string, Port>
    const references: seq<Reference>
    var bbValid: bool

    /** The `name` entry of the cell's `metadata_child`, if any. */
    const childName: Option<string>

    ghost const children: seq<Component>
    ghost const below: set<Component>

    /** This cell and every cell it instances, directly or not. */
    ghost function Cells(): set<Component>
    {
      {this} + below
    }

    /** The instancing graph below this cell is acyclic and `below` is exact. */
    ghost predicate Valid()
      decreases below
    {
      && this !in below
      && below == Reachable(children)
      && (forall i :: 0 <= i < |children| ==> children[i].below < below && children[i].Valid())
    }

    /**
     * Every reference of every reachable cell belongs to `refs` and still
     * points at the child it was built with.
     */
    ghost predicate Wired(refs: set<Reference>)
      reads refs`parent
    {
      forall c :: c in Cells() ==>
        && |c.references| == |c.children|
        && (forall i :: 0 <= i < |c.references| ==>
              c.references[i] in refs && c.references[i].parent == c.children[i])
    }

    /** A cell that instances `children`, each through a new reference. */
    constructor (polygons: seq<Polygon>, paths: seq<Path>, labels: seq<Label>, ports: map<string, Port>,
                 childName: Option<string>, children: seq<Component>, ghost refs: set<Reference>)
      requires forall i :: 0 <= i < |children| ==> children[i].Valid() && children[i].Wired(refs)
      ensures Valid() && Wired(refs + set r | r in references)
      ensures this.polygons == polygons && this.paths == paths && this.labels == labels
      ensures this.ports == ports && this.childName == childName
      ensures this.children == children && |references| == |children|
      ensures bbValid
    {
      var rs := NewReferences(children);
      this.polygons := polygons;
      this.paths := paths;
      this.labels := labels;
      this.ports := ports;
      this.childName := childName;
      this.references := rs;
      this.bbValid := true;
      this.children := children;
      this.below := Reachable(children);
      new;
      forall c | c in below
        ensures c != this
      {
        var i := ReachableIndex(children, c);
        assert old(allocated(children[i].below));
      }
      ComposedValid(this);
      forall c | c in below
        ensures |c.references| == |c.children|
        ensures forall j :: 0 <= j < |c.references| ==>
                  c.references[j] in refs && c.references[j].parent == c.children[j]
      {
        var i := ReachableIndex(children, c);
        assert children[i].Wired(refs);
      }
    }
  }
}
