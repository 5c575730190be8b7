/** One parking pass: nine stands along a heading, each with a taxiway stub node. */
module Parking {
  import opened Geometry
  import opened Elements
  import opened Emit

  /** What a pass adds: the Parking elements, the stands' indices and the stub nodes. */
  datatype Pass = Pass(stands: seq<Element>, park: seq<nat>, stubs: seq<TaxiNode>)

  /** Stands per pass (`range(1, 10)`). */
  const StandCount: nat := 9

  /**
   * The stub of the i-th stand: the latitude of the point i*spacing metres ahead
   * of `origin` and the longitude of the point as far behind it (lat2, lon2_end).
   */
  function StubPoint(proj: Projection, spacing: real, origin: Point, heading: real, back: real, i: nat): Point {
    var ahead := proj(origin, heading, spacing * i as real);
    var behind := proj(origin, back, spacing * i as real);
    Point(ahead.lat, behind.lon)
  }

  /**
   * A stand seen from its stub: the latitude of the point `distance` metres to the
   * side (heading + 90) and the longitude of the point as far to the other side
   * (lat3, lon3_end).
   */
  function StandPoint(proj: Projection, distance: real, stub: Point, heading: real): Point {
    var side := Turn(heading, 90.0);
    var right := proj(stub, side, distance);
    var left := proj(stub, Turn(side, 180.0), distance);
    Point(right.lat, left.lon)
  }

  /** The heading written on every stand: heading + 90, then + 180. */
  function StandHeading(heading: real): real {
    Turn(Turn(heading, 90.0), 180.0)
  }

  function StubNode(proj: Projection, spacing: real, origin: Point, heading: real, back: real, base: nat, j: nat): TaxiNode {
    TaxiNode(StubPoint(proj, spacing, origin, heading, back, j + 1), base + j + 1)
  }

  function Stand(proj: Projection, spacing: real, distance: real, origin: Point, heading: real, back: real, j: nat): Element {
    var stub := StubPoint(proj, spacing, origin, heading, back, j + 1);
    GenParking(StandPoint(proj, distance, stub, heading), j, StandHeading(heading))
  }

  /** The pass as a whole, with stub indices continuing the counter from `base`. */
  function PassSpec(proj: Projection, spacing: real, distance: real, origin: Point, heading: real, back: real, base: nat): (p: Pass)
    ensures |p.stands| == |p.park| == |p.stubs| == StandCount
  {
    Pass(seq(StandCount, j requires 0 <= j < StandCount => Stand(proj, spacing, distance, origin, heading, back, j)),
         seq(StandCount, j requires 0 <= j < StandCount => j),
         seq(StandCount, j requires 0 <= j < StandCount => StubNode(proj, spacing, origin, heading, back, base, j)))
  }

  /**
   * Lines 323-349 (810) and 531-558 (850): for i in 1..9 a stand numbered yy + 1 and a stub
   * taking the next index. Returns the pass and the advanced counter.
   */
  method ParkingPass(proj: Projection, spacing: real, distance: real, origin: Point, heading: real, back: real, index: nat)
    returns (p: Pass, index': nat)
    ensures p == PassSpec(proj, spacing, distance, origin, heading, back, index)
    ensures index' == index + StandCount
  {
    var stands: seq<Element> := [];
    var park: seq<nat> := [];
    var stubs: seq<TaxiNode> := [];
    var yy: nat := 0;
    index' := index;
    for i := 1 to 10
      invariant yy == i - 1 && index' == index + yy
      invariant |stands| == |park| == |stubs| == yy
      invariant forall j :: 0 <= j < yy ==> stands[j] == Stand(proj, spacing, distance, origin, heading, back, j)
      invariant forall j :: 0 <= j < yy ==> park[j] == j
      invariant forall j :: 0 <= j < yy ==> stubs[j] == StubNode(proj, spacing, origin, heading, back, index, j)
    {
      var stub := StubPoint(proj, spacing, origin, heading, back, i);
      stands := stands + [GenParking(StandPoint(proj, distance, stub, heading), yy, StandHeading(heading))];
      park := park + [yy];
      index' := index' + 1;
      stubs := stubs + [TaxiNode(stub, index')];
      yy := yy + 1;
    }
    p := Pass(stands, park, stubs);
  }

  /** A pass yields nine stands indexed 0..8 and numbered 1..9, and nine stubs indexed base+1..base+9. */
  lemma PassShape(proj: Projection, spacing: real, distance: real, origin: Point, heading: real, back: real, base: nat)
    ensures var p := PassSpec(proj, spacing, distance, origin, heading, back, base);
            forall j :: 0 <= j < StandCount ==>
              && p.park[j] == j
              && p.stubs[j].index == base + j + 1
              && p.stands[j].Parking? && p.stands[j].index == j && p.stands[j].number == j + 1
  {
  }

  /** Each stand is joined to the stub of the same iteration, and the stubs form a chain of consecutive indices. */
  lemma PassLinks(proj: Projection, spacing: real, distance: real, origin: Point, heading: real, back: real, base: nat)
    ensures var p := PassSpec(proj, spacing, distance, origin, heading, back, base);
            && (forall j :: 0 <= j < StandCount ==> ParkingLinks(p.park, p.stubs)[j] == (j, base + j + 1))
            && |ChainLinks(p.stubs)| == StandCount - 1
            && (forall j :: 0 <= j < StandCount - 1 ==> ChainLinks(p.stubs)[j] == (base + j + 1, base + j + 2))
  {
    var p := PassSpec(proj, spacing, distance, origin, heading, back, base);
    PassShape(proj, spacing, distance, origin, heading, back, base);
    StandLinks(p.park, p.stubs, base);
    StubChain(p.stubs, base);
  }

  lemma StandLinks(park: seq<nat>, stubs: seq<TaxiNode>, base: nat)
    requires |park| == |stubs| == StandCount
    requires forall j :: 0 <= j < StandCount ==> park[j] == j && stubs[j].index == base + j + 1
    ensures forall j :: 0 <= j < StandCount ==> ParkingLinks(park, stubs)[j] == (j, base + j + 1)
  {
  }

  lemma StubChain(stubs: seq<TaxiNode>, base: nat)
    requires |stubs| == StandCount
    requires forall j :: 0 <= j < StandCount ==> stubs[j].index == base + j + 1
    ensures |ChainLinks(stubs)| == StandCount - 1
    ensures forall j :: 0 <= j < StandCount - 1 ==> ChainLinks(stubs)[j] == (base + j + 1, base + j + 2)
  {
    var chain := ChainLinks(stubs);
    forall j | 0 <= j < StandCount - 1
      ensures chain[j] == (base + j + 1, base + j + 2)
    {
      assert chain[j] == (stubs[j].index, stubs[j + 1].index);
    }
  }
}
