/**
 * The graph part of `parse_airport` for 810 files. Every taxiway segment line becomes three
 * taxi nodes (its two ends and its centre); a segment longer than 600 m also gets a parking
 * pass whose stub nodes take their indices from the same counter, interleaved with the
 * segment nodes. The arcs are a fixed table over the first twelve nodes plus the stands,
 * the stub chain and its two ends.
 */
module Build810 {
  import opened Outcome
  import opened Records
  import opened Geometry
  import opened Elements
  import opened Frequencies
  import opened Emit
  import opened Parking
  import opened Extract

  /** What a segment line contributes: its centre, its heading and half its length in metres. */
  datatype Runway = Runway(center: Point, heading: real, halfLength: real)

  /**
   * Lines 292-300: latitude, longitude, heading, length in feet and width are fields 1, 2, 4,
   * 5 and 7, read in that order (width is read but not used).
   */
  function ParseRunway(l: Line): (r: Result<Runway>)
    ensures r.Ok? <==> |l.tokens| >= 8 && ParseReal(l.tokens[1]).Some? && ParseReal(l.tokens[2]).Some?
                       && ParseReal(l.tokens[4]).Some? && ParseReal(l.tokens[5]).Some? && ParseReal(l.tokens[7]).Some?
    ensures r.Ok? ==> r.value.center == Point(ParseReal(l.tokens[1]).value, ParseReal(l.tokens[2]).value)
                      && r.value.heading == ParseReal(l.tokens[4]).value
                      && r.value.halfLength == ParseReal(l.tokens[5]).value * FeetToMeter / 2.0
    ensures r.Err? && |l.tokens| >= 8 ==> r.fault == ValueError
    ensures r == Err(IndexError) ==> |l.tokens| < 8
    ensures |l.tokens| < 8 && (forall j :: 1 <= j < |l.tokens| ==> ParseReal(l.tokens[j]).Some?) ==> r == Err(IndexError)
  {
    var lat :- Field(l.tokens, 1);
    var lon :- Field(l.tokens, 2);
    var heading :- Field(l.tokens, 4);
    var feet :- Field(l.tokens, 5);
    var width :- Field(l.tokens, 7);
    Ok(Runway(Point(lat, lon), heading, feet * FeetToMeter / 2.0))
  }

  /** Half-lengths above this get a parking pass. */
  const LongRunway: real := 300.0

  /**
   * The three nodes of a segment, numbered after `index`: the latitude of the forward end with the
   * longitude of the backward end, the centre, and the latitude of the backward end with the
   * longitude of the forward end.
   */
  function RunwayNodes(proj: Projection, rw: Runway, index: nat): seq<TaxiNode> {
    var fwd := proj(rw.center, rw.heading, rw.halfLength);
    var rev := proj(rw.center, Turn(rw.heading, 180.0), rw.halfLength);
    [TaxiNode(Point(fwd.lat, rev.lon), index + 1), TaxiNode(rw.center, index + 2), TaxiNode(Point(rev.lat, fwd.lon), index + 3)]
  }

  /** The state of the segment loop: the parking text so far, `nodes`, `subnodes`, `park` and `index`. */
  datatype Layout = Layout(parking: seq<Element>, nodes: seq<TaxiNode>, stubs: seq<TaxiNode>, park: seq<nat>, index: nat)

  const Origin: Layout := Layout([], [], [], [], 8)

  /** One segment line: three nodes, then a parking pass when the segment is long. */
  function RunwayStep(proj: Projection, spacing: real, distance: real, lay: Layout, rw: Runway): Layout {
    var nodes := lay.nodes + RunwayNodes(proj, rw, lay.index);
    if rw.halfLength > LongRunway then
      var p := PassSpec(proj, spacing, distance, rw.center, rw.heading, Turn(rw.heading, 180.0), lay.index + 3);
      Layout(lay.parking + [Text(BeginParking)] + p.stands + [Text(EndParking)], nodes,
             lay.stubs + p.stubs, lay.park + p.park, lay.index + 3 + StandCount)
    else Layout(lay.parking, nodes, lay.stubs, lay.park, lay.index + 3)
  }

  /** The segment loop from line `k` on. */
  function RunwaysFrom(proj: Projection, spacing: real, distance: real, lines: seq<Line>, k: nat, lay: Layout): (r: Result<Layout>)
    ensures |lay.park| == |lay.stubs| && r.Ok? ==> |r.value.park| == |r.value.stubs|
    decreases |lines| - k
  {
    if k >= |lines| then Ok(lay)
    else
      var rw :- ParseRunway(lines[k]);
      RunwaysFrom(proj, spacing, distance, lines, k + 1, RunwayStep(proj, spacing, distance, lay, rw))
  }

  /**
   * The counter invariant: node and stub indices are distinct, each list is increasing, all lie
   * in 9..index and together there are index - 8 of them, so they use up the counter without gaps;
   * the stands come in whole passes numbered 0..8, each with its stub.
   */
  predicate Allocated(lay: Layout) {
    Counter(lay.nodes, lay.stubs, lay.park, lay.index)
  }

  predicate Counter(nodes: seq<TaxiNode>, stubs: seq<TaxiNode>, park: seq<nat>, index: nat) {
    && index >= 8
    && |nodes| + |stubs| == index - 8
    && |park| == |stubs| && |park| % StandCount == 0
    && (forall j :: 0 <= j < |park| ==> park[j] == j % StandCount)
    && (forall j :: 0 <= j < |nodes| ==> 9 <= nodes[j].index <= index)
    && (forall j :: 0 <= j < |stubs| ==> 9 <= stubs[j].index <= index)
    && (forall a, b :: 0 <= a < b < |nodes| ==> nodes[a].index < nodes[b].index)
    && (forall a, b :: 0 <= a < b < |stubs| ==> stubs[a].index < stubs[b].index)
    && (forall a, b :: 0 <= a < |nodes| && 0 <= b < |stubs| ==> nodes[a].index != stubs[b].index)
  }

  /** Three nodes taking the next three indices keep the invariant. */
  lemma CounterNodes(nodes: seq<TaxiNode>, stubs: seq<TaxiNode>, park: seq<nat>, index: nat, added: seq<TaxiNode>)
    requires Counter(nodes, stubs, park, index)
    requires |added| == 3 && forall j :: 0 <= j < 3 ==> added[j].index == index + j + 1
    ensures Counter(nodes + added, stubs, park, index + 3)
  {
    var nodes' := nodes + added;
    assert forall j :: 0 <= j < |nodes| ==> nodes'[j] == nodes[j];
    assert forall j :: |nodes| <= j < |nodes'| ==> nodes'[j] == added[j - |nodes|];
  }

  /** A parking pass whose stubs take the next nine indices keeps the invariant. */
  lemma CounterPass(nodes: seq<TaxiNode>, stubs: seq<TaxiNode>, park: seq<nat>, index: nat, added: seq<TaxiNode>, stands: seq<nat>)
    requires Counter(nodes, stubs, park, index)
    requires |added| == |stands| == StandCount
    requires forall j :: 0 <= j < StandCount ==> added[j].index == index + j + 1 && stands[j] == j
    ensures Counter(nodes, stubs + added, park + stands, index + StandCount)
  {
    var stubs', park' := stubs + added, park + stands;
    assert forall j :: 0 <= j < |stubs| ==> stubs'[j] == stubs[j];
    assert forall j :: |stubs| <= j < |stubs'| ==> stubs'[j] == added[j - |stubs|];
    forall j | 0 <= j < |park'|
      ensures park'[j] == j % StandCount
    {
      if j >= |park| {
        assert park'[j] == stands[j - |park|];
        assert j % StandCount == (j - |park|) % StandCount;
      } else {
        assert park'[j] == park[j];
      }
    }
  }

  lemma AllocatedStep(proj: Projection, spacing: real, distance: real, lay: Layout, rw: Runway)
    requires Allocated(lay)
    ensures Allocated(RunwayStep(proj, spacing, distance, lay, rw))
  {
    var added := RunwayNodes(proj, rw, lay.index);
    CounterNodes(lay.nodes, lay.stubs, lay.park, lay.index, added);
    var next := RunwayStep(proj, spacing, distance, lay, rw);
    if rw.halfLength > LongRunway {
      var p := PassSpec(proj, spacing, distance, rw.center, rw.heading, Turn(rw.heading, 180.0), lay.index + 3);
      PassShape(proj, spacing, distance, rw.center, rw.heading, Turn(rw.heading, 180.0), lay.index + 3);
      CounterPass(lay.nodes + added, lay.stubs, lay.park, lay.index + 3, p.stubs, p.park);
      assert next.nodes == lay.nodes + added && next.stubs == lay.stubs + p.stubs;
      assert next.park == lay.park + p.park && next.index == lay.index + 3 + StandCount;
    } else {
      assert next.nodes == lay.nodes + added && next.stubs == lay.stubs;
      assert next.park == lay.park && next.index == lay.index + 3;
    }
  }

  /** The segment loop keeps the counter invariant. */
  lemma {:induction false} RunwaysAllocated(proj: Projection, spacing: real, distance: real, lines: seq<Line>, k: nat, lay: Layout)
    requires Allocated(lay)
    ensures RunwaysFrom(proj, spacing, distance, lines, k, lay).Ok? ==> Allocated(RunwaysFrom(proj, spacing, distance, lines, k, lay).value)
    decreases |lines| - k
  {
    if k < |lines| && ParseRunway(lines[k]).Ok? {
      var rw := ParseRunway(lines[k]).value;
      AllocatedStep(proj, spacing, distance, lay, rw);
      RunwaysAllocated(proj, spacing, distance, lines, k + 1, RunwayStep(proj, spacing, distance, lay, rw));
    }
  }

  /** Lines 359-366: `isOnRunway` is 1 for 11, 14 and 17, `holdPointType` is normal for 10, 13 and 16. */
  const RunwayFlags: set<nat> := {11, 14, 17}
  const HoldFlags: set<nat> := {10, 13, 16}

  /** Lines 379-428: the connections, each written as an arc pair. */
  function Links810(nodes: seq<TaxiNode>, stubs: seq<TaxiNode>, park: seq<nat>): (r: seq<(nat, nat)>)
    requires |nodes| >= 12 && |stubs| >= 1 && |park| <= |stubs|
    ensures |r| == |park| + |stubs| + 11
  {
    ParkingLinks(park, stubs) + Entry810(nodes, stubs) + ChainLinks(stubs) + Exit810(nodes, stubs)
  }

  /** Lines 384-396: the connections written before the stub chain. */
  function Entry810(nodes: seq<TaxiNode>, stubs: seq<TaxiNode>): seq<(nat, nat)>
    requires |nodes| >= 12 && |stubs| >= 1
  {
    [(nodes[0].index, nodes[1].index), (nodes[1].index, nodes[2].index), (nodes[0].index, nodes[11].index),
     (nodes[11].index, nodes[10].index), (nodes[10].index, stubs[0].index)]
  }

  /** Lines 409-428: the connections written after the stub chain. */
  function Exit810(nodes: seq<TaxiNode>, stubs: seq<TaxiNode>): seq<(nat, nat)>
    requires |nodes| >= 12 && |stubs| >= 1
  {
    [(nodes[9].index, stubs[|stubs| - 1].index), (nodes[10].index, nodes[3].index), (nodes[3].index, nodes[4].index),
     (nodes[4].index, nodes[5].index), (nodes[6].index, nodes[9].index), (nodes[6].index, nodes[7].index),
     (nodes[7].index, nodes[8].index)]
  }

  /** The document of an 810 airport, or the exception raised while building it. */
  function Document810(proj: Projection, spacing: real, distance: real, ex: Extracted): Result<Document>
    requires forall l :: l in ex.frequencies ==> IsFrequency(l)
  {
    var lay :- RunwaysFrom(proj, spacing, distance, ex.records, 0, Origin);
    if |lay.nodes| < 12 || |lay.stubs| == 0 then Err(IndexError)
    else
      Ok(Document(FrequencyElements(ex.frequencies), lay.parking,
                  NodeElements(lay.nodes, RunwayFlags, HoldFlags) + NodeElements(lay.stubs, {}, {}),
                  PairArcs(Links810(lay.nodes, lay.stubs, lay.park))))
  }

  /** `parse_airport` up to `save_network`: the elements written for `apt`. */
  function Groundnet810(proj: Projection, spacing: real, distance: real, content: seq<Line>, apt: string): Result<seq<Element>> {
    var ex :- Extract810From(content, apt, 0, Start);
    var doc :- Document810(proj, spacing, distance, ex);
    Ok(Render(doc))
  }

  // ---------------------------------------------------------------- properties

  /** The indices an arc may name: a segment node, a stub or a stand. */
  function Endpoints(lay: Layout): set<nat> {
    Indices(lay.nodes) + Indices(lay.stubs) + set j | 0 <= j < |lay.park| :: lay.park[j]
  }

  /** A successful document is built from a layout that keeps the counter invariant. */
  lemma LayoutOf810(proj: Projection, spacing: real, distance: real, ex: Extracted)
    requires forall l :: l in ex.frequencies ==> IsFrequency(l)
    requires Document810(proj, spacing, distance, ex).Ok?
    ensures RunwaysFrom(proj, spacing, distance, ex.records, 0, Origin).Ok?
    ensures var lay := RunwaysFrom(proj, spacing, distance, ex.records, 0, Origin).value;
            && Allocated(lay) && |lay.nodes| >= 12 && |lay.stubs| >= 1
            && Document810(proj, spacing, distance, ex).value
               == Document(FrequencyElements(ex.frequencies), lay.parking,
                           NodeElements(lay.nodes, RunwayFlags, HoldFlags) + NodeElements(lay.stubs, {}, {}),
                           PairArcs(Links810(lay.nodes, lay.stubs, lay.park)))
  {
    RunwaysAllocated(proj, spacing, distance, ex.records, 0, Origin);
  }

  /** Every connection of `links` joins two indices that exist in `lay`. */
  predicate Joins(links: seq<(nat, nat)>, lay: Layout) {
    forall j :: 0 <= j < |links| ==> links[j].0 in Endpoints(lay) && links[j].1 in Endpoints(lay)
  }

  lemma JoinsConcat(a: seq<(nat, nat)>, b: seq<(nat, nat)>, lay: Layout)
    requires Joins(a, lay) && Joins(b, lay)
    ensures Joins(a + b, lay)
  {
    assert forall j :: |a| <= j < |a + b| ==> (a + b)[j] == b[j - |a|];
  }

  lemma JoinsParking(lay: Layout)
    requires |lay.park| <= |lay.stubs|
    ensures Joins(ParkingLinks(lay.park, lay.stubs), lay)
  {
    var pl := ParkingLinks(lay.park, lay.stubs);
    forall j | 0 <= j < |pl|
      ensures pl[j].0 in Endpoints(lay) && pl[j].1 in Endpoints(lay)
    {
      assert lay.stubs[j].index in Indices(lay.stubs);
    }
  }

  lemma JoinsChain(lay: Layout)
    ensures Joins(ChainLinks(lay.stubs), lay)
  {
    var cl := ChainLinks(lay.stubs);
    forall j | 0 <= j < |cl|
      ensures cl[j].0 in Endpoints(lay) && cl[j].1 in Endpoints(lay)
    {
      assert lay.stubs[j].index in Indices(lay.stubs) && lay.stubs[j + 1].index in Indices(lay.stubs);
    }
  }

  lemma JoinsFixed(lay: Layout)
    requires |lay.nodes| >= 12 && |lay.stubs| >= 1
    ensures Joins(Entry810(lay.nodes, lay.stubs), lay) && Joins(Exit810(lay.nodes, lay.stubs), lay)
  {
    assert lay.stubs[0].index in Indices(lay.stubs) && lay.stubs[|lay.stubs| - 1].index in Indices(lay.stubs);
    assert forall t :: 0 <= t < 12 ==> lay.nodes[t].index in Indices(lay.nodes);
  }

  /** Every connection of the 810 table joins two indices that exist. */
  lemma LinksKnown810(lay: Layout)
    requires |lay.park| <= |lay.stubs| && |lay.nodes| >= 12 && |lay.stubs| >= 1
    ensures Joins(Links810(lay.nodes, lay.stubs, lay.park), lay)
  {
    var pl, cl := ParkingLinks(lay.park, lay.stubs), ChainLinks(lay.stubs);
    var first, last := Entry810(lay.nodes, lay.stubs), Exit810(lay.nodes, lay.stubs);
    JoinsParking(lay);
    JoinsChain(lay);
    JoinsFixed(lay);
    JoinsConcat(pl, first, lay);
    JoinsConcat(pl + first, cl, lay);
    JoinsConcat(pl + first + cl, last, lay);
  }

  /**
   * Lines 379-428: every 810 arc is followed by its twin; there are 2 * stubs + 11 connections
   * (29 with one parking pass); every end is a stand, a segment node or a stub; and the stands
   * (0..8) never share an index with a taxi node (9 and up).
   */
  lemma Arcs810(lay: Layout)
    requires Allocated(lay) && |lay.nodes| >= 12 && |lay.stubs| >= 1
    ensures var arcs := PairArcs(Links810(lay.nodes, lay.stubs, lay.park));
            && |arcs| == 2 * (2 * |lay.stubs| + 11)
            && (forall j :: 0 <= j < |arcs| / 2 ==> arcs[2 * j].Arc? && arcs[2 * j + 1] == Arc(arcs[2 * j].end, arcs[2 * j].begin))
            && (|lay.stubs| == StandCount ==> |arcs| == 2 * 29)
            && (forall a :: a in arcs ==> a.Arc? && a.begin in Endpoints(lay) && a.end in Endpoints(lay))
            && (forall j :: 0 <= j < |lay.park| ==> lay.park[j] < 9)
            && (forall v :: v in Indices(lay.nodes) + Indices(lay.stubs) ==> v >= 9)
  {
    var links := Links810(lay.nodes, lay.stubs, lay.park);
    PairArcsShape(links);
    LinksKnown810(lay);
    ArcsJoin(links, lay);
  }

  /** The arcs of connections that join existing indices name only existing indices. */
  lemma ArcsJoin(links: seq<(nat, nat)>, lay: Layout)
    requires Joins(links, lay)
    ensures forall a :: a in PairArcs(links) ==> a.Arc? && a.begin in Endpoints(lay) && a.end in Endpoints(lay)
  {
    var arcs := PairArcs(links);
    PairArcsShape(links);
    forall a | a in arcs
      ensures a.Arc? && a.begin in Endpoints(lay) && a.end in Endpoints(lay)
    {
      var i :| 0 <= i < |arcs| && arcs[i] == a;
      var j := i / 2;
      assert i == 2 * j || i == 2 * j + 1;
    }
  }

  /**
   * Lines 359-373: a segment node is on the runway exactly when its index is 11, 14 or 17 and a
   * hold point exactly when it is 10, 13 or 16; every stub is written as neither.
   */
  lemma Flags810(lay: Layout)
    ensures var nodes := NodeElements(lay.nodes, RunwayFlags, HoldFlags) + NodeElements(lay.stubs, {}, {});
            && |nodes| == |lay.nodes| + |lay.stubs|
            && (forall j :: 0 <= j < |lay.nodes| ==>
                  nodes[j].Node? && nodes[j].index == lay.nodes[j].index
                  && (nodes[j].onRunway <==> nodes[j].index in {11, 14, 17})
                  && (nodes[j].hold == NormalHold <==> nodes[j].index in {10, 13, 16}))
            && (forall j :: |lay.nodes| <= j < |nodes| ==>
                  nodes[j].Node? && nodes[j].index == lay.stubs[j - |lay.nodes|].index
                  && !nodes[j].onRunway && nodes[j].hold == NoHold)
  {
    var nodes := NodeElements(lay.nodes, RunwayFlags, HoldFlags) + NodeElements(lay.stubs, {}, {});
    forall j | |lay.nodes| <= j < |nodes|
      ensures nodes[j].Node? && nodes[j].index == lay.stubs[j - |lay.nodes|].index
              && !nodes[j].onRunway && nodes[j].hold == NoHold
    {
      assert nodes[j] == NodeElement(lay.stubs[j - |lay.nodes|], {}, {});
    }
  }

  /** One segment line of the loop. */
  lemma RunwaysFromStep(proj: Projection, spacing: real, distance: real, lines: seq<Line>, k: nat, lay: Layout, rw: Runway)
    requires k < |lines| && ParseRunway(lines[k]) == Ok(rw)
    ensures RunwaysFrom(proj, spacing, distance, lines, k, lay) == RunwaysFrom(proj, spacing, distance, lines, k + 1, RunwayStep(proj, spacing, distance, lay, rw))
  {
  }

  /** Segment nodes numbered from 9 on, with no stub yet: the counter stands at their last index. */
  predicate Fresh(lay: Layout) {
    Numbered(lay.nodes, 9) && lay.index == 8 + |lay.nodes| && lay.stubs == [] && lay.park == []
  }

  /** A short segment takes the next three indices for its nodes and adds no stub. */
  lemma ShortStep(proj: Projection, spacing: real, distance: real, lay: Layout, rw: Runway)
    requires Fresh(lay) && rw.halfLength <= LongRunway
    ensures Fresh(RunwayStep(proj, spacing, distance, lay, rw))
    ensures |RunwayStep(proj, spacing, distance, lay, rw).nodes| == |lay.nodes| + 3
  {
    var next := RunwayStep(proj, spacing, distance, lay, rw);
    assert next.nodes == lay.nodes + RunwayNodes(proj, rw, lay.index);
  }

  /** A long segment takes three indices for its nodes and the next nine for its stubs. */
  lemma LongStep(proj: Projection, spacing: real, distance: real, lay: Layout, rw: Runway)
    requires Fresh(lay) && rw.halfLength > LongRunway
    ensures var next := RunwayStep(proj, spacing, distance, lay, rw);
            && |next.nodes| == |lay.nodes| + 3 && Numbered(next.nodes, 9)
            && |next.stubs| == |next.park| == StandCount && Numbered(next.stubs, lay.index + 4)
  {
    var next := RunwayStep(proj, spacing, distance, lay, rw);
    var p := PassSpec(proj, spacing, distance, rw.center, rw.heading, Turn(rw.heading, 180.0), lay.index + 3);
    PassShape(proj, spacing, distance, rw.center, rw.heading, Turn(rw.heading, 180.0), lay.index + 3);
    assert next.nodes == lay.nodes + RunwayNodes(proj, rw, lay.index);
    assert next.stubs == p.stubs;
  }

  /** Three short segments and then a long one: the segment nodes are 9..20 in order, the stubs 21..29. */
  lemma DefaultRunways810(proj: Projection, spacing: real, distance: real, lines: seq<Line>, r0: Runway, r1: Runway, r2: Runway, r3: Runway)
    requires |lines| == 4
    requires ParseRunway(lines[0]) == Ok(r0) && ParseRunway(lines[1]) == Ok(r1)
    requires ParseRunway(lines[2]) == Ok(r2) && ParseRunway(lines[3]) == Ok(r3)
    requires r0.halfLength <= LongRunway && r1.halfLength <= LongRunway && r2.halfLength <= LongRunway
    requires r3.halfLength > LongRunway
    ensures RunwaysFrom(proj, spacing, distance, lines, 0, Origin).Ok?
    ensures var lay := RunwaysFrom(proj, spacing, distance, lines, 0, Origin).value;
            && |lay.nodes| == 12 && Numbered(lay.nodes, 9)
            && |lay.stubs| == 9 && Numbered(lay.stubs, 21) && |lay.park| == 9
  {
    var l0 := RunwayStep(proj, spacing, distance, Origin, r0);
    var l1 := RunwayStep(proj, spacing, distance, l0, r1);
    var l2 := RunwayStep(proj, spacing, distance, l1, r2);
    var l3 := RunwayStep(proj, spacing, distance, l2, r3);
    RunwaysFromStep(proj, spacing, distance, lines, 0, Origin, r0);
    RunwaysFromStep(proj, spacing, distance, lines, 1, l0, r1);
    RunwaysFromStep(proj, spacing, distance, lines, 2, l1, r2);
    RunwaysFromStep(proj, spacing, distance, lines, 3, l2, r3);
    assert RunwaysFrom(proj, spacing, distance, lines, 4, l3) == Ok(l3);
    ShortStep(proj, spacing, distance, Origin, r0);
    ShortStep(proj, spacing, distance, l0, r1);
    ShortStep(proj, spacing, distance, l1, r2);
    LongStep(proj, spacing, distance, l2, r3);
  }

  /**
   * The layout the classifier admits, three short segments and then a long one: the segment
   * nodes are 9..20 in order, the stubs 21..29, and 29 connections (58 arcs) are written.
   */
  lemma DefaultLayout810(proj: Projection, spacing: real, distance: real, ex: Extracted, r0: Runway, r1: Runway, r2: Runway, r3: Runway)
    requires forall l :: l in ex.frequencies ==> IsFrequency(l)
    requires |ex.records| == 4
    requires ParseRunway(ex.records[0]) == Ok(r0) && ParseRunway(ex.records[1]) == Ok(r1)
    requires ParseRunway(ex.records[2]) == Ok(r2) && ParseRunway(ex.records[3]) == Ok(r3)
    requires r0.halfLength <= LongRunway && r1.halfLength <= LongRunway && r2.halfLength <= LongRunway
    requires r3.halfLength > LongRunway
    ensures RunwaysFrom(proj, spacing, distance, ex.records, 0, Origin).Ok?
    ensures var lay := RunwaysFrom(proj, spacing, distance, ex.records, 0, Origin).value;
            && |lay.nodes| == 12 && Numbered(lay.nodes, 9)
            && |lay.stubs| == 9 && Numbered(lay.stubs, 21)
            && Document810(proj, spacing, distance, ex).Ok?
            && |Document810(proj, spacing, distance, ex).value.arcs| == 2 * 29
  {
    DefaultRunways810(proj, spacing, distance, ex.records, r0, r1, r2, r3);
    var lay := RunwaysFrom(proj, spacing, distance, ex.records, 0, Origin).value;
    assert Document810(proj, spacing, distance, ex).value.arcs == PairArcs(Links810(lay.nodes, lay.stubs, lay.park));
    PairArcsShape(Links810(lay.nodes, lay.stubs, lay.park));
  }

  // ---------------------------------------------------------------- the loops

  /** Lines 287-349: the segment loop, with the counter, the nodes and the parking passes. */
  method BuildRunways(proj: Projection, spacing: real, distance: real, lineData: seq<Line>) returns (r: Result<Layout>)
    ensures r == RunwaysFrom(proj, spacing, distance, lineData, 0, Origin)
  {
    var lay := Origin;
    for t := 0 to |lineData|
      invariant RunwaysFrom(proj, spacing, distance, lineData, 0, Origin) == RunwaysFrom(proj, spacing, distance, lineData, t, lay)
    {
      var rw := ReadRunway(lineData[t]);
      if rw.Err? {
        return Err(rw.fault);
      }
      lay := AddRunway(proj, spacing, distance, lay, rw.value);
    }
    r := Ok(lay);
  }

  /** Lines 292-300: the five fields of a segment line, read one after the other. */
  method ReadRunway(l: Line) returns (r: Result<Runway>)
    ensures r == ParseRunway(l)
  {
    var lat := Field(l.tokens, 1);
    if lat.Err? { return Err(lat.fault); }
    var lon := Field(l.tokens, 2);
    if lon.Err? { return Err(lon.fault); }
    var heading := Field(l.tokens, 4);
    if heading.Err? { return Err(heading.fault); }
    var feet := Field(l.tokens, 5);
    if feet.Err? { return Err(feet.fault); }
    var width := Field(l.tokens, 7);
    if width.Err? { return Err(width.fault); }
    r := Ok(Runway(Point(lat.value, lon.value), heading.value, feet.value * FeetToMeter / 2.0));
  }

  /** Lines 312-349: the three nodes of one segment, then its parking pass when it is long. */
  method AddRunway(proj: Projection, spacing: real, distance: real, lay: Layout, rw: Runway) returns (next: Layout)
    ensures next == RunwayStep(proj, spacing, distance, lay, rw)
  {
    var back := Turn(rw.heading, 180.0);
    var fwd := proj(rw.center, rw.heading, rw.halfLength);
    var rev := proj(rw.center, back, rw.halfLength);
    var nodes := lay.nodes + [TaxiNode(Point(fwd.lat, rev.lon), lay.index + 1), TaxiNode(rw.center, lay.index + 2),
                              TaxiNode(Point(rev.lat, fwd.lon), lay.index + 3)];
    var index := lay.index + 3;
    if rw.halfLength > LongRunway {
      var pass;
      pass, index := ParkingPass(proj, spacing, distance, rw.center, rw.heading, back, index);
      next := Layout(lay.parking + [Text(BeginParking)] + pass.stands + [Text(EndParking)], nodes,
                     lay.stubs + pass.stubs, lay.park + pass.park, index);
    } else {
      next := Layout(lay.parking, nodes, lay.stubs, lay.park, index);
    }
  }

  /** Lines 240-434: `parse_airport` up to `save_network`. */
  method ParseAirport810(proj: Projection, spacing: real, distance: real, content: seq<Line>, apt: string)
    returns (r: Result<seq<Element>>)
    ensures r == Groundnet810(proj, spacing, distance, content, apt)
  {
    Groundnet810Cases(proj, spacing, distance, content, apt);
    var ex := Extract810(content, apt);
    if ex.Err? {
      return Err(ex.fault);
    }
    var xml := [Text(Prologue)];
    xml := AppendFrequencies(xml, ex.value.frequencies);
    xml := xml + [Text(EndFrequencies)];
    var lay := BuildRunways(proj, spacing, distance, ex.value.records);
    if lay.Err? {
      return Err(lay.fault);
    }
    var nodes, stubs, park := lay.value.nodes, lay.value.stubs, lay.value.park;
    xml := xml + lay.value.parking + [Text(BeginTaxiNodes)];
    xml := EmitNodes(xml, nodes, RunwayFlags, HoldFlags);
    xml := EmitNodes(xml, stubs, {}, {});
    xml := xml + [Text(BeginSegments)];
    var arcs := EmitArcs810(xml, nodes, stubs, park);
    if arcs.Err? {
      return Err(arcs.fault);
    }
    r := Ok(arcs.value + [Text(Epilogue)]);
    RenderSections(FrequencyElements(ex.value.frequencies), lay.value.parking, NodeElements(nodes, RunwayFlags, HoldFlags),
                   NodeElements(stubs, {}, {}), PairArcs(Links810(nodes, stubs, park)));
  }

  /** How `parse_airport` ends: with the extraction's error, the segment loop's error, IndexError, or the document. */
  lemma Groundnet810Cases(proj: Projection, spacing: real, distance: real, content: seq<Line>, apt: string)
    ensures Extract810From(content, apt, 0, Start).Err? ==>
              Groundnet810(proj, spacing, distance, content, apt) == Err(Extract810From(content, apt, 0, Start).fault)
    ensures Extract810From(content, apt, 0, Start).Ok? ==>
              var ex := Extract810From(content, apt, 0, Start).value;
              var lay := RunwaysFrom(proj, spacing, distance, ex.records, 0, Origin);
              && (lay.Err? ==> Groundnet810(proj, spacing, distance, content, apt) == Err(lay.fault))
              && (lay.Ok? ==> |lay.value.park| == |lay.value.stubs|)
              && (lay.Ok? && (|lay.value.nodes| < 12 || |lay.value.stubs| == 0) ==>
                    Groundnet810(proj, spacing, distance, content, apt) == Err(IndexError))
              && (lay.Ok? && |lay.value.nodes| >= 12 && |lay.value.stubs| >= 1 ==>
                    Groundnet810(proj, spacing, distance, content, apt)
                    == Ok(Render(Document(FrequencyElements(ex.frequencies), lay.value.parking,
                                          NodeElements(lay.value.nodes, RunwayFlags, HoldFlags) + NodeElements(lay.value.stubs, {}, {}),
                                          PairArcs(Links810(lay.value.nodes, lay.value.stubs, lay.value.park))))))
  {
    if Extract810From(content, apt, 0, Start).Ok? {
      var ex := Extract810From(content, apt, 0, Start).value;
      var lay := RunwaysFrom(proj, spacing, distance, ex.records, 0, Origin);
      if lay.Ok? && |lay.value.nodes| >= 12 && |lay.value.stubs| >= 1 {
        Groundnet810Ok(proj, spacing, distance, content, apt, ex, lay.value);
      }
    }
  }

  /** Lines 378-428: the arc section, which raises IndexError when there are too few nodes or no stub. */
  method EmitArcs810(xml: seq<Element>, nodes: seq<TaxiNode>, stubs: seq<TaxiNode>, park: seq<nat>) returns (r: Result<seq<Element>>)
    requires |park| <= |stubs|
    ensures |nodes| < 12 || |stubs| == 0 ==> r == Err(IndexError)
    ensures |nodes| >= 12 && |stubs| >= 1 ==> r == Ok(xml + PairArcs(Links810(nodes, stubs, park)))
  {
    var out := EmitParkingArcs(xml, park, stubs);
    if |nodes| < 12 || |stubs| == 0 {
      return Err(IndexError);
    }
    ghost var written := ParkingLinks(park, stubs);
    out := out + PairArcs(Entry810(nodes, stubs));
    PairArcsExtend(xml, written, Entry810(nodes, stubs));
    written := written + Entry810(nodes, stubs);
    out := EmitChain(out, stubs);
    PairArcsExtend(xml, written, ChainLinks(stubs));
    written := written + ChainLinks(stubs);
    out := out + PairArcs(Exit810(nodes, stubs));
    PairArcsExtend(xml, written, Exit810(nodes, stubs));
    r := Ok(out);
  }

  /** The elements of an 810 airport whose extraction and segment loop succeed. */
  lemma Groundnet810Ok(proj: Projection, spacing: real, distance: real, content: seq<Line>, apt: string, ex: Extracted, lay: Layout)
    requires Extract810From(content, apt, 0, Start) == Ok(ex)
    requires RunwaysFrom(proj, spacing, distance, ex.records, 0, Origin) == Ok(lay)
    requires |lay.nodes| >= 12 && |lay.stubs| >= 1
    ensures |lay.park| <= |lay.stubs|
    ensures Groundnet810(proj, spacing, distance, content, apt)
            == Ok(Render(Document(FrequencyElements(ex.frequencies), lay.parking,
                                  NodeElements(lay.nodes, RunwayFlags, HoldFlags) + NodeElements(lay.stubs, {}, {}),
                                  PairArcs(Links810(lay.nodes, lay.stubs, lay.park)))))
  {
    var doc := Document(FrequencyElements(ex.frequencies), lay.parking,
                        NodeElements(lay.nodes, RunwayFlags, HoldFlags) + NodeElements(lay.stubs, {}, {}),
                        PairArcs(Links810(lay.nodes, lay.stubs, lay.park)));
    assert Document810(proj, spacing, distance, ex) == Ok(doc);
  }
}
