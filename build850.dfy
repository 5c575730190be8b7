/**
 * The graph part of `parse_airport_850`. The vertex records of the airport's first taxiway
 * give 22 points; nine taxi nodes, numbered 9..17, are midpoints of fixed pairs of them. One
 * parking pass runs from the third of these along the heading of the last `110` record, its
 * stubs numbered 18..26, and the arcs are a fixed table over the nine nodes, the stands and the
 * stub chain.
 */
module Build850 {
  import opened Outcome
  import opened Records
  import opened Geometry
  import opened Elements
  import opened Frequencies
  import opened Emit
  import opened Parking
  import opened Extract

  /** Lines 494-506: a vertex is read as the latitude in field 1, then the longitude in field 2. */
  function ParseVertex(l: Line): Result<Point> {
    var lat :- Field(l.tokens, 1);
    var lon :- Field(l.tokens, 2);
    Ok(Point(lat, lon))
  }

  /**
   * A vertex parses exactly when it has a latitude and a longitude that are both numbers; a line
   * with no latitude field raises IndexError, a field that is not a number ValueError.
   */
  lemma VertexFields(l: Line)
    ensures ParseVertex(l).Ok? <==> |l.tokens| >= 3 && ParseReal(l.tokens[1]).Some? && ParseReal(l.tokens[2]).Some?
    ensures ParseVertex(l).Ok? ==> ParseVertex(l).value == Point(ParseReal(l.tokens[1]).value, ParseReal(l.tokens[2]).value)
    ensures |l.tokens| < 2 ==> ParseVertex(l) == Err(IndexError)
    ensures |l.tokens| >= 2 && ParseReal(l.tokens[1]).None? ==> ParseVertex(l) == Err(ValueError)
    ensures ParseVertex(l).Err? && |l.tokens| >= 3 ==> ParseVertex(l).fault == ValueError
  {
  }

  /** The vertex loop from line `k` on, appending to `acc`. */
  function VerticesFrom(lines: seq<Line>, k: nat, acc: seq<Point>): Result<seq<Point>>
    decreases |lines| - k
  {
    if k >= |lines| then Ok(acc)
    else
      var p :- ParseVertex(lines[k]);
      VerticesFrom(lines, k + 1, acc + [p])
  }

  /** Every vertex line from `k` on parses. */
  predicate ParsesFrom(lines: seq<Line>, k: nat) {
    forall j :: k <= j < |lines| ==> ParseVertex(lines[j]).Ok?
  }

  /** The points of the vertex lines from `k` on, one per line and in order. */
  function PointsFrom(lines: seq<Line>, k: nat): (r: seq<Point>)
    requires k <= |lines| && ParsesFrom(lines, k)
    ensures |r| == |lines| - k
    decreases |lines| - k
  {
    if k == |lines| then [] else [ParseVertex(lines[k]).value] + PointsFrom(lines, k + 1)
  }

  /** When every vertex line parses, the vertex loop yields one point per line, in order. */
  lemma {:induction false} VerticesOk(lines: seq<Line>, k: nat, acc: seq<Point>)
    requires k <= |lines| && ParsesFrom(lines, k)
    ensures VerticesFrom(lines, k, acc) == Ok(acc + PointsFrom(lines, k))
    decreases |lines| - k
  {
    if k < |lines| {
      var p := ParseVertex(lines[k]).value;
      VertexStep(lines, k, acc);
      PointsStep(lines, k);
      VerticesOk(lines, k + 1, acc + [p]);
      assert acc + [p] + PointsFrom(lines, k + 1) == acc + ([p] + PointsFrom(lines, k + 1));
    } else {
      assert acc + PointsFrom(lines, k) == acc;
    }
  }

  lemma VertexStep(lines: seq<Line>, k: nat, acc: seq<Point>)
    requires k < |lines| && ParsesFrom(lines, k)
    ensures ParsesFrom(lines, k + 1)
    ensures VerticesFrom(lines, k, acc) == VerticesFrom(lines, k + 1, acc + [ParseVertex(lines[k]).value])
  {
  }

  lemma PointsStep(lines: seq<Line>, k: nat)
    requires k < |lines| && ParsesFrom(lines, k)
    ensures PointsFrom(lines, k) == [ParseVertex(lines[k]).value] + PointsFrom(lines, k + 1)
  {
  }

  /** When some vertex line does not parse, the vertex loop fails with the fault of such a line. */
  lemma {:induction false} VerticesErr(lines: seq<Line>, k: nat, acc: seq<Point>)
    requires k <= |lines| && !ParsesFrom(lines, k)
    ensures VerticesFrom(lines, k, acc).Err?
    ensures exists j :: k <= j < |lines| && ParseVertex(lines[j]) == Err(VerticesFrom(lines, k, acc).fault)
    decreases |lines| - k
  {
    if ParseVertex(lines[k]).Ok? {
      VerticesErr(lines, k + 1, acc + [ParseVertex(lines[k]).value]);
    }
  }

  /** The midpoint of vertices `a` and `b` as a taxi node with the given index. */
  function Middle(v: seq<Point>, a: nat, b: nat, index: nat): TaxiNode
    requires a < |v| && b < |v|
  {
    TaxiNode(Midpoint(v[a], v[b]), index)
  }

  /** Lines 508-521: the nine named taxi nodes, 9..17, each between two vertices (12 between two centres). */
  function NamedNodes(v: seq<Point>): (r: seq<TaxiNode>)
    requires |v| >= 22
    ensures |r| == 9 && Numbered(r, 9)
  {
    var center1 := Midpoint(v[8], v[11]);
    var center2 := Midpoint(v[1], v[2]);
    [Middle(v, 0, 15, 9), Middle(v, 16, 17, 10), Middle(v, 1, 12, 11), TaxiNode(Midpoint(center1, center2), 12),
     Middle(v, 2, 7, 13), Middle(v, 20, 21, 14), Middle(v, 3, 4, 15), Middle(v, 18, 19, 16), Middle(v, 9, 10, 17)]
  }

  /** The point `p` lies in the latitude/longitude box from `lo` to `hi`. */
  predicate InBox(p: Point, lo: Point, hi: Point) {
    lo.lat <= p.lat <= hi.lat && lo.lon <= p.lon <= hi.lon
  }

  lemma MidpointInBox(a: Point, b: Point, lo: Point, hi: Point)
    requires InBox(a, lo, hi) && InBox(b, lo, hi)
    ensures InBox(Midpoint(a, b), lo, hi)
  {
  }

  /** Every named node lies inside any box that holds all the vertices. */
  lemma NamedInBox(v: seq<Point>, lo: Point, hi: Point)
    requires |v| >= 22
    requires forall j :: 0 <= j < |v| ==> InBox(v[j], lo, hi)
    ensures forall j :: 0 <= j < 9 ==> InBox(NamedNodes(v)[j].pos, lo, hi)
  {
    var center1 := Midpoint(v[8], v[11]);
    var center2 := Midpoint(v[1], v[2]);
    MidpointInBox(v[8], v[11], lo, hi);
    MidpointInBox(v[1], v[2], lo, hi);
    MidpointInBox(center1, center2, lo, hi);
    MidpointInBox(v[0], v[15], lo, hi);
    MidpointInBox(v[16], v[17], lo, hi);
    MidpointInBox(v[1], v[12], lo, hi);
    MidpointInBox(v[2], v[7], lo, hi);
    MidpointInBox(v[20], v[21], lo, hi);
    MidpointInBox(v[3], v[4], lo, hi);
    MidpointInBox(v[18], v[19], lo, hi);
    MidpointInBox(v[9], v[10], lo, hi);
  }

  /** Lines 576-579: `isOnRunway` is 1 for 9, 15 and 17, `holdPointType` is normal for 10, 14 and 16. */
  const RunwayFlags: set<nat> := {9, 15, 17}
  const HoldFlags: set<nat> := {10, 14, 16}

  /** Lines 594-604: the connections written before the stub chain. */
  function Entry850(named: seq<TaxiNode>, stubs: seq<TaxiNode>): seq<(nat, nat)>
    requires |named| == 9 && |stubs| >= 1
  {
    [(named[0].index, named[1].index), (named[1].index, named[2].index), (named[2].index, stubs[0].index)]
  }

  /** Lines 615-632: the connections written after the stub chain. */
  function Exit850(named: seq<TaxiNode>, stubs: seq<TaxiNode>): seq<(nat, nat)>
    requires |named| == 9 && |stubs| >= 1
  {
    [(named[3].index, stubs[|stubs| - 1].index), (named[3].index, named[4].index), (named[4].index, named[5].index),
     (named[6].index, named[5].index), (named[3].index, named[7].index), (named[7].index, named[8].index)]
  }

  /** Lines 591-632: the connections, each written as an arc pair. */
  function Links850(named: seq<TaxiNode>, stubs: seq<TaxiNode>, park: seq<nat>): (r: seq<(nat, nat)>)
    requires |named| == 9 && |stubs| >= 1 && |park| <= |stubs|
    ensures |r| == |park| + |stubs| + 8
  {
    ParkingLinks(park, stubs) + Entry850(named, stubs) + ChainLinks(stubs) + Exit850(named, stubs)
  }

  /** Lines 524-561: the one parking pass, from the third named node, numbering its stubs after 17. */
  function Pass850(proj: Projection, spacing: real, distance: real, named: seq<TaxiNode>, heading: real): Pass
    requires |named| == 9
  {
    PassSpec(proj, spacing, distance, named[2].pos, heading, Turn(heading, 180.0), 17)
  }

  /** The document of an 850 airport, or the exception raised while building it. */
  function Document850(proj: Projection, spacing: real, distance: real, ex: Extracted): Result<Document>
    requires forall l :: l in ex.frequencies ==> IsFrequency(l)
  {
    var v :- VerticesFrom(ex.records, 0, []);
    if |v| < 22 then Err(IndexError)
    else
      var named := NamedNodes(v);
      var p := Pass850(proj, spacing, distance, named, ex.heading);
      Ok(Document(FrequencyElements(ex.frequencies), [Text(BeginParking)] + p.stands + [Text(EndParking)],
                  NodeElements(named, RunwayFlags, HoldFlags) + NodeElements(p.stubs, {}, {}),
                  PairArcs(Links850(named, p.stubs, p.park))))
  }

  /** `parse_airport_850` up to `save_network`: the elements written for `apt`. */
  function Groundnet850(proj: Projection, spacing: real, distance: real, content: seq<Line>, apt: string): Result<seq<Element>> {
    var ex :- Extract850From(content, apt, 0, Start);
    var doc :- Document850(proj, spacing, distance, ex);
    Ok(Render(doc))
  }

  // ---------------------------------------------------------------- properties

  /**
   * An 850 document exists exactly when every vertex record parses and there are at least 22 of
   * them; otherwise the vertex loop's error is raised, or IndexError for too few vertices.
   */
  lemma Document850Ok(proj: Projection, spacing: real, distance: real, ex: Extracted)
    requires forall l :: l in ex.frequencies ==> IsFrequency(l)
    ensures Document850(proj, spacing, distance, ex).Ok? <==> ParsesFrom(ex.records, 0) && |ex.records| >= 22
    ensures ParsesFrom(ex.records, 0) && |ex.records| < 22 ==> Document850(proj, spacing, distance, ex) == Err(IndexError)
    ensures !ParsesFrom(ex.records, 0) ==>
              Document850(proj, spacing, distance, ex).Err?
              && exists j :: 0 <= j < |ex.records| && ParseVertex(ex.records[j]) == Err(Document850(proj, spacing, distance, ex).fault)
  {
    if ParsesFrom(ex.records, 0) {
      VerticesOk(ex.records, 0, []);
    } else {
      VerticesErr(ex.records, 0, []);
    }
  }

  /** The stubs of the 850 pass are 18..26, each joined to the stand of the same number minus 18. */
  lemma Stubs850(proj: Projection, spacing: real, distance: real, named: seq<TaxiNode>, heading: real)
    requires |named| == 9
    ensures var p := Pass850(proj, spacing, distance, named, heading);
            && |p.stubs| == |p.park| == StandCount && Numbered(p.stubs, 18)
            && forall j :: 0 <= j < StandCount ==> p.park[j] == j
  {
    var p := Pass850(proj, spacing, distance, named, heading);
    PassShape(proj, spacing, distance, named[2].pos, heading, Turn(heading, 180.0), 17);
  }

  /** The 850 taxi nodes: named nodes 9..17 then stubs 18..26, with the flags on 9, 15, 17 and 10, 14, 16. */
  lemma Nodes850(named: seq<TaxiNode>, stubs: seq<TaxiNode>)
    requires |named| == 9 && Numbered(named, 9) && |stubs| == StandCount && Numbered(stubs, 18)
    ensures var nodes := NodeElements(named, RunwayFlags, HoldFlags) + NodeElements(stubs, {}, {});
            && |nodes| == 18
            && (forall j :: 0 <= j < 18 ==> nodes[j].Node? && nodes[j].index == 9 + j)
            && (forall j :: 0 <= j < 18 ==> (nodes[j].onRunway <==> nodes[j].index in {9, 15, 17}))
            && (forall j :: 0 <= j < 18 ==> (nodes[j].hold == NormalHold <==> nodes[j].index in {10, 14, 16}))
  {
    var nodes := NodeElements(named, RunwayFlags, HoldFlags) + NodeElements(stubs, {}, {});
    forall j | 9 <= j < 18
      ensures nodes[j] == NodeElement(stubs[j - 9], {}, {})
    {
    }
  }

  /** Every connection of the 850 table joins two of the indices 0..26. */
  lemma Links850Range(named: seq<TaxiNode>, stubs: seq<TaxiNode>, park: seq<nat>)
    requires |named| == 9 && Numbered(named, 9) && |stubs| == |park| == StandCount && Numbered(stubs, 18)
    requires forall j :: 0 <= j < StandCount ==> park[j] == j
    ensures var links := Links850(named, stubs, park);
            forall j :: 0 <= j < |links| ==> links[j].0 <= 26 && links[j].1 <= 26
  {
    var pl, first, cl, last := ParkingLinks(park, stubs), Entry850(named, stubs), ChainLinks(stubs), Exit850(named, stubs);
    ParkingBounded(park, stubs);
    ChainBounded(stubs);
    Bounded(pl, first, cl, last, 26);
  }

  lemma ParkingBounded(park: seq<nat>, stubs: seq<TaxiNode>)
    requires |stubs| == |park| == StandCount && Numbered(stubs, 18)
    requires forall j :: 0 <= j < StandCount ==> park[j] == j
    ensures var pl := ParkingLinks(park, stubs); forall j :: 0 <= j < |pl| ==> pl[j].0 <= 26 && pl[j].1 <= 26
  {
  }

  lemma ChainBounded(stubs: seq<TaxiNode>)
    requires |stubs| == StandCount && Numbered(stubs, 18)
    ensures var cl := ChainLinks(stubs); forall j :: 0 <= j < |cl| ==> cl[j].0 <= 26 && cl[j].1 <= 26
  {
  }

  /** Bounds on the four parts of a table are bounds on the whole. */
  lemma Bounded(a: seq<(nat, nat)>, b: seq<(nat, nat)>, c: seq<(nat, nat)>, d: seq<(nat, nat)>, top: nat)
    requires forall j :: 0 <= j < |a| ==> a[j].0 <= top && a[j].1 <= top
    requires forall j :: 0 <= j < |b| ==> b[j].0 <= top && b[j].1 <= top
    requires forall j :: 0 <= j < |c| ==> c[j].0 <= top && c[j].1 <= top
    requires forall j :: 0 <= j < |d| ==> d[j].0 <= top && d[j].1 <= top
    ensures var s := a + b + c + d; forall j :: 0 <= j < |s| ==> s[j].0 <= top && s[j].1 <= top
  {
    var s := a + b + c + d;
    forall j | 0 <= j < |s|
      ensures s[j].0 <= top && s[j].1 <= top
    {
      if j < |a| {
        assert s[j] == a[j];
      } else if j < |a| + |b| {
        assert s[j] == b[j - |a|];
      } else if j < |a| + |b| + |c| {
        assert s[j] == c[j - |a| - |b|];
      } else {
        assert s[j] == d[j - |a| - |b| - |c|];
      }
    }
  }

  /** The arcs of the 850 table: 26 twinned pairs between indices 0..26. */
  lemma ArcsOf850(named: seq<TaxiNode>, stubs: seq<TaxiNode>, park: seq<nat>)
    requires |named| == 9 && Numbered(named, 9) && |stubs| == |park| == StandCount && Numbered(stubs, 18)
    requires forall j :: 0 <= j < StandCount ==> park[j] == j
    ensures var arcs := PairArcs(Links850(named, stubs, park));
            && |arcs| == 2 * 26
            && (forall j :: 0 <= j < 26 ==> arcs[2 * j].Arc? && arcs[2 * j + 1] == Arc(arcs[2 * j].end, arcs[2 * j].begin))
            && (forall a :: a in arcs ==> a.Arc? && a.begin <= 26 && a.end <= 26)
  {
    var links := Links850(named, stubs, park);
    PairArcsShape(links);
    Links850Range(named, stubs, park);
    var arcs := PairArcs(links);
    forall a | a in arcs
      ensures a.Arc? && a.begin <= 26 && a.end <= 26
    {
      var i :| 0 <= i < |arcs| && arcs[i] == a;
      var j := i / 2;
      assert i == 2 * j || i == 2 * j + 1;
      assert links[j].0 <= 26 && links[j].1 <= 26;
      assert arcs[2 * j] == Arc(links[j].0, links[j].1) && arcs[2 * j + 1] == Arc(links[j].1, links[j].0);
    }
  }

  /**
   * Lines 588-635: an 850 document has 26 connections, 52 arcs, each followed by its twin, and
   * every arc joins two of the 27 indices 0..26 (stands 0..8, named nodes 9..17, stubs 18..26).
   */
  lemma Arcs850(proj: Projection, spacing: real, distance: real, ex: Extracted)
    requires forall l :: l in ex.frequencies ==> IsFrequency(l)
    requires Document850(proj, spacing, distance, ex).Ok?
    ensures var arcs := Document850(proj, spacing, distance, ex).value.arcs;
            && |arcs| == 2 * 26
            && (forall j :: 0 <= j < 26 ==> arcs[2 * j].Arc? && arcs[2 * j + 1] == Arc(arcs[2 * j].end, arcs[2 * j].begin))
            && (forall a :: a in arcs ==> a.Arc? && a.begin <= 26 && a.end <= 26)
  {
    var v := VerticesFrom(ex.records, 0, []).value;
    var named := NamedNodes(v);
    var p := Pass850(proj, spacing, distance, named, ex.heading);
    Stubs850(proj, spacing, distance, named, ex.heading);
    assert Document850(proj, spacing, distance, ex).value.arcs == PairArcs(Links850(named, p.stubs, p.park));
    ArcsOf850(named, p.stubs, p.park);
  }

  /** Lines 564-586: an 850 document lists the nodes 9..26 in order with the 850 flags. */
  lemma Document850Nodes(proj: Projection, spacing: real, distance: real, ex: Extracted)
    requires forall l :: l in ex.frequencies ==> IsFrequency(l)
    requires Document850(proj, spacing, distance, ex).Ok?
    ensures var nodes := Document850(proj, spacing, distance, ex).value.nodes;
            && |nodes| == 18
            && (forall j :: 0 <= j < 18 ==> nodes[j].Node? && nodes[j].index == 9 + j)
            && (forall j :: 0 <= j < 18 ==> (nodes[j].onRunway <==> nodes[j].index in {9, 15, 17}))
            && (forall j :: 0 <= j < 18 ==> (nodes[j].hold == NormalHold <==> nodes[j].index in {10, 14, 16}))
  {
    var v := VerticesFrom(ex.records, 0, []).value;
    var named := NamedNodes(v);
    var p := Pass850(proj, spacing, distance, named, ex.heading);
    Stubs850(proj, spacing, distance, named, ex.heading);
    Nodes850(named, p.stubs);
  }

  // ---------------------------------------------------------------- the loops

  /** Lines 494-506: the vertex loop. */
  method ReadVertices(lineData: seq<Line>) returns (r: Result<seq<Point>>)
    ensures r == VerticesFrom(lineData, 0, [])
  {
    var nodes: seq<Point> := [];
    for t := 0 to |lineData|
      invariant VerticesFrom(lineData, 0, []) == VerticesFrom(lineData, t, nodes)
    {
      var tokens := lineData[t].tokens;
      var lat := Field(tokens, 1);
      if lat.Err? { return Err(lat.fault); }
      var lon := Field(tokens, 2);
      if lon.Err? { return Err(lon.fault); }
      nodes := nodes + [Point(lat.value, lon.value)];
    }
    r := Ok(nodes);
  }

  /** Lines 437-637: `parse_airport_850` up to `save_network`. */
  method ParseAirport850(proj: Projection, spacing: real, distance: real, content: seq<Line>, apt: string)
    returns (r: Result<seq<Element>>)
    ensures r == Groundnet850(proj, spacing, distance, content, apt)
  {
    Groundnet850Cases(proj, spacing, distance, content, apt);
    var ex := Extract850(content, apt);
    if ex.Err? {
      return Err(ex.fault);
    }
    var xml := [Text(Prologue)];
    xml := AppendFrequencies(xml, ex.value.frequencies);
    xml := xml + [Text(EndFrequencies)];
    var vertices := ReadVertices(ex.value.records);
    if vertices.Err? {
      return Err(vertices.fault);
    }
    if |vertices.value| < 22 {
      return Err(IndexError);
    }
    var named := NamedNodes(vertices.value);
    var pass, index := ParkingPass(proj, spacing, distance, named[2].pos, ex.value.heading, Turn(ex.value.heading, 180.0), 17);
    var parking := [Text(BeginParking)] + pass.stands + [Text(EndParking)];
    xml := xml + parking + [Text(BeginTaxiNodes)];
    xml := EmitNodes(xml, named, RunwayFlags, HoldFlags);
    xml := EmitNodes(xml, pass.stubs, {}, {});
    xml := xml + [Text(BeginSegments)];
    var arcs := EmitArcs850(xml, named, pass.stubs, pass.park);
    r := Ok(arcs + [Text(Epilogue)]);
    RenderSections(FrequencyElements(ex.value.frequencies), parking, NodeElements(named, RunwayFlags, HoldFlags),
                NodeElements(pass.stubs, {}, {}), PairArcs(Links850(named, pass.stubs, pass.park)));
  }

  /** Lines 588-635: the arc section. */
  method EmitArcs850(xml: seq<Element>, named: seq<TaxiNode>, stubs: seq<TaxiNode>, park: seq<nat>) returns (out: seq<Element>)
    requires |named| == 9 && |stubs| >= 1 && |park| <= |stubs|
    ensures out == xml + PairArcs(Links850(named, stubs, park))
  {
    out := EmitParkingArcs(xml, park, stubs);
    ghost var written := ParkingLinks(park, stubs);
    out := out + PairArcs(Entry850(named, stubs));
    PairArcsExtend(xml, written, Entry850(named, stubs));
    written := written + Entry850(named, stubs);
    out := EmitChain(out, stubs);
    PairArcsExtend(xml, written, ChainLinks(stubs));
    written := written + ChainLinks(stubs);
    out := out + PairArcs(Exit850(named, stubs));
    PairArcsExtend(xml, written, Exit850(named, stubs));
  }

  /** How `parse_airport_850` ends: with the extraction's error, a vertex error, IndexError, or the document. */
  lemma Groundnet850Cases(proj: Projection, spacing: real, distance: real, content: seq<Line>, apt: string)
    ensures Extract850From(content, apt, 0, Start).Err? ==>
              Groundnet850(proj, spacing, distance, content, apt) == Err(Extract850From(content, apt, 0, Start).fault)
    ensures Extract850From(content, apt, 0, Start).Ok? ==>
              var ex := Extract850From(content, apt, 0, Start).value;
              var v := VerticesFrom(ex.records, 0, []);
              && (v.Err? ==> Groundnet850(proj, spacing, distance, content, apt) == Err(v.fault))
              && (v.Ok? && |v.value| < 22 ==> Groundnet850(proj, spacing, distance, content, apt) == Err(IndexError))
              && (v.Ok? && |v.value| >= 22 ==>
                    var named := NamedNodes(v.value);
                    var p := Pass850(proj, spacing, distance, named, ex.heading);
                    Groundnet850(proj, spacing, distance, content, apt)
                    == Ok(Render(Document(FrequencyElements(ex.frequencies), [Text(BeginParking)] + p.stands + [Text(EndParking)],
                                          NodeElements(named, RunwayFlags, HoldFlags) + NodeElements(p.stubs, {}, {}),
                                          PairArcs(Links850(named, p.stubs, p.park))))))
  {
    if Extract850From(content, apt, 0, Start).Ok? {
      var ex := Extract850From(content, apt, 0, Start).value;
      var v := VerticesFrom(ex.records, 0, []);
      if v.Ok? && |v.value| >= 22 {
        var named := NamedNodes(v.value);
        var p := Pass850(proj, spacing, distance, named, ex.heading);
        var doc := Document(FrequencyElements(ex.frequencies), [Text(BeginParking)] + p.stands + [Text(EndParking)],
                            NodeElements(named, RunwayFlags, HoldFlags) + NodeElements(p.stubs, {}, {}),
                            PairArcs(Links850(named, p.stubs, p.park)));
        assert Document850(proj, spacing, distance, ex) == Ok(doc);
      }
    }
  }
}
