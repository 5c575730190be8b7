/** Writing taxi nodes and bidirectional arcs. */
module Emit {
  import opened Elements

  /** The indices of a list of taxi nodes. */
  function Indices(ns: seq<TaxiNode>): set<nat> {
    set j | 0 <= j < |ns| :: ns[j].index
  }

  /** The nodes `ns` carry the consecutive indices first, first + 1, ... */
  predicate Numbered(ns: seq<TaxiNode>, first: nat) {
    forall j :: 0 <= j < |ns| ==> ns[j].index == first + j
  }

  function NodeElements(ns: seq<TaxiNode>, runway: set<nat>, holds: set<nat>): (r: seq<Element>)
    ensures |r| == |ns|
    ensures forall j :: 0 <= j < |ns| ==> r[j] == NodeElement(ns[j], runway, holds)
  {
    seq(|ns|, j requires 0 <= j < |ns| => NodeElement(ns[j], runway, holds))
  }

  /**
   * Lines 359-373: one `node` element per taxi node, with the runway and hold flags
   * decided by index; the stub nodes are written with both sets empty.
   */
  method EmitNodes(xml: seq<Element>, ns: seq<TaxiNode>, runway: set<nat>, holds: set<nat>)
    returns (out: seq<Element>)
    ensures out == xml + NodeElements(ns, runway, holds)
  {
    out := xml;
    for t := 0 to |ns|
      invariant out == xml + NodeElements(ns[..t], runway, holds)
    {
      out := out + [NodeElement(ns[t], runway, holds)];
      assert NodeElements(ns[..t + 1], runway, holds) == NodeElements(ns[..t], runway, holds) + [NodeElement(ns[t], runway, holds)];
    }
    assert ns[..|ns|] == ns;
  }

  /** A connection: written as an arc and its begin/end-swapped twin. */
  function Twin(link: (nat, nat)): seq<Element> {
    [Arc(link.0, link.1), Arc(link.1, link.0)]
  }

  /** The arcs written for a list of connections, two per connection. */
  function PairArcs(links: seq<(nat, nat)>): seq<Element> {
    if links == [] then [] else PairArcs(links[..|links| - 1]) + Twin(links[|links| - 1])
  }

  /** Every arc is followed by its twin: arcs 2j and 2j+1 are the two directions of connection j. */
  lemma {:induction false} PairArcsShape(links: seq<(nat, nat)>)
    ensures |PairArcs(links)| == 2 * |links|
    ensures forall j :: 0 <= j < |links| ==>
              PairArcs(links)[2 * j] == Arc(links[j].0, links[j].1)
              && PairArcs(links)[2 * j + 1] == Arc(links[j].1, links[j].0)
  {
    if links != [] {
      PairArcsShape(links[..|links| - 1]);
    }
  }

  lemma {:induction false} PairArcsAppend(a: seq<(nat, nat)>, b: seq<(nat, nat)>)
    ensures PairArcs(a + b) == PairArcs(a) + PairArcs(b)
    decreases |b|
  {
    if b == [] {
      assert a + b == a;
    } else {
      var b' := b[..|b| - 1];
      assert (a + b)[..|a + b| - 1] == a + b';
      PairArcsAppend(a, b');
    }
  }

  /** Writing one more connection appends its two arcs. */
  lemma PairArcsSnoc(links: seq<(nat, nat)>, k: nat)
    requires k < |links|
    ensures PairArcs(links[..k + 1]) == PairArcs(links[..k]) + Twin(links[k])
  {
    assert links[..k + 1][..k] == links[..k];
  }

  /** A connection table written after another: the arcs of the two joined. */
  lemma PairArcsExtend(head: seq<Element>, a: seq<(nat, nat)>, b: seq<(nat, nat)>)
    ensures head + PairArcs(a) + PairArcs(b) == head + PairArcs(a + b)
  {
    PairArcsAppend(a, b);
    var pa, pb := PairArcs(a), PairArcs(b);
    assert head + pa + pb == head + (pa + pb);
  }

  /** The document written section after section, the node section in two parts. */
  lemma RenderSections(freqs: seq<Element>, parking: seq<Element>, nodes: seq<Element>, stubs: seq<Element>, arcs: seq<Element>)
    ensures Render(Document(freqs, parking, nodes + stubs, arcs))
            == [Text(Prologue)] + freqs + [Text(EndFrequencies)] + parking + [Text(BeginTaxiNodes)] + nodes + stubs
               + [Text(BeginSegments)] + arcs + [Text(Epilogue)]
  {
  }

  /** Each parking stand joined to the stub created with it. */
  function ParkingLinks(park: seq<nat>, stubs: seq<TaxiNode>): (r: seq<(nat, nat)>)
    requires |park| <= |stubs|
    ensures |r| == |park|
  {
    seq(|park|, j requires 0 <= j < |park| => (park[j], stubs[j].index))
  }

  /** Consecutive stub nodes joined in a chain. */
  function ChainLinks(stubs: seq<TaxiNode>): (r: seq<(nat, nat)>)
    ensures |stubs| > 0 ==> |r| == |stubs| - 1
  {
    if |stubs| == 0 then []
    else seq(|stubs| - 1, j requires 0 <= j < |stubs| - 1 => (stubs[j].index, stubs[j + 1].index))
  }

  /** Lines 378-382: an arc pair from every stand to its stub. */
  method EmitParkingArcs(xml: seq<Element>, park: seq<nat>, stubs: seq<TaxiNode>) returns (out: seq<Element>)
    requires |park| <= |stubs|
    ensures out == xml + PairArcs(ParkingLinks(park, stubs))
  {
    ghost var links := ParkingLinks(park, stubs);
    out := xml;
    for qq := 0 to |park|
      invariant out == xml + PairArcs(links[..qq])
    {
      PairArcsSnoc(links, qq);
      out := out + [Arc(park[qq], stubs[qq].index), Arc(stubs[qq].index, park[qq])];
    }
    assert links[..|park|] == links;
  }

  /** Lines 399-405: an arc pair between each stub and the next one. */
  method EmitChain(xml: seq<Element>, stubs: seq<TaxiNode>) returns (out: seq<Element>)
    ensures out == xml + PairArcs(ChainLinks(stubs))
  {
    ghost var links := ChainLinks(stubs);
    out := xml;
    var pp := 0;
    while pp < |stubs| - 1
      invariant 0 <= pp <= |links|
      invariant out == xml + PairArcs(links[..pp])
    {
      PairArcsSnoc(links, pp);
      assert links[pp] == (stubs[pp].index, stubs[pp + 1].index);
      out := out + [Arc(stubs[pp].index, stubs[pp + 1].index), Arc(stubs[pp + 1].index, stubs[pp].index)];
      pp := pp + 1;
    }
    assert links[..|links|] == links;
  }
}
