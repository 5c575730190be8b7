/** The `frequencies` block: radio frequency records turned into tagged elements. */
module Frequencies {
  import opened Outcome
  import opened Records
  import opened Elements
  import opened Window

  /** The tag written for a frequency code; codes 55 and 56 share APPROACH, every other code has none. */
  function TagOf(code: string): (r: Option<FreqTag>)
    ensures r.Some? <==> |code| == 2 && code[0] == '5' && '0' <= code[1] <= '6'
    ensures r == Some(APPROACH) <==> code == "55" || code == "56"
  {
    if code == "50" then Some(AWOS)
    else if code == "51" then Some(UNICOM)
    else if code == "52" then Some(CLEARANCE)
    else if code == "53" then Some(GROUND)
    else if code == "54" then Some(TOWER)
    else if code == "55" then Some(APPROACH)
    else if code == "56" then Some(APPROACH)
    else None
  }

  /** The codes 50 to 54 each get their own tag, none of them APPROACH. */
  lemma TagsDistinct()
    ensures TagOf("50") == Some(AWOS) && TagOf("51") == Some(UNICOM) && TagOf("52") == Some(CLEARANCE)
    ensures TagOf("53") == Some(GROUND) && TagOf("54") == Some(TOWER)
    ensures TagOf("55") == TagOf("56") == Some(APPROACH)
  {
  }

  /** A frequency line that produces an element. */
  predicate Tagged(l: Line) {
    |l.tokens| >= 2 && TagOf(l.tokens[0]).Some?
  }

  function FrequencyElement(l: Line): (e: Element)
    requires Tagged(l)
  {
    Freq(TagOf(l.tokens[0]).value, l.tokens[1])
  }

  /** The elements written for the collected frequency lines, in input order. */
  function FrequencyElements(ls: seq<Line>): seq<Element>
    requires forall l :: l in ls ==> IsFrequency(l)
  {
    if ls == [] then []
    else
      var last := ls[|ls| - 1];
      FrequencyElements(ls[..|ls| - 1]) + (if Tagged(last) then [FrequencyElement(last)] else [])
  }

  /**
   * Every tagged line gives one element and the others none, in input order:
   * the elements are exactly the tagged lines, each with its tag and frequency.
   */
  lemma {:induction false} FrequencyElementsInOrder(ls: seq<Line>)
    requires forall l :: l in ls ==> IsFrequency(l)
    ensures var kept := Filter(ls, Tagged);
            |FrequencyElements(ls)| == |kept|
            && forall j :: 0 <= j < |kept| ==> FrequencyElements(ls)[j] == FrequencyElement(kept[j])
  {
    if ls != [] {
      var init := ls[..|ls| - 1];
      assert forall l :: l in init ==> l in ls;
      FrequencyElementsInOrder(init);
    }
  }

  /** Lines 263-278: one element per tagged frequency line, appended in order. */
  method AppendFrequencies(xml: seq<Element>, freqData: seq<Line>) returns (out: seq<Element>)
    requires forall l :: l in freqData ==> IsFrequency(l)
    ensures out == xml + FrequencyElements(freqData)
  {
    out := xml;
    for t := 0 to |freqData|
      invariant out == xml + FrequencyElements(freqData[..t])
    {
      assert freqData[t] in freqData;
      var freq := freqData[t].tokens;
      assert freqData[..t + 1][..t] == freqData[..t];
      if TagOf(freq[0]).Some? {
        out := out + [Freq(TagOf(freq[0]).value, freq[1])];
      }
    }
    assert freqData[..|freqData|] == freqData;
  }
}
