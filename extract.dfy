/**
 * The first loop of `parse_airport` (810) and `parse_airport_850` (850): for every header line of
 * the requested airport, collect the record lines of its layout from the look-ahead after the
 * header, and the radio frequency lines from the look-ahead starting three lines further down.
 * The 850 loop also keeps the heading of the last `110` taxiway record it passes.
 */
module Extract {
  import opened Outcome
  import opened Records
  import opened Window

  /** `line_data`, `freq_data` and (850 only) `heading`, as the loop leaves them. */
  datatype Extracted = Extracted(records: seq<Line>, frequencies: seq<Line>, heading: real)

  /** Both loops start from empty lists and heading 0. */
  const Start: Extracted := Extracted([], [], 0.0)

  // ---------------------------------------------------------------- 810

  /**
   * The 810 loop from line `i` on: a header of `apt` at `i` adds the taxiway segments of
   * lines i+1..i+14 (up to a blank line) and the frequencies of lines i+4..i+24 (up to a "\n" line).
   */
  function Extract810From(content: seq<Line>, apt: string, i: nat, acc: Extracted): (r: Result<Extracted>)
    ensures (forall l :: l in acc.frequencies ==> IsFrequency(l)) && r.Ok? ==> forall l :: l in r.value.frequencies ==> IsFrequency(l)
    decreases |content| - i
  {
    if i >= |content| then Ok(acc)
    else if !IsHeaderOf(content[i], apt) then Extract810From(content, apt, i + 1, acc)
    else
      var segs :- Collect(content, i + 1, i + 15, IsBlank, IsTaxiwaySegment);
      var freqs :- Collect(content, i + 4, i + 25, IsLfBlank, IsFrequency);
      Extract810From(content, apt, i + 1, Extracted(acc.records + segs, acc.frequencies + freqs, acc.heading))
  }

  /** The two 810 look-aheads of the header at `h`. */
  function Windows810(content: seq<Line>, h: nat): Result<Extracted> {
    var segs :- Collect(content, h + 1, h + 15, IsBlank, IsTaxiwaySegment);
    var freqs :- Collect(content, h + 4, h + 25, IsLfBlank, IsFrequency);
    Ok(Extracted(segs, freqs, 0.0))
  }

  /** No header of `apt` among the lines from `i` on. */
  predicate NoHeaderFrom(content: seq<Line>, apt: string, i: nat) {
    forall j :: i <= j < |content| ==> !IsHeaderOf(content[j], apt)
  }

  lemma {:induction false} Extract810Idle(content: seq<Line>, apt: string, i: nat, acc: Extracted)
    requires NoHeaderFrom(content, apt, i)
    ensures Extract810From(content, apt, i, acc) == Ok(acc)
    decreases |content| - i
  {
    if i < |content| {
      Extract810Idle(content, apt, i + 1, acc);
    }
  }

  /**
   * An airport with a single header line `h`: what the 810 loop extracts is exactly the two
   * look-aheads after that header, and the loop fails exactly when one of them does.
   */
  lemma {:induction false} SingleHeader810(content: seq<Line>, apt: string, h: nat, i: nat)
    requires i <= h < |content| && IsHeaderOf(content[h], apt)
    requires forall j :: i <= j < |content| && j != h ==> !IsHeaderOf(content[j], apt)
    ensures Extract810From(content, apt, i, Start) == Windows810(content, h)
    decreases h - i
  {
    if i < h {
      SingleHeader810(content, apt, h, i + 1);
    } else {
      match Windows810(content, h)
      case Err(_) =>
      case Ok(ex) =>
        assert [] + ex.records == ex.records && [] + ex.frequencies == ex.frequencies;
        Extract810Idle(content, apt, h + 1, ex);
    }
  }

  /** The loop of `parse_airport` that fills `line_data` and `freq_data`. */
  method Extract810(content: seq<Line>, apt: string) returns (r: Result<Extracted>)
    ensures r == Extract810From(content, apt, 0, Start)
  {
    var lineData: seq<Line> := [];
    var freqData: seq<Line> := [];
    var i := 0;
    while i < |content|
      invariant i <= |content|
      invariant Extract810From(content, apt, 0, Start) == Extract810From(content, apt, i, Extracted(lineData, freqData, 0.0))
    {
      if IsHeaderOf(content[i], apt) {
        var segs := CollectWindow(content, i + 1, i + 15, IsBlank, IsTaxiwaySegment);
        if segs.Err? {
          return Err(segs.fault);
        }
        var freqs := CollectWindow(content, i + 4, i + 25, IsLfBlank, IsFrequency);
        if freqs.Err? {
          return Err(freqs.fault);
        }
        lineData := lineData + segs.value;
        freqData := freqData + freqs.value;
      }
      i := i + 1;
    }
    return Ok(Extracted(lineData, freqData, 0.0));
  }

  // ---------------------------------------------------------------- 850

  /**
   * The 850 vertex look-ahead from `k`: collects `111`/`112`/`113`/`115` records after `acc`
   * and replaces `heading` with the third number of every `110` record it meets (ValueError
   * when that number does not parse).
   */
  function VertexScan(content: seq<Line>, k: nat, to: nat, acc: seq<Line>, heading: real): Result<(seq<Line>, real)>
    decreases (to as int) - (k as int)
  {
    if k >= to then Ok((acc, heading))
    else if k >= |content| then Err(IndexError)
    else if IsBlank(content[k]) then Ok((acc, heading))
    else
      var l := content[k];
      var acc' := if IsVertexRecord(l) then acc + [l] else acc;
      if IsHeadingRecord(l) then
        var h :- Float(l.tokens[3]);
        VertexScan(content, k + 1, to, acc', h)
      else VertexScan(content, k + 1, to, acc', heading)
  }

  /** Every heading record of `w` carries a number. */
  predicate HeadingsParse(w: seq<Line>) {
    forall j :: 0 <= j < |w| && IsHeadingRecord(w[j]) ==> ParseReal(w[j].tokens[3]).Some?
  }

  /** The heading of the last heading record of `w`, or `h` when there is none. */
  function LastHeading(w: seq<Line>, h: real): (r: real)
    requires HeadingsParse(w)
    ensures (forall j :: 0 <= j < |w| ==> !IsHeadingRecord(w[j])) ==> r == h
    ensures r == h || exists j :: 0 <= j < |w| && IsHeadingRecord(w[j]) && ParseReal(w[j].tokens[3]) == Some(r)
  {
    if w == [] then h
    else if IsHeadingRecord(w[|w| - 1]) then ParseReal(w[|w| - 1].tokens[3]).value
    else LastHeading(w[..|w| - 1], h)
  }

  /** The heading is the number of the heading record that no other heading record follows. */
  lemma {:induction false} LastHeadingIsLast(w: seq<Line>, h: real, j: nat)
    requires HeadingsParse(w)
    requires j < |w| && IsHeadingRecord(w[j])
    requires forall k :: j < k < |w| ==> !IsHeadingRecord(w[k])
    ensures ParseReal(w[j].tokens[3]) == Some(LastHeading(w, h))
    decreases |w|
  {
    if j < |w| - 1 {
      var init := w[..|w| - 1];
      assert !IsHeadingRecord(w[|w| - 1]);
      assert forall k :: 0 <= k < |init| ==> init[k] == w[k];
      LastHeadingIsLast(init, h, j);
    }
  }

  lemma {:induction false} LastHeadingCons(x: Line, w: seq<Line>, h: real)
    requires HeadingsParse([x] + w)
    ensures HeadingsParse(w)
    ensures IsHeadingRecord(x) ==> ParseReal(x.tokens[3]).Some?
    ensures LastHeading([x] + w, h)
            == LastHeading(w, if IsHeadingRecord(x) then ParseReal(x.tokens[3]).value else h)
    decreases |w|
  {
    assert ([x] + w)[0] == x;
    assert forall j :: 0 <= j < |w| ==> w[j] == ([x] + w)[j + 1];
    if w != [] {
      var init := w[..|w| - 1];
      assert ([x] + w)[..|[x] + w| - 1] == [x] + init;
      assert forall j :: 0 <= j < |init| ==> init[j] == w[j];
      LastHeadingCons(x, init, h);
    }
  }

  /** One step of the vertex look-ahead. */
  lemma VertexStep(content: seq<Line>, k: nat, to: nat, acc: seq<Line>, heading: real)
    requires k < to && k < |content| && !IsBlank(content[k])
    ensures var x := content[k];
            var acc' := if IsVertexRecord(x) then acc + [x] else acc;
            VertexScan(content, k, to, acc, heading)
            == if !IsHeadingRecord(x) then VertexScan(content, k + 1, to, acc', heading)
               else if ParseReal(x.tokens[3]).None? then Err(ValueError)
               else VertexScan(content, k + 1, to, acc', ParseReal(x.tokens[3]).value)
  {
  }

  /** What the vertex look-ahead yields over the window `w`, after `acc` and from `heading`. */
  function WindowResult(w: seq<Line>, acc: seq<Line>, heading: real): Result<(seq<Line>, real)> {
    if HeadingsParse(w) then Ok((acc + Filter(w, IsVertexRecord), LastHeading(w, heading)))
    else Err(ValueError)
  }

  /** Taking one more line at the front of the window is one step of the look-ahead. */
  lemma WindowResultCons(x: Line, w: seq<Line>, acc: seq<Line>, heading: real)
    ensures var acc' := if IsVertexRecord(x) then acc + [x] else acc;
            WindowResult([x] + w, acc, heading)
            == if !IsHeadingRecord(x) then WindowResult(w, acc', heading)
               else if ParseReal(x.tokens[3]).None? then Err(ValueError)
               else WindowResult(w, acc', ParseReal(x.tokens[3]).value)
  {
    var acc' := if IsVertexRecord(x) then acc + [x] else acc;
    FilterCons(x, w, IsVertexRecord);
    assert acc' + Filter(w, IsVertexRecord) == acc + Filter([x] + w, IsVertexRecord);
    assert ([x] + w)[0] == x;
    if HeadingsParse([x] + w) {
      LastHeadingCons(x, w, heading);
    } else if IsHeadingRecord(x) ==> ParseReal(x.tokens[3]).Some? {
      var j :| 0 <= j < |[x] + w| && IsHeadingRecord(([x] + w)[j]) && ParseReal(([x] + w)[j].tokens[3]).None?;
      assert j > 0 && ([x] + w)[j] == w[j - 1];
    } else {
      assert !HeadingsParse([x] + w);
    }
  }

  /**
   * The vertex look-ahead collects the vertex records of the window before the first blank
   * line and ends with the heading of its last `110` record (or the heading it started with);
   * it fails with ValueError on a heading that is not a number, or when it runs off the file.
   */
  lemma {:induction false} VertexScanWindow(content: seq<Line>, k: nat, to: nat, acc: seq<Line>, heading: real)
    ensures match Scan(content, k, to, IsBlank)
            case Err(_) => VertexScan(content, k, to, acc, heading).Err?
            case Ok(w) => VertexScan(content, k, to, acc, heading) == WindowResult(w, acc, heading)
    decreases (to as int) - (k as int)
  {
    if k >= to || k >= |content| || IsBlank(content[k]) {
      assert acc + [] == acc;
    } else {
      var x := content[k];
      var acc' := if IsVertexRecord(x) then acc + [x] else acc;
      var h' := if IsHeadingRecord(x) && ParseReal(x.tokens[3]).Some? then ParseReal(x.tokens[3]).value else heading;
      VertexScanWindow(content, k + 1, to, acc', h');
      VertexStep(content, k, to, acc, heading);
      match Scan(content, k + 1, to, IsBlank)
      case Err(_) =>
      case Ok(w) =>
        assert Scan(content, k, to, IsBlank) == Ok([x] + w);
        WindowResultCons(x, w, acc, heading);
    }
  }

  /**
   * The 850 loop from line `i` on: a header of `apt` at `i` adds the vertex records of lines
   * i+1..i+39 (up to a blank line), takes the heading of the last `110` record there, and adds
   * the frequencies of lines i+4..i+39 (up to a "\n" line).
   */
  function Extract850From(content: seq<Line>, apt: string, i: nat, acc: Extracted): (r: Result<Extracted>)
    ensures (forall l :: l in acc.frequencies ==> IsFrequency(l)) && r.Ok? ==> forall l :: l in r.value.frequencies ==> IsFrequency(l)
    decreases |content| - i
  {
    if i >= |content| then Ok(acc)
    else if !IsHeaderOf(content[i], apt) then Extract850From(content, apt, i + 1, acc)
    else
      var vh :- VertexScan(content, i + 1, i + 40, acc.records, acc.heading);
      var freqs :- Collect(content, i + 4, i + 40, IsLfBlank, IsFrequency);
      Extract850From(content, apt, i + 1, Extracted(vh.0, acc.frequencies + freqs, vh.1))
  }

  /** The two 850 look-aheads of the header at `h`, from an empty start. */
  function Windows850(content: seq<Line>, h: nat): Result<Extracted> {
    var vh :- VertexScan(content, h + 1, h + 40, [], 0.0);
    var freqs :- Collect(content, h + 4, h + 40, IsLfBlank, IsFrequency);
    Ok(Extracted(vh.0, freqs, vh.1))
  }

  lemma {:induction false} Extract850Idle(content: seq<Line>, apt: string, i: nat, acc: Extracted)
    requires NoHeaderFrom(content, apt, i)
    ensures Extract850From(content, apt, i, acc) == Ok(acc)
    decreases |content| - i
  {
    if i < |content| {
      Extract850Idle(content, apt, i + 1, acc);
    }
  }

  /** An airport with a single header line `h`: the 850 loop extracts exactly the look-aheads of that header. */
  lemma {:induction false} SingleHeader850(content: seq<Line>, apt: string, h: nat, i: nat)
    requires i <= h < |content| && IsHeaderOf(content[h], apt)
    requires forall j :: i <= j < |content| && j != h ==> !IsHeaderOf(content[j], apt)
    ensures Extract850From(content, apt, i, Start) == Windows850(content, h)
    decreases h - i
  {
    if i < h {
      SingleHeader850(content, apt, h, i + 1);
    } else {
      match Windows850(content, h)
      case Err(_) =>
      case Ok(ex) =>
        assert [] + ex.frequencies == ex.frequencies;
        Extract850Idle(content, apt, h + 1, ex);
    }
  }

  /**
   * For a single header, the extracted heading is that of the last `110` record of the vertex
   * look-ahead, or 0 when there is none, and the records are the vertex records of that window.
   */
  lemma Heading850(content: seq<Line>, apt: string, h: nat)
    requires h < |content| && IsHeaderOf(content[h], apt)
    requires forall j :: 0 <= j < |content| && j != h ==> !IsHeaderOf(content[j], apt)
    requires Extract850From(content, apt, 0, Start).Ok?
    ensures Scan(content, h + 1, h + 40, IsBlank).Ok?
    ensures var w := Scan(content, h + 1, h + 40, IsBlank).value;
            var ex := Extract850From(content, apt, 0, Start).value;
            HeadingsParse(w) && ex.records == Filter(w, IsVertexRecord) && ex.heading == LastHeading(w, 0.0)
  {
    SingleHeader850(content, apt, h, 0);
    VertexScanWindow(content, h + 1, h + 40, [], 0.0);
    match Scan(content, h + 1, h + 40, IsBlank)
    case Err(_) =>
    case Ok(w) =>
      assert [] + Filter(w, IsVertexRecord) == Filter(w, IsVertexRecord);
  }

  /** The vertex look-ahead of `parse_airport_850`. */
  method VertexWindow(content: seq<Line>, from: nat, to: nat, lineData: seq<Line>, heading: real)
    returns (r: Result<(seq<Line>, real)>)
    ensures r == VertexScan(content, from, to, lineData, heading)
  {
    var acc := lineData;
    var h := heading;
    var k := from;
    while k < to
      invariant from <= k
      invariant VertexScan(content, from, to, lineData, heading) == VertexScan(content, k, to, acc, h)
      decreases (to as int) - (k as int)
    {
      if k >= |content| {
        return Err(IndexError);
      }
      var l := content[k];
      if IsBlank(l) {
        break;
      }
      VertexStep(content, k, to, acc, h);
      if IsVertexRecord(l) {
        acc := acc + [l];
      }
      if IsHeadingRecord(l) {
        var parsed := Float(l.tokens[3]);
        if parsed.Err? {
          return Err(parsed.fault);
        }
        h := parsed.value;
      }
      k := k + 1;
    }
    return Ok((acc, h));
  }

  /** The loop of `parse_airport_850` that fills `line_data`, `freq_data` and `heading`. */
  method Extract850(content: seq<Line>, apt: string) returns (r: Result<Extracted>)
    ensures r == Extract850From(content, apt, 0, Start)
  {
    var lineData: seq<Line> := [];
    var freqData: seq<Line> := [];
    var heading: real := 0.0;
    var i := 0;
    while i < |content|
      invariant i <= |content|
      invariant Extract850From(content, apt, 0, Start) == Extract850From(content, apt, i, Extracted(lineData, freqData, heading))
    {
      if IsHeaderOf(content[i], apt) {
        var vh := VertexWindow(content, i + 1, i + 40, lineData, heading);
        if vh.Err? {
          return Err(vh.fault);
        }
        lineData, heading := vh.value.0, vh.value.1;
        var freqs := CollectWindow(content, i + 4, i + 40, IsLfBlank, IsFrequency);
        if freqs.Err? {
          return Err(freqs.fault);
        }
        freqData := freqData + freqs.value;
      }
      i := i + 1;
    }
    return Ok(Extracted(lineData, freqData, heading));
  }
}
