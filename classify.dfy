/**
 * The template classifiers: `load_apt` (810 files) and `load_apt_850` (850 files) walk the
 * airport data line by line and, for every airport header whose following records have the
 * one fixed layout the converter knows how to wire, register the airport's ICAO code and
 * the index of its header line, each code at most once.
 */
module Classify {
  import opened Outcome
  import opened Records
  import opened Window

  // ---------------------------------------------------------------- 810 look-ahead

  /**
   * The 810 look-ahead continued from line `k`, with the length fields (sixth token) of the
   * taxiway segments met so far in `acc`. IndexError when it reads past the file or a
   * segment line has fewer than six fields.
   */
  function SegmentScan(content: seq<Line>, k: nat, to: nat, acc: seq<string>): Result<seq<string>>
    decreases (to as int) - (k as int)
  {
    if k >= to then Ok(acc)
    else if k >= |content| then Err(IndexError)
    else if IsBlank(content[k]) then Ok(acc)
    else if IsTaxiwaySegment(content[k]) then
      if |content[k].tokens| < 6 then Err(IndexError)
      else SegmentScan(content, k + 1, to, acc + [content[k].tokens[5]])
    else SegmentScan(content, k + 1, to, acc)
  }

  predicate HasLength(l: Line) {
    |l.tokens| >= 6
  }

  predicate AllHaveLength(segs: seq<Line>) {
    forall j :: 0 <= j < |segs| ==> HasLength(segs[j])
  }

  /** The length fields of segment lines, in order. */
  function LengthFields(segs: seq<Line>): (r: seq<string>)
    requires AllHaveLength(segs)
    ensures |r| == |segs|
    ensures forall j :: 0 <= j < |segs| ==> r[j] == segs[j].tokens[5]
  {
    if segs == [] then [] else [segs[0].tokens[5]] + LengthFields(segs[1..])
  }

  /** What the 810 look-ahead yields for the segment lines `segs`, after `acc`. */
  function LengthsResult(segs: seq<Line>, acc: seq<string>): Result<seq<string>> {
    if AllHaveLength(segs) then Ok(acc + LengthFields(segs)) else Err(IndexError)
  }

  /** A segment line with a length field in front adds its length in front. */
  lemma LengthsPrepend(x: Line, rest: seq<Line>, acc: seq<string>)
    requires HasLength(x)
    ensures LengthsResult([x] + rest, acc) == LengthsResult(rest, acc + [x.tokens[5]])
  {
    var segs := [x] + rest;
    assert segs[0] == x && segs[1..] == rest;
    if AllHaveLength(rest) {
      assert AllHaveLength(segs) by {
        forall j | 0 <= j < |segs|
          ensures HasLength(segs[j])
        {
          if j > 0 {
            assert segs[j] == rest[j - 1];
          }
        }
      }
      assert acc + [x.tokens[5]] + LengthFields(rest) == acc + LengthFields(segs);
    } else {
      var j :| 0 <= j < |rest| && !HasLength(rest[j]);
      assert segs[j + 1] == rest[j];
    }
  }

  /** Taking one more line at the front of the window is one step of the look-ahead. */
  lemma LengthsResultCons(x: Line, w: seq<Line>, acc: seq<string>)
    ensures LengthsResult(Filter([x] + w, IsTaxiwaySegment), acc)
            == if !IsTaxiwaySegment(x) then LengthsResult(Filter(w, IsTaxiwaySegment), acc)
               else if !HasLength(x) then Err(IndexError)
               else LengthsResult(Filter(w, IsTaxiwaySegment), acc + [x.tokens[5]])
  {
    FilterCons(x, w, IsTaxiwaySegment);
    var rest := Filter(w, IsTaxiwaySegment);
    if !IsTaxiwaySegment(x) {
      assert [] + rest == rest;
    } else if HasLength(x) {
      LengthsPrepend(x, rest, acc);
    } else {
      assert ([x] + rest)[0] == x;
    }
  }

  /** One step of the 810 look-ahead. */
  lemma SegmentStep(content: seq<Line>, k: nat, to: nat, acc: seq<string>)
    requires k < to && k < |content| && !IsBlank(content[k])
    ensures var x := content[k];
            SegmentScan(content, k, to, acc)
            == if !IsTaxiwaySegment(x) then SegmentScan(content, k + 1, to, acc)
               else if !HasLength(x) then Err(IndexError)
               else SegmentScan(content, k + 1, to, acc + [x.tokens[5]])
  {
  }

  /**
   * The 810 look-ahead collects the length field of every taxiway segment in the window
   * before the first blank line; it fails exactly when the window runs off the file or one
   * of those segments has no length field.
   */
  lemma {:induction false} SegmentScanCollects(content: seq<Line>, k: nat, to: nat, acc: seq<string>)
    ensures match Scan(content, k, to, IsBlank)
            case Err(_) => SegmentScan(content, k, to, acc) == Err(IndexError)
            case Ok(w) => SegmentScan(content, k, to, acc) == LengthsResult(Filter(w, IsTaxiwaySegment), acc)
    decreases (to as int) - (k as int)
  {
    if k >= to || k >= |content| || IsBlank(content[k]) {
      assert acc + [] == acc;
    } else {
      var x := content[k];
      var acc' := if IsTaxiwaySegment(x) && HasLength(x) then acc + [x.tokens[5]] else acc;
      SegmentScanCollects(content, k + 1, to, acc');
      SegmentStep(content, k, to, acc);
      match Scan(content, k + 1, to, IsBlank)
      case Err(_) =>
      case Ok(w) =>
        assert Scan(content, k, to, IsBlank) == Ok([x] + w);
        LengthsResultCons(x, w, acc);
    }
  }

  /** The 810 acceptance test on the four length fields: ValueError when one is not a number. */
  function Accept810(lens: seq<string>): Result<bool>
    requires |lens| == 4
  {
    if lens[0] == lens[1] && lens[0] == lens[2] then
      var shortest :- Float(lens[0]);
      var longest :- Float(lens[3]);
      Ok(shortest < longest && longest >= 2000.0)
    else Ok(false)
  }

  /** What `load_apt` decides at line `i`: the code to register, nothing, or the exception raised. */
  function Verdict810(content: seq<Line>, i: nat): Result<Option<string>>
    requires i < |content|
  {
    if !IsAirportHeader(content[i]) then Ok(None)
    else
      var lens :- SegmentScan(content, i + 1, i + 10, []);
      if |lens| != 4 then Ok(None)
      else
        var accepted :- Accept810(lens);
        if accepted then Ok(HeaderIcao(content[i])) else Ok(None)
  }

  /**
   * The segments of an 810 window fit the layout: exactly four, each with a length field; the
   * first three have the same length text, shorter than the fourth; the fourth is at least 2000.
   */
  predicate Fits810(segs: seq<Line>) {
    && |segs| == 4 && AllHaveLength(segs)
    && segs[0].tokens[5] == segs[1].tokens[5] == segs[2].tokens[5]
    && Float(segs[0].tokens[5]).Ok? && Float(segs[3].tokens[5]).Ok?
    && Float(segs[0].tokens[5]).value < Float(segs[3].tokens[5]).value
    && Float(segs[3].tokens[5]).value >= 2000.0
  }

  /** The acceptance test on the length fields of fitting segments, and only of those, passes. */
  lemma AcceptedLengths(segs: seq<Line>)
    requires |segs| == 4 && AllHaveLength(segs)
    ensures Accept810(LengthFields(segs)) == Ok(true) <==> Fits810(segs)
  {
  }

  /**
   * The 810 layout test, stated on the window: line `i` passes it with `code` (its verdict is `code`;
   * whether it is then registered is RegisteredFaithful's first-seen rule) exactly when it
   * is a header whose next nine lines, up to a blank line, are in the file, whose taxiway
   * segments there fit the layout, and which carries the ICAO code `code`.
   */
  lemma Accepts810(content: seq<Line>, i: nat, code: string)
    requires i < |content|
    ensures Verdict810(content, i) == Ok(Some(code))
            <==> IsAirportHeader(content[i])
                 && !Overruns(content, i + 1, i + 10, IsBlank)
                 && Fits810(Filter(content[i + 1..StopAt(content, i + 1, i + 10, IsBlank)], IsTaxiwaySegment))
                 && HeaderIcao(content[i]) == Some(code)
  {
    if IsAirportHeader(content[i]) {
      ScanIsSlice(content, i + 1, i + 10, IsBlank);
      SegmentScanCollects(content, i + 1, i + 10, []);
      match Scan(content, i + 1, i + 10, IsBlank)
      case Err(_) =>
      case Ok(w) =>
        var segs := Filter(w, IsTaxiwaySegment);
        if AllHaveLength(segs) {
          var lens := LengthFields(segs);
          assert [] + lens == lens;
          assert SegmentScan(content, i + 1, i + 10, []) == Ok(lens);
          if |lens| == 4 {
            AcceptedLengths(segs);
          }
        } else {
          assert !Fits810(segs);
        }
    }
  }

  // ---------------------------------------------------------------- 850 look-ahead

  /** The record counters of `load_apt_850`. */
  datatype Counts = Counts(nodes: nat, taxiways: nat, beziers: nat, holds: nat)

  /** The only record mix the 850 converter knows how to wire. */
  const DefaultMix: Counts := Counts(14, 1, 4, 3)

  function Bump(b: bool): nat {
    if b then 1 else 0
  }

  function Tally(c: Counts, l: Line): Counts {
    Counts(c.nodes + Bump(IsNodeRecord(l)), c.taxiways + Bump(IsTaxiwayRecord(l)),
           c.beziers + Bump(IsBezierRecord(l)), c.holds + Bump(IsHoldRecord(l)))
  }

  /** The 850 look-ahead continued from line `k` with the counts so far. */
  function CountScan(content: seq<Line>, k: nat, to: nat, c: Counts): Result<Counts>
    decreases (to as int) - (k as int)
  {
    if k >= to then Ok(c)
    else if k >= |content| then Err(IndexError)
    else if IsBlank(content[k]) then Ok(c)
    else CountScan(content, k + 1, to, Tally(c, content[k]))
  }

  /** The counts of each record kind in a window. */
  function WindowCounts(w: seq<Line>): Counts {
    Counts(|Filter(w, IsNodeRecord)|, |Filter(w, IsTaxiwayRecord)|,
           |Filter(w, IsBezierRecord)|, |Filter(w, IsHoldRecord)|)
  }

  function Plus(a: Counts, b: Counts): Counts {
    Counts(a.nodes + b.nodes, a.taxiways + b.taxiways, a.beziers + b.beziers, a.holds + b.holds)
  }

  /** Counting a window with one more line in front is one tally of that line. */
  lemma WindowCountsCons(x: Line, w: seq<Line>, c: Counts)
    ensures Plus(c, WindowCounts([x] + w)) == Plus(Tally(c, x), WindowCounts(w))
  {
    FilterCons(x, w, IsNodeRecord);
    FilterCons(x, w, IsTaxiwayRecord);
    FilterCons(x, w, IsBezierRecord);
    FilterCons(x, w, IsHoldRecord);
  }

  /** The 850 look-ahead counts every record kind over the lines before the first blank line. */
  lemma {:induction false} CountScanCounts(content: seq<Line>, k: nat, to: nat, c: Counts)
    ensures CountScan(content, k, to, c)
            == match Scan(content, k, to, IsBlank)
               case Err(_) => Err(IndexError)
               case Ok(w) => Ok(Plus(c, WindowCounts(w)))
    decreases (to as int) - (k as int)
  {
    if k >= to || k >= |content| || IsBlank(content[k]) {
    } else {
      var x := content[k];
      CountScanCounts(content, k + 1, to, Tally(c, x));
      assert CountScan(content, k, to, c) == CountScan(content, k + 1, to, Tally(c, x));
      match Scan(content, k + 1, to, IsBlank)
      case Err(_) =>
      case Ok(w) =>
        assert Scan(content, k, to, IsBlank) == Ok([x] + w);
        WindowCountsCons(x, w, c);
    }
  }

  /** What `load_apt_850` decides at line `i`. */
  function Verdict850(content: seq<Line>, i: nat): Result<Option<string>>
    requires i < |content|
  {
    if !IsAirportHeader(content[i]) then Ok(None)
    else
      var c :- CountScan(content, i + 1, i + 40, Counts(0, 0, 0, 0));
      if c == DefaultMix then Ok(HeaderIcao(content[i])) else Ok(None)
  }

  /**
   * The 850 layout test, stated on the window: line `i` passes it with `code` (its verdict is `code`;
   * whether it is then registered is RegisteredFaithful's first-seen rule) exactly when it
   * is a header whose next 39 lines, up to a blank line, are in the file and hold exactly 14 `111`,
   * one `110`, four `112` and three `120` records, and the header carries the ICAO code `code`.
   */
  lemma Accepts850(content: seq<Line>, i: nat, code: string)
    requires i < |content|
    ensures Verdict850(content, i) == Ok(Some(code))
            <==> IsAirportHeader(content[i])
                 && !Overruns(content, i + 1, i + 40, IsBlank)
                 && WindowCounts(content[i + 1..StopAt(content, i + 1, i + 40, IsBlank)]) == DefaultMix
                 && HeaderIcao(content[i]) == Some(code)
  {
    if IsAirportHeader(content[i]) {
      ScanIsSlice(content, i + 1, i + 40, IsBlank);
      CountScanCounts(content, i + 1, i + 40, Counts(0, 0, 0, 0));
    }
  }

  // ---------------------------------------------------------------- registry

  /** `default_airports` and `apt_index`. */
  datatype Registry = Registry(airports: seq<string>, index: seq<(string, nat)>)

  const Empty: Registry := Registry([], [])

  /** Append the code and its header line, unless the code is already registered. */
  function Register(reg: Registry, code: string, i: nat): (r: Registry)
    ensures code in r.airports
    ensures code in reg.airports ==> r == reg
  {
    if code in reg.airports then reg
    else Registry(reg.airports + [code], reg.index + [(code, i)])
  }

  function Verdict(v850: bool, content: seq<Line>, i: nat): Result<Option<string>>
    requires i < |content|
  {
    if v850 then Verdict850(content, i) else Verdict810(content, i)
  }

  /** The verdict of every line, in file order. */
  function Verdicts(v850: bool, content: seq<Line>): (r: seq<Result<Option<string>>>)
    ensures |r| == |content|
    ensures forall i :: 0 <= i < |content| ==> r[i] == Verdict(v850, content, i)
  {
    seq(|content|, i requires 0 <= i < |content| => Verdict(v850, content, i))
  }

  /** The registry after the first `n` verdicts `vs` have been applied to `start`. */
  function Registered(vs: seq<Result<Option<string>>>, n: nat, start: Registry): Result<Registry>
    requires n <= |vs|
  {
    if n == 0 then Ok(start)
    else
      var reg :- Registered(vs, n - 1, start);
      var v :- vs[n - 1];
      Ok(if v.Some? then Register(reg, v.value, n - 1) else reg)
  }

  /** The registry after the classifier has visited the first `n` lines. */
  function Classified(v850: bool, content: seq<Line>, n: nat, start: Registry): Result<Registry>
    requires n <= |content|
  {
    Registered(Verdicts(v850, content), n, start)
  }

  /** The two lists run in step, and each entry is a line before `n` whose verdict is its code. */
  predicate Aligned(vs: seq<Result<Option<string>>>, n: nat, reg: Registry) {
    && |reg.airports| == |reg.index|
    && forall j :: 0 <= j < |reg.index| ==>
         reg.index[j].0 == reg.airports[j] && reg.index[j].1 < n
         && reg.index[j].1 < |vs| && vs[reg.index[j].1] == Ok(Some(reg.airports[j]))
  }

  /** Entries are in header order and no code occurs twice. */
  predicate Ordered(reg: Registry)
    requires |reg.airports| == |reg.index|
  {
    forall j, j' :: 0 <= j < j' < |reg.index| ==>
      reg.index[j].1 < reg.index[j'].1 && reg.airports[j] != reg.airports[j']
  }

  /** Each entry is the first line whose verdict is its code. */
  predicate FirstSeen(vs: seq<Result<Option<string>>>, reg: Registry)
    requires |reg.airports| == |reg.index|
  {
    forall j, i :: 0 <= j < |reg.index| && 0 <= i < reg.index[j].1 && i < |vs| ==>
      vs[i] != Ok(Some(reg.airports[j]))
  }

  /** Every line before `n` has a verdict, and every accepted code among them is registered. */
  predicate Complete(vs: seq<Result<Option<string>>>, n: nat, reg: Registry)
    requires n <= |vs|
  {
    forall i :: 0 <= i < n ==> vs[i].Ok? && (vs[i].value.Some? ==> vs[i].value.value in reg.airports)
  }

  /**
   * After the first `n` verdicts from an empty registry: the two lists run in step, without
   * duplicate codes and in header order; each entry is the first line among them whose
   * verdict is its code; and every accepted code is registered.
   */
  predicate Faithful(vs: seq<Result<Option<string>>>, n: nat, reg: Registry)
    requires n <= |vs|
  {
    Aligned(vs, n, reg) && Ordered(reg) && FirstSeen(vs, reg) && Complete(vs, n, reg)
  }

  /** The registry after line `n` has been visited. */
  function Visit(vs: seq<Result<Option<string>>>, n: nat, reg: Registry): Registry
    requires n < |vs| && vs[n].Ok?
  {
    if vs[n].value.Some? then Register(reg, vs[n].value.value, n) else reg
  }

  lemma AlignedStep(vs: seq<Result<Option<string>>>, n: nat, reg: Registry)
    requires n < |vs| && Aligned(vs, n, reg) && vs[n].Ok?
    ensures Aligned(vs, n + 1, Visit(vs, n, reg))
  {
  }

  lemma OrderedStep(vs: seq<Result<Option<string>>>, n: nat, reg: Registry)
    requires n < |vs| && Aligned(vs, n, reg) && Ordered(reg) && vs[n].Ok?
    ensures |Visit(vs, n, reg).airports| == |Visit(vs, n, reg).index|
    ensures Ordered(Visit(vs, n, reg))
  {
  }

  lemma FirstSeenStep(vs: seq<Result<Option<string>>>, n: nat, reg: Registry)
    requires n < |vs| && Aligned(vs, n, reg) && Complete(vs, n, reg) && FirstSeen(vs, reg) && vs[n].Ok?
    ensures |Visit(vs, n, reg).airports| == |Visit(vs, n, reg).index|
    ensures FirstSeen(vs, Visit(vs, n, reg))
  {
    var v := vs[n].value;
    if v.Some? && v.value !in reg.airports {
      var reg' := Register(reg, v.value, n);
      forall j, i | 0 <= j < |reg'.index| && 0 <= i < reg'.index[j].1 && i < |vs|
        ensures vs[i] != Ok(Some(reg'.airports[j]))
      {
        if j == |reg.index| {
          assert vs[i].value.Some? ==> vs[i].value.value in reg.airports;
        }
      }
    }
  }

  lemma CompleteStep(vs: seq<Result<Option<string>>>, n: nat, reg: Registry)
    requires n < |vs| && Complete(vs, n, reg) && vs[n].Ok?
    ensures Complete(vs, n + 1, Visit(vs, n, reg))
  {
  }

  lemma FaithfulStep(vs: seq<Result<Option<string>>>, n: nat, reg: Registry)
    requires n < |vs| && Faithful(vs, n, reg) && vs[n].Ok?
    ensures Faithful(vs, n + 1, Visit(vs, n, reg))
  {
    AlignedStep(vs, n, reg);
    OrderedStep(vs, n, reg);
    FirstSeenStep(vs, n, reg);
    CompleteStep(vs, n, reg);
  }

  /** Applying the verdicts from an empty registry keeps `Faithful`. */
  lemma {:induction false} RegisteredFaithful(vs: seq<Result<Option<string>>>, n: nat)
    requires n <= |vs|
    ensures Registered(vs, n, Empty).Ok? ==> Faithful(vs, n, Registered(vs, n, Empty).value)
  {
    if n > 0 {
      RegisteredFaithful(vs, n - 1);
      var prev := Registered(vs, n - 1, Empty);
      if prev.Ok? && vs[n - 1].Ok? {
        FaithfulStep(vs, n - 1, prev.value);
      }
    }
  }

  /**
   * Running the classifier over the first `n` lines from an empty registry registers each
   * accepted code once, at its first accepted header, in header order.
   */
  lemma ClassifiedFaithful(v850: bool, content: seq<Line>, n: nat)
    requires n <= |content|
    ensures Classified(v850, content, n, Empty).Ok? ==>
              Faithful(Verdicts(v850, content), n, Classified(v850, content, n, Empty).value)
  {
    RegisteredFaithful(Verdicts(v850, content), n);
  }

  /** Applying the verdicts fails exactly when one of them is an exception, and with that exception. */
  lemma {:induction false} RegisteredRaises(vs: seq<Result<Option<string>>>, n: nat, start: Registry)
    requires n <= |vs|
    ensures Registered(vs, n, start).Err? <==> exists i :: 0 <= i < n && vs[i].Err?
    ensures Registered(vs, n, start).Err? ==> exists i :: 0 <= i < n && vs[i] == Err(Registered(vs, n, start).fault)
  {
    if n > 0 {
      RegisteredRaises(vs, n - 1, start);
    }
  }

  /**
   * The classifier raises over the first `n` lines exactly when one of them raises, and it
   * raises that line's exception.
   */
  lemma ClassifiedRaises(v850: bool, content: seq<Line>, n: nat, start: Registry)
    requires n <= |content|
    ensures Classified(v850, content, n, start).Err? <==> exists i :: 0 <= i < n && Verdict(v850, content, i).Err?
    ensures Classified(v850, content, n, start).Err? ==>
              exists i :: 0 <= i < n && Verdict(v850, content, i) == Err(Classified(v850, content, n, start).fault)
  {
    var vs := Verdicts(v850, content);
    RegisteredRaises(vs, n, start);
    if exists i :: 0 <= i < n && Verdict(v850, content, i).Err? {
      var i :| 0 <= i < n && Verdict(v850, content, i).Err?;
      assert vs[i].Err?;
    }
  }

  lemma {:induction false} RegisteredErrPersists(vs: seq<Result<Option<string>>>, n: nat, m: nat, start: Registry)
    requires n <= m <= |vs|
    requires Registered(vs, n, start).Err?
    ensures Registered(vs, m, start) == Registered(vs, n, start)
    decreases m - n
  {
    if m > n {
      RegisteredErrPersists(vs, n, m - 1, start);
    }
  }

  /** Once the classifier has raised, looking at more lines does not change the exception. */
  lemma ClassifiedErrPersists(v850: bool, content: seq<Line>, n: nat, m: nat, start: Registry)
    requires n <= m <= |content|
    requires Classified(v850, content, n, start).Err?
    ensures Classified(v850, content, m, start) == Classified(v850, content, n, start)
  {
    RegisteredErrPersists(Verdicts(v850, content), n, m, start);
  }

  /** One more line: its verdict's exception, or its code registered. */
  lemma ClassifiedStep(v850: bool, content: seq<Line>, i: nat, start: Registry, reg: Registry)
    requires i < |content| && Classified(v850, content, i, start) == Ok(reg)
    ensures var v := Verdict(v850, content, i);
            Classified(v850, content, i + 1, start)
            == if v.Err? then Err(v.fault) else Ok(if v.value.Some? then Register(reg, v.value.value, i) else reg)
  {
  }

  /** A registered code is the ICAO code of its header line, 3 to 5 characters of `[0-9A-Z]`. */
  lemma RegisteredAreHeaders(v850: bool, content: seq<Line>, reg: Registry)
    requires Classified(v850, content, |content|, Empty) == Ok(reg)
    ensures |reg.airports| == |reg.index|
    ensures forall j :: 0 <= j < |reg.index| ==>
              reg.index[j].1 < |content| && IsAirportHeader(content[reg.index[j].1])
              && HeaderIcao(content[reg.index[j].1]) == Some(reg.airports[j]) && IsIcao(reg.airports[j])
  {
    ClassifiedFaithful(v850, content, |content|);
    forall j | 0 <= j < |reg.index|
      ensures reg.index[j].1 < |content| && IsAirportHeader(content[reg.index[j].1])
              && HeaderIcao(content[reg.index[j].1]) == Some(reg.airports[j]) && IsIcao(reg.airports[j])
    {
      assert Verdicts(v850, content)[reg.index[j].1] == Ok(Some(reg.airports[j]));
    }
  }

  // ---------------------------------------------------------------- the loops

  /** The inner loop of `load_apt`: the length fields of the taxiway segments in the window. */
  method ScanSegments(content: seq<Line>, from: nat, to: nat) returns (r: Result<seq<string>>)
    ensures r == SegmentScan(content, from, to, [])
  {
    var segLen: seq<string> := [];
    var k := from;
    while k < to
      invariant from <= k
      invariant SegmentScan(content, from, to, []) == SegmentScan(content, k, to, segLen)
      decreases (to as int) - (k as int)
    {
      if k >= |content| {
        return Err(IndexError);
      }
      if IsBlank(content[k]) {
        break;
      }
      if IsTaxiwaySegment(content[k]) {
        if |content[k].tokens| < 6 {
          return Err(IndexError);
        }
        segLen := segLen + [content[k].tokens[5]];
      }
      k := k + 1;
    }
    return Ok(segLen);
  }

  /** The inner loop of `load_apt_850`: the four record counters over the window. */
  method CountRecords(content: seq<Line>, from: nat, to: nat) returns (r: Result<Counts>)
    ensures r == CountScan(content, from, to, Counts(0, 0, 0, 0))
  {
    var numSegs, numTaxiways, numBezier, numHolds: nat := 0, 0, 0, 0;
    var k := from;
    while k < to
      invariant from <= k
      invariant CountScan(content, from, to, Counts(0, 0, 0, 0))
                == CountScan(content, k, to, Counts(numSegs, numTaxiways, numBezier, numHolds))
      decreases (to as int) - (k as int)
    {
      if k >= |content| {
        return Err(IndexError);
      }
      if IsBlank(content[k]) {
        break;
      }
      if IsTaxiwayRecord(content[k]) {
        numTaxiways := numTaxiways + 1;
      }
      if IsBezierRecord(content[k]) {
        numBezier := numBezier + 1;
      }
      if IsHoldRecord(content[k]) {
        numHolds := numHolds + 1;
      }
      if IsNodeRecord(content[k]) {
        numSegs := numSegs + 1;
      }
      k := k + 1;
    }
    return Ok(Counts(numSegs, numTaxiways, numBezier, numHolds));
  }
}
