/**
 * The bounded look-ahead every scan of the converter performs:
 *
 *     for k in range(from, to):
 *         if <content[k] is a stop line>: break
 *         if <content[k] matches>: collect it
 *
 * Reading `content[k]` past the end of the file raises IndexError.
 */
module Window {
  import opened Outcome
  import opened Records

  /** The position where a look-ahead from `k` ends: the bound `to`, the end of `content`, or the first stop line. */
  function StopAt(content: seq<Line>, k: nat, to: nat, stop: Line -> bool): (s: nat)
    ensures k <= s
    ensures k <= |content| ==> s <= |content|
    ensures k < to ==> s <= to
    ensures forall j :: k <= j < s ==> j < |content| && !stop(content[j])
    ensures s < to && s < |content| ==> stop(content[s])
    decreases (to as int) - (k as int)
  {
    if k >= to || k >= |content| || stop(content[k]) then k else StopAt(content, k + 1, to, stop)
  }

  /** The look-ahead reaches the end of `content` before its bound and before a stop line. */
  predicate Overruns(content: seq<Line>, k: nat, to: nat, stop: Line -> bool) {
    var s := StopAt(content, k, to, stop);
    s < to && s >= |content|
  }

  function Prepend(xs: seq<Line>, r: Result<seq<Line>>): Result<seq<Line>> {
    if r.Ok? then Ok(xs + r.value) else r
  }

  /** The lines a look-ahead visits, in order, or IndexError when it runs off the end. */
  function Scan(content: seq<Line>, k: nat, to: nat, stop: Line -> bool): Result<seq<Line>>
    decreases (to as int) - (k as int)
  {
    if k >= to then Ok([])
    else if k >= |content| then Err(IndexError)
    else if stop(content[k]) then Ok([])
    else Prepend([content[k]], Scan(content, k + 1, to, stop))
  }

  /** The lines of `s` that satisfy `keep`, in order. */
  function Filter(s: seq<Line>, keep: Line -> bool): (r: seq<Line>)
    ensures |r| <= |s|
    ensures forall x :: x in r ==> x in s && keep(x)
  {
    if s == [] then []
    else Filter(s[..|s| - 1], keep) + (if keep(s[|s| - 1]) then [s[|s| - 1]] else [])
  }

  /** The lines a look-ahead collects. */
  function Collect(content: seq<Line>, k: nat, to: nat, stop: Line -> bool, keep: Line -> bool): Result<seq<Line>> {
    match Scan(content, k, to, stop)
    case Ok(w) => Ok(Filter(w, keep))
    case Err(f) => Err(f)
  }

  /** A look-ahead visits exactly the lines before its stop position, and fails exactly when it overruns. */
  lemma {:induction false} ScanIsSlice(content: seq<Line>, k: nat, to: nat, stop: Line -> bool)
    requires k <= |content|
    ensures Scan(content, k, to, stop)
            == (if Overruns(content, k, to, stop) then Err(IndexError)
                else Ok(content[k..StopAt(content, k, to, stop)]))
    decreases (to as int) - (k as int)
  {
    if k >= to || k == |content| || stop(content[k]) {
      assert StopAt(content, k, to, stop) == k;
      assert content[k..k] == [];
    } else {
      ScanIsSlice(content, k + 1, to, stop);
      var s := StopAt(content, k, to, stop);
      assert content[k..s] == [content[k]] + content[k + 1..s];
    }
  }

  /** What a look-ahead collects: the kept lines before its stop position, or IndexError when it overruns. */
  lemma CollectIsSlice(content: seq<Line>, k: nat, to: nat, stop: Line -> bool, keep: Line -> bool)
    requires k <= |content|
    ensures Collect(content, k, to, stop, keep)
            == (if Overruns(content, k, to, stop) then Err(IndexError)
                else Ok(Filter(content[k..StopAt(content, k, to, stop)], keep)))
  {
    ScanIsSlice(content, k, to, stop);
  }

  lemma PrependAssoc(xs: seq<Line>, ys: seq<Line>, r: Result<seq<Line>>)
    ensures Prepend(xs, Prepend(ys, r)) == Prepend(xs + ys, r)
    ensures Prepend([], r) == r
  {
    if r.Ok? {
      assert xs + (ys + r.value) == (xs + ys) + r.value;
      assert [] + r.value == r.value;
    }
  }

  lemma FilterAppend(s: seq<Line>, x: Line, keep: Line -> bool)
    ensures Filter(s + [x], keep) == Filter(s, keep) + (if keep(x) then [x] else [])
  {
    assert (s + [x])[..|s|] == s;
  }

  lemma {:induction false} FilterCons(x: Line, s: seq<Line>, keep: Line -> bool)
    ensures Filter([x] + s, keep) == (if keep(x) then [x] else []) + Filter(s, keep)
    decreases |s|
  {
    if s == [] {
      assert ([x] + s)[..0] == [];
    } else {
      var init := s[..|s| - 1];
      assert ([x] + s)[..|[x] + s| - 1] == [x] + init;
      assert ([x] + s)[|[x] + s| - 1] == s[|s| - 1];
      FilterCons(x, init, keep);
      var pre := if keep(x) then [x] else [];
      var last := if keep(s[|s| - 1]) then [s[|s| - 1]] else [];
      assert Filter([x] + s, keep) == Filter([x] + init, keep) + last;
      assert Filter(s, keep) == Filter(init, keep) + last;
      assert pre + Filter(init, keep) + last == pre + (Filter(init, keep) + last);
    }
  }

  /** The loop of the source, collecting as it goes. */
  method CollectWindow(content: seq<Line>, from: nat, to: nat, stop: Line -> bool, keep: Line -> bool)
    returns (r: Result<seq<Line>>)
    ensures r == Collect(content, from, to, stop, keep)
  {
    ghost var seen: seq<Line> := [];
    var acc: seq<Line> := [];
    var k := from;
    PrependAssoc([], [], Scan(content, from, to, stop));
    while k < to
      invariant from <= k
      invariant Scan(content, from, to, stop) == Prepend(seen, Scan(content, k, to, stop))
      invariant acc == Filter(seen, keep)
      decreases (to as int) - (k as int)
    {
      if k >= |content| {
        return Err(IndexError);
      }
      if stop(content[k]) {
        assert seen + [] == seen;
        return Ok(acc);
      }
      if keep(content[k]) {
        acc := acc + [content[k]];
      }
      FilterAppend(seen, content[k], keep);
      PrependAssoc(seen, [content[k]], Scan(content, k + 1, to, stop));
      seen := seen + [content[k]];
      k := k + 1;
    }
    assert seen + [] == seen;
    return Ok(acc);
  }
}
