/**
 * Where a ground network is saved, how already converted airports are recognised from the
 * files in the output tree, and which airports are left to convert. Paths are strings with
 * `/` as separator, joined as `os.path.join` joins them on POSIX.
 */
module Output {
  import opened Outcome
  import opened Records

  /** The two converters: the 810 parser and the 850 parser. */
  datatype Version = V810 | V850

  /** Lines 183-186 and 643-645: `output` for 810, `output850` for 850. */
  function OutputDir(v: Version): (r: string)
    ensures '.' !in r && '/' !in r && |r| > 0
  {
    if v == V850 then "output850" else "output"
  }

  /** `os.path.join(a, b)`: an absolute `b` replaces `a`; otherwise one separator between them. */
  function Join(a: string, b: string): (r: string)
    ensures |b| > 0 && b[0] != '/' && |a| > 0 && a[|a| - 1] != '/' ==> r == a + "/" + b
    ensures |b| > 0 ==> |r| > 0 && r[|r| - 1] == b[|b| - 1]
  {
    if |b| > 0 && b[0] == '/' then b
    else if a == [] || a[|a| - 1] == '/' then a + b
    else a + "/" + b
  }

  /** The file name of the network of `apt`. */
  function FileName(apt: string): string {
    apt + ".groundnet.xml"
  }

  /** Line 648: the directory of the tree layout, one level per letter of the first three. */
  function TreeDir(cwd: string, v: Version, apt: string): string
    requires |apt| >= 3
  {
    Join(Join(Join(Join(Join(cwd, OutputDir(v)), "Airports"), [apt[0]]), [apt[1]]), [apt[2]])
  }

  /**
   * Lines 640-662 as written: with the tree layout, an ICAO code of other than three or four
   * letters reaches the message at line 650, which adds a number to a string and raises TypeError.
   */
  function SavePathAsWritten(cwd: string, v: Version, saveTree: bool, apt: string): Result<string> {
    if saveTree then
      if |apt| == 4 || |apt| == 3 then Ok(Join(TreeDir(cwd, v, apt), FileName(apt)))
      else Err(TypeError)
    else Ok(Join(Join(cwd, OutputDir(v)), FileName(apt)))
  }

  /**
   * Lines 640-662 as intended: with the tree layout, an ICAO code of other than three or four
   * letters is skipped (None) and nothing is written.
   */
  function SavePath(cwd: string, v: Version, saveTree: bool, apt: string): (r: Option<string>)
    ensures r.Some? <==> !saveTree || |apt| == 3 || |apt| == 4
  {
    if saveTree then
      if |apt| == 4 || |apt| == 3 then Some(Join(TreeDir(cwd, v, apt), FileName(apt)))
      else None
    else Some(Join(Join(cwd, OutputDir(v)), FileName(apt)))
  }

  /** The corrected save path agrees with the source wherever the source does not raise, and it raises only where the correction skips. */
  lemma SavePathAgrees(cwd: string, v: Version, saveTree: bool, apt: string)
    ensures SavePathAsWritten(cwd, v, saveTree, apt)
            == (match SavePath(cwd, v, saveTree, apt) case Some(p) => Ok(p) case None => Err(TypeError))
  {
  }

  /** A five-letter ICAO code, which both classifiers accept, makes `save_network` raise TypeError. */
  lemma FiveLettersRaise(cwd: string, v: Version)
    ensures IsIcao("EDDFX")
    ensures SavePathAsWritten(cwd, v, true, "EDDFX") == Err(TypeError)
    ensures SavePath(cwd, v, true, "EDDFX") == None
  {
  }

  // ---------------------------------------------------------------- done files

  /** `s.split('/')[-1]`: the text after the last `/`. */
  function Basename(s: string): (r: string)
    ensures '/' !in r
  {
    if s == [] then []
    else if s[|s| - 1] == '/' then []
    else Basename(s[..|s| - 1]) + [s[|s| - 1]]
  }

  /** `s.split(c)[0]`: the text before the first `c`. */
  function Before(s: string, c: char): (r: string)
    ensures c !in r
    ensures r <= s
  {
    s[..IndexOf(s, c)]
  }

  /** Lines 192-196 as written: the part of the whole path before its first '.', after its last '/'. */
  function DoneIcaoAsWritten(d: string): string {
    Basename(Before(d, '.'))
  }

  /** Lines 192-196 as intended: the file name up to its first '.'. */
  function DoneIcao(d: string): string {
    Before(Basename(d), '.')
  }

  lemma {:induction false} BasenameAfter(p: string, b: string)
    requires '/' !in b
    ensures Basename(p + "/" + b) == b
    decreases |b|
  {
    if b == [] {
      assert (p + "/" + b) == p + "/";
    } else {
      var s := p + "/" + b;
      assert s[..|s| - 1] == p + "/" + b[..|b| - 1];
      BasenameAfter(p, b[..|b| - 1]);
      assert b == b[..|b| - 1] + [b[|b| - 1]];
    }
  }

  lemma BeforeAt(s: string, m: nat, c: char)
    requires m < |s| && s[m] == c && c !in s[..m]
    ensures Before(s, c) == s[..m]
  {
  }

  /** ICAO letters: no '.' and no '/'. */
  predicate PlainCode(apt: string) {
    '.' !in apt && '/' !in apt && |apt| >= 3
  }

  /** A tree path is the tree directory, a separator and the file name. */
  lemma TreePath(cwd: string, v: Version, apt: string)
    requires PlainCode(apt) && |apt| <= 4
    ensures SavePath(cwd, v, true, apt) == Some(TreeDir(cwd, v, apt) + "/" + FileName(apt))
  {
    var dir := TreeDir(cwd, v, apt);
    assert dir[|dir| - 1] == apt[2];
  }

  /** The file name of `apt` is `apt` up to its first '.'. */
  lemma FileNameCode(apt: string)
    requires PlainCode(apt)
    ensures Before(FileName(apt), '.') == apt
  {
    var f := FileName(apt);
    assert f[..|apt|] == apt;
    BeforeAt(f, |apt|, '.');
  }

  /**
   * Round trip: the corrected done-file reading gives back the code of any network saved in the
   * tree layout, whatever the working directory.
   */
  lemma DoneIcaoRoundTrip(cwd: string, v: Version, apt: string)
    requires PlainCode(apt) && |apt| <= 4
    ensures SavePath(cwd, v, true, apt).Some?
    ensures DoneIcao(SavePath(cwd, v, true, apt).value) == apt
  {
    TreePath(cwd, v, apt);
    var f := FileName(apt);
    FileNamePlain(apt);
    BasenameAfter(TreeDir(cwd, v, apt), f);
    FileNameCode(apt);
  }

  lemma FileNamePlain(apt: string)
    requires PlainCode(apt)
    ensures '/' !in FileName(apt)
  {
  }

  /** The tree directory holds a '.' only where the working directory does. */
  lemma UndottedTree(cwd: string, v: Version, apt: string)
    requires PlainCode(apt) && '.' !in cwd
    ensures '.' !in TreeDir(cwd, v, apt)
  {
    var d0 := Join(cwd, OutputDir(v));
    UndottedJoin(cwd, OutputDir(v));
    var d1 := Join(d0, "Airports");
    UndottedJoin(d0, "Airports");
    assert apt[0] in apt && apt[1] in apt && apt[2] in apt;
    var d2 := Join(d1, [apt[0]]);
    UndottedJoin(d1, [apt[0]]);
    var d3 := Join(d2, [apt[1]]);
    UndottedJoin(d2, [apt[1]]);
    UndottedJoin(d3, [apt[2]]);
  }

  /** The source's reading also gives back the code when the working directory holds no '.'. */
  lemma DoneIcaoAsWrittenUndotted(cwd: string, v: Version, apt: string)
    requires PlainCode(apt) && |apt| <= 4 && '.' !in cwd
    ensures SavePath(cwd, v, true, apt).Some?
    ensures DoneIcaoAsWritten(SavePath(cwd, v, true, apt).value) == apt
  {
    var dir := TreeDir(cwd, v, apt);
    TreePath(cwd, v, apt);
    UndottedTree(cwd, v, apt);
    var path := dir + "/" + FileName(apt);
    var m := |dir| + 1 + |apt|;
    assert path[..m] == dir + "/" + apt;
    assert path[m] == '.';
    BeforeAt(path, m, '.');
    BasenameAfter(dir, apt);
  }

  lemma UndottedJoin(a: string, b: string)
    requires '.' !in a && '.' !in b
    ensures '.' !in Join(a, b)
  {
  }

  /** A relative component keeps what it is joined to as a prefix. */
  lemma JoinPrefix(a: string, b: string)
    requires |b| > 0 && b[0] != '/'
    ensures a <= Join(a, b)
  {
  }

  /** The tree directory starts with the working directory. */
  lemma TreeDirPrefix(cwd: string, v: Version, apt: string)
    requires PlainCode(apt)
    ensures cwd <= TreeDir(cwd, v, apt)
  {
    var d0 := Join(cwd, OutputDir(v));
    JoinPrefix(cwd, OutputDir(v));
    var d1 := Join(d0, "Airports");
    JoinPrefix(d0, "Airports");
    var d2 := Join(d1, [apt[0]]);
    JoinPrefix(d1, [apt[0]]);
    var d3 := Join(d2, [apt[1]]);
    JoinPrefix(d2, [apt[1]]);
    JoinPrefix(d3, [apt[2]]);
  }

  /** A path starting "/a." reads as "a" when split at its first '.'. */
  lemma MisreadPrefix(d: string)
    requires |d| > 2 && d[0] == '/' && d[1] == 'a' && d[2] == '.'
    ensures DoneIcaoAsWritten(d) == "a"
  {
    assert d[..2] == [] + "/" + "a";
    BeforeAt(d, 2, '.');
    BasenameAfter([], "a");
  }

  /** With the working directory "/a.b", the source reads the saved network of EDDF as "a". */
  lemma DottedDirectoryMisreads()
    ensures SavePath("/a.b", V810, true, "EDDF").Some?
    ensures DoneIcaoAsWritten(SavePath("/a.b", V810, true, "EDDF").value) == "a"
    ensures DoneIcao(SavePath("/a.b", V810, true, "EDDF").value) == "EDDF"
  {
    var cwd, apt := "/a.b", "EDDF";
    assert PlainCode(apt);
    TreePath(cwd, V810, apt);
    TreeDirPrefix(cwd, V810, apt);
    var d := TreeDir(cwd, V810, apt) + "/" + FileName(apt);
    assert d[..4] == cwd;
    assert d[0] == '/' && d[1] == 'a' && d[2] == '.';
    MisreadPrefix(d);
    DoneIcaoRoundTrip(cwd, V810, apt);
  }

  /** Append `x` unless it is already present (`if x not in xs: xs.append(x)`). */
  function AppendNew(xs: seq<string>, x: string): (r: seq<string>)
    ensures x in r
    ensures forall y :: y in r <==> y in xs || y == x
  {
    if x in xs then xs else xs + [x]
  }

  /** No value occurs twice. */
  predicate Distinct(xs: seq<string>) {
    forall a, b :: 0 <= a < b < |xs| ==> xs[a] != xs[b]
  }

  /** Lines 192-196: the done list after reading the done-file paths from `k` on. */
  function DoneFrom(done: seq<string>, paths: seq<string>, k: nat): seq<string>
    decreases |paths| - k
  {
    if k >= |paths| then done
    else DoneFrom(AppendNew(done, DoneIcao(paths[k])), paths, k + 1)
  }

  lemma DoneStep(done: seq<string>, paths: seq<string>, k: nat)
    requires k < |paths|
    ensures DoneFrom(done, paths, k) == DoneFrom(AppendNew(done, DoneIcao(paths[k])), paths, k + 1)
  {
  }

  /**
   * The done list keeps its codes distinct and holds exactly the codes it started with and the
   * codes read from the paths.
   */
  lemma {:induction false} DoneFromCodes(done: seq<string>, paths: seq<string>, k: nat)
    requires Distinct(done) && k <= |paths|
    ensures Distinct(DoneFrom(done, paths, k))
    ensures forall y :: y in DoneFrom(done, paths, k) <==> y in done || exists j :: k <= j < |paths| && y == DoneIcao(paths[j])
    decreases |paths| - k
  {
    if k < |paths| {
      var next := AppendNew(done, DoneIcao(paths[k]));
      assert Distinct(next) by {
        if DoneIcao(paths[k]) !in done {
          forall a, b | 0 <= a < b < |next|
            ensures next[a] != next[b]
          {
            if b == |done| {
              assert next[a] == done[a];
            }
          }
        }
      }
      DoneFromCodes(next, paths, k + 1);
    }
  }

  /** Line 67: the default-layout airports that miss a network and have not been converted yet. */
  function Select(defaults: seq<string>, missing: seq<string>, done: seq<string>): (r: set<string>)
    ensures forall a :: a in r <==> a in defaults && a in missing && a !in done
  {
    ((set a | a in defaults) * (set a | a in missing)) - (set a | a in done)
  }

  /**
   * An airport whose network is already in the output tree is not selected again: reading the
   * done files from a list that holds its saved path puts its code in the done list.
   */
  lemma SavedNotSelected(cwd: string, v: Version, apt: string, defaults: seq<string>, missing: seq<string>, paths: seq<string>)
    requires PlainCode(apt) && |apt| <= 4
    requires SavePath(cwd, v, true, apt).Some? && SavePath(cwd, v, true, apt).value in paths
    ensures apt !in Select(defaults, missing, DoneFrom([], paths, 0))
  {
    DoneIcaoRoundTrip(cwd, v, apt);
    var j :| 0 <= j < |paths| && paths[j] == SavePath(cwd, v, true, apt).value;
    DoneFromCodes([], paths, 0);
  }
}
