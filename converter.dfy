/**
 * The `Groundnet` driver object: it loads the airport data through the classifier of its
 * version, reads which airports were already converted and which lack a ground network,
 * selects the airports left to convert, and runs one conversion job per selected airport,
 * each on the part of the data around the airport's header line.
 */
module Converter {
  import opened Outcome
  import opened Records
  import opened Elements
  import opened Geometry
  import opened Classify
  import opened Build810
  import opened Build850
  import opened Output

  // ---------------------------------------------------------------- the classifier step

  /** One step of `load_apt` / `load_apt_850`: the look-ahead at line `i` and its layout test. */
  method Decide(v850: bool, content: seq<Line>, i: nat) returns (r: Result<Option<string>>)
    requires i < |content|
    ensures r == Verdict(v850, content, i)
  {
    if !IsAirportHeader(content[i]) {
      return Ok(None);
    }
    if v850 {
      var c := CountRecords(content, i + 1, i + 40);
      if c.Err? {
        return Err(c.fault);
      }
      if c.value.nodes == 14 && c.value.taxiways == 1 && c.value.beziers == 4 && c.value.holds == 3 {
        return Ok(HeaderIcao(content[i]));
      }
      return Ok(None);
    }
    var lens := ScanSegments(content, i + 1, i + 10);
    if lens.Err? {
      return Err(lens.fault);
    }
    if |lens.value| != 4 {
      return Ok(None);
    }
    var accepted := Accept810(lens.value);
    if accepted.Err? {
      return Err(accepted.fault);
    }
    if accepted.value {
      return Ok(HeaderIcao(content[i]));
    }
    return Ok(None);
  }

  /**
   * Lines 126-142 for line `i`: the classifier step, then the code and its line appended to
   * the registry `reg` of the lines before, unless the code is already there.
   */
  method AdmitLine(v850: bool, content: seq<Line>, i: nat, ghost start: Registry, reg: Registry)
    returns (r: Result<Registry>)
    requires i < |content| && Classified(v850, content, i, start) == Ok(reg)
    ensures r == Classified(v850, content, i + 1, start)
  {
    var verdict := Decide(v850, content, i);
    ClassifiedStep(v850, content, i, start, reg);
    if verdict.Err? {
      return Err(verdict.fault);
    }
    if verdict.value.Some? && verdict.value.value !in reg.airports {
      return Ok(Registry(reg.airports + [verdict.value.value], reg.index + [(verdict.value.value, i)]));
    }
    return Ok(reg);
  }

  // ---------------------------------------------------------------- the done files

  /** The loop of `check_already_done`: each path's code joins `done` unless it is there. */
  method ReadDone(done: seq<string>, paths: seq<string>) returns (r: seq<string>)
    ensures r == DoneFrom(done, paths, 0)
  {
    r := done;
    var k := 0;
    while k < |paths|
      invariant k <= |paths|
      invariant DoneFrom(done, paths, 0) == DoneFrom(r, paths, k)
    {
      var icao := DoneIcao(paths[k]);
      DoneStep(r, paths, k);
      if icao !in r {
        r := r + [icao];
      }
      k := k + 1;
    }
  }

  // ---------------------------------------------------------------- the airport list

  /** `line.rstrip('\n')`: drop every trailing newline. */
  function StripNewlines(s: string): (r: string)
    ensures r <= s
    ensures |r| == 0 || r[|r| - 1] != '\n'
    ensures forall k :: |r| <= k < |s| ==> s[k] == '\n'
  {
    if |s| > 0 && s[|s| - 1] == '\n' then StripNewlines(s[..|s| - 1]) else s
  }

  /** The airport codes read from the lines of the cached airport list. */
  function CachedNames(lines: seq<string>): (r: seq<string>)
    ensures |r| == |lines|
    ensures forall k :: 0 <= k < |lines| ==> r[k] == StripNewlines(lines[k])
    ensures forall k :: 0 <= k < |lines| ==> r[k] <= lines[k] && (|r[k]| == 0 || r[k][|r[k]| - 1] != '\n')
    ensures forall k :: 0 <= k < |lines| && (|lines[k]| == 0 || lines[k][|lines[k]| - 1] != '\n') ==> r[k] == lines[k]
  {
    seq(|lines|, k requires 0 <= k < |lines| => StripNewlines(lines[k]))
  }

  // ---------------------------------------------------------------- lookups and slices

  /** `dict(apt_index)[a]`: the line of the last entry for `a`, None for a KeyError. */
  function LookUp(index: seq<(string, nat)>, a: string): (r: Option<nat>)
    ensures r.Some? <==> exists j :: 0 <= j < |index| && index[j].0 == a
    ensures r.Some? ==> exists j :: 0 <= j < |index| && index[j] == (a, r.value)
  {
    if index == [] then None
    else if index[|index| - 1].0 == a then Some(index[|index| - 1].1)
    else
      var r := LookUp(index[..|index| - 1], a);
      if r.Some? then
        var j :| 0 <= j < |index| - 1 && index[..|index| - 1][j] == (a, r.value);
        assert index[j] == (a, r.value);
        r
      else r
  }

  /** With distinct codes the looked-up line is the one entry recorded for `a`. */
  lemma LookUpUnique(index: seq<(string, nat)>, a: string, j: nat)
    requires j < |index| && index[j].0 == a
    requires forall p, q :: 0 <= p < q < |index| ==> index[p].0 != index[q].0
    ensures LookUp(index, a) == Some(index[j].1)
  {
    var r := LookUp(index, a);
    var q :| 0 <= q < |index| && index[q] == (a, r.value);
    assert q == j;
  }

  /** Python's slice bound: negative counts from the end; both clipped to the sequence. */
  function SliceBound(x: int, n: nat): (r: nat)
    ensures r <= n
    ensures 0 <= x <= n ==> r == x
    ensures x > n ==> r == n
    ensures x < 0 && x + n >= 0 ==> r == x + n
    ensures x + n < 0 ==> r == 0
  {
    if x < 0 then (if x + n < 0 then 0 else x + n) else if x > n then n else x
  }

  /** `s[a:b]` with Python's meaning for negative and out-of-range bounds. */
  function PySlice<T>(s: seq<T>, a: int, b: int): (r: seq<T>)
    ensures SliceBound(a, |s|) <= SliceBound(b, |s|) ==> r == s[SliceBound(a, |s|)..SliceBound(b, |s|)]
    ensures SliceBound(a, |s|) > SliceBound(b, |s|) ==> r == []
  {
    var lo, hi := SliceBound(a, |s|), SliceBound(b, |s|);
    if lo <= hi then s[lo..hi] else []
  }

  /** Line 104 as written: the lines handed to the job of the airport whose header is line `i`. */
  function JobLinesAsWritten(content: seq<Line>, i: nat): seq<Line> {
    PySlice(content, i - 1, i + 40)
  }

  /** Line 104 as intended: from the line before the header (or the header itself on line 0) to 39 lines after it. */
  function JobLines(content: seq<Line>, i: nat): (r: seq<Line>)
    requires i < |content|
    ensures r == content[(if i == 0 then 0 else i - 1)..(if i + 40 <= |content| then i + 40 else |content|)]
  {
    content[(if i == 0 then 0 else i - 1)..(if i + 40 <= |content| then i + 40 else |content|)]
  }

  /**
   * The job's lines hold the header line and the 39 lines after it (as far as the file goes),
   * in file order, and the two slices agree whenever the header is not the first line.
   */
  lemma JobLinesHoldHeader(content: seq<Line>, i: nat)
    requires i < |content|
    ensures var from := if i == 0 then 0 else i - 1;
            var w := JobLines(content, i);
            i - from < |w| && w[i - from] == content[i]
            && |w| == (if i + 40 <= |content| then i + 40 else |content|) - from
            && forall j :: 0 <= j < |w| ==> w[j] == content[from + j]
    ensures i > 0 ==> JobLinesAsWritten(content, i) == JobLines(content, i)
  {
  }

  /** When the header is the first of more than 40 lines, the slice as written is empty. */
  lemma FirstLineHeaderLost(content: seq<Line>)
    requires |content| > 40
    ensures JobLinesAsWritten(content, 0) == []
    ensures |JobLines(content, 0)| == 40 && JobLines(content, 0)[0] == content[0]
  {
    assert SliceBound(-1, |content|) == |content| - 1;
    assert SliceBound(40, |content|) == 40;
  }

  // ---------------------------------------------------------------- a conversion job

  /** `parse_airport` or `parse_airport_850` up to the document to save. */
  function Generate(v: Version, proj: Projection, spacing: real, distance: real, content: seq<Line>, apt: string)
    : Result<seq<Element>>
  {
    if v == V850 then Groundnet850(proj, spacing, distance, content, apt)
    else Groundnet810(proj, spacing, distance, content, apt)
  }

  /**
   * What a job produces: the exception that aborts it, nothing when the airport is skipped,
   * or the path written and the document written there.
   */
  function Job(v: Version, saveTree: bool, proj: Projection, spacing: real, distance: real,
               cwd: string, content: seq<Line>, apt: string): Result<Option<(string, seq<Element>)>>
  {
    var doc :- Generate(v, proj, spacing, distance, content, apt);
    match SavePath(cwd, v, saveTree, apt)
    case None => Ok(None)
    case Some(p) => Ok(Some((p, doc)))
  }

  /**
   * A job in the tree layout saves the network of `apt` at a path from which the done-file
   * reading gives back `apt`, and it saves the document the parser built.
   */
  lemma JobSavesUnderCode(v: Version, proj: Projection, spacing: real, distance: real,
                          cwd: string, content: seq<Line>, apt: string)
    requires IsIcao(apt) && |apt| <= 4
    ensures var j := Job(v, true, proj, spacing, distance, cwd, content, apt);
            (j.Ok? <==> Generate(v, proj, spacing, distance, content, apt).Ok?)
            && (j.Ok? ==> j.value.Some? && DoneIcao(j.value.value.0) == apt
                          && j.value.value.1 == Generate(v, proj, spacing, distance, content, apt).value)
  {
    IcaoIsPlain(apt);
    DoneIcaoRoundTrip(cwd, v, apt);
  }

  lemma IcaoIsPlain(apt: string)
    requires IsIcao(apt)
    ensures PlainCode(apt)
  {
    assert forall k :: 0 <= k < |apt| ==> apt[k] != '.' && apt[k] != '/';
  }

  /** `Parser.run`: the parser of the version on the job's lines, then the save path. */
  method Run(v: Version, saveTree: bool, proj: Projection, spacing: real, distance: real,
             cwd: string, content: seq<Line>, apt: string) returns (r: Result<Option<(string, seq<Element>)>>)
    ensures r == Job(v, saveTree, proj, spacing, distance, cwd, content, apt)
  {
    var doc: Result<seq<Element>>;
    if v == V850 {
      doc := ParseAirport850(proj, spacing, distance, content, apt);
    } else {
      doc := ParseAirport810(proj, spacing, distance, content, apt);
    }
    if doc.Err? {
      return Err(doc.fault);
    }
    var path := SavePath(cwd, v, saveTree, apt);
    if path.None? {
      return Ok(None);
    }
    return Ok(Some((path.value, doc.value)));
  }

  // ---------------------------------------------------------------- the driver object

  class Groundnet {
    var version: Version
    var saveTree: bool
    var parkSpacing: real
    var parkDistance: real
    var aptContent: seq<Line>
    var defaultAirports: seq<string>
    var aptIndex: seq<(string, nat)>
    var missingNetwork: seq<string>
    var doneFiles: seq<string>
    var apts: set<string>

    /** The registry the classifier found in the loaded data, with every selected airport in it. */
    predicate Valid()
      reads this
    {
      && Classified(version == V850, aptContent, |aptContent|, Empty) == Ok(Registry(defaultAirports, aptIndex))
      && (forall a :: a in apts ==> a in defaultAirports)
    }

    /** Lines 50-59: the settings and the empty lists. */
    constructor (version: Version)
      ensures this.version == version && saveTree && parkSpacing == 60.0 && parkDistance == 50.0
      ensures aptContent == [] && defaultAirports == [] && aptIndex == []
      ensures missingNetwork == [] && doneFiles == [] && apts == {}
    {
      this.version := version;
      saveTree := true;
      parkSpacing := 60.0;
      parkDistance := 50.0;
      aptContent := [];
      defaultAirports := [];
      aptIndex := [];
      missingNetwork := [];
      doneFiles := [];
      apts := {};
    }

    /**
     * Lines 119-178: `load_apt` / `load_apt_850` on the lines of the data file. `ok` is false
     * when the loader raises; otherwise the registry is the classifier's over all lines.
     */
    method LoadApt(content: seq<Line>) returns (ok: bool)
      modifies this
      ensures aptContent == content
      ensures version == old(version) && saveTree == old(saveTree) && parkSpacing == old(parkSpacing)
      ensures parkDistance == old(parkDistance) && missingNetwork == old(missingNetwork)
      ensures doneFiles == old(doneFiles) && apts == old(apts)
      ensures var c := Classified(version == V850, content, |content|, old(Registry(defaultAirports, aptIndex)));
              (ok <==> c.Ok?) && (ok ==> Registry(defaultAirports, aptIndex) == c.value)
    {
      aptContent := content;
      var v850 := version == V850;
      ghost var start := Registry(defaultAirports, aptIndex);
      var i := 0;
      while i < |content|
        modifies this`defaultAirports, this`aptIndex
        invariant i <= |content|
        invariant Classified(v850, content, i, start) == Ok(Registry(defaultAirports, aptIndex))
      {
        var next := AdmitLine(v850, content, i, start, Registry(defaultAirports, aptIndex));
        if next.Err? {
          ClassifiedErrPersists(v850, content, i + 1, |content|, start);
          return false;
        }
        defaultAirports, aptIndex := next.value.airports, next.value.index;
        i := i + 1;
      }
      return true;
    }

    /**
     * Lines 182-196: `check_already_done` on the paths the glob finds, reading each code with
     * the corrected reading `DoneIcao`.
     */
    method CheckAlreadyDone(paths: seq<string>)
      modifies this
      ensures doneFiles == DoneFrom(old(doneFiles), paths, 0)
      ensures version == old(version) && saveTree == old(saveTree) && parkSpacing == old(parkSpacing)
      ensures parkDistance == old(parkDistance) && aptContent == old(aptContent)
      ensures defaultAirports == old(defaultAirports) && aptIndex == old(aptIndex)
      ensures missingNetwork == old(missingNetwork) && apts == old(apts)
    {
      doneFiles := ReadDone(doneFiles, paths);
    }

    /**
     * Lines 70-89: `get_airport_list`. With the cache file (`cache` holds its lines) each line
     * without its newline is appended; without it, the names the scenery walk collected.
     */
    method GetAirportList(cache: Option<seq<string>>, walked: seq<string>)
      modifies this
      ensures missingNetwork == old(missingNetwork) + (if cache.Some? then CachedNames(cache.value) else walked)
      ensures version == old(version) && saveTree == old(saveTree) && parkSpacing == old(parkSpacing)
      ensures parkDistance == old(parkDistance) && aptContent == old(aptContent)
      ensures defaultAirports == old(defaultAirports) && aptIndex == old(aptIndex)
      ensures doneFiles == old(doneFiles) && apts == old(apts)
    {
      if cache.None? {
        missingNetwork := missingNetwork + walked;
        return;
      }
      var lines := cache.value;
      var k := 0;
      while k < |lines|
        invariant k <= |lines|
        invariant missingNetwork == old(missingNetwork) + CachedNames(lines)[..k]
        invariant version == old(version) && saveTree == old(saveTree) && parkSpacing == old(parkSpacing)
        invariant parkDistance == old(parkDistance) && aptContent == old(aptContent)
        invariant defaultAirports == old(defaultAirports) && aptIndex == old(aptIndex)
        invariant doneFiles == old(doneFiles) && apts == old(apts)
      {
        missingNetwork := missingNetwork + [StripNewlines(lines[k])];
        assert CachedNames(lines)[..k + 1] == CachedNames(lines)[..k] + [StripNewlines(lines[k])];
        k := k + 1;
      }
      assert CachedNames(lines)[..k] == CachedNames(lines);
    }

    /**
     * Lines 60-67: the rest of `__init__` on a new object. `ok` is false when the loader raises;
     * otherwise the object is valid and `apts` is the default-layout airports that miss a
     * network and are not done.
     */
    method Setup(content: seq<Line>, donePaths: seq<string>, cache: Option<seq<string>>, walked: seq<string>)
      returns (ok: bool)
      requires defaultAirports == [] && aptIndex == [] && missingNetwork == [] && doneFiles == [] && apts == {}
      modifies this
      ensures version == old(version) && saveTree == old(saveTree)
      ensures parkSpacing == old(parkSpacing) && parkDistance == old(parkDistance)
      ensures ok <==> Classified(version == V850, content, |content|, Empty).Ok?
      ensures ok ==> Valid() && aptContent == content
      ensures ok ==> doneFiles == DoneFrom([], donePaths, 0)
      ensures ok ==> missingNetwork == (if cache.Some? then CachedNames(cache.value) else walked)
      ensures ok ==> apts == Select(defaultAirports, missingNetwork, doneFiles)
    {
      ok := LoadApt(content);
      if !ok {
        return;
      }
      CheckAlreadyDone(donePaths);
      GetAirportList(cache, walked);
      apts := Select(defaultAirports, missingNetwork, doneFiles);
    }

    /** Line 104 (corrected slice): the job of a selected airport, run on the lines around its header. */
    method ParseOneOfAll(proj: Projection, cwd: string, a: string) returns (r: Result<Option<(string, seq<Element>)>>)
      requires Valid() && a in apts
      ensures LookUp(aptIndex, a).Some? && LookUp(aptIndex, a).value < |aptContent|
      ensures r == Job(version, saveTree, proj, parkSpacing, parkDistance, cwd,
                       JobLines(aptContent, LookUp(aptIndex, a).value), a)
    {
      SelectedFound(version == V850, aptContent, Registry(defaultAirports, aptIndex), a);
      var i := LookUp(aptIndex, a).value;
      r := Run(version, saveTree, proj, parkSpacing, parkDistance, cwd, JobLines(aptContent, i), a);
    }

    /**
     * Lines 93-107: `parse_all` runs one job per selected airport, in no particular order;
     * `jobs` maps each selected airport to what its job produces.
     */
    method ParseAll(proj: Projection, cwd: string) returns (jobs: map<string, Result<Option<(string, seq<Element>)>>>)
      requires Valid()
      ensures jobs.Keys == apts
      ensures forall a :: a in jobs ==>
                LookUp(aptIndex, a).Some? && LookUp(aptIndex, a).value < |aptContent|
                && jobs[a] == Job(version, saveTree, proj, parkSpacing, parkDistance, cwd,
                                  JobLines(aptContent, LookUp(aptIndex, a).value), a)
    {
      jobs := map[];
      var left := apts;
      while left != {}
        invariant left <= apts
        invariant jobs.Keys == apts - left
        invariant forall a :: a in jobs ==>
                    LookUp(aptIndex, a).Some? && LookUp(aptIndex, a).value < |aptContent|
                    && jobs[a] == Job(version, saveTree, proj, parkSpacing, parkDistance, cwd,
                                      JobLines(aptContent, LookUp(aptIndex, a).value), a)
        decreases left
      {
        var a :| a in left;
        var r := ParseOneOfAll(proj, cwd, a);
        jobs := jobs[a := r];
        left := left - {a};
      }
    }

    /** Lines 110-116: `parse_airport` runs the job of one airport on the whole data. */
    method ParseAirport(proj: Projection, cwd: string, a: string) returns (r: Result<Option<(string, seq<Element>)>>)
      ensures r == Job(version, saveTree, proj, parkSpacing, parkDistance, cwd, aptContent, a)
    {
      r := Run(version, saveTree, proj, parkSpacing, parkDistance, cwd, aptContent, a);
    }
  }

  /**
   * Every airport `parse_all` picks has an entry in the index (the lookup at line 104 does not
   * raise KeyError), and the line it names is that airport's header, which passed the layout test.
   */
  lemma SelectedFound(v850: bool, content: seq<Line>, reg: Registry, a: string)
    requires Classified(v850, content, |content|, Empty) == Ok(reg)
    requires a in reg.airports
    ensures LookUp(reg.index, a).Some?
    ensures var i := LookUp(reg.index, a).value;
            i < |content| && IsAirportHeader(content[i]) && HeaderIcao(content[i]) == Some(a)
            && Verdict(v850, content, i) == Ok(Some(a))
  {
    ClassifiedFaithful(v850, content, |content|);
    var j :| 0 <= j < |reg.airports| && reg.airports[j] == a;
    LookUpUnique(reg.index, a, j);
    RegisteredAreHeaders(v850, content, reg);
  }

  /**
   * Converting a selected airport in the tree layout keeps it from being selected by the next
   * run: once its file is among the done files, it is not in the selection.
   */
  lemma ConvertedNotReselected(v: Version, proj: Projection, spacing: real, distance: real, cwd: string,
                               content: seq<Line>, apt: string, defaults: seq<string>, missing: seq<string>,
                               paths: seq<string>)
    requires IsIcao(apt) && |apt| <= 4
    requires var j := Job(v, true, proj, spacing, distance, cwd, content, apt);
             j.Ok? && j.value.Some? && j.value.value.0 in paths
    ensures apt !in Select(defaults, missing, DoneFrom([], paths, 0))
  {
    IcaoIsPlain(apt);
    JobSavesUnderCode(v, proj, spacing, distance, cwd, content, apt);
    SavedNotSelected(cwd, v, apt, defaults, missing, paths);
  }
}
