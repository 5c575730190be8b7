# groundnet — a verified model of the ground-network converter

`groundnet.py` builds FlightGear ground networks (`*.groundnet.xml`) for airports in an X-Plane
airport data file. It reads two record layouts, 810 (`apt.dat`) and 850 (`apt850.dat`). It picks
the airports whose taxiway layout matches one fixed template. It also skips airports that already
have a network or were converted in an earlier run. For each remaining airport it writes a fixed
graph:

- the radio frequencies;
- nine parking stands along the taxiway;
- the taxi nodes, each with runway and hold-point flags;
- the taxiway arcs, every one paired with its reverse.

This project models that pipeline in Dafny and proves its properties. It is split into modules:

| module | file | what it models |
|---|---|---|
| `Outcome` | outcome.dfy | `Option`, and `Result` with the Python exceptions the converter can raise (IndexError, ValueError, TypeError) |
| `Records` | records.dfy | a data-file line as its whitespace-split tokens; every regular expression of the source as a predicate on tokens (the requested airport code as a literal token, see "## Left out"); Python `float()` on decimal text |
| `Window` | window.dfy | the bounded look-ahead after a header line, stopping at a blank line and raising IndexError past the end of the file |
| `Classify` | classify.dfy | the two template classifiers `load_apt` / `load_apt_850` and the registry they build |
| `Extract` | extract.dfy | the first loop of `parse_airport` / `parse_airport_850`: the record lines and frequency lines of the requested airport, and the 850 heading |
| `Frequencies` | frequencies.dfy | frequency codes 50–56 and their element tags |
| `Geometry` | geometry.dfy | points, heading normalisation, `find_midpoint`, and the numeric part of `convert_coord` |
| `Elements` | elements.dfy | the written document as structured elements (Freq, Parking, Node, Arc, fixed text); `gen_parking` |
| `Emit` | emit.dfy | writing nodes and arc pairs |
| `Parking` | parking.dfy | one parking pass: nine stands and their stub nodes |
| `Build810`, `Build850` | build810.dfy, build850.dfy | the graph construction of the two parsers |
| `Output` | output.dfy | the output path of `save_network`, the done-file reading of `check_already_done`, and the selection at line 67 |
| `Converter` | converter.dfy | the `Groundnet` driver object (`__init__`, `load_apt*`, `check_already_done`, `get_airport_list`, `parse_all`, `parse_airport`) and `Parser.run` |

Some source code changes state step by step: the classifier loops, the parser loops that grow
`xml`, `nodes`, `subnodes` and `park`, and the driver object's lists. That code is modelled as
methods with loops, and the `Groundnet` object is a class whose methods update its fields. Each
such method is proved equal to a specification function, and the properties are proved about
those functions. The pure helpers are functions: `find_midpoint`, `convert_coord`, `gen_parking`
and the set expression.

The great-circle projection `math.asin/sin/cos/fmod` is a function parameter
`proj(origin, bearing, metres)` and is never interpreted. So are the file system, the glob and
the scenery walk: their results arrive as parameters.

## Model

| member | source | states |
|---|---|---|
| Records.HeaderIcao | groundnet.py:138 | a code is read only from a `1` header, and it is always a well-formed ICAO of 3–5 `[0-9A-Z]` characters (its fifth token) |
| Records.ParserHeaderIsClassifierHeader | groundnet.py:249 | the header a parser looks for with a well-formed ICAO is one the classifiers read that same code from; a classifier header matches the parsers' pattern exactly when its three numeric fields are 1–7, 1 and 1 digits wide |
| Records.ParseReal | groundnet.py:293-300 | `float()` on a digit string is its integer value; a negative result comes only from text starting with '-' |
| Records.Float | groundnet.py:137 | `float` of a digit string gives its integer value; a negative result needs a leading '-'; text that does not parse raises ValueError |
| Records.Field | groundnet.py:293-300 | `float(tokens[j])` raises IndexError exactly when the token is missing and ValueError when it does not parse; otherwise it is the token's value, the integer value for a digit string |
| Window.ScanIsSlice | groundnet.py:129-131 | a look-ahead visits exactly the lines from its start up to the first blank line or its bound; it raises IndexError exactly when it runs past the end of the file first |
| Window.CollectIsSlice | groundnet.py:250-259 | a collecting look-ahead returns, in order, exactly the matching lines of that slice, or IndexError when it overruns |
| Window.CollectWindow | groundnet.py:250-259 | the collecting loop computes the look-ahead's result |
| Classify.SegmentScanCollects | groundnet.py:129-135 | the 810 look-ahead collects field 5 of every `10 … xxx` segment before the first blank line, in order; it raises IndexError when a segment has no field 5 or the window runs off the file |
| Classify.ScanSegments | groundnet.py:127-135 | the inner loop of `load_apt` computes that look-ahead |
| Classify.AcceptedLengths | groundnet.py:136-137 | for four segments, the length test passes exactly when the first three length texts are equal, numerically below the fourth, and the fourth is ≥ 2000 |
| Classify.Accepts810 | groundnet.py:124-143 | line i passes the layout test with `code` (its verdict is `code`; which such line is registered is RegisteredFaithful's first-seen rule) iff it is a `1` header, the nine lines after it up to a blank line lie in the file, their taxiway segments fit the layout, and the header's ICAO is `code` (both directions) |
| Classify.CountScanCounts | groundnet.py:159-171 | the 850 look-ahead counts the `111`, `110`, `112` and `120` records of exactly the lines before the first blank line, or raises IndexError when it runs off the file |
| Classify.CountRecords | groundnet.py:154-171 | the inner loop of `load_apt_850` computes those four counters |
| Classify.Accepts850 | groundnet.py:152-178 | line i passes the layout test with `code` (its verdict is `code`; which such line is registered is RegisteredFaithful's first-seen rule) iff it is a header, its 39-line window up to a blank line lies in the file and holds exactly 14 `111`, 1 `110`, 4 `112` and 3 `120` records, and its ICAO is `code` (both directions) |
| Classify.Register | groundnet.py:140-142 | after registering, the code is present, and a code already present leaves the registry unchanged |
| Classify.RegisteredFaithful | groundnet.py:125-143 | by induction over the lines: the code list and the index list run in step; each entry is a line whose verdict is its code; entries are in header order with no duplicate; each is the first line accepting its code; every accepted code is registered |
| Classify.ClassifiedFaithful | groundnet.py:146-179 | the same for the classifier of either version run on the data file |
| Classify.ClassifiedRaises | groundnet.py:129-137 | the classifier raises exactly when some line's look-ahead or length test raises, and it raises that line's exception |
| Classify.ClassifiedErrPersists | groundnet.py:125-143 | once the classifier has raised, later lines do not change the outcome |
| Classify.RegisteredAreHeaders | groundnet.py:138-142 | every registered code is the ICAO of a `1` header at its recorded line, 3 to 5 characters long |
| Extract.Extract810From | groundnet.py:248-260 | the 810 extraction loop adds only frequency records to `freq_data` |
| Extract.SingleHeader810 | groundnet.py:248-260 | for an airport with one header line, the loop extracts exactly the segment look-ahead (lines i+1..i+14) and the frequency look-ahead (lines i+4..i+24) of that header |
| Extract.Extract810 | groundnet.py:248-260 | the loop of `parse_airport` computes that extraction |
| Extract.LastHeading | groundnet.py:459-461 | with no `110` record the heading is the starting one; otherwise it is the number of some `110` record |
| Extract.LastHeadingIsLast | groundnet.py:459-461 | the heading is the number of the last `110` record: the one no other `110` record follows |
| Extract.VertexScanWindow | groundnet.py:448-461 | the 850 look-ahead collects the `111`/`112`/`113`/`115` records before the first blank line and ends with the last `110` heading; it raises when that heading is not a number or the window runs off the file |
| Extract.VertexWindow | groundnet.py:448-461 | the look-ahead loop computes that result |
| Extract.SingleHeader850 | groundnet.py:446-467 | for an airport with one header line, the 850 loop extracts exactly the look-aheads of that header |
| Extract.Heading850 | groundnet.py:444-461 | for one header, the extracted records are the vertex records of its window, and the heading is the last `110` heading there, or 0 |
| Extract.Extract850 | groundnet.py:446-467 | the loop of `parse_airport_850` computes that extraction |
| Frequencies.TagOf | groundnet.py:263-278 | a code has a tag exactly when it is `50`…`56`, and the tag is APPROACH exactly for 55 and 56 |
| Frequencies.TagsDistinct | groundnet.py:263-278 | 50→AWOS, 51→UNICOM, 52→CLEARANCE, 53→GROUND, 54→TOWER, 55 and 56→APPROACH |
| Frequencies.FrequencyElementsInOrder | groundnet.py:470-485 | one element per tagged frequency line, none for the others, in input order, each with its line's tag and frequency |
| Frequencies.AppendFrequencies | groundnet.py:263-278 | the frequency loop appends exactly those elements to `xml` |
| Geometry.Turn | groundnet.py:296-298 | `heading + delta` with 360 subtracted once; a normalised heading plus a normalised delta stays in [0, 360) |
| Geometry.QuarterThenHalfTurn | groundnet.py:330-337 | the stand heading (heading + 90, then + 180) is the heading turned by 270 |
| Geometry.Midpoint | groundnet.py:665-674 | `find_midpoint` returns the arithmetic mean of each coordinate, which lies between the two inputs |
| Geometry.ToAngle | groundnet.py:692-715 | the hemisphere is the positive letter only for values > 0; minutes lie in [0, 60); degrees + minutes/60 = abs(x) |
| Geometry.AngleRoundTrip | groundnet.py:692-715 | reading a converted coordinate back (sign from the hemisphere) gives the coordinate |
| Geometry.ConvertCoord | groundnet.py:692-715 | `convert_coord` gives N/E exactly for positive latitude/longitude, and both angles read back to the point |
| Elements.Render | groundnet.py:242-432 | the written document starts with the prologue and ends with the epilogue; its length is the section lengths plus five |
| Elements.GenParking | groundnet.py:677-689 | a stand has number index + 1 and radius 28; its coordinates read back to the position; it carries the given heading |
| Elements.NodeElement | groundnet.py:359-368 | a node is on the runway exactly when its index is in the runway set, and a hold point exactly when it is in the hold set |
| Emit.EmitNodes | groundnet.py:359-373 | the node loops append exactly those elements |
| Emit.PairArcsShape | groundnet.py:378-428 | arcs 2j and 2j+1 are the two directions of connection j; twice as many arcs as connections |
| Emit.PairArcsAppend | groundnet.py:378-428 | the arcs of two tables written one after the other are the arcs of the joined table |
| Emit.EmitParkingArcs | groundnet.py:378-382 | the loop writes an arc pair from every stand to the stub of the same position |
| Emit.EmitChain | groundnet.py:399-405 | the loop writes an arc pair between each stub and the next |
| Parking.ParkingPass | groundnet.py:323-349 | the pass loop produces the pass specification and advances the counter by nine |
| Parking.PassShape | groundnet.py:320-349 | a pass has nine stands with indices 0..8 numbered 1..9, and nine stubs numbered base+1..base+9 |
| Parking.PassLinks | groundnet.py:378-405 | each stand is joined to its own stub, and the eight chain links join consecutive stubs |
| Build810.ParseRunway | groundnet.py:292-300 | a segment line is read exactly when fields 1, 2, 4, 5 and 7 exist and parse; the centre is fields 1 and 2, the heading field 4, the half-length field 5 in feet × 0.3048 / 2; with 8 tokens a failure is ValueError, IndexError comes only from a line of fewer than 8 tokens and is what a short line of numbers raises |
| Build810.ReadRunway | groundnet.py:292-300 | the field reads compute that result |
| Build810.RunwaysFrom | groundnet.py:287-349 | the segment loop keeps one stub per stand |
| Build810.CounterNodes | groundnet.py:312-317 | three nodes taking the next three indices keep the counter invariant |
| Build810.CounterPass | groundnet.py:346-348 | a parking pass whose stubs take the next nine indices keeps the counter invariant |
| Build810.AllocatedStep | groundnet.py:312-348 | one segment line keeps the counter invariant: node and stub indices are distinct and increasing, all in 9..index, and without gaps |
| Build810.RunwaysAllocated | groundnet.py:285-349 | the whole segment loop, starting from counter 8, keeps that invariant |
| Build810.ShortStep | groundnet.py:312-320 | a segment of half-length ≤ 300 adds three consecutive nodes and no stub |
| Build810.LongStep | groundnet.py:312-349 | a longer segment adds three nodes, then nine stubs numbered after them |
| Build810.DefaultRunways810 | groundnet.py:285-349 | three short segments and then a long one give nodes 9..20 in order and stubs 21..29 |
| Build810.DefaultLayout810 | groundnet.py:285-428 | for that layout the document exists and has 29 connection pairs (58 arcs) |
| Build810.Links810 | groundnet.py:378-428 | the connection table has one entry per stand, |stubs| − 1 chain links between consecutive stubs, and 12 fixed connections (5 at the chain's entry, 7 at its exit): |park| + |stubs| + 11 in all |
| Build810.LinksKnown810 | groundnet.py:378-428 | every connection joins two indices that exist: a segment node, a stub or a stand |
| Build810.Arcs810 | groundnet.py:378-428 | every arc is followed by its twin; 2·stubs + 11 connections (29 with one pass); every end exists; stands 0..8 never share an index with a taxi node (≥ 9) |
| Build810.Flags810 | groundnet.py:359-373 | segment nodes are on the runway exactly at 11, 14, 17 and hold points exactly at 10, 13, 16; stubs are neither |
| Build810.LayoutOf810 | groundnet.py:285-432 | a successful document comes from a layout that keeps the counter invariant, with its frequency, parking, node and arc sections |
| Build810.BuildRunways | groundnet.py:287-349 | the segment loop computes the layout specification |
| Build810.AddRunway | groundnet.py:312-349 | one iteration computes one segment step |
| Build810.EmitArcs810 | groundnet.py:378-428 | the arc section raises IndexError with fewer than 12 nodes or no stub; otherwise it writes the pair arcs of the whole table |
| Build810.ParseAirport810 | groundnet.py:240-434 | `parse_airport` up to `save_network` computes the 810 specification |
| Build810.Groundnet810Cases | groundnet.py:240-434 | the parse ends with the extraction's exception, the segment loop's exception, IndexError for too few nodes or no stub, or the rendered document |
| Build850.VertexFields | groundnet.py:499-503 | a vertex parses exactly when fields 1 and 2 exist and are numbers; a missing field raises IndexError, a bad one ValueError |
| Build850.VerticesOk | groundnet.py:494-506 | when every vertex line parses, the loop yields one point per line, in order |
| Build850.VerticesErr | groundnet.py:494-506 | otherwise the loop raises the exception of a line that fails |
| Build850.NamedNodes | groundnet.py:508-521 | the named taxi nodes are nine, numbered 9..17 |
| Build850.NamedInBox | groundnet.py:508-521 | each named node lies inside any latitude/longitude box that holds all the vertices |
| Build850.Document850Ok | groundnet.py:494-521 | an 850 document exists exactly when every vertex parses and there are at least 22; otherwise a vertex's exception, or IndexError |
| Build850.Stubs850 | groundnet.py:524-558 | the pass's stubs are 18..26, with stands 0..8 |
| Build850.Nodes850 | groundnet.py:564-586 | nodes 9..26 in order; on the runway exactly at 9, 15, 17; hold points exactly at 10, 14, 16 |
| Build850.Links850Range | groundnet.py:588-632 | every connection joins two indices in 0..26 |
| Build850.ArcsOf850 | groundnet.py:588-632 | 26 connection pairs (52 arcs), each arc followed by its twin, all ends in 0..26 |
| Build850.Arcs850 | groundnet.py:588-635 | the same for the arcs of any 850 document |
| Build850.Document850Nodes | groundnet.py:564-586 | an 850 document lists nodes 9..26 in order with the 850 flags |
| Build850.ReadVertices | groundnet.py:494-506 | the vertex loop computes the vertex specification |
| Build850.EmitArcs850 | groundnet.py:588-632 | the arc section writes the pair arcs of the whole 850 table |
| Build850.ParseAirport850 | groundnet.py:437-637 | `parse_airport_850` up to `save_network` computes the 850 specification |
| Build850.Groundnet850Cases | groundnet.py:437-637 | the parse ends with the extraction's exception, a vertex exception, IndexError for fewer than 22 vertices, or the rendered document |
| Output.OutputDir | groundnet.py:183-186 | the output directory name is a single non-empty component |
| Output.Join | groundnet.py:648 | `os.path.join` puts one separator between a relative component and a base not ending in '/', and ends with the last character of that component |
| Output.SavePath | groundnet.py:646-659 | with the tree layout, a path exists exactly for 3- or 4-letter codes; without it, always |
| Output.SavePathAgrees | groundnet.py:646-651 | the corrected path equals the as-written result wherever the source does not raise; the source raises exactly where the correction skips |
| Output.FiveLettersRaise | groundnet.py:650 | a 5-character code passes the classifiers' ICAO pattern, but `save_network` raises TypeError on it |
| Output.TreePath | groundnet.py:646-659 | a tree path is the tree directory, a separator and `<apt>.groundnet.xml` |
| Output.DoneIcaoRoundTrip | groundnet.py:192-196 | the corrected done-file reading gives back the code of any network saved in the tree layout, for any working directory |
| Output.DoneIcaoAsWrittenUndotted | groundnet.py:192-196 | the source's reading gives back the code too, when the working directory holds no '.' |
| Output.DottedDirectoryMisreads | groundnet.py:192-196 | with working directory `/a.b`, the source reads EDDF's saved network as `a`; the corrected reading gives `EDDF` |
| Output.AppendNew | groundnet.py:195-196 | after appending unless present, the list holds exactly the old values and the new one |
| Output.DoneStep | groundnet.py:192-196 | one path of the done loop adds its code unless it is already there |
| Output.DoneFromCodes | groundnet.py:192-196 | the done list has no duplicates and holds exactly the old codes and the codes of the paths |
| Output.SavedNotSelected | groundnet.py:67 | an airport whose saved network is among the done files is not selected |
| Converter.Decide | groundnet.py:125-178 | one classifier step computes the verdict of line i |
| Converter.AdmitLine | groundnet.py:126-142 | one pass of the loader's loop takes the registry over the lines before `i` to the classifier's registry over one more line, or to the exception line `i` raises |
| Converter.ReadDone | groundnet.py:192-196 | the done loop computes the done-list specification |
| Converter.StripNewlines | groundnet.py:89 | `rstrip('\n')` leaves a prefix without a trailing newline and removes only newlines |
| Converter.CachedNames | groundnet.py:88-89 | one name per cached line, in order: entry k is line k without its trailing newlines, a prefix of it that does not end in a newline, and the line itself when it has none |
| Converter.LookUp | groundnet.py:103-104 | `dict(apt_index)[a]` finds an entry exactly when one exists for `a`, and returns that entry's line |
| Converter.LookUpUnique | groundnet.py:103-104 | with distinct codes the lookup returns the one recorded line |
| Converter.JobLinesHoldHeader | groundnet.py:104 | the job's lines hold the header and the following lines in file order, and agree with the slice as written whenever the header is not on line 0 |
| Converter.FirstLineHeaderLost | groundnet.py:104 | with the header on line 0 of a file of more than 40 lines, the slice as written is empty; the corrected one holds the header |
| Converter.JobSavesUnderCode | groundnet.py:232-237 | in the tree layout, a job that does not raise saves the parser's document under a path that the done-file reading maps back to the code |
| Converter.Run | groundnet.py:232-237 | `Parser.run` runs the parser of its version, then computes the save path |
| Converter.SelectedFound | groundnet.py:103-104 | every selected airport is in the index (no KeyError), at a header line with its ICAO that passed the layout test |
| Converter.ConvertedNotReselected | groundnet.py:67 | once a converted airport's file is among the done files, the next run does not select it |
| Converter.Groundnet.constructor | groundnet.py:50-59 | tree layout on, spacing 60, distance 50, all lists empty |
| Converter.Groundnet.LoadApt | groundnet.py:119-178 | the loader returns false exactly when the classifier raises; otherwise the registry is the classifier's over all lines; the other fields are unchanged |
| Converter.Groundnet.CheckAlreadyDone | groundnet.py:182-196 | the done list becomes the done-list specification over the found paths; nothing else changes |
| Converter.Groundnet.GetAirportList | groundnet.py:70-89 | the cached names, or else the walked names, are appended to `missing_network`; nothing else changes |
| Converter.Groundnet.Setup | groundnet.py:60-67 | after loading, reading the done files and the airport list, the object is valid and `apts` is the selection |
| Converter.Groundnet.ParseOneOfAll | groundnet.py:103-106 | a selected airport's job runs on the corrected slice around its header line |
| Converter.Groundnet.ParseAll | groundnet.py:93-107 | exactly one job per selected airport, each on its header's lines |
| Converter.Groundnet.ParseAirport | groundnet.py:110-116 | the single-airport job runs on the whole data |

## Left out

- File I/O is not modelled. Reading `apt.dat` / `apt850.dat`, the cache file, the glob in `check_already_done` and the file writes in `save_network` are left out. Their contents are parameters: lines, paths, cached names.
- The scenery walk (`check_groundnet`, lines 200-215) is not modelled. `GetAirportList` receives its result as `walked`. Writing the new cache file (lines 80-83) is left out.
- Concurrency is not modelled. `Parser` runs as a `multiprocessing.Process` and the `Queue` throttles the jobs; here each job is a plain call.
- Converter.Groundnet.ParseAll: the source iterates the set in an unspecified order. The model returns a map from each airport to its job, so no order is stated. Each job also runs on the corrected slice `JobLines` and uses the corrected `Output.SavePath`, as for ParseOneOfAll.
- The great-circle projection and the metres-to-radians constants are not modelled. They are the uninterpreted parameter `proj`, because Dafny has no trigonometry. `proj` never fails, so the model does not capture the exceptions the source's trigonometry can raise at lines 307, 310, 326, 328, 340, 343, 535, 537, 549 and 552: ValueError (math domain error) from `math.asin` outside [-1, 1], and ZeroDivisionError from dividing by `math.cos(math.radians(lat))` at a latitude of ±90°.
- Float arithmetic is modelled as exact `real` arithmetic. The model does not capture rounding, `str(float)` formatting, or the exact XML text and whitespace.
- Records.IsHeaderOf: the parsers' header test matches the requested airport `apt` as a literal fifth token. The source splices `apt` into the pattern as regular-expression text (lines 249 and 447). The two agree for every code the classifiers register (`[0-9A-Z]{3,5}`). They differ only for a code given on the command line (`groundnet.py airport <code>`) that holds regular-expression metacharacters, whitespace, or nothing: `ED.F` matches the `EDDF` header in the source and no header in the model.
- Records.ParseReal: `float()` accepts only decimal text (optional sign, digits, at most one point). Exponent forms, `inf`, `nan` and surrounding whitespace read as ValueError.
- Lines are assumed to be newline-terminated. An unterminated last line is not distinguished from a terminated one.
- `print` diagnostics, the `__main__` argument handling and the `print "error: "` at line 502 are left out.
- The working directory is the parameter `cwd`; `os.makedirs` is left out.
- Converter.Groundnet.CheckAlreadyDone: it reads codes with the corrected `DoneIcao`. The as-written reading is `Output.DoneIcaoAsWritten` (see Findings).
- Converter.Groundnet.ParseOneOfAll: it uses the corrected slice `JobLines`, not the as-written `Converter.JobLinesAsWritten`; and its job uses the corrected `Output.SavePath`, so a 5-character ICAO in the tree layout is skipped (`Ok(None)`) where line 650 raises TypeError (see Findings).
- Converter.Groundnet.ParseAirport: its job uses the corrected `Output.SavePath`, so a 5-character ICAO in the tree layout gives `Ok(None)` where line 650 raises TypeError (see Findings).
- Converter.Run: it computes the save path with the corrected `Output.SavePath`, so it returns `Ok(None)` for a 5-character ICAO in the tree layout where line 650 raises TypeError; `Output.FiveLettersRaise` models the as-written path.
- Converter.Job: the same corrected `Output.SavePath` as Run.
- Converter.ReadDone: it reads each code with the corrected `DoneIcao` (the file name up to its first '.'), not the source's split of the whole path at its first '.'; the two agree when the working directory has no '.' (`Output.DoneIcaoAsWrittenUndotted`).
- `parse_airport` prints `apt` at line 113, the global that `__main__` sets; the print is left out, the job it starts is modelled.

## Findings

| source | as written | input that shows it | evidently intended | confidence | as-written member | corrected member |
|---|---|---|---|---|---|---|
| groundnet.py:650 | `"..."+len(apt)+"..."` adds an int to a str and raises TypeError, so the skip for codes of other than 3 or 4 letters aborts the job | a 5-character ICAO such as `EDDFX`, which both classifiers accept (`[0-9A-Z]{3,5}`) | print the message and skip the airport; `Output.SavePathAgrees` proves the two agree everywhere else | high (not executed) | Output.FiveLettersRaise | Output.SavePath |
| groundnet.py:193-194 | the code is read by splitting the whole path at its first '.' and then taking the part after the last '/' | working directory `/a.b`: the saved network of EDDF is read back as `a` | take the file name first, then the part before its first '.' | medium (not executed) | Output.DottedDirectoryMisreads | Output.DoneIcaoRoundTrip |
| groundnet.py:104 | `content[index-1:index+40]` with `index == 0` starts at `-1`, i.e. at the last line | a data file of more than 40 lines whose first line is the airport's header | the slice starts at the header when it is the first line | low (not executed; real data files start with a file-header line) | Converter.FirstLineHeaderLost | Converter.JobLinesHoldHeader |
