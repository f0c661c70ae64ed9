# matGroups: verified model of the `.bdf` set writer

This project models the core of `matGroups.py`, which writes Hypermesh
`.bdf` SET cards for groups of element labels:

- `ranges` sorts a list of integer labels. It splits the sorted list into
  runs of consecutive labels, finding the end of each run with a nested
  binary search (module `Runs`).
- `hmRanges` turns each run into SET card entries: a single label, two
  adjacent labels, or a `lo THRU hi` range (module `Tokens`).
- `bdfExport` writes the file: `CEND`, then one SET card per set, eight
  entries per line, each card followed by its `$HMSET` line, then
  `BEGIN BULK` and `ENDDATA` (module `Bdf`). Decimal text and the `%5d` /
  `%8d` fields come from module `Decimal`. Module `BdfExample` derives the
  exact text of the documented `bdfExport` example.
- The grouping loop of `fromOdb` collects, per material, the element labels
  of the section assignments (module `Materials`).

`ranges`, the `bdfExport` loops and the grouping loop are imperative
methods, each proved against a reference function. `hmRanges`' per-run
split and the file format are functions. The output file is a `TextFile`
object whose `Write` appends text. Each writing method's postcondition
ties the text it appends to a list of lines: `WriteEntries` to the entry
lines `ChunkLines`, `WriteSet` to one set's lines `SetBlock`, and
`BdfExport` to the whole file `BdfLines`. `BdfExport`'s `setType` defaults
to 2, element sets, as in the source.

The reference for `ranges` is `RunsOf`, the plain greedy left-to-right
grouping. Its runs cover exactly the input labels. On strictly increasing
labels they are also well formed: non-empty, ascending, and separated by
gaps of at least one missing label.
`RunsCanonical` shows that these two properties determine the runs.

The method `Runs.Ranges` follows the source's three loops for every input.
Its postcondition states that the result is `RunsFrom`, the recursive
statement of the loops (`Shrink`, `Search`, `RunsFrom`). For pairwise
distinct labels, the result also equals the greedy runs.

The code does not remove repeated labels, although its docstring
(`matGroups.py:49`) promises ranges of continuous sequences of the input.
The model follows the code. With repeated labels `ranges` can claim labels
that are absent; see the Findings below. The
corrected `RangesDeduplicated` is what `HmRanges` and `BdfExport` use.

## Model

| member | source | states |
|---|---|---|
| Runs.SortSpec | matGroups.py:55 | the result is sorted, is a permutation of the input, and is strictly increasing when the input has no repeats |
| Runs.SortedUnique | matGroups.py:55 | two sorted permutations of the same labels are equal, so `Sort` agrees with Python's `sorted` |
| Runs.SortSorted | matGroups.py:55 | sorting already sorted labels changes nothing |
| Runs.RunsOf | matGroups.py:48-67 | the greedy runs: at most one per label, none for no labels, starting at the first label and ending at the last, every run non-empty |
| Runs.ExpandRunsOf | matGroups.py:48-67 | listing the labels of the greedy runs in order gives back the sorted labels |
| Runs.RunsOfCoverage | matGroups.py:48-67 | a label is covered by some run exactly when it is in the input |
| Runs.RunsOfWellFormed | matGroups.py:48-67 | on strictly increasing labels the runs are non-empty, ascending and maximal (`hi + 1 < next lo`) |
| Runs.WellFormedAscending | matGroups.py:66-67 | any two runs, not only neighbours, are in ascending order with a gap between them |
| Runs.RunsOfExpand | matGroups.py:48-67 | well-formed runs are recovered from their labels: grouping is the inverse of expansion |
| Runs.RunsCanonical | matGroups.py:48-67 | two well-formed run lists covering the same labels are equal |
| Runs.RunsOfAppendRun | matGroups.py:66-67 | appending a block of consecutive labels that starts after a gap adds exactly one run, from its first to its last label |
| Runs.Shrink | matGroups.py:61-64 | the innermost loop keeps `upper <= mid < boundary`, ends with `mid` halfway between `upper` and `boundary`, stops where `sortedInts[mid] - sortedInts[upper] <= mid - upper`, and leaves `boundary` unchanged or past the run |
| Runs.Search | matGroups.py:60-65 | the middle loop returns an index in `upper..boundary-1`; `boundary - upper` decreases on each pass |
| Runs.SearchEndsRun | matGroups.py:57-65 | on strictly increasing labels, given the invariants `sortedInts[upper] - sortedInts[lower] == upper - lower` and `boundary == len or sortedInts[boundary] - sortedInts[upper] > boundary - upper`, the search stops at the last label of the run and the next label is not consecutive |
| Runs.ConsecutiveRun | matGroups.py:60-64 | on strictly increasing labels, `sortedInts[upper] - sortedInts[lower] == upper - lower` means every label from `lower` to `upper` is one more than the one before |
| Runs.SearchRun | matGroups.py:57-65 | from the start of a run, the search returns the index of its last label; that run is the first pair yielded from there, it is the next greedy run, and the following label is not consecutive |
| Runs.RunsFromGreedy | matGroups.py:57-67 | on strictly increasing labels the pairs of the binary search are the greedy runs |
| Runs.RangesGreedy | matGroups.py:48-67 | for distinct labels, `ranges` yields the greedy runs: well formed and covering exactly the input labels |
| Runs.Ranges | matGroups.py:48-67 | the nested loops yield `RunsFrom` of the sorted labels, for any input; for distinct labels these are the maximal ascending runs covering exactly the input |
| Runs.RangesRepeatedLabels | matGroups.py:62 | on `[1, 3, 3, 3, 4]` the loops yield only `(1, 4)`, which covers the absent label 2 |
| Runs.Dedup | matGroups.py:55 | the result has no repeats and the same members as the input |
| Runs.DedupNoRepeats | matGroups.py:55 | deduplicating labels without repeats leaves their sorted order unchanged |
| Runs.RangesDeduplicated | matGroups.py:48-67 | on any input, `ranges` of the deduplicated labels yields well-formed runs covering exactly the input labels |
| Runs.RangesExample | matGroups.py:51-52 | `ranges([10,11,12,1,2,3,4,17,18,20])` yields `(1,4), (10,12), (17,18), (20,20)` |
| Tokens.RunTokens | matGroups.py:78-85 | a run's entries expand to exactly its labels and every THRU entry spans at least three labels; one label gives one number, two adjacent labels give two entries, a longer run gives a single THRU entry |
| Tokens.HmTokens | matGroups.py:77-85 | every entry of well-formed runs is proper (THRU spans at least three labels) |
| Tokens.ExpandHmTokens | matGroups.py:77-85 | expanding the entries of the runs gives the labels of the runs, in order |
| Tokens.HmTokensRoundTrip | matGroups.py:70-85 | the entries for distinct labels expand to exactly those labels, sorted |
| Tokens.HmTokensDetermineRuns | matGroups.py:77-85 | regrouping the labels of the entries recovers the runs, so no information is lost |
| Tokens.IsolatedTokens | matGroups.py:77-80 | ascending labels no two of which are adjacent are written as one number entry per label, in order |
| Tokens.HmRanges | matGroups.py:70-85 | the entries for any labels expand to the distinct labels, ascending; a label appears exactly when it is in the input; every THRU entry is proper |
| Tokens.HmRangesExample | matGroups.py:73-74 | `hmRanges([10,11,12,1,2,3,4,17,18,20])` gives `1 THRU 4`, `10 THRU 12`, 17, 18, 20 |
| Decimal.NatToStringDigits | matGroups.py:85 | the decimal text of a natural number is non-empty, all digits, without a leading zero |
| Decimal.IntToStringNumeral | matGroups.py:85 | `%d` text is an optional minus sign followed by digits |
| Decimal.IntToStringRoundTrip | matGroups.py:85 | reading back the decimal text of an integer gives the integer |
| Decimal.IntToStringInjective | matGroups.py:85 | distinct integers are written differently |
| Decimal.PadLeftSpec | matGroups.py:110 | right-justifying keeps the text as a suffix, pads with spaces, and yields the field width or the text's length |
| Decimal.FormatIntSpec | matGroups.py:110 | `%Nd` text is a field (`IntField`) of at least N characters: spaces, then a numeral whose value is the integer |
| Bdf.TextFile.Write | matGroups.py:107 | `print(..., file=bdf)` appends its text to the file and changes nothing else |
| Bdf.RenderTokenShape | matGroups.py:85 | an entry is printed as non-empty text starting with a sign or digit and ending with a digit |
| Bdf.JoinTokensShape | matGroups.py:115-117 | entries joined with commas are empty exactly when there are no entries, and otherwise start with a sign or digit and end with a digit |
| Bdf.JoinAppend | matGroups.py:115-117 | printing two non-empty entry lists with `sep=','` is printing each, with one comma between them |
| Bdf.LineCount | matGroups.py:113-117 | a SET card takes the least number of lines holding all entries eight per line, and at least one |
| Bdf.ChunksFlatten | matGroups.py:113-117 | concatenating the lines' entries in order gives back `hmList` |
| Bdf.ChunkInner | matGroups.py:114-115 | a line written by the `for` loop holds `hmList[i:i + 8]` and is not the last line |
| Bdf.ChunkLast | matGroups.py:116-117 | after the loop, `i += chunkSize` is the start of the last line, which holds `hmList[i:]` |
| Bdf.SetBodyLines | matGroups.py:113-117 | every line but the last holds exactly 8 entries and ends with a comma; the last holds 1 to 8 entries and ends with a digit (so with no comma), or is the single empty line when the set has no entries |
| Bdf.ContinuationLine | matGroups.py:115-117 | continuation lines of a SET card start with a sign or digit |
| Bdf.SetEntriesRoundTrip | matGroups.py:111-117 | the entries of a set's card, read line by line, stand for exactly the set's distinct labels, ascending |
| Bdf.SetBlockCards | matGroups.py:110-118 | a set's lines hold one SET line, starting with `SET%5d = ` for its number, and one `$HMSET` line |
| Bdf.SetBlocksHmSetCards | matGroups.py:108-118 | the k-th `$HMSET` line carries number k + 1, the set type and the k-th name |
| Bdf.SetBlocksSetCards | matGroups.py:108-110 | the k-th SET card starts with `SET%5d = ` of k + 1 |
| Bdf.BdfCards | matGroups.py:107-120 | the file starts with `CEND` and ends with `BEGIN BULK`, `ENDDATA`; it has one SET card and one `$HMSET` line per set, numbered 1..n in the given order |
| Bdf.BdfText | matGroups.py:107-120 | the file's text is `CEND`, the sets' lines, `BEGIN BULK` and `ENDDATA`, each line ended by a newline |
| Bdf.SetHeaderFields | matGroups.py:110 | the SET header is `SET`, a field of at least 5 characters holding the set's number (spaces, then its numeral), then ` = ` |
| Bdf.HmSetLineFields | matGroups.py:118 | the `$HMSET` line is `$HMSET `, an 8-wide field holding the set's number, a space, an 8-wide field holding the set type, a space and the name in double quotes |
| Bdf.SetTokensAsWritten | matGroups.py:77-85 | on labels without repeats, a set's entries are exactly what `hmRanges` writes from the pairs of `ranges` as written, so the model and the source agree |
| Bdf.SetTokensRepeatedLabels | matGroups.py:77-85 | on `[1, 3, 3, 3, 4]` the source's entries are the single `1 THRU 4`, and the model's entries differ |
| Bdf.SetBlockText | matGroups.py:110-118 | a set's text is the SET header, the entry lines and the `$HMSET` line |
| Bdf.WriteEntries | matGroups.py:112-117 | the chunk loop and the last-line print write exactly the set's entry lines |
| Bdf.WriteSet | matGroups.py:109-118 | one pass of the outer loop writes exactly the lines of set number `matId` |
| Bdf.BdfExport | matGroups.py:88-120 | the file gains exactly the text of `BdfLines`: `CEND`, each set's block numbered from 1 in ascending name order, `BEGIN BULK`, `ENDDATA` |
| BdfExample.BdfExportExample | matGroups.py:93-105 | the sets of the documentation example, in ascending name order, give exactly the eight documented lines, SET_B's card continued after eight entries |
| BdfExample.ExportExample | matGroups.py:93-120 | exporting the documentation example to an empty file writes exactly the documented text |
| Materials.MaterialOf | matGroups.py:145-147 | an assignment contributes to its section's material exactly when the section has a non-empty material |
| Materials.MaterialLabels | matGroups.py:143-149 | a material no assignment contributes to has no labels |
| Materials.UsedMaterialsSpec | matGroups.py:143-149 | a material gets a list exactly when some assignment's section has that material |
| Materials.MaterialLabelsSpec | matGroups.py:143-149 | a label is in a material's list exactly when some assignment of that material carries it |
| Materials.MaterialLabelsAppend | matGroups.py:144-149 | grouping two assignment lists in turn gives each material's labels from the first, followed by those from the second |
| Materials.GroupByMaterial | matGroups.py:143-149 | the map's keys are the materials used; each list is the labels of that material's assignments, concatenated in order; a section missing from `odb.sections` ends the loop with that section's name |

## Left out

- Output database access in `fromOdb`: opening the database, iterating over
  instances, the `instanceName` filter and `hasattr`. These are calls into
  the Abaqus API. `GroupByMaterial` takes the sections and assignments as
  plain values instead; a section without a `material` attribute is a
  `Section(None)`.
- File creation and the `.bdf` file name built with `os.path.splitext`
  (file-system I/O). Deciding to write a file only when `materialSets` is
  non-empty is also left out.
- The diagnostic prints to `sys.stderr`: logging outside the `.bdf` output.
- `onJobCompletion`: it depends on globals supplied by the Abaqus
  environment file.
- Command-line dispatch and the doctest runner: process plumbing.
- Python's `sorted`: `Runs.Sort` is an insertion sort specified by
  "sorted and a permutation". `SortedUnique` shows that any such sort gives
  the same list.
- `sorted(setDict.items())`: `BdfExport` takes the dictionary as its item
  list, which must already be in ascending name order (`NamesAscending`).
- Tokens.HmRanges: it groups the deduplicated labels (`RangesDeduplicated`),
  not the labels as given. For labels that repeat, it does not reproduce the
  wrong ranges the source writes; see the Findings. `Bdf.SetTokens` inherits
  this.
- Bdf.WriteSet: it writes the entries of the deduplicated labels. For
  repeated labels its card differs from one pass of the source's loop
  (`1,3,4` rather than `1 THRU 4` for `[1, 3, 3, 3, 4]`);
  `Bdf.SetTokensAsWritten` shows the two agree when no label repeats.
- Bdf.SetEntriesRoundTrip: it is stated of the entries the model writes.
  For repeated labels the source's card can stand for labels that are
  absent (`Bdf.SetTokensRepeatedLabels`), so the round trip holds of the
  source only when no label repeats.
- Bdf.BdfExport: like `Bdf.WriteSet`, it writes each set's entries from the
  deduplicated labels, so for repeated labels its cards differ from the
  source's; see the Findings.
- Python's `%5d` / `%8d` are modelled as decimal text right-justified with
  spaces. Other `printf` features are not modelled.
- `ranges` and `hmRanges` are generators. The model returns their whole
  output as a list.

## Findings

| source | as written | input that shows it | evidently intended | confidence | as-written member | corrected member |
|---|---|---|---|---|---|---|
| matGroups.py:55-67 | `ranges` sorts its input but keeps repeated labels. On repeated labels the test `sortedInts[mid] - sortedInts[upper] > mid - upper` is not monotone, so the search can jump past a missing label | `[1, 3, 3, 3, 4]` yields the single range `(1, 4)`, which includes the absent label 2 | ranges of continuous sequences of the labels, as the docstring at matGroups.py:49 says: `(1, 1), (3, 4)` | medium, not executed | Runs.RangesRepeatedLabels | Runs.RangesDeduplicated |
