# PruebasMisionUpdater: a verified model of the incremental sheet sync

The updater keeps a Google spreadsheet in step with two local sources. The first
is a survey CSV, one line per completed test. The second is two directories of
per-subject game histories (`1_Data01.xml`, `1_Data02.xml`, ...): one directory
for subjects who played with a sensor and one for those who played without.

On each run it does the following:

- It reads how many rows the `Todos` sheet already holds and treats that count as
  a cursor. Only the CSV rows past it (`cvs_data[n:]`) are new.
- It splits the new rows by field 17 into *con sensor* and *sin sensor*. It also
  keeps, by field 30, the therapists' rows. Both tests are substring tests for
  `"-1"`.
- It appends the new rows and the three partitions to the sheets `Todos`,
  `Con Sensor`, `Sin Sensor` and `Terapeutas`.
- It reads, for each subject file, the first ten rounds of the game history. It
  builds one list per metric (`dificultad`, `velocidad`, `intervalo`, `rango`),
  reversed in place, and appends those lists to ranges of the `ICS` sheet.

The same engine exists twice. `mision_test_updater.py` has it as the class
`MissionTestUpdater`, modelled by the Dafny class `MisionTestUpdater.MissionTestUpdater`.
`quickstart.py` has it as the older free-function script whose `main` is modelled
by `Quickstart.RunScript`.

The spreadsheet is not called. Every `append` becomes an entry of an append log
(`Sheets.Append`: a `sheet!range` target and a body). The row counts the script
reads back are inputs of type `Option<nat>`, where `None` is the failed read
(`get_number_of_rows` returns `None` on `HttpError`, and `x[None:]` is `x`). A
directory is a map from entry names to parsed documents, and its entry count is
the map's size.

Modules, leaves first:

- `Wrappers`: `Option`, `Result`, and the exceptions a run can end with. These
  are a missing file, unparsable XML, a missing `HistorialPartidas`, and a row
  too short for its field (`IndexError`).
- `Sequences`: the clamped slice `s[n:]`, comprehensions with a condition, and
  in-place `list.reverse()` on an array. It also defines the order-preserving
  interleaving that ties a split to its input.
- `Text`: Python's substring test `sub in s`, and `f"{i:02d}"` with its inverse.
- `Records`: survey rows and the two partitioners, which both files share.
- `History`: history documents, the window of rounds, and the scan of a
  directory by index.
- `Sheets`: the append log, what each target receives, and the row count read
  over a bounded range.
- `MisionTestUpdater`: the class, with its constructor wiring, `update_encuesta_data`
  and `update_ics`.
- `Quickstart`: the script functions and `main`.

Two properties of the code shape what a run reads:

- **The directory scan does not stop at a gap.** It opens every index
  `1..len(os.listdir(dir))`, so a missing index raises. With files 01, 02 and 04,
  file 03 is opened and raises (`History.GapRaises`).
- **The window is the first rounds, not the last.** It is the first `num_rondas`
  children of `HistorialPartidas` in document order, each metric list then
  reversed (`History.WindowShape`).

## Model

| member | source | states |
|---|---|---|
| Sequences.Start | mision_test_updater.py:51-52 | the cursor of `cvs_data[n:]`: 0 when the count read failed (`None`), otherwise `min(n, len)`, never past the end |
| Sequences.Drop | mision_test_updater.py:52 | the new rows number `len - min(n, len)`: all rows on a failed count, none when the count is at or past the end |
| Sequences.DeltaCompletesAndIsIdempotent | mision_test_updater.py:51-52 | if the sheet holds a prefix of the CSV and the count is its length, appending the delta yields the whole CSV, and a second run with the new count has nothing to send |
| Sequences.DropEmptyIff | quickstart.py:170-171 | `values[r:]` is empty exactly when `r >= len(values)`; otherwise its first row is row `r` |
| Sequences.Filter | mision_test_updater.py:117-122 | `[x for x in s if p(x)]`: computes the comprehension; its properties are the Filter and Interleaves lemmas below |
| Sequences.Reversed | mision_test_updater.py:102 | computes the back-to-front copy; `ReversedAt` states it |
| Sequences.Take | mision_test_updater.py:99 | `[:num_rondas]` keeps a prefix of length `min(num_rondas, len)` |
| Sequences.FilterCount | mision_test_updater.py:121-122 | a comprehension keeps every copy of each row it keeps and no copy of the others |
| Sequences.FilterIsSubsequence | mision_test_updater.py:121-122 | a comprehension's result is an order-preserving subsequence of its input |
| Sequences.FilterInterleaves | mision_test_updater.py:118-119 | a condition and its negation split the input into two lists that interleave back to it in order |
| Sequences.InterleavesByIsFilter | mision_test_updater.py:118-119 | conversely, any order-preserving split that sends the `p` rows one way and the others the other way is that pair of comprehensions |
| Sequences.InterleavesFilter | mision_test_updater.py:117-122 | filtering an interleaving by a further condition filters both of its parts |
| Sequences.InterleavesMultiset | mision_test_updater.py:118-119 | the two parts of an interleaving together hold exactly the input's rows, with multiplicity, and their lengths add up |
| Sequences.ReversedAt | mision_test_updater.py:102 | the reversed list has the same length, and element k is element `len-1-k` of the original |
| Sequences.ReverseInPlace | mision_test_updater.py:102 | `list.reverse()` leaves the array holding the back-to-front copy of its old contents |
| Text.Contains | mision_test_updater.py:118-119 | Python's `sub in s` on strings, computed by trying each start position; `ContainsIff` states it |
| Text.ContainsIff | mision_test_updater.py:118-119 | `"-1" in s` holds exactly when `"-1"` occurs as a contiguous run at some position of `s` |
| Text.Decimal | mision_test_updater.py:87 | `str(n)` is a non-empty string of digits, with at least two digits from 10 up and no leading zero for n ≥ 1 |
| Text.Pad2 | mision_test_updater.py:87 | `{i:02d}` is a string of at least two digits: exactly two, the first a '0', below 10, and no leading zero from 10 up; with `Pad2RoundTrip` this fixes the spelling |
| Text.Pad2RoundTrip | mision_test_updater.py:87 | the padded form spells `i` again, so the formatter loses nothing |
| Text.Pad2Examples | mision_test_updater.py:87 | 1 pads to "01", 9 to "09", 10 stays "10", 123 stays "123" |
| Records.Marked | mision_test_updater.py:118-122 | field `field` of the row exists and contains the substring `"-1"`: the test `"-1" in row[field]` |
| Records.SensorPresent | mision_test_updater.py:118 | the condition of `con_sensor_data`: `"-1" not in row[17]` |
| Records.SensorAbsent | mision_test_updater.py:119 | the condition of `sin_sensor_data`: `"-1" in row[17]` |
| Records.Therapist | mision_test_updater.py:122 | the condition of `terapeutas_data`: `"-1" not in row[30]` |
| Records.AllHaveField | mision_test_updater.py:118-122 | every row has a field at that offset, so indexing it raises no IndexError; the partitioners fail exactly when it is false |
| Records.SeparateSensorUsers | quickstart.py:157-160 | fails with IndexError(17) exactly when some row lacks field 17; otherwise returns an order-preserving split of the rows where the first list's rows lack `"-1"` in field 17 and the second's contain it |
| Records.TherapistRows | quickstart.py:163-164 | fails with IndexError(30) exactly when some row lacks field 30; otherwise keeps, in order and with every copy, exactly the rows whose field 30 lacks `"-1"` |
| Records.SensorSplitIsFilters | quickstart.py:157-160 | unfolds the definition: on rows that all have field 17, the split is the pair of comprehensions `"-1" not in row[17]` and `"-1" in row[17]` |
| Records.SensorSplitExhaustiveDisjoint | quickstart.py:157-160 | the two sensor lists hold every input row exactly once, counted with multiplicity, and no row is in both |
| Records.SensorSplitUnique | mision_test_updater.py:117-119 | any order-preserving split routing each row by field 17 is the one the partitioner returns |
| Records.TherapistRowsIndependentOfSensor | mision_test_updater.py:121-122 | the therapists' list is the interleaving of the sensor lists' therapist rows: field 30 alone decides it |
| Records.MinusHundredIsSensorAbsent | mision_test_updater.py:118-119 | a row whose field 17 is "-100" goes to `sin_sensor_data`, by substring semantics |
| Records.ZeroIsSensorPresent | mision_test_updater.py:118-119 | a row whose field 17 is "0" goes to `con_sensor_data` |
| History.FileName | mision_test_updater.py:87 | `f"1_Data{i:02d}.xml"`: starts with `1_Data`, ends with `.xml`, and holds `Pad2(i)` between them |
| History.WindowOf | mision_test_updater.py:99-110 | the first `num_rondas` entries, one list per metric, each reversed; `WindowShape` states it |
| History.LastIc | mision_test_updater.py:94-110 | `_get_last_ic` on a directory entry: FileNotFound when the name is absent, XmlParseError when it does not parse, HistoryMissing when it lacks `HistorialPartidas`, otherwise `WindowOf` its entries |
| History.Subjects | mision_test_updater.py:86-92 | the windows of files 1..count in index order, ending at the first file that raises with that file's error; `SubjectsOk` and `SubjectsFirstError` state it |
| History.FileNameInjective | mision_test_updater.py:86-87 | different indices name different files `1_Data{i:02d}.xml`, so no subject is read twice |
| History.FileNameExamples | mision_test_updater.py:87 | indices 1, 3 and 12 name `1_Data01.xml`, `1_Data03.xml` and `1_Data12.xml` |
| History.Column | mision_test_updater.py:101 | one metric value per selected entry |
| History.WindowShape | mision_test_updater.py:99-110 | each of the four lists has `min(num_rondas, #entries)` values, and value k is that metric of entry `len-1-k`: the first `num_rondas` entries back to front |
| History.SubjectsErrorStays | mision_test_updater.py:86-88 | once a file raises, the scan of any longer index range fails with that same error |
| History.SubjectsOkIff | mision_test_updater.py:86-88 | the scan of 1..count succeeds exactly when every file of that range reads |
| History.SubjectsShape | mision_test_updater.py:86-92 | a successful scan has one window per index, window k coming from file `k+1` |
| History.SubjectsOk | mision_test_updater.py:86-92 | both directions of success, and the shape of a successful scan |
| History.SubjectsFirstError | mision_test_updater.py:86-87 | a failed scan reports the error of the lowest index that does not read |
| History.GapRaises | mision_test_updater.py:86-87 | with files 01, 02 and 04 the entry count is 3, so file 03 is opened and the scan fails with its FileNotFound |
| History.Project | mision_test_updater.py:88-91 | one metric's list gets one entry per subject |
| History.Columns | mision_test_updater.py:92 | four lists, list j being metric j of every subject, in the order ics, speed, interval, rango |
| Sheets.Target | mision_test_updater.py:206-209 | the range string `f"{hoja}!{rango}"` an append is sent to |
| Sheets.SeriesAppend | quickstart.py:182-188 | `if delta: append(...)`: one append of the metric lists, or none when there is nothing to send |
| Sheets.SeriesAppendSentTo | quickstart.py:182-188 | such an append sends no survey rows, and sends exactly its lists to its own target and nothing elsewhere |
| Sheets.RowCountInRange | mision_test_updater.py:175-192 | a count read over a range of `height` rows is the number of filled rows, capped at the height |
| Sheets.CappedCountResendsRows | mision_test_updater.py:51-52 | as written: with 21 rows on the sheet and in the CSV, the count over `A1:AK20` is 20, so a run with nothing new appends row 21 again |
| Sheets.WholeTableCountIsIdempotent | mision_test_updater.py:51-52 | corrected: with an uncapped count, a run brings any prefix up to the whole CSV, and a second run leaves the sheet unchanged |
| MisionTestUpdater.IcsTable | mision_test_updater.py:81-92 | what `_get_ics` returns: the four metric lists of `Subjects` over all directory entries, or its error; `IcsTableShape` states it |
| MisionTestUpdater.IcsTableLengths | mision_test_updater.py:81-92 | a table that was read has four lists, each with one entry per directory entry, the empty directory included |
| MisionTestUpdater.IcsTableShape | mision_test_updater.py:81-92 | `_get_ics` fails exactly when some file 1..#entries cannot be read; otherwise it returns four lists, each with one entry per directory entry, entry k of list j being metric j of file `k+1` |
| MisionTestUpdater.GetLastIc | mision_test_updater.py:94-110 | returns the window of the first `num_rondas` rounds, each list reversed in place, or the error of a missing, unparsable or container-less file |
| MisionTestUpdater.ReadColumn | mision_test_updater.py:101 | a fresh list holding the metric of every selected entry, in document order |
| MisionTestUpdater.GetIcs | mision_test_updater.py:81-92 | the loop over `1..len(os.listdir(dir))` returns exactly the table `IcsTableShape` describes, or the first file's error |
| MisionTestUpdater.SurveyError | mision_test_updater.py:53-54 | the IndexError the partition raises: field 17 is checked first, then field 30 |
| MisionTestUpdater.IcsError | mision_test_updater.py:58-59 | the error reading the con-sensor directory, else that of the sin-sensor directory |
| MisionTestUpdater.InitError | mision_test_updater.py:51-59 | what `__init__` raises, in its order: the partition of the unsent tail first, then the two directories |
| MisionTestUpdater.MissionTestUpdater.RowsValid | mision_test_updater.py:51-54 | the survey state after the constructor: `data_to_update` is the unsent tail, every row has fields 17 and 30, and the three attributes are its comprehensions |
| MisionTestUpdater.MissionTestUpdater.Valid | mision_test_updater.py:51-59 | `RowsValid`, and both ICS tables hold four lists |
| MisionTestUpdater.MissionTestUpdater.Loaded | mision_test_updater.py:33-59 | the state a successful `__init__` leaves for given inputs: `Valid`, nothing sent, the CSV and the count stored, and both tables equal to what `_get_ics` returns |
| MisionTestUpdater.MissionTestUpdater.constructor | mision_test_updater.py:43-50 | the attributes start empty, nothing has been appended, and `cvs_data` holds the CSV rows |
| MisionTestUpdater.MissionTestUpdater.SeparateSensorUsers | mision_test_updater.py:117-119 | succeeds exactly when every row of `data_to_update` has field 17, then assigns the two comprehensions; on IndexError neither attribute changes |
| MisionTestUpdater.MissionTestUpdater.GetTerapeutasRow | mision_test_updater.py:121-122 | succeeds exactly when every row has field 30, then assigns the therapists' comprehension; on IndexError nothing changes |
| MisionTestUpdater.MissionTestUpdater.LoadSurvey | mision_test_updater.py:51-54 | stores the count, sets `data_to_update` to the unsent tail, and either raises the partition's IndexError or leaves the three partitions of that tail |
| MisionTestUpdater.MissionTestUpdater.LoadIcs | mision_test_updater.py:58-59 | reads the con-sensor directory, then the sin-sensor one; raises the first error, otherwise stores both four-list tables |
| MisionTestUpdater.MissionTestUpdater.Load | mision_test_updater.py:51-59 | fails with the constructor's first error (survey partition first, then directories); otherwise leaves the loaded state: unsent tail, three partitions, both tables, empty log |
| MisionTestUpdater.Create | mision_test_updater.py:33-59 | `MissionTestUpdater(...)` raises exactly the constructor's first error; otherwise it is a fresh object in the loaded state, whatever the two ICS counts were |
| MisionTestUpdater.MissionTestUpdater.UpdateEncuestaData | mision_test_updater.py:196-209 | extends the log with nothing when there is no new row, else with the four survey appends in order |
| MisionTestUpdater.MissionTestUpdater.UpdateIcs | mision_test_updater.py:211-233 | extends the log with the con-sensor block, then the sin-sensor block, each skipped when its table is empty |
| MisionTestUpdater.EncuestaPlan | mision_test_updater.py:196-209 | the appends of `update_encuesta_data`: none without a new row, otherwise the four survey bodies at `A1:AK20` in sheet order |
| MisionTestUpdater.IcsBlock | mision_test_updater.py:213-222 | one group's four appends of `update_ics`, list j to range j, none when the table is empty |
| MisionTestUpdater.EncuestaTargetsDistinct | mision_test_updater.py:206-209 | the four survey targets `Todos!A1:AK20` .. `Terapeutas!A1:AK20` are pairwise distinct |
| MisionTestUpdater.EncuestaPlanDelivers | mision_test_updater.py:201-209 | with a new row, the four appends target Todos, Con Sensor, Sin Sensor, Terapeutas at `A1:AK20` in that order, and each sheet receives exactly its own body |
| MisionTestUpdater.EncuestaRoutesDelta | mision_test_updater.py:196-209 | the survey plan is empty exactly when no row is new, and always when the count is at or past the CSV's end; otherwise each sheet receives exactly the new rows meeting its condition, in CSV order, even when a partition is empty |
| MisionTestUpdater.IcsPlanAlwaysEight | mision_test_updater.py:211-233 | after a successful constructor the guards always hold: eight appends to the four con-sensor ranges and then the four sin-sensor ranges, list j to range j, each with one entry per directory entry |
| MisionTestUpdater.IcsBlockSeriesSentTo | mision_test_updater.py:213-222 | a group's block sends list j to its j-th range and nothing else |
| MisionTestUpdater.IcsResendsEverySubject | mision_test_updater.py:56-59 | as written: the counts read at lines 56-57 are unused, so two runs on the same directories send each subject's difficulty window to `ICS!A1:K8` twice |
| MisionTestUpdater.CursorIcsBlock | mision_test_updater.py:56-59 | corrected: one group's block with the count read for the group used as a cursor into each list, each append skipped when its slice is empty |
| MisionTestUpdater.CursorIcsBlockSeriesSentTo | mision_test_updater.py:56-59 | the corrected block sends each range exactly its list past the cursor |
| MisionTestUpdater.CursorIcsBlockCompletes | mision_test_updater.py:56-59 | corrected: a range holding the first `stored` entries receives exactly the rest, and with every entry stored nothing is sent |
| MisionTestUpdater.CursorIcsIsIdempotent | mision_test_updater.py:56-59 | corrected, on a directory: each range ends up holding every subject's list, and the next run sends nothing |
| MisionTestUpdater.RangesDistinct | mision_test_updater.py:23-31 | four ranges of the `ICS` sheet whose `sheet!range` targets are pairwise distinct |
| MisionTestUpdater.ConSensorRangesDistinct | mision_test_updater.py:23-26 | the four con-sensor targets are pairwise distinct |
| MisionTestUpdater.SinSensorRangesDistinct | mision_test_updater.py:28-31 | the four sin-sensor targets are pairwise distinct |
| MisionTestUpdater.CursorGroupIsIdempotent | mision_test_updater.py:56-59 | corrected, for one group with distinct ranges: every range is completed by its list past the cursor, and with every subject stored nothing is sent |
| MisionTestUpdater.CursorUpdateIcsIsIdempotent | mision_test_updater.py:56-59 | corrected `update_ics` on the constructor's two tables: each of the eight real ranges ends up holding every subject's list, and a run once both groups are complete sends nothing |
| MisionTestUpdater.IcsBlockOfTable | mision_test_updater.py:213-222 | one group's block on a table that was read: four appends, list j to the j-th range, one entry per directory entry |
| Quickstart.IcsList | quickstart.py:30-34 | what `get_ics` returns: the difficulty windows of `Subjects` over all directory entries, or its error; `IcsListShape` states it |
| Quickstart.IcsBlock | quickstart.py:179-188 | one IC block of `main`: each group's windows past its own count, each append only when its slice is non-empty |
| Quickstart.PartitionPlan | quickstart.py:197-205 | the four survey appends of `main` at `RANGO`, in the order Todos, Con Sensor, Sin Sensor, Terapeutas |
| Quickstart.SuccessLog | quickstart.py:174-222 | the log of a full run with new rows: the first IC block, the four survey appends of the rows and their comprehensions, the second IC block |
| Quickstart.Script | quickstart.py:167-222 | one run of `main`: a directory error first, with nothing appended; otherwise the first IC block, then `SurveyRun` |
| Quickstart.SurveyRun | quickstart.py:190-222 | the rest of `main`: return when no row is new; the partition's IndexError after the first block; otherwise the four survey appends and the second IC block |
| Quickstart.GetLastIc | quickstart.py:37-46 | the difficulty of the first ten rounds, reversed in place, or the file's error |
| Quickstart.IcsListShape | quickstart.py:30-34 | `get_ics` fails exactly when some file 1..#entries cannot be read; otherwise it has one difficulty window per entry, window k from file `k+1` |
| Quickstart.GetIcs | quickstart.py:30-34 | the loop returns exactly that list, or the first file's error |
| Quickstart.AppendIcsBlock | quickstart.py:179-188 | extends the log with each group's windows past its own row count, each append skipped when its slice is empty |
| Quickstart.RunScript | quickstart.py:167-222 | `main` produces exactly the log and the error of `Script`, the run the statements below describe |
| Quickstart.ScriptAfterIcs | quickstart.py:177-192 | unfolds the definition of `Script`: once both directories read, the run is the survey part between the two IC blocks |
| Quickstart.TargetsDistinct | quickstart.py:174-209 | the four survey targets and the four IC ranges of `main` are pairwise distinct |
| Quickstart.IcsBlockSentTo | quickstart.py:179-188 | an IC block sends no survey rows, and each of its two ranges receives exactly its group's windows past the group's count |
| Quickstart.PartitionPlanSentTo | quickstart.py:197-205 | the four survey appends send no windows, and each survey sheet receives exactly its own body |
| Quickstart.ScriptFailure | quickstart.py:177-195 | `main` fails exactly when a directory cannot be read, or when there are new rows and one lacks field 17 or 30; a directory error leaves the log empty, and a survey error leaves exactly the first IC block |
| Quickstart.ScriptWithoutNewRows | quickstart.py:190-192 | with no new row, `main` returns after the first IC block and sends no survey rows at all |
| Quickstart.IcsBlockNonEmpty | quickstart.py:182-188 | no IC append carries an empty list |
| Quickstart.SuccessLogRowsSentTo | quickstart.py:194-205 | in a full run every survey row comes from the four survey appends |
| Quickstart.SuccessLogSeriesSentTo | quickstart.py:179-222 | in a full run every window comes from the two IC blocks |
| Quickstart.ScriptSuccessLog | quickstart.py:167-222 | a successful run with new rows is: the first IC block, the four survey appends of the new rows and their partitions, the second IC block |
| Quickstart.SuccessLogRoutesRows | quickstart.py:194-205 | in a full run each survey sheet receives its own rows and nothing else |
| Quickstart.SuccessLogRoutesWindows | quickstart.py:174-222 | in a full run each IC range receives exactly the windows past its own count |
| Quickstart.ScriptRoutesRows | quickstart.py:170-205 | a successful run with new rows sends `Todos` exactly the rows past the count, and the other three sheets exactly those that satisfy their condition, in CSV order |
| Quickstart.ScriptRoutesWindows | quickstart.py:174-222 | a successful run with new rows sends each of the four IC ranges exactly the windows past the count read for it just before its block |

## Left out

- Credentials (`_get_credentials`, `get_credentials`): token files and the browser flow are I/O.
- Sheets API calls: `build`, `values().append`, `values().get` and `batchUpdate`
  go over the network. Appends become log entries, and the row counts are inputs.
  A failed append (`HttpError` caught and printed) is not modelled, so every
  append is assumed to land.
- `batch_update_to_spreadsheets` and `update_to_spreadsheets`: nothing in the
  core calls them.
- `csv.reader` quoting and dialect rules: the CSV is given as rows of fields.
- `ElementTree` parsing and `float()`:
  - A document is already parsed into `Document`.
  - A missing metric child or unparsable text inside an entry (`AttributeError`,
    `ValueError`) is not modelled: every entry carries its four metrics.
  - Metric values are `real` and are never computed with.
- `os.listdir` and `os.path.join`: a directory is a map from entry names to
  documents. Its count is the number of entries, whatever their names, as in the
  code.
- `print` diagnostics, the JSON config of `main`, and the hard-coded paths and
  spreadsheet IDs.
- The two ICS row counts of the constructor (mision_test_updater.py:56-57) are
  read and never used. `Create` takes them as inputs and ignores them, and
  `UpdateIcs` sends every subject as the code does. The corrected cursor block of
  the second finding stands beside the class; the class does not use it.
- The module-level `main` of mision_test_updater.py: it builds the object and
  calls only `update_ics`, which `Create` and `UpdateIcs` cover.
- Quickstart.RunScript: both `get_ics` calls of its second IC block read the same
  directories as the first. The model assumes a directory does not change during
  a run, so the second reads succeed with the same lists.
- Sequences.Drop: its own contract states only the length of the slice. The
  contents, `s[min(n, len):]`, are used through its definition by the lemmas
  that state what each sheet receives.

- Sheets.Append: the log records append calls by their `sheet!range` string, not
  the regions of the sheet they land in. `ICS!A1:K15` and `ICS!A1:K20` (and
  `L1:Z15`, `L1:Z20`) are different targets in the log, but on the sheet both IC
  blocks of the script append to the same two tables. What each target receives
  is what was sent with that range string.

## Findings

| source | as written | input that shows it | evidently intended | confidence | as-written member | corrected member |
|---|---|---|---|---|---|---|
| mision_test_updater.py:51-52 | The row count that serves as the cursor is read over `Todos!A1:AK20`, a range 20 rows high, so it never exceeds 20 (the same holds at quickstart.py:170). | A CSV of 21 rows that is already all on the sheet: the count reads 20, so `cvs_data[20:]` is row 21 again, and every later run appends it once more. | The cursor is the number of rows the sheet holds, read over an unbounded range such as `A:AK`, so that a second run sends nothing. | medium, not executed; it rests on `values().get` returning only the rows inside the requested range | Sheets.CappedCountResendsRows | Sheets.WholeTableCountIsIdempotent |
| mision_test_updater.py:56-59 | The constructor reads the rows already held by `ICS!A1:K8` and `ICS!L1:V8` into locals and drops them; `update_ics` (lines 211-233) appends every subject's lists on every run. | Any directory with one subject: two runs append that subject's difficulty window to `ICS!A1:K8` twice. | The counts are cursors into the four lists of each group, as the earlier script uses its counts at quickstart.py:177-180, so a range receives only the subjects it does not hold and a repeated run sends nothing. | medium, not executed | MisionTestUpdater.IcsResendsEverySubject | MisionTestUpdater.CursorUpdateIcsIsIdempotent |
