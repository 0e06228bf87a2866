# Joint-angle acquisition and clinician dashboard, modelled in Dafny

The system measures a patient's joint flexion with three wearable
accelerometers. Its three programs are modelled here.

- **Acquisition** (`display.py`). A sensor hub sends text chunks of the form
  `Sensor 1 acel x=… y=… z=… Sensor 2 …`. For every chunk that carries all
  three sensors, the program:
  - parses the readings;
  - turns each reading into pitch and roll;
  - smooths each sensor's orientation with its own Kalman filter;
  - computes the angles between sensors 1 and 2 and between sensors 2 and 3;
  - appends one nine-column row to `sensor_data.csv`.

  At start-up it creates that file with its header line, but only when the
  file is absent.
- **Dashboard** (`dashboard.py`).
  - Click-count toggles select the stimulation condition ("Corrente" /
    "Sem Corrente") and the joint ("Cotovelo" / "Punho").
  - A start/stop button truncates the live log when an analysis starts.
  - A save button appends one session line per patient to
    `<patient>_sessions.csv`, writing the header only when that file is new.
  - The feedback views preprocess one class of stored sessions, normalise
    and trim each angle curve, compute angular velocities, and compute the
    G7 metric, which compares the peak angle with and without current.
- **History spreadsheets** (`dash2.py`).
  - An mtime-gated cache reloads `dados_sensores.xlsx`.
  - `historico_pacientes.xlsx` gets one appended line per save and is read
    back filtered by patient.
  - Clear buttons reset the sensor workbook to an empty eight-column table.

## Module layout

- `wrappers.dfy`: the `Option` type.
- `strings.dfy`: the Python `str` operations the parser relies on:
  - `in`, `split(sep)` and `replace(p, "")`;
  - `split()` and `strip()`, with Python's whitespace set.
- `numerals.dfy`: `int()` and `float()` on plain decimal literals, and
  `str()` of an integer.
- `storage.dfy`: CSV files as a map from path to lines, the `Disk` class
  that holds them, and reading a file back as a table with named columns.
- `frame.dfy`: `parse_sensor_data`, both as a specification function and as
  the loop that fills the dictionary.
- `wire_format.dfy`: the text the hub sends, and the round trip from
  readings to text and back.
- `acquisition.dfy`: the receive loop.
  - The `Acquisition` class holds the three filters.
  - `Run` and `Step` are its specification.
  - The mathematics (atan2, square root, arc cosine) and the filterpy
    predict/update step are the fields of a `Numerics` value that every
    operation receives, so each result holds whatever those compute.
- `dashboard.dfy`: the toggle callbacks, `toggle_analysis` and
  `save_patient_data`.
- `analytics.dfy`: `preprocess_angle_data` (in place on an array),
  `normalize_and_trim`, `calculate_angular_velocity` and the G7 metric.
- `history.dfy`: the dash2.py functions.
  - The reload cache is a class with the two module globals as its fields.
  - The workbooks are a class over a map from file name to table.

Behaviour of the code that the model keeps as written:

- **A malformed section.** One `try` wraps the whole loop over the pieces
  (display.py:29-41). The first malformed piece therefore ends the parse,
  and only the earlier entries are kept (`Frame.StopsAtMalformed`).
- **Sensor numbers.** Any integer is accepted as a sensor number
  (display.py:34-39, `WireFormat.OtherSensorNumberKept`).
- **When filters advance.** All three filters advance only when all three
  sensors are present (display.py:98), and otherwise none of them
  (`Acquisition.IncompleteChunkIgnored`).
- **Errors that end the program.** Only KeyboardInterrupt is caught
  (display.py:144). Squaring a huge reading in `calculate_pitch_roll`
  (display.py:49) raises OverflowError, and an arc-cosine argument outside
  [-1, 1] (display.py:62) raises ValueError. The model makes `pitchRoll`
  and `angleBetween` partial. A pass that hits either is `crashed` and ends
  the loop; a pitch-and-roll failure comes before any filter moves.
- **Reading the live file after a restart.** Starting an analysis rewrites
  `sensor_data.csv` with a six-column header, and the acquisition appends
  nine-field rows under it. pandas then takes the three extra leading fields
  as the index, so the dashboard's "Pitch 1" column lists each row's
  "Roll 2" field (`Dashboard.RestartedLogReadsShifted`).

## Model

| member | source | states |
|---|---|---|
| Strings.FindSpec | display.py:33 | the search returns the leftmost occurrence, and None exactly when the text has no occurrence (Python's `p in s`) |
| Strings.SplitJoin | display.py:31 | joining the pieces of `s.split(sep)` with `sep` gives back `s` |
| Strings.SplitSingle | display.py:36 | `split` gives a single piece exactly when the separator does not occur |
| Strings.SplitPieces | display.py:31 | no piece of `split(sep)` contains `sep` |
| Strings.SplitAt | display.py:36 | splitting at the first occurrence puts the text before it as the first piece and splits the rest |
| Strings.DeleteAt | display.py:38 | `replace(p, "")` removes the first occurrence and carries on after it |
| Strings.WordsShape | display.py:34 | every word of `split()` is non-empty and free of whitespace; blank text has no words |
| Strings.WordsUnwords | display.py:38 | `split()` recovers exactly the words that were joined by single spaces |
| Strings.StripLeftSpec | display.py:91 | `lstrip` removes exactly the leading whitespace run |
| Strings.StripRightSpec | display.py:91 | `rstrip` removes exactly the trailing whitespace run |
| Strings.StripEmpty | display.py:91-92 | the stripped chunk is empty exactly when the chunk is all whitespace |
| Strings.StripKeeps | display.py:91 | text that starts and ends with non-whitespace is unchanged by `strip()` |
| Numerals.ParseInt | display.py:34 | `int()` succeeds only on non-empty text made of digits, signs and points |
| Numerals.ParseNum | display.py:37 | `float()` succeeds only on non-empty text made of digits, signs and points |
| Numerals.ParseShowInt | display.py:39 | reading back `str(n)` with `int()` gives `n` |
| Numerals.ShowIntInjective | display.py:39 | distinct integers print differently |
| Numerals.IntLiteralIsNum | display.py:37 | `float()` of an integer literal is that integer |
| Numerals.DigitsValueShowNat | display.py:39 | the digits printed for `n` have value `n` |
| Storage.HeaderRow | display.py:20 | a header line holds one text cell per column name, in order |
| Storage.AppendLineSpec | display.py:142 | an append keeps the old lines as a prefix and adds one line; it creates the file when absent; other files are untouched |
| Storage.ReadWritten | dashboard.py:21 | reading back a header line and data rows no wider than it gives those column names and those rows |
| Storage.ReadCsvFails | dashboard.py:18-27 | `pd.read_csv` raises exactly on an empty file and on a data line wider than both the header and the first data line |
| Storage.ReadColumn | dashboard.py:21 | under the header's j-th name, each row reads the field j places after the index fields that the first data line's excess width makes, or a missing cell when the row is too short |
| Storage.ColumnIndexSpec | dashboard.py:445 | a column lookup fails exactly when the name is absent, and otherwise finds its first position |
| Storage.ColumnSpec | dashboard.py:445-449 | a column has one value per row: the cell under that column |
| Storage.Disk.CreateFile | dashboard.py:452-458 | the file gets the given content only when it did not exist |
| Storage.Disk.AppendRow | display.py:142 | the directory after an append-mode write of one line |
| Storage.Disk.WriteFile | dashboard.py:342-344 | a write-mode open replaces the file's content |
| Frame.SensorKeyInjective | display.py:39 | distinct sensor numbers give distinct keys "Sensor n" |
| Frame.TokenValues | display.py:37-38 | the comprehension succeeds exactly when every token converts, giving the values in order |
| Frame.ThreeTokens | display.py:37-38 | the token list converts to (x, y, z) exactly when it has three tokens converting to x, y and z |
| Frame.PartEntry | display.py:33-39 | a piece yields reading `a` for sensor `id` exactly when it mentions "acel" and "x=", its first word reads as `id`, and the text between the first and second "x=" (or to the end of the piece), without "y=" and "z=", is three tokens converting to a's x, y, z |
| Frame.OutcomesSpec | display.py:31-32 | the loop sees the pieces of `split("Sensor")` in order, one outcome per piece |
| Frame.ParseSensorData | display.py:23-42 | the loop over the pieces returns the dictionary the specification function gives |
| Frame.NoAccelPartsParseEmpty | display.py:28-33 | a chunk none of whose pieces mentions "acel" gives an empty dictionary |
| Frame.EmptyChunkParsesEmpty | display.py:28-42 | the empty chunk gives an empty dictionary |
| Frame.KeysComeFromParts | display.py:32-39 | every key is "Sensor n" for the number n read from a piece that mentions "acel", with that piece's reading |
| Frame.StopsAtMalformed | display.py:29-42 | the first malformed piece ends the parse: entries before it are kept, and nothing after it is looked at |
| Frame.StopsAtMalformedPiece | display.py:29-42 | the same, stated on the pieces of the chunk |
| Frame.LaterPartWins | display.py:39 | of two pieces with the same sensor number, the later one's reading is returned |
| Frame.CollectKeepsOthers | display.py:39 | an entry is overwritten only by a later piece with the same number |
| WireFormat.ThreeValues | display.py:37-38 | three numerals convert to their three values |
| WireFormat.SectionParses | display.py:33-39 | the text "Sensor id acel x=.. y=.. z=.." of a well-formed section reads back as that section's sensor and reading |
| WireFormat.FrameSplits | display.py:31 | splitting a frame at "Sensor" gives an empty piece, then one piece per section |
| WireFormat.FrameRoundTrip | display.py:23-42 | parsing the text of well-formed sections gives exactly their readings, later sections overwriting earlier ones |
| WireFormat.ThreeSensorRoundTrip | display.py:31-39 | the three-sensor text with numeric literals parses to exactly the keys Sensor 1, 2 and 3 with those literal values |
| WireFormat.OtherSensorNumberKept | display.py:34-39 | "Sensor 7 acel x=1 y=2 z=3" gives the key "Sensor 7": numbers outside 1..3 are not rejected |
| Acquisition.LogHeaderNames | display.py:16 | the log header names the nine columns in order |
| Acquisition.StartupWritesHeaderOnce | display.py:19-20 | start-up creates the log with only its header when it is absent, and changes nothing otherwise |
| Acquisition.Acquisition.constructor | display.py:86-88 | start-up gives each sensor a fresh filter (state 0, covariance 10·I, noises 0.1·I and 0.01·I) and performs the header creation |
| Acquisition.Acquisition.ReceiveChunk | display.py:91-142 | one pass moves the filters, reports the crash, and appends the row exactly as the pass specification says |
| Acquisition.Acquisition.AdvanceAndLog | display.py:98-142 | with all three sensors present, the pass raises with no filter moved when a pitch and roll overflows; otherwise each filter predicts and updates on its own sensor, and the row is appended unless an angle raises |
| Acquisition.Acquisition.Receive | display.py:90-142 | the receive loop ends with the filters, row log, pass count and crash flag of the whole run |
| Acquisition.IncompleteChunkIgnored | display.py:91-98 | a chunk that is empty after strip, or lacks one of Sensor 1-3, moves no filter and logs nothing |
| Acquisition.BlankChunkIgnored | display.py:91-92 | an all-whitespace chunk changes nothing |
| Acquisition.CompleteChunkAdvances | display.py:98-122 | with all three sensors, a pitch-and-roll overflow raises with the filters unchanged and no row; otherwise each filter advances once on its own sensor's pitch and roll, and a row is logged exactly when neither angle raises |
| Acquisition.CrashLogsNothing | display.py:117-142 | a pass that raises logs no row |
| Acquisition.FieldAt | display.py:131-141 | looking a value up by column name finds it at that column's position |
| Acquisition.RowByColumn | display.py:131-142 | the logged row holds, under each column name, the time stamp, filtered pitch/roll or angle computed for it |
| Acquisition.StepRowShape | display.py:131-142 | a logged row has nine fields and starts with the time stamp, so it is never a header |
| Acquisition.LogAllAppends | display.py:142 | logging rows appends them in order and leaves every other file alone |
| Acquisition.RunCounts | display.py:90-142 | the loop stops only at the end of the chunks or at the pass that raises, logging at most one row per pass |
| Acquisition.RunRowsAreData | display.py:90-142 | every row the loop logs is a data line |
| Acquisition.LogDataRows | display.py:19-20 | after start-up and the appends, the log is its previous content (or the header) followed by exactly the rows |
| Acquisition.SessionLog | display.py:19-142 | over a session, the log is the start-up header (or the old content) then exactly the rows of the passes; no pass writes a header |
| Acquisition.ChunkWithReadings | display.py:95-114 | a chunk that parses to the three readings moves each filter on its own reading, or raises with no filter moved when one of them overflows |
| Acquisition.ThreeSensorChunkAdvances | display.py:91-114 | the hub's three-sensor text moves each filter with that sensor's own literal reading, or raises with no filter moved when one of them overflows |
| Dashboard.ClickParity | dashboard.py:144-161 | each click flips the condition and the joint; two clicks restore them; zero clicks mean "Sem Corrente" and "Punho" |
| Dashboard.ToggleCondition | dashboard.py:144-149 | the status names the condition of the click count, and the button names the other one |
| Dashboard.ToggleJoint | dashboard.py:156-161 | the status names the joint of the click count, and the button names the other one |
| Dashboard.ToggleCurrentInput | dashboard.py:167-171 | the current-value box is shown exactly when the condition is "Corrente", with the fixed margin |
| Dashboard.AnalysisViewOf | dashboard.py:337-348 | the refresh interval is enabled, and the button reads "Parar Análise", exactly when the analysis runs (positive odd count) |
| Dashboard.AnalysisAlternates | dashboard.py:338-339 | after the first click, each click stops a running analysis or starts a stopped one; zero clicks leave it stopped |
| Dashboard.AnalysisFilesSpec | dashboard.py:340-344 | starting leaves the live file as exactly one six-column header; any other count touches no file |
| Dashboard.RestartedLogMixesWidths | dashboard.py:344 | after a start, the acquisition's next append leaves a six-cell header over a nine-cell row |
| Dashboard.ReadUnderAnalysisHeader | dashboard.py:18-27 | with the six-column header over nine-field rows, the read succeeds and column j lists each row's field 3 + j |
| Dashboard.RestartedLogReadsShifted | dashboard.py:18-27 | after a start and the acquisition's appends, `read_sensor_data` has the six columns, "Pitch 1" lists each row's "Roll 2" field and "Angle Between Sensors" its "Angle 2 and 3" field |
| Dashboard.ToggleAnalysis | dashboard.py:337-348 | the callback returns the view and leaves the files as the specification says |
| Dashboard.SaveLineSpec | dashboard.py:452-484 | a save writes `[header, row]` to a new file and appends only `row` to an existing one; other files are untouched |
| Dashboard.SaveLineKeepsHeaderOnlyFirst | dashboard.py:457-484 | appending a session line keeps the header out of every position but the first |
| Dashboard.SessionRowFields | dashboard.py:441-478 | the saved condition and joint follow the same parity rule as the toggles, and "Valor Corrente" is empty unless the condition is "Corrente" |
| Dashboard.SaveAppendsOneLine | dashboard.py:435-484 | nothing is written unless the click count is positive and the sensor data is non-empty; otherwise exactly one line is added, after the header only when the file is new |
| Dashboard.SaveKeepsHeaderOnlyFirst | dashboard.py:451-484 | however many sessions are saved, the header stays the first line only |
| Dashboard.SavePatientData | dashboard.py:434-487 | the callback writes the files and returns the message as the save specification says |
| Analytics.AdjustedSpec | dashboard.py:133-134 | the adjusted list has the same length and holds the absolute value of each angle |
| Analytics.PreprocessedSpec | dashboard.py:130-135 | only rows with patient "Perso", joint "Punho", condition "Corrente" and current 23 change, and there only the angles, to their absolute values |
| Analytics.PreprocessedIdempotent | dashboard.py:128-137 | preprocessing twice equals preprocessing once |
| Analytics.PreprocessAngleData | dashboard.py:128-137 | the in-place loop leaves the table as the preprocessing specification says |
| Analytics.NormalizedSpec | dashboard.py:517-522 | the curve is negated exactly when it ends lower than it starts, and is shifted to start at 0 and end at or above 0 |
| Analytics.FirstAboveFrom | dashboard.py:525 | the search result is an index of the curve, or 0 |
| Analytics.FirstAboveFromSpec | dashboard.py:525 | the search finds the first point more than 1 from the start, or 0 when there is none |
| Analytics.FirstAboveSpec | dashboard.py:525 | `next(...)` gives the first index with \|v\| > 1, or 0 |
| Analytics.NormalizeAndTrimSpec | dashboard.py:515-527 | the result is None only for an empty curve (the IndexError); otherwise it is the window of the normalised curve from the trim start, 1 to 50 points long |
| Analytics.QuietCurveKeptFromStart | dashboard.py:525-527 | a curve that never moves more than 1 is kept from its first point, which is 0 |
| Analytics.AngularVelocity | dashboard.py:551-561 | one entry per consecutive pair (none for fewer than two angles), each \|Δθ/Δt\|, or 0 when Δt is 0, so never negative |
| Analytics.UniformVelocity | dashboard.py:567-571 | with the uniform times the view passes, each entry is the absolute angle step |
| Analytics.Peak | dashboard.py:56 | `max(angles)` is an element at least as large as every element |
| Analytics.CalculateG7 | dashboard.py:39-72 | the loop over the sessions returns the metric the specification gives |
| Analytics.ScanSpec | dashboard.py:50-59 | without an empty curve, each running maximum ends as the maximum of its start and its condition's peaks, and is None only when no such session exists |
| Analytics.ScanRaises | dashboard.py:52-59 | an empty curve of a counted session makes `max` raise |
| Analytics.BothMaxima | dashboard.py:47-62 | both maxima come out of the loop, each None exactly when its condition has no session for the joint |
| Analytics.G7Outcomes | dashboard.py:39-72 | the metric's outcomes: "raises" exactly on an empty curve; "insufficient data" exactly when a condition is missing; otherwise the zero-baseline error or (maxC − maxS)/maxS, over the true maxima starting from 0 |
| History.ReloadSpec | dash2.py:19-28 | reload fails exactly when the workbook is missing; it reloads exactly when the mtime is newer, and the last mtime never decreases |
| History.ReloadIdempotent | dash2.py:22-24 | a second call on an unmodified file changes nothing |
| History.SensorCache.constructor | dash2.py:15-16 | the cache starts at time 0 with no table |
| History.SensorCache.ReloadDataIfNeeded | dash2.py:19-28 | the cache moves as the reload specification says, and is unchanged when the file is missing |
| History.NewLineSpec | dash2.py:38-43 | the new line has one cell per stored column: patient, pitch, roll and time under "Paciente", "Pitch", "Roll" and "Timestamp", and an empty cell under any other name |
| History.SavedHistorySpec | dash2.py:31-45 | the history keeps its columns and rows and gains the new line last, laid out under the stored columns; an absent workbook starts as the empty four-column table; other files are untouched |
| History.SavedColumn | dash2.py:38-44 | read by name, every stored column gains one last cell: the saved value under the four named columns, an empty cell under any other |
| History.PatientRowsSnoc | dash2.py:51 | filtering after one more line adds it exactly when it is the patient's |
| History.PatientRowsSpec | dash2.py:51 | the filter keeps exactly the patient's lines |
| History.LoadWithoutWorkbook | dash2.py:49-52 | without the workbook, loading gives the empty four-column table |
| History.SaveThenLoad | dash2.py:31-52 | after a save, the patient's lines gain the new one at the end; any other patient's lines are unchanged |
| History.ClearedSpec | dash2.py:55-58 | clearing replaces an existing sensor workbook with the empty eight-column table only for a positive click count, creates nothing, and touches no other file |
| History.ClearThenReload | dash2.py:19-58 | a reload after a clear (with a newer mtime) holds the empty eight-column table |
| History.Workbooks.constructor | dash2.py:13-14 | the workbooks start as given |
| History.Workbooks.SaveToHistorico | dash2.py:31-45 | the workbooks after the save are as the history specification says |
| History.Workbooks.ClearDataFile | dash2.py:55-58 | the workbooks after the clear are as the clear specification says |
| History.Workbooks.ClearData | dash2.py:159-173 | `clear_data` and `clear_all_data` clear only for a positive click count |

## Left out

- Socket I/O is not modelled: connecting, `recv`, UTF-8 decoding, the KeyboardInterrupt handler and the `finally` close (display.py:79-91, 144-148). Each received chunk is an input string.
- `calculate_pitch_roll`, `calculate_angle_between` and filterpy's `predict`/`update` (display.py:44-63, 104-114) are not modelled. They are the functions of `Numerics`. `pitchRoll` returns None where squaring a reading overflows, and `angleBetween` returns None where `math.acos` raises. A zero vector's NaN angle is not distinguished from any other value.
- The printed diagnostics and the `print` of each reading are not modelled.
- Floating-point arithmetic is idealised as `real`: the velocity quotient, the G7 quotient and the normalisation subtraction.
- `int()` and `float()` read plain decimal literals only. Exponents, `inf`, `nan`, underscores and surrounding whitespace are not modelled. `str()` of a float and `", ".join(map(str, …))` are not modelled as text: the joined columns are a `Listing` cell.
- pandas reading and writing details are not modelled: encodings, `on_bad_lines`, dtypes, quoting, and Excel. A CSV file is a sequence of lines of cells. `pd.read_csv` reads the first line as the column names and takes a wider first data line's extra leading fields as the index. A header line written by `csv.writer` and a data line are told apart by their cells, not re-parsed from text.
- Storage.ReadCsv: blank lines, which pandas skips, are read as rows of no cells; the writers here never write one. Duplicate column names are not renamed; a lookup finds the first.
- `load_patient_feedback` and `load_patient_history` (dashboard.py:29-37, 83-125) are not modelled. They are pandas reading with fixed column names; the analytics take the sessions as `Feedback` records.
- The parsing of the "Angle Between Sensors" text back into a list (dashboard.py:133, 510-512) is not modelled. Sessions carry their angles as a sequence of reals.
- `update_feedback_graph` and `render_tabs` glue, the layouts, figures and callback registration (dashboard.py:174-330, 351-421, 490-605; dash2.py:61-151) are not modelled.
- Clocks (`pd.Timestamp.now`, `datetime.now`) and file modification times are inputs.
- The schema mismatch on `sensor_data.csv` is kept as written, not reconciled. `toggle_analysis` rewrites it with a six-column header; the acquisition program appends nine-column rows (`Dashboard.RestartedLogMixesWidths`), and reading the live file then shifts the columns (`Dashboard.RestartedLogReadsShifted`).
- History.SavedHistorySpec: a stored workbook that lacks one of the four columns gets the new line aligned to its own columns. The pandas column union of `pd.concat` is not modelled.
- History.LoadHistory: a stored workbook without a "Paciente" column gives None, standing for the KeyError; no more is said of that case.
