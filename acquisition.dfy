/**
 * The acquisition program: at start-up it makes sure the sensor log exists
 * with its header, then for every chunk received from the sensor hub it
 * parses the three accelerometer readings, smooths each sensor's pitch and
 * roll with its own Kalman filter, and appends one row to the log.
 *
 * The floating-point mathematics (atan2, square roots, the arc cosine of
 * the angle between two orientations) and the Kalman filter's predict and
 * update steps belong to libraries; they are the fields of a `Numerics`
 * value that every operation receives, so the control logic below holds
 * whatever they compute.
 */
module Acquisition {
  import opened Wrappers
  import opened Strings
  import opened Storage
  import opened Frame
  import opened Numerals
  import opened WireFormat

  /** The log file the program appends to. */
  const LogFile: string := "sensor_data.csv"

  /** The log's columns, in the order the rows are written. */
  const LogColumns: seq<string> :=
    ["Timestamp", "Pitch 1", "Roll 1", "Pitch 2", "Roll 2", "Pitch 3", "Roll 3",
     "Angle 1 and 2", "Angle 2 and 3"]

  /** Pitch and roll of one sensor, in degrees. */
  datatype Orientation = Orientation(pitch: real, roll: real)

  /** A 2x2 matrix, row by row. */
  datatype Mat2 = Mat2(a: real, b: real, c: real, d: real)

  function Diagonal(v: real): Mat2 {
    Mat2(v, 0.0, 0.0, v)
  }

  /** The parts of a two-state, two-measurement Kalman filter that the program sets. */
  datatype KalmanFilter = KalmanFilter(x: Orientation, P: Mat2, F: Mat2, H: Mat2, R: Mat2, Q: Mat2)

  /** The filter each sensor starts with: state at rest, identity transition and observation. */
  const InitialFilter: KalmanFilter :=
    KalmanFilter(Orientation(0.0, 0.0), Diagonal(10.0), Diagonal(1.0), Diagonal(1.0),
                 Diagonal(0.1), Diagonal(0.01))

  /**
   * The library computations. `pitchRoll` is None where squaring the y or
   * z reading overflows a float (OverflowError), and `angleBetween` is None
   * where `math.acos` raises (its argument outside [-1, 1]); nothing
   * catches either error, so the program ends.
   */
  datatype Numerics = Numerics(
    pitchRoll: Accel -> Option<Orientation>,
    angleBetween: (Orientation, Orientation) -> Option<real>,
    predictUpdate: (KalmanFilter, Orientation) -> KalmanFilter)

  /** The three filters, one per sensor. */
  datatype Bank = Bank(k1: KalmanFilter, k2: KalmanFilter, k3: KalmanFilter)

  /** What one pass of the receive loop does: the filters after it, the row it logs, whether it raised. */
  datatype Cycle = Cycle(bank: Bank, row: Option<Row>, crashed: bool)

  /** The log's header line. */
  const LogHeader: Row := HeaderRow(LogColumns)

  /** The directory after start-up: the log is created with its header only when absent. */
  function Startup(files: map<string, CsvFile>): map<string, CsvFile> {
    CreateIfAbsent(files, LogFile, [LogHeader])
  }

  /** The row logged for three filtered orientations and the two angles between them. */
  function LogRow(now: int, f1: Orientation, f2: Orientation, f3: Orientation, a12: real, a23: real): Row {
    [Stamp(now), Num(f1.pitch), Num(f1.roll), Num(f2.pitch), Num(f2.roll),
     Num(f3.pitch), Num(f3.roll), Num(a12), Num(a23)]
  }

  /** All three sensors are present in the parsed chunk. */
  predicate Complete(sensors: Sensors) {
    "Sensor 1" in sensors && "Sensor 2" in sensors && "Sensor 3" in sensors
  }

  /** One pass of the receive loop on the text `received` at time `now`. */
  function Step(num: Numerics, bank: Bank, received: string, now: int): Cycle {
    var data := Strip(received);
    if data == [] then Cycle(bank, None, false) else StepOn(num, bank, SensorsOf(data), now)
  }

  /** The pass once the chunk is parsed: only a complete set of readings moves anything. */
  function StepOn(num: Numerics, bank: Bank, sensors: Sensors, now: int): Cycle {
    if !Complete(sensors) then Cycle(bank, None, false)
    else if !Measurable(num, sensors) then Cycle(bank, None, true)
    else Finish(num, Advance(num, bank, sensors), now)
  }

  /** Pitch and roll of all three sensors can be computed; all three come before any filter moves. */
  predicate Measurable(num: Numerics, sensors: Sensors)
    requires Complete(sensors)
  {
    num.pitchRoll(sensors["Sensor 1"]).Some? && num.pitchRoll(sensors["Sensor 2"]).Some?
    && num.pitchRoll(sensors["Sensor 3"]).Some?
  }

  /** Each filter predicts, then updates with its own sensor's pitch and roll. */
  function Advance(num: Numerics, bank: Bank, sensors: Sensors): Bank
    requires Complete(sensors) && Measurable(num, sensors)
  {
    Bank(num.predictUpdate(bank.k1, num.pitchRoll(sensors["Sensor 1"]).value),
         num.predictUpdate(bank.k2, num.pitchRoll(sensors["Sensor 2"]).value),
         num.predictUpdate(bank.k3, num.pitchRoll(sensors["Sensor 3"]).value))
  }

  /** The two angles from the advanced filters, and the row, unless an angle raises. */
  function Finish(num: Numerics, advanced: Bank, now: int): Cycle {
    var f1, f2, f3 := advanced.k1.x, advanced.k2.x, advanced.k3.x;
    match num.angleBetween(f1, f2)
    case None => Cycle(advanced, None, true)
    case Some(a12) =>
      match num.angleBetween(f2, f3)
      case None => Cycle(advanced, None, true)
      case Some(a23) => Cycle(advanced, Some(LogRow(now, f1, f2, f3, a12, a23)), false)
  }

  /** The directory after a pass: the row, if any, is appended to the log. */
  function Logged(files: map<string, CsvFile>, c: Cycle): map<string, CsvFile> {
    if c.row.Some? then AppendLine(files, LogFile, c.row.value) else files
  }

  /** The value logged under column `name`, looked up by name as the row's dictionary does. */
  function Field(row: Row, name: string): Option<Cell> {
    FieldFrom(row, LogColumns, name)
  }

  function FieldFrom(row: Row, names: seq<string>, name: string): Option<Cell> {
    if row == [] || names == [] then None
    else if names[0] == name then Some(row[0])
    else FieldFrom(row[1..], names[1..], name)
  }

  // ---------------------------------------------------------------------------
  // The program's state

  /** The running acquisition program: its three filters. */
  class Acquisition {
    const numerics: Numerics
    var kalman1: KalmanFilter
    var kalman2: KalmanFilter
    var kalman3: KalmanFilter

    function Filters(): Bank
      reads this
    {
      Bank(kalman1, kalman2, kalman3)
    }

    /** Start-up: the header is written when the log is absent, and three fresh filters are made. */
    constructor (numerics: Numerics, disk: Disk)
      modifies disk
      ensures this.numerics == numerics
      ensures kalman1 == InitialFilter && kalman2 == InitialFilter && kalman3 == InitialFilter
      ensures disk.files == Startup(old(disk.files))
    {
      disk.CreateFile(LogFile, [LogHeader]);
      this.numerics := numerics;
      kalman1, kalman2, kalman3 := InitialFilter, InitialFilter, InitialFilter;
    }

    /**
     * One pass of the receive loop: strip, parse, and, when all three
     * sensors are present, advance the filters and log a row. `crashed`
     * reports an error that ends the program.
     */
    method ReceiveChunk(disk: Disk, received: string, now: int) returns (crashed: bool)
      modifies this, disk
      ensures var c := Step(numerics, old(Filters()), received, now);
              Filters() == c.bank && crashed == c.crashed && disk.files == Logged(old(disk.files), c)
    {
      var data := Strip(received);
      if data == [] {
        return false;
      }
      var sensors := ParseSensorData(data);
      if !Complete(sensors) {
        return false;
      }
      crashed := AdvanceAndLog(disk, sensors, now);
    }

    /** The part of a pass that runs when all three sensors are present. */
    method AdvanceAndLog(disk: Disk, sensors: Sensors, now: int) returns (crashed: bool)
      requires Complete(sensors)
      modifies this, disk
      ensures var c := StepOn(numerics, old(Filters()), sensors, now);
              Filters() == c.bank && crashed == c.crashed && disk.files == Logged(old(disk.files), c)
    {
      var o1 := numerics.pitchRoll(sensors["Sensor 1"]);
      if o1.None? {
        return true;
      }
      var o2 := numerics.pitchRoll(sensors["Sensor 2"]);
      if o2.None? {
        return true;
      }
      var o3 := numerics.pitchRoll(sensors["Sensor 3"]);
      if o3.None? {
        return true;
      }
      kalman1 := numerics.predictUpdate(kalman1, o1.value);
      kalman2 := numerics.predictUpdate(kalman2, o2.value);
      kalman3 := numerics.predictUpdate(kalman3, o3.value);
      var angle12 := numerics.angleBetween(kalman1.x, kalman2.x);
      if angle12.None? {
        return true;
      }
      var angle23 := numerics.angleBetween(kalman2.x, kalman3.x);
      if angle23.None? {
        return true;
      }
      disk.AppendRow(LogFile, LogRow(now, kalman1.x, kalman2.x, kalman3.x, angle12.value, angle23.value));
      return false;
    }

    /**
     * The receive loop over the chunks the hub sends, `times[i]` being the
     * clock when chunk `i` is handled; it ends early when a pass raises.
     */
    method Receive(disk: Disk, chunks: seq<string>, times: seq<int>) returns (handled: nat, crashed: bool)
      requires |times| == |chunks|
      modifies this, disk
      ensures var r := Run(numerics, old(Filters()), chunks, times);
              Filters() == r.bank && crashed == r.crashed && handled == r.handled
              && disk.files == LogAll(old(disk.files), r.rows)
    {
      ghost var bank0, files0 := Filters(), disk.files;
      ghost var whole := Run(numerics, bank0, chunks, times);
      ghost var logged: seq<Row> := [];
      handled, crashed := 0, false;
      assert chunks[0..] == chunks && times[0..] == times;
      while handled < |chunks| && !crashed
        invariant handled <= |chunks|
        invariant disk.files == LogAll(files0, logged)
        invariant !crashed ==> whole == After(logged, handled, Run(numerics, Filters(), chunks[handled..], times[handled..]))
        invariant crashed ==> whole == RunResult(Filters(), logged, handled, true)
        decreases |chunks| - handled
      {
        ghost var c := Step(numerics, Filters(), chunks[handled], times[handled]);
        LoopStep(numerics, chunks, times, logged, handled, Filters(), whole);
        LogAllCycle(files0, logged, c);
        crashed := ReceiveChunk(disk, chunks[handled], times[handled]);
        logged := logged + RowsOf(c);
        handled := handled + 1;
      }
      if !crashed {
        RunEmpty(numerics, Filters(), chunks, times, handled, logged, whole);
      }
    }
  }

  // ---------------------------------------------------------------------------
  // Many passes

  /** What the receive loop does over several chunks: the filters, the rows logged, the passes made. */
  datatype RunResult = RunResult(bank: Bank, rows: seq<Row>, handled: nat, crashed: bool)

  /** `r` preceded by passes that logged `rows` and numbered `n`. */
  function After(rows: seq<Row>, n: nat, r: RunResult): RunResult {
    RunResult(r.bank, rows + r.rows, n + r.handled, r.crashed)
  }

  function RowsOf(c: Cycle): seq<Row> {
    if c.row.Some? then [c.row.value] else []
  }

  /** The receive loop over `chunks`, stopping after the first pass that raises. */
  function Run(num: Numerics, bank: Bank, chunks: seq<string>, times: seq<int>): RunResult
    requires |times| == |chunks|
    decreases |chunks|
  {
    if chunks == [] then RunResult(bank, [], 0, false)
    else
      var c := Step(num, bank, chunks[0], times[0]);
      if c.crashed then RunResult(c.bank, [], 1, true)
      else After(RowsOf(c), 1, Run(num, c.bank, chunks[1..], times[1..]))
  }

  /** The log after appending `rows` in order. */
  function LogAll(files: map<string, CsvFile>, rows: seq<Row>): map<string, CsvFile> {
    if rows == [] then files
    else AppendLine(LogAll(files, rows[..|rows| - 1]), LogFile, rows[|rows| - 1])
  }

  lemma RunUnfold(num: Numerics, bank: Bank, chunks: seq<string>, times: seq<int>, i: nat)
    requires |times| == |chunks| && i < |chunks|
    ensures var c := Step(num, bank, chunks[i], times[i]);
            Run(num, bank, chunks[i..], times[i..])
            == if c.crashed then RunResult(c.bank, [], 1, true)
               else After(RowsOf(c), 1, Run(num, c.bank, chunks[i + 1..], times[i + 1..]))
  {
    assert chunks[i..][0] == chunks[i] && times[i..][0] == times[i];
    assert chunks[i..][1..] == chunks[i + 1..] && times[i..][1..] == times[i + 1..];
  }

  /** One more pass of the loop, in terms of the whole run. */
  lemma LoopStep(num: Numerics, chunks: seq<string>, times: seq<int>, logged: seq<Row>, h: nat, bank: Bank,
                 whole: RunResult)
    requires |times| == |chunks| && h < |chunks|
    requires whole == After(logged, h, Run(num, bank, chunks[h..], times[h..]))
    ensures var c := Step(num, bank, chunks[h], times[h]);
            (c.crashed ==> whole == RunResult(c.bank, logged + RowsOf(c), h + 1, true))
            && (!c.crashed ==> whole == After(logged + RowsOf(c), h + 1, Run(num, c.bank, chunks[h + 1..], times[h + 1..])))
  {
    var c := Step(num, bank, chunks[h], times[h]);
    RunUnfold(num, bank, chunks, times, h);
    CrashLogsNothing(num, bank, chunks[h], times[h]);
    if c.crashed {
      assert RowsOf(c) == [] && logged + [] == logged;
    } else {
      AfterAfter(logged, h, RowsOf(c), Run(num, c.bank, chunks[h + 1..], times[h + 1..]));
    }
  }

  lemma RunEmpty(num: Numerics, bank: Bank, chunks: seq<string>, times: seq<int>, h: nat, logged: seq<Row>,
                 whole: RunResult)
    requires |times| == |chunks| == h
    requires whole == After(logged, h, Run(num, bank, chunks[h..], times[h..]))
    ensures whole == RunResult(bank, logged, h, false)
  {
    assert chunks[h..] == [] && times[h..] == [];
    assert logged + [] == logged;
  }

  lemma AfterAfter(rows: seq<Row>, n: nat, more: seq<Row>, r: RunResult)
    ensures After(rows, n, After(more, 1, r)) == After(rows + more, n + 1, r)
  {
    assert rows + (more + r.rows) == rows + more + r.rows;
  }

  lemma LogAllCycle(files: map<string, CsvFile>, rows: seq<Row>, c: Cycle)
    ensures LogAll(files, rows + RowsOf(c)) == Logged(LogAll(files, rows), c)
  {
    if c.row.Some? {
      assert (rows + RowsOf(c))[..|rows|] == rows;
    } else {
      assert rows + RowsOf(c) == rows;
    }
  }

  /** A pass that raises logs nothing. */
  lemma CrashLogsNothing(num: Numerics, bank: Bank, received: string, now: int)
    ensures Step(num, bank, received, now).crashed ==> Step(num, bank, received, now).row.None?
  {
  }

  // ---------------------------------------------------------------------------
  // Properties

  /** The header names the nine columns, in order. */
  lemma LogHeaderNames()
    ensures |LogHeader| == 9
    ensures forall i :: 0 <= i < 9 ==> LogHeader[i] == Str(LogColumns[i])
  {
  }

  /** Start-up writes the header when the log is absent and touches nothing otherwise. */
  lemma StartupWritesHeaderOnce(files: map<string, CsvFile>)
    ensures LogFile in Startup(files)
    ensures LogFile !in files ==> Startup(files)[LogFile] == [LogHeader]
    ensures LogFile in files ==> Startup(files) == files
    ensures forall q :: q != LogFile ==> (q in Startup(files) <==> q in files)
  {
  }

  /** An empty chunk, or one without all three sensors, moves no filter and logs nothing. */
  lemma IncompleteChunkIgnored(num: Numerics, bank: Bank, received: string, now: int)
    requires Strip(received) == [] || !Complete(SensorsOf(Strip(received)))
    ensures Step(num, bank, received, now) == Cycle(bank, None, false)
  {
  }

  /** A blank chunk parses to nothing: whitespace only is ignored. */
  lemma BlankChunkIgnored(num: Numerics, bank: Bank, received: string, now: int)
    requires AllSpace(received)
    ensures Step(num, bank, received, now) == Cycle(bank, None, false)
  {
    StripEmpty(received);
  }

  /**
   * A chunk with all three sensors raises, moving no filter, when any
   * sensor's pitch and roll overflow; otherwise it advances each filter
   * exactly once, with its own sensor's pitch and roll, and logs a row
   * exactly when neither angle raises.
   */
  lemma CompleteChunkAdvances(num: Numerics, bank: Bank, received: string, now: int)
    requires Strip(received) != [] && Complete(SensorsOf(Strip(received)))
    ensures var sensors := SensorsOf(Strip(received));
            var c := Step(num, bank, received, now);
            var o1, o2, o3 := num.pitchRoll(sensors["Sensor 1"]), num.pitchRoll(sensors["Sensor 2"]),
                              num.pitchRoll(sensors["Sensor 3"]);
            (o1.None? || o2.None? || o3.None? ==> c == Cycle(bank, None, true))
            && (o1.Some? && o2.Some? && o3.Some? ==>
            c.bank.k1 == num.predictUpdate(bank.k1, o1.value)
            && c.bank.k2 == num.predictUpdate(bank.k2, o2.value)
            && c.bank.k3 == num.predictUpdate(bank.k3, o3.value)
            && (c.crashed <==> (num.angleBetween(c.bank.k1.x, c.bank.k2.x).None?
                                || num.angleBetween(c.bank.k2.x, c.bank.k3.x).None?))
            && (c.row.Some? <==> !c.crashed))
  {
  }

  lemma {:induction false} FieldFromAt(row: Row, names: seq<string>, i: nat)
    requires i < |row| && i < |names| && forall j :: 0 <= j < i ==> names[j] != names[i]
    ensures FieldFrom(row, names, names[i]) == Some(row[i])
  {
    if i > 0 {
      assert names[0] != names[i];
      FieldFromAt(row[1..], names[1..], i - 1);
    }
  }

  /** No two columns share a name, so looking a value up by name finds its position. */
  lemma FieldAt(row: Row, i: nat)
    requires |row| == |LogColumns| && i < |LogColumns|
    ensures Field(row, LogColumns[i]) == Some(row[i])
  {
    assert forall j :: 0 <= j < |LogColumns| ==> |LogColumns[j]| > 0;
    assert forall j :: 0 <= j < i ==> |LogColumns[j]| != |LogColumns[i]|
                                      || LogColumns[j][|LogColumns[j]| - 1] != LogColumns[i][|LogColumns[i]| - 1];
    FieldFromAt(row, LogColumns, i);
  }

  /** The logged row holds, under each column name, the value the program computed for it. */
  lemma RowByColumn(num: Numerics, bank: Bank, received: string, now: int)
    requires Step(num, bank, received, now).row.Some?
    ensures var c := Step(num, bank, received, now);
            var row := c.row.value;
            var f1, f2, f3 := c.bank.k1.x, c.bank.k2.x, c.bank.k3.x;
            |row| == |LogColumns|
            && Field(row, "Timestamp") == Some(Stamp(now))
            && Field(row, "Pitch 1") == Some(Num(f1.pitch)) && Field(row, "Roll 1") == Some(Num(f1.roll))
            && Field(row, "Pitch 2") == Some(Num(f2.pitch)) && Field(row, "Roll 2") == Some(Num(f2.roll))
            && Field(row, "Pitch 3") == Some(Num(f3.pitch)) && Field(row, "Roll 3") == Some(Num(f3.roll))
            && num.angleBetween(f1, f2).Some?
            && Field(row, "Angle 1 and 2") == Some(Num(num.angleBetween(f1, f2).value))
            && num.angleBetween(f2, f3).Some?
            && Field(row, "Angle 2 and 3") == Some(Num(num.angleBetween(f2, f3).value))
  {
    var row := Step(num, bank, received, now).row.value;
    assert |row| == 9;
    FieldAt(row, 0); FieldAt(row, 1); FieldAt(row, 2); FieldAt(row, 3); FieldAt(row, 4);
    FieldAt(row, 5); FieldAt(row, 6); FieldAt(row, 7); FieldAt(row, 8);
  }

  /** A logged row is a data line: nine fields, the first the time stamp. */
  lemma StepRowShape(num: Numerics, bank: Bank, received: string, now: int)
    ensures var c := Step(num, bank, received, now);
            c.row.Some? ==> |c.row.value| == |LogColumns| && c.row.value[0] == Stamp(now)
  {
  }

  /** Logging rows appends them to the log, in order, and leaves every other file alone. */
  lemma {:induction false} LogAllAppends(files: map<string, CsvFile>, rows: seq<Row>)
    ensures rows == [] ==> LogAll(files, rows) == files
    ensures rows != [] ==> (LogFile in LogAll(files, rows)
                            && LogAll(files, rows)[LogFile] == (if LogFile in files then files[LogFile] else []) + rows)
    ensures forall q :: q != LogFile ==> (q in LogAll(files, rows) <==> q in files)
    ensures forall q :: q != LogFile && q in files ==> LogAll(files, rows)[q] == files[q]
  {
    if rows != [] {
      var init := rows[..|rows| - 1];
      LogAllAppends(files, init);
      var before := if LogFile in files then files[LogFile] else [];
      assert before + init + [rows[|rows| - 1]] == before + rows;
    }
  }

  lemma RunFirst(num: Numerics, bank: Bank, chunks: seq<string>, times: seq<int>)
    requires |times| == |chunks| && chunks != []
    ensures var c := Step(num, bank, chunks[0], times[0]);
            Run(num, bank, chunks, times)
            == if c.crashed then RunResult(c.bank, [], 1, true)
               else After(RowsOf(c), 1, Run(num, c.bank, chunks[1..], times[1..]))
  {
  }

  /** The receive loop stops only at the end of the chunks or at the pass that raises, logging at most one row per pass. */
  lemma {:induction false} RunCounts(num: Numerics, bank: Bank, chunks: seq<string>, times: seq<int>)
    requires |times| == |chunks|
    ensures var r := Run(num, bank, chunks, times);
            |r.rows| <= r.handled <= |chunks|
            && (!r.crashed ==> r.handled == |chunks|)
            && (r.crashed ==> r.handled >= 1)
    decreases |chunks|
  {
    if chunks != [] {
      var c := Step(num, bank, chunks[0], times[0]);
      RunFirst(num, bank, chunks, times);
      if !c.crashed {
        RunCounts(num, c.bank, chunks[1..], times[1..]);
      }
    }
  }

  /** Every row is a data line: nine fields, a time stamp first. */
  predicate DataRows(rows: seq<Row>) {
    forall i :: 0 <= i < |rows| ==> |rows[i]| == |LogColumns| && rows[i][0].Stamp?
  }

  /** Every row the receive loop logs is a data line. */
  lemma {:induction false} RunRowsAreData(num: Numerics, bank: Bank, chunks: seq<string>, times: seq<int>)
    requires |times| == |chunks|
    ensures DataRows(Run(num, bank, chunks, times).rows)
    decreases |chunks|
  {
    if chunks != [] {
      var c := Step(num, bank, chunks[0], times[0]);
      RunFirst(num, bank, chunks, times);
      StepRowShape(num, bank, chunks[0], times[0]);
      if !c.crashed {
        RunRowsAreData(num, c.bank, chunks[1..], times[1..]);
      }
    }
  }

  /**
   * The log over a whole session: the header (written at start-up when the
   * log was absent, or whatever the log held before) followed by exactly the
   * rows the passes produced; no pass writes a header line.
   */
  lemma SessionLog(files: map<string, CsvFile>, num: Numerics, chunks: seq<string>, times: seq<int>)
    requires |times| == |chunks|
    ensures var r := Run(num, Bank(InitialFilter, InitialFilter, InitialFilter), chunks, times);
            var after := LogAll(Startup(files), r.rows);
            LogFile in after
            && after[LogFile] == (if LogFile in files then files[LogFile] else [LogHeader]) + r.rows
            && forall i :: 0 <= i < |r.rows| ==> r.rows[i] != LogHeader
  {
    var bank := Bank(InitialFilter, InitialFilter, InitialFilter);
    var rows: seq<Row> := Run(num, bank, chunks, times).rows;
    RunRowsAreData(num, bank, chunks, times);
    LogDataRows(files, rows);
  }

  lemma LogDataRows(files: map<string, CsvFile>, rows: seq<Row>)
    requires DataRows(rows)
    ensures var after := LogAll(Startup(files), rows);
            LogFile in after
            && after[LogFile] == (if LogFile in files then files[LogFile] else [LogHeader]) + rows
            && forall i :: 0 <= i < |rows| ==> rows[i] != LogHeader
  {
    LogAllAppends(Startup(files), rows);
    LogHeaderNames();
    if rows == [] {
      assert (if LogFile in files then files[LogFile] else [LogHeader]) + rows
             == (if LogFile in files then files[LogFile] else [LogHeader]);
    }
    forall i | 0 <= i < |rows| ensures rows[i] != LogHeader {
      assert rows[i][0] != LogHeader[0];
    }
  }

  /**
   * The text the hub sends for sensors 1, 2 and 3 moves each filter with
   * that sensor's own reading, or, when one of the readings overflows,
   * raises and moves none.
   */
  lemma ThreeSensorChunkAdvances(num: Numerics, bank: Bank, now: int, a: string, b: string, c: string,
                                 d: string, e: string, f: string, g: string, h: string, i: string)
    requires ParseNum(a).Some? && ParseNum(b).Some? && ParseNum(c).Some?
    requires ParseNum(d).Some? && ParseNum(e).Some? && ParseNum(f).Some?
    requires ParseNum(g).Some? && ParseNum(h).Some? && ParseNum(i).Some?
    ensures var chunk := FrameText([Section("1", a, b, c), Section("2", d, e, f), Section("3", g, h, i)]);
            var cycle := Step(num, bank, chunk, now);
            var o1 := num.pitchRoll(Accel(ParseNum(a).value, ParseNum(b).value, ParseNum(c).value));
            var o2 := num.pitchRoll(Accel(ParseNum(d).value, ParseNum(e).value, ParseNum(f).value));
            var o3 := num.pitchRoll(Accel(ParseNum(g).value, ParseNum(h).value, ParseNum(i).value));
            (o1.None? || o2.None? || o3.None? ==> cycle == Cycle(bank, None, true))
            && (o1.Some? && o2.Some? && o3.Some? ==>
                cycle.bank.k1 == num.predictUpdate(bank.k1, o1.value)
                && cycle.bank.k2 == num.predictUpdate(bank.k2, o2.value)
                && cycle.bank.k3 == num.predictUpdate(bank.k3, o3.value))
  {
    var s1, s2, s3 := Section("1", a, b, c), Section("2", d, e, f), Section("3", g, h, i);
    SmallIds();
    assert WellFormed(s1) && WellFormed(s2) && WellFormed(s3);
    var chunk := FrameText([s1, s2, s3]);
    ThreeFrameEnds(s1, s2, s3);
    StripKeeps(chunk);
    ThreeSensorRoundTrip(a, b, c, d, e, f, g, h, i);
    ChunkWithReadings(num, bank, chunk, now,
                      Accel(ParseNum(a).value, ParseNum(b).value, ParseNum(c).value),
                      Accel(ParseNum(d).value, ParseNum(e).value, ParseNum(f).value),
                      Accel(ParseNum(g).value, ParseNum(h).value, ParseNum(i).value));
  }

  lemma ThreeFrameEnds(s1: Section, s2: Section, s3: Section)
    requires WellFormed(s1) && WellFormed(s2) && WellFormed(s3)
    ensures var f := FrameText([s1, s2, s3]); f != [] && !IsSpace(f[0]) && !IsSpace(f[|f| - 1])
  {
    WellFormedThree(s1, s2, s3);
    FrameTextEnds([s1, s2, s3]);
  }

  lemma ChunkWithReadings(num: Numerics, bank: Bank, chunk: string, now: int, r1: Accel, r2: Accel, r3: Accel)
    requires Strip(chunk) == chunk && chunk != []
    requires SensorsOf(chunk) == map["Sensor 1" := r1, "Sensor 2" := r2, "Sensor 3" := r3]
    ensures var cycle := Step(num, bank, chunk, now);
            var o1, o2, o3 := num.pitchRoll(r1), num.pitchRoll(r2), num.pitchRoll(r3);
            (o1.None? || o2.None? || o3.None? ==> cycle == Cycle(bank, None, true))
            && (o1.Some? && o2.Some? && o3.Some? ==>
                cycle.bank.k1 == num.predictUpdate(bank.k1, o1.value)
                && cycle.bank.k2 == num.predictUpdate(bank.k2, o2.value)
                && cycle.bank.k3 == num.predictUpdate(bank.k3, o3.value))
  {
    CompleteChunkAdvances(num, bank, chunk, now);
  }
}
