/**
 * The second dashboard (dash2.py): a cache of the sensor workbook that is
 * reloaded only when the workbook is newer than the last load, the
 * per-patient history workbook, and the clearing of the sensor workbook.
 * Workbooks are tables; the operating system's modification time of the
 * sensor workbook is an input.
 */
module History {
  import opened Wrappers
  import opened Storage

  const DataWorkbook: string := "dados_sensores.xlsx"
  const HistoryWorkbook: string := "historico_pacientes.xlsx"

  const HistoryColumns: seq<string> := ["Paciente", "Pitch", "Roll", "Timestamp"]
  const SensorColumns: seq<string> :=
    ["Accel_X", "Accel_Y", "Accel_Z", "Gyro_X", "Gyro_Y", "Gyro_Z", "Pitch_Filtered", "Roll_Filtered"]

  // ---------------------------------------------------------------- reload_data_if_needed

  /** The module-level cache: the time of the last load and the table loaded then. */
  datatype CacheState = CacheState(lastModified: real, sensors: Option<Table>)

  /**
   * One call of `reload_data_if_needed` when the sensor workbook, if
   * present, was last modified at `mtime`; None is the FileNotFoundError
   * raised when it is absent.
   */
  function Reload(c: CacheState, book: map<string, Table>, mtime: real): Option<CacheState> {
    if DataWorkbook !in book then None
    else if mtime > c.lastModified then Some(CacheState(mtime, Some(book[DataWorkbook])))
    else Some(c)
  }

  /**
   * The call fails exactly when the workbook is absent; otherwise it loads
   * the workbook exactly when it is strictly newer than the last load, and
   * the load time becomes the later of the two and never decreases.
   */
  lemma ReloadSpec(c: CacheState, book: map<string, Table>, mtime: real)
    ensures Reload(c, book, mtime).None? <==> DataWorkbook !in book
    ensures Reload(c, book, mtime).Some? ==>
              var c' := Reload(c, book, mtime).value;
              c'.lastModified >= c.lastModified
              && c'.lastModified == (if mtime > c.lastModified then mtime else c.lastModified)
              && (mtime > c.lastModified ==> c'.sensors == Some(book[DataWorkbook]))
              && (mtime <= c.lastModified ==> c' == c)
  {
  }

  /** Asking again about an unmodified workbook loads nothing. */
  lemma ReloadIdempotent(c: CacheState, book: map<string, Table>, mtime: real)
    requires Reload(c, book, mtime).Some?
    ensures Reload(Reload(c, book, mtime).value, book, mtime) == Reload(c, book, mtime)
  {
  }

  /** The module globals of dash2.py. */
  class SensorCache {
    var lastModified: real
    var sensors: Option<Table>

    /** `last_modified = 0` and `df_sensores = None`. */
    constructor ()
      ensures State() == CacheState(0.0, None)
    {
      lastModified := 0.0;
      sensors := None;
    }

    function State(): CacheState
      reads this
    {
      CacheState(lastModified, sensors)
    }

    /** `reload_data_if_needed`; `found` is false when it raises, and then nothing changes. */
    method ReloadDataIfNeeded(book: map<string, Table>, mtime: real) returns (found: bool)
      modifies this
      ensures found <==> Reload(old(State()), book, mtime).Some?
      ensures found ==> State() == Reload(old(State()), book, mtime).value
      ensures !found ==> State() == old(State())
    {
      if DataWorkbook in book {
        if mtime > lastModified {
          lastModified := mtime;
          sensors := Some(book[DataWorkbook]);
        }
        found := true;
      } else {
        found := false;
      }
    }
  }

  // ---------------------------------------------------------------- the history workbook

  /** The value the new history line puts under column `name`; other columns stay empty. */
  function NewValue(name: string, patient: string, pitch: Cell, roll: Cell, now: int): Cell {
    if name == "Paciente" then Str(patient)
    else if name == "Pitch" then pitch
    else if name == "Roll" then roll
    else if name == "Timestamp" then Stamp(now)
    else Null
  }

  /** The new line laid out under the stored columns, as `pd.concat` aligns it by name. */
  function NewLine(columns: seq<string>, patient: string, pitch: Cell, roll: Cell, now: int): Row {
    seq(|columns|, i requires 0 <= i < |columns| => NewValue(columns[i], patient, pitch, roll, now))
  }

  /**
   * The new line has one cell per stored column: the patient, pitch, roll
   * and time under the columns of those names, and nothing anywhere else.
   */
  lemma NewLineSpec(columns: seq<string>, patient: string, pitch: Cell, roll: Cell, now: int)
    ensures var line := NewLine(columns, patient, pitch, roll, now);
            |line| == |columns|
            && (forall i :: 0 <= i < |columns| && columns[i] == "Paciente" ==> line[i] == Str(patient))
            && (forall i :: 0 <= i < |columns| && columns[i] == "Pitch" ==> line[i] == pitch)
            && (forall i :: 0 <= i < |columns| && columns[i] == "Roll" ==> line[i] == roll)
            && (forall i :: 0 <= i < |columns| && columns[i] == "Timestamp" ==> line[i] == Stamp(now))
            && (forall i :: 0 <= i < |columns| && columns[i] !in HistoryColumns ==> line[i] == Null)
  {
  }

  /** The history as read, or the empty four-column table when the workbook is absent. */
  function StoredHistory(book: map<string, Table>): Table {
    if HistoryWorkbook in book then book[HistoryWorkbook] else Table(HistoryColumns, [])
  }

  /** The workbooks after `save_to_historico(patient, pitch, roll)` at time `now`. */
  function SavedHistory(book: map<string, Table>, patient: string, pitch: Cell, roll: Cell, now: int): map<string, Table> {
    var t := StoredHistory(book);
    book[HistoryWorkbook := Table(t.columns, t.rows + [NewLine(t.columns, patient, pitch, roll, now)])]
  }

  /**
   * Saving keeps the columns and every earlier line, in order, and adds
   * the new line last, laid out under the stored columns; a new workbook
   * gets the four columns and the line (patient, pitch, roll, time); no
   * other workbook changes.
   */
  lemma SavedHistorySpec(book: map<string, Table>, patient: string, pitch: Cell, roll: Cell, now: int)
    ensures var after := SavedHistory(book, patient, pitch, roll, now);
            var before := StoredHistory(book);
            HistoryWorkbook in after
            && after[HistoryWorkbook].columns == before.columns
            && |after[HistoryWorkbook].rows| == |before.rows| + 1
            && after[HistoryWorkbook].rows[..|before.rows|] == before.rows
            && after[HistoryWorkbook].rows[|before.rows|] == NewLine(before.columns, patient, pitch, roll, now)
            && (HistoryWorkbook !in book ==>
                  after[HistoryWorkbook] == Table(HistoryColumns, [[Str(patient), pitch, roll, Stamp(now)]]))
            && forall q :: q != HistoryWorkbook ==> (q in after <==> q in book) && (q in book ==> after[q] == book[q])
  {
    var after := SavedHistory(book, patient, pitch, roll, now);
    var before := StoredHistory(book);
    assert after[HistoryWorkbook].rows[..|before.rows|] == before.rows;
    if HistoryWorkbook !in book {
      assert NewLine(HistoryColumns, patient, pitch, roll, now) == [Str(patient), pitch, roll, Stamp(now)];
    }
  }

  /**
   * Read by name, every stored column gains one cell last: the saved value
   * under "Paciente", "Pitch", "Roll" and "Timestamp", an empty cell under
   * any other name.
   */
  lemma SavedColumn(book: map<string, Table>, patient: string, pitch: Cell, roll: Cell, now: int, name: string)
    requires name in StoredHistory(book).columns
    ensures var before := StoredHistory(book);
            var after := SavedHistory(book, patient, pitch, roll, now)[HistoryWorkbook];
            Column(before, name).Some?
            && Column(after, name) == Some(Column(before, name).value + [NewValue(name, patient, pitch, roll, now)])
  {
    var before := StoredHistory(book);
    var after := SavedHistory(book, patient, pitch, roll, now)[HistoryWorkbook];
    var line := NewLine(before.columns, patient, pitch, roll, now);
    assert after == Table(before.columns, before.rows + [line]);
    ColumnIndexSpec(before.columns, name);
    var k := ColumnIndex(before.columns, name).value;
    ColumnSpec(before, name, k);
    ColumnSpec(after, name, k);
    var c0, c1 := Column(before, name).value, Column(after, name).value;
    assert |c1| == |c0| + 1;
    forall i | 0 <= i < |c1|
      ensures c1[i] == (c0 + [NewValue(name, patient, pitch, roll, now)])[i]
    {
      if i < |c0| {
        assert after.rows[i] == before.rows[i];
      } else {
        assert after.rows[i] == line;
      }
    }
    assert c1 == c0 + [NewValue(name, patient, pitch, roll, now)];
  }

  /** The line is the patient's when it holds the patient's name in the name column `k`. */
  predicate OfPatient(row: Row, k: nat, patient: string) {
    k < |row| && row[k] == Str(patient)
  }

  /** `df[df["Paciente"] == patient]`: the patient's lines, in stored order. */
  function PatientRows(rows: seq<Row>, k: nat, patient: string): seq<Row> {
    if rows == [] then []
    else (if OfPatient(rows[0], k, patient) then [rows[0]] else []) + PatientRows(rows[1..], k, patient)
  }

  /** Filtering a table with one more line last filters the table and then that line. */
  lemma {:induction false} PatientRowsSnoc(rows: seq<Row>, row: Row, k: nat, patient: string)
    ensures PatientRows(rows + [row], k, patient)
            == PatientRows(rows, k, patient) + (if OfPatient(row, k, patient) then [row] else [])
  {
    if rows != [] {
      assert (rows + [row])[1..] == rows[1..] + [row];
      PatientRowsSnoc(rows[1..], row, k, patient);
    } else {
      assert [row][1..] == [];
    }
  }

  /** Every line kept is a line of the patient, and every line of the patient is kept. */
  lemma {:induction false} PatientRowsSpec(rows: seq<Row>, k: nat, patient: string)
    ensures |PatientRows(rows, k, patient)| <= |rows|
    ensures forall r :: r in PatientRows(rows, k, patient) <==> r in rows && OfPatient(r, k, patient)
  {
    if rows != [] {
      PatientRowsSpec(rows[1..], k, patient);
      forall r | r in rows && OfPatient(r, k, patient) ensures r in PatientRows(rows, k, patient) {
        if r != rows[0] {
          var i :| 0 <= i < |rows| && rows[i] == r;
          assert rows[1..][i - 1] == r;
        }
      }
    }
  }

  /**
   * `load_historico(patient)`: the stored table cut down to the patient's
   * lines, or the empty four-column table without a workbook; None is the
   * KeyError of a stored table without a "Paciente" column.
   */
  function LoadHistory(book: map<string, Table>, patient: string): Option<Table> {
    var t := StoredHistory(book);
    match ColumnIndex(t.columns, "Paciente")
    case None => None
    case Some(k) => Some(Table(t.columns, PatientRows(t.rows, k, patient)))
  }

  /** Without a history workbook the history of anyone is the empty four-column table. */
  lemma LoadWithoutWorkbook(book: map<string, Table>, patient: string)
    requires HistoryWorkbook !in book
    ensures LoadHistory(book, patient) == Some(Table(HistoryColumns, []))
  {
    assert ColumnIndex(HistoryColumns, "Paciente") == Some(0);
  }

  /**
   * Saving a line for `patient` adds that line to the patient's history
   * and leaves the history of every other patient as it was.
   */
  lemma SaveThenLoad(book: map<string, Table>, patient: string, other: string, pitch: Cell, roll: Cell, now: int)
    requires "Paciente" in StoredHistory(book).columns
    requires other != patient
    ensures var after := SavedHistory(book, patient, pitch, roll, now);
            var t := StoredHistory(book);
            LoadHistory(after, patient).Some? && LoadHistory(book, patient).Some?
            && LoadHistory(after, patient).value.rows
               == LoadHistory(book, patient).value.rows + [NewLine(t.columns, patient, pitch, roll, now)]
            && LoadHistory(after, other) == LoadHistory(book, other)
  {
    var t := StoredHistory(book);
    var after := SavedHistory(book, patient, pitch, roll, now);
    assert StoredHistory(after) == Table(t.columns, t.rows + [NewLine(t.columns, patient, pitch, roll, now)]);
    ColumnIndexSpec(t.columns, "Paciente");
    var k := ColumnIndex(t.columns, "Paciente").value;
    var line := NewLine(t.columns, patient, pitch, roll, now);
    assert line[k] == Str(patient);
    assert !OfPatient(line, k, other);
    PatientRowsSnoc(t.rows, line, k, patient);
    PatientRowsSnoc(t.rows, line, k, other);
    assert PatientRows(t.rows + [line], k, other) == PatientRows(t.rows, k, other);
    assert ColumnIndex(StoredHistory(after).columns, "Paciente") == Some(k);
    assert LoadHistory(after, other) == Some(Table(t.columns, PatientRows(t.rows + [line], k, other)));
  }

  // ---------------------------------------------------------------- clear_data_file

  /** `clear_data_file`: an existing sensor workbook becomes the empty eight-column table. */
  function Cleared(book: map<string, Table>): map<string, Table> {
    if DataWorkbook in book then book[DataWorkbook := Table(SensorColumns, [])] else book
  }

  /** The clear callbacks: only a real click clears. */
  function ClearedOnClick(book: map<string, Table>, clicks: int): map<string, Table> {
    if clicks > 0 then Cleared(book) else book
  }

  /**
   * Clearing empties an existing sensor workbook down to its eight columns
   * and creates none; without a click nothing changes; no other workbook
   * is touched.
   */
  lemma ClearedSpec(book: map<string, Table>, clicks: int)
    ensures var after := ClearedOnClick(book, clicks);
            (clicks <= 0 ==> after == book)
            && (clicks > 0 && DataWorkbook in book ==> after[DataWorkbook] == Table(SensorColumns, []) && |SensorColumns| == 8)
            && (DataWorkbook in after <==> DataWorkbook in book)
            && forall q :: q != DataWorkbook ==> (q in after <==> q in book) && (q in book ==> after[q] == book[q])
  {
  }

  /** Once the cleared workbook is newer than the last load, the next reload holds the empty table. */
  lemma ClearThenReload(c: CacheState, book: map<string, Table>, mtime: real)
    requires DataWorkbook in book && mtime > c.lastModified
    ensures Reload(c, Cleared(book), mtime) == Some(CacheState(mtime, Some(Table(SensorColumns, []))))
  {
  }

  /** The workbooks of the working directory. */
  class Workbooks {
    var files: map<string, Table>

    constructor (files: map<string, Table>)
      ensures this.files == files
    {
      this.files := files;
    }

    /** `save_to_historico(patient, pitch, roll)` at time `now`. */
    method SaveToHistorico(patient: string, pitch: Cell, roll: Cell, now: int)
      modifies this
      ensures files == SavedHistory(old(files), patient, pitch, roll, now)
    {
      var t: Table;
      if HistoryWorkbook !in files {
        t := Table(HistoryColumns, []);
      } else {
        t := files[HistoryWorkbook];
      }
      t := Table(t.columns, t.rows + [NewLine(t.columns, patient, pitch, roll, now)]);
      files := files[HistoryWorkbook := t];
    }

    /** `load_historico(patient)`, which reads and changes nothing. */
    function LoadHistorico(patient: string): Option<Table>
      reads this
    {
      LoadHistory(files, patient)
    }

    method ClearDataFile()
      modifies this
      ensures files == Cleared(old(files))
    {
      if DataWorkbook in files {
        files := files[DataWorkbook := Table(SensorColumns, [])];
      }
    }

    /** `clear_data` and `clear_all_data`: the same guard around `clear_data_file`. */
    method ClearData(clicks: int)
      modifies this
      ensures files == ClearedOnClick(old(files), clicks)
    {
      if clicks > 0 {
        ClearDataFile();
      }
    }
  }
}
