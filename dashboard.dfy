/**
 * The session side of the clinician dashboard (dashboard.py): the buttons
 * whose click counts select the condition, the joint and whether an
 * analysis runs, and the saving of one session line per patient.
 */
module Dashboard {
  import opened Wrappers
  import opened Storage
  import Acquisition

  /** The live file the acquisition loop writes and the dashboard reads. */
  const DataFile: string := "sensor_data.csv"

  /** Whether the stimulation current was on during a session. */
  datatype Condition = Corrente | SemCorrente

  /** The joint a session measured. */
  datatype Joint = Cotovelo | Punho

  function ConditionName(c: Condition): string {
    match c
    case Corrente => "Corrente"
    case SemCorrente => "Sem Corrente"
  }

  function JointName(j: Joint): string {
    match j
    case Cotovelo => "Cotovelo"
    case Punho => "Punho"
  }

  /** The condition a click count selects: odd means the current is on. */
  function ConditionOf(clicks: int): Condition {
    if clicks % 2 == 1 then Corrente else SemCorrente
  }

  /** The joint a click count selects: odd means the elbow. */
  function JointOf(clicks: int): Joint {
    if clicks % 2 == 1 then Cotovelo else Punho
  }

  /** Each click switches the selection, and two clicks come back to it; no clicks mean no current, wrist. */
  lemma ClickParity(clicks: int)
    ensures ConditionOf(clicks + 1) != ConditionOf(clicks) && ConditionOf(clicks + 2) == ConditionOf(clicks)
    ensures JointOf(clicks + 1) != JointOf(clicks) && JointOf(clicks + 2) == JointOf(clicks)
    ensures ConditionOf(0) == SemCorrente && JointOf(0) == Punho
  {
  }

  /** `toggle_condition`: the status line and the button label. */
  function ToggleCondition(clicks: int): (r: (string, string))
    ensures r.0 == "Condição: " + ConditionName(ConditionOf(clicks))
    ensures r.1 == "Alterar para " + ConditionName(ConditionOf(clicks + 1))
  {
    if clicks % 2 == 1 then ("Condição: Corrente", "Alterar para Sem Corrente")
    else ("Condição: Sem Corrente", "Alterar para Corrente")
  }

  /** `toggle_joint`: the status line and the button label. */
  function ToggleJoint(clicks: int): (r: (string, string))
    ensures r.0 == "Articulação: " + JointName(JointOf(clicks))
    ensures r.1 == "Alterar para " + JointName(JointOf(clicks + 1))
  {
    if clicks % 2 == 1 then ("Articulação: Cotovelo", "Alterar para Punho")
    else ("Articulação: Punho", "Alterar para Cotovelo")
  }

  /** The style dictionary of the current-value input box. */
  datatype Style = Style(display: string, marginTop: string)

  /** `toggle_current_condition_input`: the box shows exactly while the current is on. */
  function ToggleCurrentInput(clicks: int): (r: Style)
    ensures r.display == "block" <==> ConditionOf(clicks) == Corrente
    ensures r.display == "none" <==> ConditionOf(clicks) == SemCorrente
    ensures r.marginTop == "10px"
  {
    if clicks % 2 == 1 then Style("block", "10px") else Style("none", "10px")
  }

  /** The columns `toggle_analysis` writes when it starts an analysis. */
  const AnalysisColumns: seq<string> := ["Timestamp", "Pitch 1", "Roll 1", "Pitch 2", "Roll 2", "Angle Between Sensors"]

  const AnalysisHeader: Row := HeaderRow(AnalysisColumns)

  /** A click count that leaves the analysis running. */
  predicate Started(clicks: int) {
    clicks > 0 && clicks % 2 == 1
  }

  /** What `toggle_analysis` returns: whether the refresh interval is off, the status, the button text. */
  datatype AnalysisView = AnalysisView(intervalDisabled: bool, status: string, button: string)

  function AnalysisViewOf(clicks: int): (v: AnalysisView)
    ensures !v.intervalDisabled <==> Started(clicks)
    ensures v.button == (if Started(clicks) then "Parar Análise" else "Iniciar Análise")
  {
    if clicks > 0 then
      if clicks % 2 == 1 then AnalysisView(false, "Análise iniciada. Gráfico em tempo real ativo.", "Parar Análise")
      else AnalysisView(true, "Análise pausada.", "Iniciar Análise")
    else AnalysisView(true, "Clique no botão para iniciar a análise.", "Iniciar Análise")
  }

  /** The files after `toggle_analysis`: starting truncates the live file to its header line. */
  function AnalysisFiles(files: map<string, CsvFile>, clicks: int): map<string, CsvFile> {
    if Started(clicks) then files[DataFile := [AnalysisHeader]] else files
  }

  /** After the first click, each further click stops a running analysis or starts a stopped one. */
  lemma AnalysisAlternates(clicks: int)
    requires clicks > 0
    ensures Started(clicks + 1) <==> !Started(clicks)
    ensures !Started(0)
  {
  }

  /**
   * Starting an analysis leaves the live file as exactly one six-column
   * header line; any other click count leaves every file as it was.
   */
  lemma AnalysisFilesSpec(files: map<string, CsvFile>, clicks: int)
    ensures var after := AnalysisFiles(files, clicks);
            (Started(clicks) ==> DataFile in after && |after[DataFile]| == 1
                                 && |after[DataFile][0]| == 6
                                 && forall i :: 0 <= i < 6 ==> after[DataFile][0][i] == Str(AnalysisColumns[i]))
            && (!Started(clicks) ==> after == files)
            && forall q :: q != DataFile ==> (q in after <==> q in files) && (q in files ==> after[q] == files[q])
  {
  }

  /**
   * The acquisition loop keeps appending its nine-field rows under the
   * six-column header that starting an analysis writes: the two writers of
   * the live file disagree on its width.
   */
  lemma RestartedLogMixesWidths(files: map<string, CsvFile>, clicks: int, row: Row)
    requires Started(clicks) && |row| == |Acquisition.LogColumns|
    ensures var after := AppendLine(AnalysisFiles(files, clicks), Acquisition.LogFile, row);
            |after[DataFile]| == 2 && |after[DataFile][0]| == 6 && |after[DataFile][1]| == 9
  {
    assert Acquisition.LogFile == DataFile;
  }

  /** The toggle-analysis callback on the working directory. */
  method ToggleAnalysis(disk: Disk, clicks: int) returns (v: AnalysisView)
    modifies disk
    ensures v == AnalysisViewOf(clicks)
    ensures disk.files == AnalysisFiles(old(disk.files), clicks)
  {
    if clicks > 0 {
      if clicks % 2 == 1 {
        disk.WriteFile(DataFile, [AnalysisHeader]);
      }
    }
    v := AnalysisViewOf(clicks);
  }

  /** `read_sensor_data`: the live file as a table, or the empty frame when it is absent or unreadable. */
  function ReadSensorData(files: map<string, CsvFile>): Table {
    if DataFile in files then ReadCsv(files[DataFile]).GetOr(Table([], [])) else Table([], [])
  }

  /** The columns of a patient's session file. */
  const SessionColumns: seq<string> := ["Patient Name", "Session Time", "Condition", "Articulação", "Valor Corrente",
                                        "Pitch 1", "Roll 1", "Pitch 2", "Roll 2", "Angle Between Sensors"]

  const SessionHeader: Row := HeaderRow(SessionColumns)

  /** `f'{patient_name}_sessions.csv'`. */
  function SessionFile(patient: string): string {
    patient + "_sessions.csv"
  }

  /** A whole column of the live table joined into one field, or the empty text when the column is missing. */
  function Joined(df: Table, name: string): Cell {
    match Column(df, name)
    case Some(values) => Listing(values)
    case None => Str("")
  }

  /** The one line a save writes for a session. */
  function SessionRow(df: Table, patient: string, now: int, conditionClicks: int, current: Cell, jointClicks: int): Row {
    var condition := ConditionOf(conditionClicks);
    [Str(patient), Stamp(now), Str(ConditionName(condition)), Str(JointName(JointOf(jointClicks))),
     if condition == Corrente then current else Null,
     Joined(df, "Pitch 1"), Joined(df, "Roll 1"), Joined(df, "Pitch 2"), Joined(df, "Roll 2"),
     Joined(df, "Angle Between Sensors")]
  }

  /** A save writes only on a real click and with live data present. */
  predicate Saves(files: map<string, CsvFile>, clicks: int) {
    clicks > 0 && !Empty(ReadSensorData(files))
  }

  /** The files after `save_patient_data`. */
  function SavedFiles(files: map<string, CsvFile>, clicks: int, patient: string, now: int,
                      conditionClicks: int, current: Cell, jointClicks: int): map<string, CsvFile>
  {
    if !Saves(files, clicks) then files
    else SaveLine(files, SessionFile(patient), SessionRow(ReadSensorData(files), patient, now, conditionClicks, current, jointClicks))
  }

  /** Appending `row` to the session file `path`, with the header first when the file is new. */
  function SaveLine(files: map<string, CsvFile>, path: string, row: Row): map<string, CsvFile> {
    AppendLine(CreateIfAbsent(files, path, [SessionHeader]), path, row)
  }

  lemma SaveLineSpec(files: map<string, CsvFile>, path: string, row: Row)
    ensures var after := SaveLine(files, path, row);
            path in after
            && (path !in files ==> after[path] == [SessionHeader, row])
            && (path in files ==> after[path] == files[path] + [row])
            && forall q :: q != path ==> (q in after <==> q in files) && (q in files ==> after[q] == files[q])
  {
  }

  /** A data line is never the header line: its second field is a time stamp. */
  lemma SaveLineKeepsHeaderOnlyFirst(files: map<string, CsvFile>, path: string, row: Row)
    requires |row| > 1 && row[1].Stamp?
    requires path in files ==> HeaderOnlyFirst(files[path])
    ensures HeaderOnlyFirst(SaveLine(files, path, row)[path])
  {
    SaveLineSpec(files, path, row);
    var file := SaveLine(files, path, row)[path];
    assert row != SessionHeader by {
      assert SessionHeader[1] == Str("Session Time");
    }
    forall i | 0 < i < |file| ensures file[i] != SessionHeader {
      if i == |file| - 1 {
        assert file[i] == row;
      } else {
        assert path in files && file[i] == files[path][i];
      }
    }
  }

  /** The live file read with the six-column header over nine-field rows: column `j` holds field `3 + j`. */
  lemma ReadUnderAnalysisHeader(rows: seq<Row>, j: nat)
    requires j < |AnalysisColumns| && forall k :: 0 <= k < j ==> AnalysisColumns[k] != AnalysisColumns[j]
    requires rows != [] && forall i :: 0 <= i < |rows| ==> |rows[i]| == |Acquisition.LogColumns|
    ensures var read := ReadCsv([AnalysisHeader] + rows);
            read.Some? && Column(read.value, AnalysisColumns[j]) == Some(seq(|rows|, i requires 0 <= i < |rows| => rows[i][3 + j]))
  {
    assert IndexWidth(|AnalysisColumns|, rows) == 3;
    ReadColumn(AnalysisColumns, rows, j);
    assert seq(|rows|, i requires 0 <= i < |rows| => if 3 + j < |rows[i]| then rows[i][3 + j] else Null)
           == seq(|rows|, i requires 0 <= i < |rows| => rows[i][3 + j]);
  }

  /**
   * Read back, rows the acquisition logs under the six-column header are
   * shifted: their three leading fields become the index, so the column
   * "Pitch 1" lists each row's field 4 ("Roll 2") and "Angle Between
   * Sensors" its field 8 ("Angle 2 and 3").
   */
  lemma RestartedLogReadsShifted(files: map<string, CsvFile>, clicks: int, rows: seq<Row>)
    requires Started(clicks) && rows != []
    requires forall i :: 0 <= i < |rows| ==> |rows[i]| == |Acquisition.LogColumns|
    ensures var df := ReadSensorData(Acquisition.LogAll(AnalysisFiles(files, clicks), rows));
            df.columns == AnalysisColumns
            && Column(df, "Pitch 1") == Some(seq(|rows|, i requires 0 <= i < |rows| => rows[i][4]))
            && Column(df, "Angle Between Sensors") == Some(seq(|rows|, i requires 0 <= i < |rows| => rows[i][8]))
  {
    assert Acquisition.LogFile == DataFile;
    var before := AnalysisFiles(files, clicks);
    Acquisition.LogAllAppends(before, rows);
    assert Acquisition.LogAll(before, rows)[DataFile] == [AnalysisHeader] + rows;
    ReadUnderAnalysisHeader(rows, 1);
    ReadUnderAnalysisHeader(rows, 5);
    NamesOfHeader(AnalysisColumns);
  }

  /** The message `save_patient_data` returns. */
  function SaveMessage(saved: bool, patient: string): string {
    if saved then "Dados da sessão do paciente '" + patient + "' salvos com sucesso!"
    else "Nenhuma sessão foi salva."
  }

  /** The save-session callback on the working directory, at wall-clock time `now`. */
  method SavePatientData(disk: Disk, clicks: int, patient: string, now: int,
                         conditionClicks: int, current: Cell, jointClicks: int) returns (message: string)
    modifies disk
    ensures disk.files == SavedFiles(old(disk.files), clicks, patient, now, conditionClicks, current, jointClicks)
    ensures message == SaveMessage(Saves(old(disk.files), clicks), patient)
  {
    var df := ReadSensorData(disk.files);
    if clicks > 0 && !Empty(df) {
      var path := SessionFile(patient);
      disk.CreateFile(path, [SessionHeader]);
      disk.AppendRow(path, SessionRow(df, patient, now, conditionClicks, current, jointClicks));
      message := SaveMessage(true, patient);
    } else {
      message := SaveMessage(false, patient);
    }
  }

  /**
   * A save writes the ten-column header exactly when the patient's file did
   * not exist, then exactly one line; without a click or live data nothing
   * is written; no other file changes.
   */
  lemma SaveAppendsOneLine(files: map<string, CsvFile>, clicks: int, patient: string, now: int,
                           conditionClicks: int, current: Cell, jointClicks: int)
    ensures var after := SavedFiles(files, clicks, patient, now, conditionClicks, current, jointClicks);
            var path := SessionFile(patient);
            var row := SessionRow(ReadSensorData(files), patient, now, conditionClicks, current, jointClicks);
            (!Saves(files, clicks) ==> after == files)
            && (Saves(files, clicks) && path !in files ==> after[path] == [SessionHeader, row])
            && (Saves(files, clicks) && path in files ==> after[path] == files[path] + [row])
            && forall q :: q != path ==> (q in after <==> q in files) && (q in files ==> after[q] == files[q])
  {
    if Saves(files, clicks) {
      SaveLineSpec(files, SessionFile(patient), SessionRow(ReadSensorData(files), patient, now, conditionClicks, current, jointClicks));
    }
  }

  /**
   * The saved line has a field per session column; its condition and joint
   * are those the toggles display for the same click counts; the current
   * value is kept only with the current on.
   */
  lemma SessionRowFields(df: Table, patient: string, now: int, conditionClicks: int, current: Cell, jointClicks: int)
    ensures var row := SessionRow(df, patient, now, conditionClicks, current, jointClicks);
            |row| == |SessionColumns|
            && ToggleCondition(conditionClicks).0 == "Condição: " + row[2].s
            && ToggleJoint(jointClicks).0 == "Articulação: " + row[3].s
            && (row[2] == Str("Corrente") <==> conditionClicks % 2 == 1)
            && (row[3] == Str("Cotovelo") <==> jointClicks % 2 == 1)
            && (row[4] == if conditionClicks % 2 == 1 then current else Null)
  {
  }

  /** A session file whose only header line is its first. */
  predicate HeaderOnlyFirst(file: CsvFile) {
    forall i :: 0 < i < |file| ==> file[i] != SessionHeader
  }

  /** However many sessions are saved, the header stays the first line only. */
  lemma SaveKeepsHeaderOnlyFirst(files: map<string, CsvFile>, clicks: int, patient: string, now: int,
                                 conditionClicks: int, current: Cell, jointClicks: int)
    requires SessionFile(patient) in files ==> HeaderOnlyFirst(files[SessionFile(patient)])
    ensures var after := SavedFiles(files, clicks, patient, now, conditionClicks, current, jointClicks);
            SessionFile(patient) in after ==> HeaderOnlyFirst(after[SessionFile(patient)])
  {
    if Saves(files, clicks) {
      var row := SessionRow(ReadSensorData(files), patient, now, conditionClicks, current, jointClicks);
      SaveLineKeepsHeaderOnlyFirst(files, SessionFile(patient), row);
    }
  }
}
