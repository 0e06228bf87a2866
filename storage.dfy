/**
 * Tabular files as the three programs see them: a CSV file is its list of
 * lines (the header line first when one was written), each line a row of
 * cells; the working directory maps file names to the files present.
 */
module Storage {
  import opened Wrappers

  /** One CSV field. `Listing(items)` is the text `", ".join(map(str, items))`. */
  datatype Cell = Str(s: string) | Num(r: real) | Stamp(t: int) | Null | Listing(items: seq<Cell>)

  type Row = seq<Cell>

  /** The lines of a CSV file, in file order. */
  type CsvFile = seq<Row>

  /** A header line: one text cell per column name. */
  function HeaderRow(names: seq<string>): (r: Row)
    ensures |r| == |names|
    ensures forall i :: 0 <= i < |names| ==> r[i] == Str(names[i])
  {
    seq(|names|, i requires 0 <= i < |names| => Str(names[i]))
  }

  /**
   * Appending one line to `path` as `open(path, "a")` or `to_csv(mode="a")`
   * does: the file is created, without a header, when it is absent.
   */
  function AppendLine(files: map<string, CsvFile>, path: string, row: Row): map<string, CsvFile> {
    files[path := (if path in files then files[path] else []) + [row]]
  }

  /** `if not os.path.exists(path): write(path, content)`. */
  function CreateIfAbsent(files: map<string, CsvFile>, path: string, content: CsvFile): map<string, CsvFile> {
    if path in files then files else files[path := content]
  }

  /** Appending keeps every earlier line of `path` and adds `row` last; no other file changes. */
  lemma AppendLineSpec(files: map<string, CsvFile>, path: string, row: Row)
    ensures var after := AppendLine(files, path, row);
            path in after && |after[path]| >= 1 && after[path][|after[path]| - 1] == row
            && (path in files ==> after[path][..|after[path]| - 1] == files[path])
            && (path !in files ==> after[path] == [row])
            && forall q :: q != path ==> (q in after <==> q in files) && (q in files ==> after[q] == files[q])
  {
    var after := AppendLine(files, path, row);
    if path in files {
      assert after[path][..|after[path]| - 1] == files[path];
    }
  }

  /** A table as pandas holds it: the column names and the data rows. */
  datatype Table = Table(columns: seq<string>, rows: seq<Row>)

  /** `df.empty`: no rows, or no columns. */
  predicate Empty(t: Table) {
    |t.rows| == 0 || |t.columns| == 0
  }

  /** The name a header cell gives its column; the writers here only put text in headers. */
  function CellName(c: Cell): string {
    if c.Str? then c.s else ""
  }

  function Names(header: Row): seq<string> {
    seq(|header|, i requires 0 <= i < |header| => CellName(header[i]))
  }

  /**
   * `pd.read_csv(path)`, None where pandas raises. The first line names the
   * columns, and an empty file has none to parse. When the first data line
   * is wider than the header, its extra leading fields become the frame's
   * index, so every line gives up that many leading fields; a line wider
   * than that raises, and a narrower one is missing its last cells.
   */
  function ReadCsv(file: CsvFile): Option<Table> {
    if file == [] then None
    else
      var names, rows := Names(file[0]), file[1..];
      var d := IndexWidth(|names|, rows);
      if !FitsWidth(rows, |names| + d) then None
      else Some(Table(names, DropIndex(rows, d)))
  }

  /** How many leading fields of each line pandas takes as the index: the first data line's excess over the header. */
  function IndexWidth(width: nat, rows: seq<Row>): nat {
    if rows != [] && |rows[0]| > width then |rows[0]| - width else 0
  }

  predicate FitsWidth(rows: seq<Row>, width: nat) {
    forall i :: 0 <= i < |rows| ==> |rows[i]| <= width
  }

  /** Every line without its first `d` fields (all of them, when it has fewer). */
  function DropIndex(rows: seq<Row>, d: nat): seq<Row> {
    seq(|rows|, i requires 0 <= i < |rows| => rows[i][(if d < |rows[i]| then d else |rows[i]|)..])
  }

  lemma NamesOfHeader(names: seq<string>)
    ensures Names(HeaderRow(names)) == names
  {
  }

  /** Reading back a header line and data rows no wider than it gives those names and rows. */
  lemma ReadWritten(names: seq<string>, rows: seq<Row>)
    requires FitsWidth(rows, |names|)
    ensures ReadCsv([HeaderRow(names)] + rows) == Some(Table(names, rows))
  {
    var file := [HeaderRow(names)] + rows;
    assert file[1..] == rows;
    NamesOfHeader(names);
    assert IndexWidth(|names|, rows) == 0 by {
      if rows != [] {
        assert |rows[0]| <= |names|;
      }
    }
    assert DropIndex(rows, 0) == rows;
  }

  /**
   * Reading fails exactly on an empty file and on a data line wider than
   * both the header and the first data line.
   */
  lemma ReadCsvFails(file: CsvFile)
    ensures ReadCsv(file).None? <==>
              file == [] || exists i :: 1 <= i < |file| && |file[i]| > |file[0]| && |file[i]| > |file[1]|
  {
    if file != [] {
      var names, rows := Names(file[0]), file[1..];
      var w := |names| + IndexWidth(|names|, rows);
      if !FitsWidth(rows, w) {
        var i :| 0 <= i < |rows| && |rows[i]| > w;
        assert file[i + 1] == rows[i];
      }
      if exists i :: 1 <= i < |file| && |file[i]| > |file[0]| && |file[i]| > |file[1]| {
        var i :| 1 <= i < |file| && |file[i]| > |file[0]| && |file[i]| > |file[1]|;
        assert rows[i - 1] == file[i] && rows[0] == file[1];
      }
    }
  }

  /**
   * Under the header's `j`-th name, a read file lists, line by line, the
   * field `j` places after the index fields, or a missing cell where the
   * line is too short.
   */
  lemma ReadColumn(names: seq<string>, rows: seq<Row>, j: nat)
    requires j < |names| && forall k :: 0 <= k < j ==> names[k] != names[j]
    requires FitsWidth(rows, |names| + IndexWidth(|names|, rows))
    ensures var d := IndexWidth(|names|, rows);
            var read := ReadCsv([HeaderRow(names)] + rows);
            read.Some?
            && Column(read.value, names[j])
               == Some(seq(|rows|, i requires 0 <= i < |rows| => if d + j < |rows[i]| then rows[i][d + j] else Null))
  {
    var file := [HeaderRow(names)] + rows;
    assert file[1..] == rows;
    NamesOfHeader(names);
    var d := IndexWidth(|names|, rows);
    var t := Table(names, DropIndex(rows, d));
    assert ReadCsv(file) == Some(t);
    ColumnIndexSpec(names, names[j]);
    assert ColumnIndex(names, names[j]) == Some(j);
    var want := seq(|rows|, i requires 0 <= i < |rows| => if d + j < |rows[i]| then rows[i][d + j] else Null);
    var got := Column(t, names[j]).value;
    forall i | 0 <= i < |rows|
      ensures got[i] == want[i]
    {
      var r := t.rows[i];
      assert r == rows[i][(if d < |rows[i]| then d else |rows[i]|)..];
    }
    assert got == want;
  }

  /** The position of the first column called `name`. */
  function ColumnIndex(names: seq<string>, name: string): Option<nat> {
    if names == [] then None
    else if names[0] == name then Some(0)
    else match ColumnIndex(names[1..], name)
      case None => None
      case Some(k) => Some(k + 1)
  }

  lemma {:induction false} ColumnIndexSpec(names: seq<string>, name: string)
    ensures ColumnIndex(names, name).None? <==> name !in names
    ensures ColumnIndex(names, name).Some? ==>
              var k := ColumnIndex(names, name).value;
              k < |names| && names[k] == name && forall j :: 0 <= j < k ==> names[j] != name
  {
    if names != [] && names[0] != name {
      ColumnIndexSpec(names[1..], name);
      if ColumnIndex(names[1..], name).Some? {
        var k := ColumnIndex(names[1..], name).value;
        assert names[k + 1] == names[1..][k];
        forall j | 0 <= j < k + 1 ensures names[j] != name {
          if j > 0 {
            assert names[j] == names[1..][j - 1];
          }
        }
      }
      assert name in names <==> name in names[1..] by {
        if name in names {
          var j :| 0 <= j < |names| && names[j] == name;
          assert names[1..][j - 1] == name;
        }
      }
    }
  }

  /** `df[name].tolist()` when the column exists; a short row reads as missing there. */
  function Column(t: Table, name: string): Option<seq<Cell>> {
    match ColumnIndex(t.columns, name)
    case None => None
    case Some(k) => Some(seq(|t.rows|, i requires 0 <= i < |t.rows| => if k < |t.rows[i]| then t.rows[i][k] else Null))
  }

  /** The column of a present name lists, row by row, the cell under that name. */
  lemma ColumnSpec(t: Table, name: string, k: nat)
    requires k < |t.columns| && t.columns[k] == name && forall j :: 0 <= j < k ==> t.columns[j] != name
    ensures Column(t, name).Some? && |Column(t, name).value| == |t.rows|
    ensures forall i :: 0 <= i < |t.rows| && k < |t.rows[i]| ==> Column(t, name).value[i] == t.rows[i][k]
  {
    ColumnIndexSpec(t.columns, name);
    assert name in t.columns;
  }

  /** The CSV files of the working directory, shared by the acquisition loop and the dashboard. */
  class Disk {
    var files: map<string, CsvFile>

    constructor (files: map<string, CsvFile>)
      ensures this.files == files
    {
      this.files := files;
    }

    /** `os.path.exists(path)`. */
    predicate Exists(path: string)
      reads this
    {
      path in files
    }

    /** Writing `content` to `path` only when no such file exists yet. */
    method CreateFile(path: string, content: CsvFile)
      modifies this
      ensures files == CreateIfAbsent(old(files), path, content)
    {
      if path !in files {
        files := files[path := content];
      }
    }

    /** `to_csv(path, mode="a", header=False)` of a one-row frame. */
    method AppendRow(path: string, row: Row)
      modifies this
      ensures files == AppendLine(old(files), path, row)
    {
      files := AppendLine(files, path, row);
    }

    /** Overwriting `path` with `content`, creating it when absent. */
    method WriteFile(path: string, content: CsvFile)
      modifies this
      ensures files == old(files)[path := content]
    {
      files := files[path := content];
    }
  }
}
