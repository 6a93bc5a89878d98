/** The CSV export of the data view, and a reader that follows section 2 of RFC 4180 (with LF as a line break too). */
module CsvExport {
  import opened JsText

  // ----- What is exported -----

  /** A version number of 0 stands for none. */
  datatype ViewRow = ViewRow(submittedAt: string, versionNumber: nat, cells: seq<string>)

  datatype ViewColumn = ViewColumn(id: string, caption: string)

  function Captions(columns: seq<ViewColumn>): seq<string> {
    if columns == [] then []
    else [if columns[0].caption != "" then columns[0].caption else columns[0].id] + Captions(columns[1..])
  }

  function Headers(columns: seq<ViewColumn>): seq<string> {
    ["#", "Submitted At", "Version"] + Captions(columns)
  }

  function RowValues(idx: nat, row: ViewRow): seq<string> {
    [Decimal(idx + 1), row.submittedAt, if row.versionNumber != 0 then "v" + Decimal(row.versionNumber) else "\U{2014}"]
    + row.cells
  }

  /** The header line and the numbered rows. */
  function Grid(columns: seq<ViewColumn>, rows: seq<ViewRow>): seq<seq<string>> {
    if rows == [] then [Headers(columns)]
    else Grid(columns, rows[..|rows| - 1]) + [RowValues(|rows| - 1, rows[|rows| - 1])]
  }

  /** The header line: three fixed columns, then the caption of each column, or its id when it has none. */
  lemma {:induction false} HeaderAt(columns: seq<ViewColumn>, i: nat)
    requires i < |columns|
    ensures |Headers(columns)| == 3 + |columns| && Headers(columns)[..3] == ["#", "Submitted At", "Version"]
    ensures Headers(columns)[3 + i] == if columns[i].caption != "" then columns[i].caption else columns[i].id
  {
    CaptionAt(columns, i);
  }

  lemma {:induction false} CaptionAt(columns: seq<ViewColumn>, i: nat)
    requires i < |columns|
    ensures |Captions(columns)| == |columns|
    ensures Captions(columns)[i] == if columns[i].caption != "" then columns[i].caption else columns[i].id
  {
    if |columns| > 1 {
      CaptionAt(columns[1..], if i > 0 then i - 1 else 0);
    }
  }

  /** The line of a row: its number, counted from 1, its date, its version and its cells. */
  lemma {:induction false} GridAt(columns: seq<ViewColumn>, rows: seq<ViewRow>, i: nat)
    requires i < |rows|
    ensures |Grid(columns, rows)| == |rows| + 1 && Grid(columns, rows)[0] == Headers(columns)
    ensures var line := Grid(columns, rows)[i + 1];
      && |line| == 3 + |rows[i].cells| && line[0] == Decimal(i + 1) && line[1] == rows[i].submittedAt
      && (if rows[i].versionNumber == 0 then line[2] == "\U{2014}"
          else line[2] != "" && line[2][0] == 'v' && line[2][1..] == Decimal(rows[i].versionNumber))
      && line[3..] == rows[i].cells
  {
    var n := |rows| - 1;
    if n > 0 {
      GridAt(columns, rows[..n], if i < n then i else 0);
    } else {
      assert rows[..n] == [];
    }
  }

  // ----- How it is written -----

  function Doubled(s: string): string {
    if s == "" then "" else (if s[0] == '"' then "\"\"" else [s[0]]) + Doubled(s[1..])
  }

  function Quoted(cell: string): string {
    "\"" + Doubled(cell) + "\""
  }

  function Line(cells: seq<string>): string {
    if cells == [] then ""
    else if |cells| == 1 then Quoted(cells[0])
    else Quoted(cells[0]) + "," + Line(cells[1..])
  }

  function Lines(lines: seq<string>): string {
    if lines == [] then ""
    else if |lines| == 1 then lines[0]
    else lines[0] + "\n" + Lines(lines[1..])
  }

  function Written(grid: seq<seq<string>>): seq<string> {
    if grid == [] then [] else Written(grid[..|grid| - 1]) + [Line(grid[|grid| - 1])]
  }

  method HandleExportCsv(columns: seq<ViewColumn>, rows: seq<ViewRow>) returns (text: string)
    ensures text == Lines(Written(Grid(columns, rows)))
    ensures ReadFile(text) == Read(Grid(columns, rows))
  {
    var headers := Headers(columns);
    var csvRows := [Line(headers)];
    assert Written([headers]) == csvRows;
    for idx := 0 to |rows|
      invariant csvRows == Written(Grid(columns, rows[..idx]))
    {
      assert rows[..idx + 1][..idx] == rows[..idx];
      var row := rows[idx];
      var version := if row.versionNumber != 0 then "v" + Decimal(row.versionNumber) else "\U{2014}";
      var rowValues := [Decimal(idx + 1), row.submittedAt, version] + row.cells;
      csvRows := csvRows + [Line(rowValues)];
    }
    assert rows[..|rows|] == rows;
    text := Lines(csvRows);
    ExportIsLossless(columns, rows);
  }

  // ----- How it is read -----

  datatype FieldResult = NoField | Field(text: string, rest: string)

  datatype RecordResult = NoRecord | Record(fields: seq<string>, rest: string)

  datatype FileResult = Malformed | Read(records: seq<seq<string>>)

  /** Inside quotes: two quotes stand for one, a single one ends the field. */
  function ReadQuoted(s: string): (r: FieldResult)
    ensures r.Field? ==> |r.rest| < |s|
  {
    if s == "" then NoField
    else if s[0] != '"' then
      match ReadQuoted(s[1..])
      case NoField => NoField
      case Field(text, rest) => Field([s[0]] + text, rest)
    else if |s| > 1 && s[1] == '"' then
      match ReadQuoted(s[2..])
      case NoField => NoField
      case Field(text, rest) => Field("\"" + text, rest)
    else Field("", s[1..])
  }

  predicate IsPlain(c: char) {
    c != '"' && c != ',' && c != '\n' && c != '\r'
  }

  function ReadPlain(s: string): (r: FieldResult)
    ensures r.Field? && |r.rest| <= |s|
  {
    if s == "" || !IsPlain(s[0]) then Field("", s)
    else
      var r := ReadPlain(s[1..]);
      Field([s[0]] + r.text, r.rest)
  }

  function ReadField(s: string): (r: FieldResult)
    ensures r.Field? ==> |r.rest| <= |s|
  {
    if s != "" && s[0] == '"' then ReadQuoted(s[1..]) else ReadPlain(s)
  }

  function ReadRecord(s: string): (r: RecordResult)
    ensures r.Record? ==> |r.rest| <= |s|
    decreases |s|
  {
    match ReadField(s)
    case NoField => NoRecord
    case Field(text, rest) =>
      if rest == "" || rest[0] != ',' then Record([text], rest)
      else match ReadRecord(rest[1..])
        case NoRecord => NoRecord
        case Record(fields, end) => Record([text] + fields, end)
  }

  /** CRLF or LF; the length of the line break at the start of the text. */
  function LineBreak(s: string): nat {
    if s != "" && s[0] == '\n' then 1 else if |s| > 1 && s[0] == '\r' && s[1] == '\n' then 2 else 0
  }

  /** The last record may or may not end in a line break. */
  function ReadFile(s: string): FileResult
    decreases |s|
  {
    match ReadRecord(s)
    case NoRecord => Malformed
    case Record(fields, rest) =>
      if rest == "" then Read([fields])
      else if LineBreak(rest) == 0 then Malformed
      else if rest[LineBreak(rest)..] == "" then Read([fields])
      else match ReadFile(rest[LineBreak(rest)..])
        case Malformed => Malformed
        case Read(records) => Read([fields] + records)
  }

  // ----- Reading back what was written -----

  /** What may follow a quoted field. */
  predicate Follows(rest: string) {
    rest == "" || rest[0] != '"'
  }

  lemma {:induction false} DoubledReadsBack(cell: string, rest: string)
    requires Follows(rest)
    ensures ReadQuoted(Doubled(cell) + "\"" + rest) == Field(cell, rest)
  {
    var s := Doubled(cell) + "\"" + rest;
    if cell == "" {
      assert s == "\"" + rest;
      assert s[1..] == rest;
    } else {
      DoubledReadsBack(cell[1..], rest);
      var tail := Doubled(cell[1..]) + "\"" + rest;
      if cell[0] == '"' {
        assert s == "\"\"" + tail;
        assert s[2..] == tail;
      } else {
        assert s == [cell[0]] + tail;
        assert s[1..] == tail;
      }
      assert cell == [cell[0]] + cell[1..];
    }
  }

  lemma QuotedReadsBack(cell: string, rest: string)
    requires Follows(rest)
    ensures ReadField(Quoted(cell) + rest) == Field(cell, rest)
  {
    DoubledReadsBack(cell, rest);
    var s := Quoted(cell) + rest;
    assert s[1..] == Doubled(cell) + "\"" + rest;
  }

  lemma RecordGoesOn(s: string, text: string, tail: string, fields: seq<string>, end: string)
    requires ReadField(s) == Field(text, "," + tail) && ReadRecord(tail) == Record(fields, end)
    ensures ReadRecord(s) == Record([text] + fields, end)
  {
    hide ReadField;
    assert ("," + tail)[1..] == tail;
  }

  lemma RecordEnds(s: string, text: string, rest: string)
    requires ReadField(s) == Field(text, rest) && (rest == "" || rest[0] == '\n')
    ensures ReadRecord(s) == Record([text], rest)
  {
    hide ReadField;
  }

  lemma {:induction false} LineReadsBack(cells: seq<string>, rest: string)
    requires cells != [] && (rest == "" || rest[0] == '\n')
    ensures ReadRecord(Line(cells) + rest) == Record(cells, rest)
    decreases |cells|
  {
    hide ReadField, ReadRecord, Quoted;
    if |cells| == 1 {
      QuotedReadsBack(cells[0], rest);
      RecordEnds(Quoted(cells[0]) + rest, cells[0], rest);
      assert cells == [cells[0]];
    } else {
      var tail := Line(cells[1..]) + rest;
      LineReadsBack(cells[1..], rest);
      QuotedReadsBack(cells[0], "," + tail);
      assert Line(cells) + rest == Quoted(cells[0]) + ("," + tail);
      RecordGoesOn(Quoted(cells[0]) + ("," + tail), cells[0], tail, cells[1..], rest);
      assert cells == [cells[0]] + cells[1..];
    }
  }

  lemma {:induction false} WrittenFirst(grid: seq<seq<string>>)
    requires grid != []
    ensures Written(grid) == [Line(grid[0])] + Written(grid[1..])
  {
    if |grid| > 1 {
      WrittenFirst(grid[..|grid| - 1]);
      assert grid[..|grid| - 1][1..] == grid[1..][..|grid| - 2];
    }
  }

  lemma {:induction false} WrittenLength(grid: seq<seq<string>>)
    ensures |Written(grid)| == |grid|
  {
    if grid != [] {
      WrittenLength(grid[..|grid| - 1]);
    }
  }

  lemma LineNotEmpty(cells: seq<string>)
    requires cells != []
    ensures Line(cells) != ""
  {
  }

  lemma {:induction false} LinesNotEmpty(grid: seq<seq<string>>)
    requires grid != [] && forall i :: 0 <= i < |grid| ==> grid[i] != []
    ensures Lines(Written(grid)) != ""
  {
    WrittenFirst(grid);
    WrittenLength(grid);
    LineNotEmpty(grid[0]);
  }

  /** Any grid of strings without empty lines is read back as it was, whatever the cells hold. */
  lemma {:induction false} GridReadsBack(grid: seq<seq<string>>)
    requires grid != [] && forall i :: 0 <= i < |grid| ==> grid[i] != []
    ensures ReadFile(Lines(Written(grid))) == Read(grid)
    decreases |grid|
  {
    WrittenFirst(grid);
    WrittenLength(grid);
    var text := Lines(Written(grid));
    if |grid| == 1 {
      LineReadsBack(grid[0], "");
      assert text == Line(grid[0]) + "";
      assert grid == [grid[0]];
    } else {
      var rest := Lines(Written(grid[1..]));
      assert Written(grid)[1..] == Written(grid[1..]);
      assert text == Line(grid[0]) + ("\n" + rest);
      LineReadsBack(grid[0], "\n" + rest);
      GridReadsBack(grid[1..]);
      LinesNotEmpty(grid[1..]);
      assert ("\n" + rest)[1..] == rest;
      assert grid == [grid[0]] + grid[1..];
    }
  }

  lemma {:induction false} GridLinesFilled(columns: seq<ViewColumn>, rows: seq<ViewRow>)
    ensures Grid(columns, rows) != []
    ensures forall i :: 0 <= i < |Grid(columns, rows)| ==> Grid(columns, rows)[i] != []
  {
    if rows != [] {
      GridLinesFilled(columns, rows[..|rows| - 1]);
    }
  }

  /** The exported text gives back every header and every cell. */
  lemma ExportIsLossless(columns: seq<ViewColumn>, rows: seq<ViewRow>)
    ensures ReadFile(Lines(Written(Grid(columns, rows)))) == Read(Grid(columns, rows))
  {
    GridLinesFilled(columns, rows);
    GridReadsBack(Grid(columns, rows));
  }
}
