/**
 * The tabular parser of the spreadsheet import: a DataTable (columns added by
 * name, rows added one at a time) and the two TransformTable extensions that
 * fill one from an Excel worksheet or from a CSV reader.
 */
module DataTables {
  import opened Wrappers
  import opened Text

  const NullReferenceMessage := "Object reference not set to an instance of an object."

  datatype DataColumn = DataColumn(columnName: string, dataType: string, maxLength: Int32)

  /** The column DataTable.Columns.Add(name) creates: text, unbounded (-1). */
  function TextColumn(name: string): DataColumn {
    DataColumn(name, "System.String", -1)
  }

  /** A DataTable refuses a second column whose name equals one it has, ignoring case. */
  predicate HasColumnNamed(columns: seq<DataColumn>, name: string) {
    exists i :: 0 <= i < |columns| && EqualsIgnoreCase(columns[i].columnName, name)
  }

  function DuplicateColumnMessage(name: string): string {
    "A column named '" + name + "' already belongs to this DataTable."
  }

  /** The values of one row; None is DBNull. */
  type Row = seq<Option<string>>

  /** Column names that differ pairwise, ignoring case. */
  ghost predicate DistinctNames(columns: seq<DataColumn>) {
    forall i, j :: 0 <= i < j < |columns| ==> !EqualsIgnoreCase(columns[i].columnName, columns[j].columnName)
  }

  class DataTable {
    var tableName: string
    var columns: seq<DataColumn>
    var rows: seq<Row>

    ghost predicate Valid()
      reads this
    {
      && (forall i :: 0 <= i < |rows| ==> |rows[i]| == |columns|)
      && DistinctNames(columns)
    }

    constructor ()
      ensures Valid() && tableName == "" && columns == [] && rows == []
    {
      tableName, columns, rows := "", [], [];
    }

    /** Columns.Add(name): a text column; every existing row gets DBNull for it. */
    method AddColumn(name: string) returns (o: Outcome)
      requires Valid()
      modifies this
      ensures Valid() && tableName == old(tableName)
      ensures o.Fail? <==> HasColumnNamed(old(columns), name)
      ensures o.Fail? ==> o == Fail(DuplicateColumnMessage(name)) && columns == old(columns) && rows == old(rows)
      ensures o.Pass? ==> columns == old(columns) + [TextColumn(name)]
      ensures o.Pass? ==> |rows| == |old(rows)| && forall i :: 0 <= i < |rows| ==> rows[i] == old(rows)[i] + [None]
    {
      if HasColumnNamed(columns, name) {
        return Fail(DuplicateColumnMessage(name));
      }
      columns := columns + [TextColumn(name)];
      var current := rows;
      rows := seq(|current|, i requires 0 <= i < |current| => current[i] + [None]);
      o := Pass;
    }

    /** Rows.Add(row) of a row made by NewRow. */
    method AddRow(row: Row)
      requires Valid() && |row| == |columns|
      modifies this
      ensures Valid() && tableName == old(tableName) && columns == old(columns)
      ensures rows == old(rows) + [row]
    {
      rows := rows + [row];
    }
  }

  /** The columns that adding `names` one by one gives, or the duplicate-name
      exception at the first name that repeats one before it. */
  function AddColumns(names: seq<string>): (r: Result<seq<DataColumn>>)
    ensures r.Ok? ==> |r.value| == |names| && DistinctNames(r.value)
    ensures r.Ok? ==> forall i :: 0 <= i < |names| ==> r.value[i] == TextColumn(names[i])
    decreases |names|
  {
    if |names| == 0 then Ok([])
    else
      match AddColumns(names[..|names| - 1])
      case Err(m) => Err(m)
      case Ok(cols) =>
        var name := names[|names| - 1];
        if HasColumnNamed(cols, name) then Err(DuplicateColumnMessage(name))
        else Ok(cols + [TextColumn(name)])
  }

  /** Once adding a prefix of the names fails, adding all of them fails too. */
  lemma {:induction false} AddColumnsFailurePersists(names: seq<string>, k: nat)
    requires k <= |names| && AddColumns(names[..k]).Err?
    ensures AddColumns(names) == AddColumns(names[..k])
    decreases |names| - k
  {
    if k < |names| {
      assert names[..k + 1][..k] == names[..k];
      AddColumnsFailurePersists(names, k + 1);
    } else {
      assert names[..k] == names;
    }
  }

  // ---- ExcelPackageExt.TransformTable ----

  datatype Address = Address(row: int, column: int)

  /** A worksheet: the cells that exist, with their text, and the end of the
      used range (null for an empty sheet). */
  datatype Worksheet = Worksheet(cells: map<Address, string>, dimensionEnd: Option<Address>)

  /** Texts of the existing cells of `row` in columns 1..n, left to right
      (enumerating a range visits only the cells that exist). */
  function PresentTexts(cells: map<Address, string>, row: int, n: int): seq<string>
    decreases n
  {
    if n < 1 then []
    else PresentTexts(cells, row, n - 1) + (if Address(row, n) in cells then [cells[Address(row, n)]] else [])
  }

  function ColumnIndexMessage(index: int): string {
    "Cannot find column " + IntToString(index) + "."
  }

  /** A new row of `width` DBNull values, with every existing cell of `row` in
      columns 1..n written at index column - 1; a cell beyond the header's
      width throws. */
  function SheetRow(cells: map<Address, string>, row: int, n: int, width: nat): (r: Result<Row>)
    ensures r.Ok? ==> |r.value| == width
    decreases n
  {
    if n < 1 then Ok(seq(width, _ => None))
    else
      match SheetRow(cells, row, n - 1, width)
      case Err(m) => Err(m)
      case Ok(values) =>
        if Address(row, n) !in cells then Ok(values)
        else if n - 1 < width then Ok(values[n - 1 := Some(cells[Address(row, n)])])
        else Err(ColumnIndexMessage(n - 1))
  }

  /** The rows 2..last of a sheet. */
  function SheetRows(cells: map<Address, string>, last: int, endColumn: int, width: nat): (r: Result<seq<Row>>)
    ensures r.Ok? ==> |r.value| == (if last < 2 then 0 else last - 1)
    ensures r.Ok? ==> forall i :: 0 <= i < |r.value| ==> |r.value[i]| == width
    decreases last
  {
    if last < 2 then Ok([])
    else
      match SheetRows(cells, last - 1, endColumn, width)
      case Err(m) => Err(m)
      case Ok(rows) =>
        match SheetRow(cells, last, endColumn, width)
        case Err(m) => Err(m)
        case Ok(row) => Ok(rows + [row])
  }

  lemma {:induction false} PresentTextsPrefix(cells: map<Address, string>, row: int, n: int, m: int)
    requires n <= m
    ensures |PresentTexts(cells, row, n)| <= |PresentTexts(cells, row, m)|
    ensures PresentTexts(cells, row, m)[..|PresentTexts(cells, row, n)|] == PresentTexts(cells, row, n)
    decreases m - n
  {
    if n < m {
      PresentTextsPrefix(cells, row, n, m - 1);
    }
  }

  lemma {:induction false} SheetRowFailurePersists(cells: map<Address, string>, row: int, k: int, n: int, width: nat)
    requires k <= n && SheetRow(cells, row, k, width).Err?
    ensures SheetRow(cells, row, n, width) == SheetRow(cells, row, k, width)
    decreases n - k
  {
    if k < n {
      SheetRowFailurePersists(cells, row, k, n - 1, width);
    }
  }

  lemma {:induction false} SheetRowsFailurePersists(cells: map<Address, string>, k: int, last: int, endColumn: int, width: nat)
    requires k <= last && SheetRows(cells, k, endColumn, width).Err?
    ensures SheetRows(cells, last, endColumn, width) == SheetRows(cells, k, endColumn, width)
    decreases last - k
  {
    if k < last {
      SheetRowsFailurePersists(cells, k, last - 1, endColumn, width);
    }
  }

  /** What TransformTable makes of a workbook: columns from the header row,
      then one row per sheet row 2..End.Row. */
  function ExcelTable(workbook: seq<Worksheet>): Result<(seq<DataColumn>, seq<Row>)> {
    if |workbook| == 0 then Err("Sequence contains no elements")
    else
      var sheet := workbook[0];
      match sheet.dimensionEnd
      case None => Err(NullReferenceMessage)
      case Some(end) =>
        match AddColumns(PresentTexts(sheet.cells, 1, end.column))
        case Err(m) => Err(m)
        case Ok(columns) =>
          match SheetRows(sheet.cells, end.row, end.column, |columns|)
          case Err(m) => Err(m)
          case Ok(rows) => Ok((columns, rows))
  }

  /** ExcelPackageExt.TransformTable over the first worksheet of `workbook`. */
  method TransformExcel(workbook: seq<Worksheet>) returns (r: Result<DataTable>)
    ensures r.Ok? <==> ExcelTable(workbook).Ok?
    ensures r.Err? ==> r.message == ExcelTable(workbook).message
    ensures r.Ok? ==> fresh(r.value) && r.value.Valid() && r.value.tableName == ""
    ensures r.Ok? ==> (r.value.columns, r.value.rows) == ExcelTable(workbook).value
  {
    if |workbook| == 0 {
      return Err("Sequence contains no elements");
    }
    var sheet := workbook[0];
    if sheet.dimensionEnd.None? {
      return Err(NullReferenceMessage);
    }
    var end := sheet.dimensionEnd.value;
    var headers := PresentTexts(sheet.cells, 1, end.column);
    var table := new DataTable();
    var added := AddHeaderCells(table, sheet.cells, end.column);
    if added.Fail? {
      return Err(added.message);
    }
    var width := |table.columns|;
    var currentRow := 2;
    while currentRow <= end.row
      invariant 2 <= currentRow <= if end.row < 2 then 2 else end.row + 1
      invariant table.Valid() && table.tableName == "" && |table.columns| == width
      invariant AddColumns(headers) == Ok(table.columns)
      invariant SheetRows(sheet.cells, currentRow - 1, end.column, width) == Ok(table.rows)
    {
      var values := ReadSheetRow(sheet.cells, currentRow, end.column, width);
      if values.Err? {
        SheetRowsFailurePersists(sheet.cells, currentRow, end.row, end.column, width);
        return Err(values.message);
      }
      table.AddRow(values.value);
      currentRow := currentRow + 1;
    }
    r := Ok(table);
  }

  /** The header loop: the text of every existing cell of row 1 becomes a
      column, left to right, until one is refused. */
  method AddHeaderCells(table: DataTable, cells: map<Address, string>, endColumn: int) returns (o: Outcome)
    requires table.Valid() && table.columns == [] && table.rows == []
    modifies table
    ensures table.Valid() && table.tableName == old(table.tableName)
    ensures o.Pass? <==> AddColumns(PresentTexts(cells, 1, endColumn)).Ok?
    ensures o.Fail? ==> o.message == AddColumns(PresentTexts(cells, 1, endColumn)).message
    ensures o.Pass? ==> table.columns == AddColumns(PresentTexts(cells, 1, endColumn)).value && table.rows == []
  {
    var headers := PresentTexts(cells, 1, endColumn);
    var c := 1;
    while c <= endColumn
      invariant 1 <= c <= if endColumn < 1 then 1 else endColumn + 1
      invariant table.Valid() && table.tableName == old(table.tableName) && table.rows == []
      invariant AddColumns(PresentTexts(cells, 1, c - 1)) == Ok(table.columns)
    {
      if Address(1, c) in cells {
        var text := cells[Address(1, c)];
        ghost var before := PresentTexts(cells, 1, c - 1);
        assert PresentTexts(cells, 1, c) == before + [text];
        assert (before + [text])[..|before|] == before;
        var added := table.AddColumn(text);
        if added.Fail? {
          PresentTextsPrefix(cells, 1, c, endColumn);
          AddColumnsFailurePersists(headers, |PresentTexts(cells, 1, c)|);
          return added;
        }
      } else {
        assert PresentTexts(cells, 1, c) == PresentTexts(cells, 1, c - 1);
      }
      c := c + 1;
    }
    assert PresentTexts(cells, 1, c - 1) == headers;
    o := Pass;
  }

  /** The body of the row loop: a new row of DBNull values, then each
      existing cell's text written at its column's index. */
  method ReadSheetRow(cells: map<Address, string>, row: int, endColumn: int, width: nat) returns (r: Result<Row>)
    ensures r == SheetRow(cells, row, endColumn, width)
  {
    var values: Row := seq(width, _ => None);
    var c := 1;
    while c <= endColumn
      invariant 1 <= c <= if endColumn < 1 then 1 else endColumn + 1
      invariant SheetRow(cells, row, c - 1, width) == Ok(values)
    {
      if Address(row, c) in cells {
        if c - 1 >= width {
          SheetRowFailurePersists(cells, row, c, endColumn, width);
          return Err(ColumnIndexMessage(c - 1));
        }
        values := values[c - 1 := Some(cells[Address(row, c)])];
      }
      c := c + 1;
    }
    r := Ok(values);
  }

  /** The header row becomes the columns, and each sheet row after it one row:
      End.Row - 1 rows, each as wide as the header, holding the text of every
      existing cell at its column's index and DBNull elsewhere. */
  lemma {:induction false} ExcelRowsArePositional(workbook: seq<Worksheet>, i: nat, column: int)
    requires ExcelTable(workbook).Ok?
    requires i < |ExcelTable(workbook).value.1|
    requires 1 <= column <= workbook[0].dimensionEnd.value.column
    ensures var end := workbook[0].dimensionEnd.value;
            var rows := ExcelTable(workbook).value.1;
            var cells := workbook[0].cells;
            && |rows| == end.row - 1
            && (Address(i + 2, column) in cells ==> column - 1 < |rows[i]| && rows[i][column - 1] == Some(cells[Address(i + 2, column)]))
            && (Address(i + 2, column) !in cells && column - 1 < |rows[i]| ==> rows[i][column - 1] == None)
  {
    var end := workbook[0].dimensionEnd.value;
    var cells := workbook[0].cells;
    var width := |ExcelTable(workbook).value.0|;
    SheetRowsAt(cells, end.row, end.column, width, i);
    SheetRowCell(cells, i + 2, end.column, width, column);
  }

  lemma {:induction false} SheetRowsAt(cells: map<Address, string>, last: int, endColumn: int, width: nat, i: nat)
    requires SheetRows(cells, last, endColumn, width).Ok?
    requires i < |SheetRows(cells, last, endColumn, width).value|
    ensures SheetRow(cells, i + 2, endColumn, width).Ok?
    ensures SheetRows(cells, last, endColumn, width).value[i] == SheetRow(cells, i + 2, endColumn, width).value
    decreases last
  {
    if i < last - 2 {
      SheetRowsAt(cells, last - 1, endColumn, width, i);
    }
  }

  lemma {:induction false} SheetRowCell(cells: map<Address, string>, row: int, n: int, width: nat, column: int)
    requires SheetRow(cells, row, n, width).Ok?
    requires 1 <= column <= n
    ensures Address(row, column) in cells ==> column - 1 < width && SheetRow(cells, row, n, width).value[column - 1] == Some(cells[Address(row, column)])
    ensures Address(row, column) !in cells && column - 1 < width ==> SheetRow(cells, row, n, width).value[column - 1] == None
    decreases n
  {
    if column < n {
      SheetRowCell(cells, row, n - 1, width, column);
    } else if Address(row, column) !in cells && column - 1 < width {
      SheetRowUntouched(cells, row, n - 1, width, column);
    }
  }

  lemma {:induction false} SheetRowUntouched(cells: map<Address, string>, row: int, n: int, width: nat, column: int)
    requires SheetRow(cells, row, n, width).Ok?
    requires 1 <= column && n < column && column - 1 < width
    ensures SheetRow(cells, row, n, width).value[column - 1] == None
    decreases n
  {
    if n >= 1 {
      SheetRowUntouched(cells, row, n - 1, width, column);
    }
  }

  // ---- CsvReaderExt.TransformTable ----

  /** A CSV file as the reader parses it: records of fields, the header first. */
  datatype CsvFile = CsvFile(records: seq<seq<string>>)

  /** The records the do-while loop reads a row from: the first call to Read
      consumes the header and the first record, so the loop body always runs
      once, without a current record when there is none after the header. */
  function CurrentRecords(records: seq<seq<string>>): (r: seq<Option<seq<string>>>)
    ensures |r| == if |records| <= 1 then 1 else |records| - 1
  {
    if |records| <= 1 then [None] else seq(|records| - 1, i requires 0 <= i < |records| - 1 => Some(records[i + 1]))
  }

  function MissingFieldMessage(index: int): string {
    "Field at index '" + IntToString(index) + "' does not exist."
  }

  /** The first `n` fields of the current record, by position; reading without
      a current record, or past its end, throws. */
  function CsvRow(record: Option<seq<string>>, n: nat): (r: Result<Row>)
    ensures r.Ok? ==> |r.value| == n
    ensures r.Ok? ==> forall j :: 0 <= j < n ==> record.Some? && j < |record.value| && r.value[j] == Some(record.value[j])
    decreases n
  {
    if n == 0 then Ok([])
    else
      match CsvRow(record, n - 1)
      case Err(m) => Err(m)
      case Ok(values) =>
        if record.None? then Err(NullReferenceMessage)
        else if n - 1 < |record.value| then Ok(values + [Some(record.value[n - 1])])
        else Err(MissingFieldMessage(n - 1))
  }

  function CsvRows(recs: seq<Option<seq<string>>>, width: nat): (r: Result<seq<Row>>)
    ensures r.Ok? ==> |r.value| == |recs|
    ensures r.Ok? ==> forall i :: 0 <= i < |r.value| ==> |r.value[i]| == width
    decreases |recs|
  {
    if |recs| == 0 then Ok([])
    else
      match CsvRows(recs[..|recs| - 1], width)
      case Err(m) => Err(m)
      case Ok(rows) =>
        match CsvRow(recs[|recs| - 1], width)
        case Err(m) => Err(m)
        case Ok(row) => Ok(rows + [row])
  }

  lemma {:induction false} CsvRowFailurePersists(record: Option<seq<string>>, k: nat, n: nat)
    requires k <= n && CsvRow(record, k).Err?
    ensures CsvRow(record, n) == CsvRow(record, k)
    decreases n - k
  {
    if k < n {
      CsvRowFailurePersists(record, k, n - 1);
    }
  }

  lemma {:induction false} CsvRowsFailurePersists(recs: seq<Option<seq<string>>>, k: nat, width: nat)
    requires k <= |recs| && CsvRows(recs[..k], width).Err?
    ensures CsvRows(recs, width) == CsvRows(recs[..k], width)
    decreases |recs| - k
  {
    if k < |recs| {
      assert recs[..k + 1][..k] == recs[..k];
      CsvRowsFailurePersists(recs, k + 1, width);
    } else {
      assert recs[..k] == recs;
    }
  }

  /** What TransformTable makes of a CSV file. */
  function CsvTable(csv: CsvFile): Result<(seq<DataColumn>, seq<Row>)> {
    if |csv.records| == 0 then Err(NullReferenceMessage)
    else
      match AddColumns(csv.records[0])
      case Err(m) => Err(m)
      case Ok(columns) =>
        match CsvRows(CurrentRecords(csv.records), |columns|)
        case Err(m) => Err(m)
        case Ok(rows) => Ok((columns, rows))
  }

  /** The index CsvReader.GetField(name) reads: that of the first header equal to `name`. */
  function FieldIndex(headers: seq<string>, name: string): (r: Option<nat>)
    ensures r.Some? ==> r.value < |headers| && headers[r.value] == name
    decreases |headers|
  {
    if |headers| == 0 then None
    else if headers[0] == name then Some(0)
    else match FieldIndex(headers[1..], name)
      case None => None
      case Some(i) => Some(i + 1)
  }

  /** Headers that a DataTable accepted differ pairwise, so looking a column up
      by its name finds its own position. */
  lemma {:induction false} FieldIndexOfDistinct(headers: seq<string>, j: nat)
    requires j < |headers|
    requires forall a, b :: 0 <= a < b < |headers| ==> !EqualsIgnoreCase(headers[a], headers[b])
    ensures FieldIndex(headers, headers[j]) == Some(j)
    decreases |headers|
  {
    if j > 0 {
      assert !EqualsIgnoreCase(headers[0], headers[j]);
      assert headers[0] != headers[j];
      forall a, b | 0 <= a < b < |headers[1..]|
        ensures !EqualsIgnoreCase(headers[1..][a], headers[1..][b])
      {
        assert headers[1..][a] == headers[a + 1] && headers[1..][b] == headers[b + 1];
      }
      FieldIndexOfDistinct(headers[1..], j - 1);
    }
  }

  /** CsvReaderExt.TransformTable: the header record becomes the columns, then
      a do-while loop adds one row per record, reading each field by column name. */
  method TransformCsv(csv: CsvFile) returns (r: Result<DataTable>)
    ensures r.Ok? <==> CsvTable(csv).Ok?
    ensures r.Err? ==> r.message == CsvTable(csv).message
    ensures r.Ok? ==> fresh(r.value) && r.value.Valid() && r.value.tableName == ""
    ensures r.Ok? ==> (r.value.columns, r.value.rows) == CsvTable(csv).value
  {
    var records := csv.records;
    if |records| == 0 {
      return Err(NullReferenceMessage);
    }
    var headers := records[0];
    var table := new DataTable();
    var added := AddHeaders(table, headers);
    if added.Fail? {
      return Err(added.message);
    }
    var width := |table.columns|;
    ColumnsFindFields(headers, table.columns);
    var recs := CurrentRecords(records);
    var step := 0;
    while true
      invariant 0 <= step < |recs|
      invariant table.Valid() && table.tableName == "" && |table.columns| == width
      invariant AddColumns(headers) == Ok(table.columns)
      invariant CsvRows(recs[..step], width) == Ok(table.rows)
      decreases |recs| - step
    {
      var values := ReadCsvRow(recs[step], headers, table.columns);
      assert recs[..step + 1][..step] == recs[..step];
      if values.Err? {
        CsvRowsFailurePersists(recs, step + 1, width);
        return Err(values.message);
      }
      table.AddRow(values.value);
      if step + 1 == |recs| {
        break;
      }
      step := step + 1;
    }
    assert recs[..step + 1] == recs;
    r := Ok(table);
  }

  /** The header loop: each header is added as a column, in order, until one is refused. */
  method AddHeaders(table: DataTable, headers: seq<string>) returns (o: Outcome)
    requires table.Valid() && table.columns == [] && table.rows == []
    modifies table
    ensures table.Valid() && table.tableName == old(table.tableName)
    ensures o.Pass? <==> AddColumns(headers).Ok?
    ensures o.Fail? ==> o.message == AddColumns(headers).message
    ensures o.Pass? ==> table.columns == AddColumns(headers).value && table.rows == []
  {
    var k := 0;
    while k < |headers|
      invariant 0 <= k <= |headers|
      invariant table.Valid() && table.tableName == old(table.tableName) && table.rows == []
      invariant AddColumns(headers[..k]) == Ok(table.columns)
    {
      var added := table.AddColumn(headers[k]);
      assert headers[..k + 1][..k] == headers[..k];
      if added.Fail? {
        AddColumnsFailurePersists(headers, k + 1);
        return added;
      }
      k := k + 1;
    }
    assert headers[..k] == headers;
    o := Pass;
  }

  /** The columns built from the headers are found again by their names. */
  lemma ColumnsFindFields(headers: seq<string>, columns: seq<DataColumn>)
    requires AddColumns(headers) == Ok(columns)
    ensures forall j :: 0 <= j < |columns| ==> FieldIndex(headers, columns[j].columnName) == Some(j)
  {
    forall j | 0 <= j < |columns| ensures FieldIndex(headers, columns[j].columnName) == Some(j) {
      forall a, b | 0 <= a < b < |headers| ensures !EqualsIgnoreCase(headers[a], headers[b]) {
        assert columns[a].columnName == headers[a] && columns[b].columnName == headers[b];
      }
      FieldIndexOfDistinct(headers, j);
    }
  }

  /** One pass of the do-while body: each column's field is read by the
      column's name from the current record. */
  method ReadCsvRow(current: Option<seq<string>>, headers: seq<string>, columns: seq<DataColumn>) returns (r: Result<Row>)
    requires forall j :: 0 <= j < |columns| ==> FieldIndex(headers, columns[j].columnName) == Some(j)
    ensures r == CsvRow(current, |columns|)
  {
    var values: Row := [];
    var j := 0;
    while j < |columns|
      invariant 0 <= j <= |columns|
      invariant CsvRow(current, j) == Ok(values)
    {
      var index := FieldIndex(headers, columns[j].columnName).value;
      if current.None? || index >= |current.value| {
        CsvRowFailurePersists(current, j + 1, |columns|);
        return Err(if current.None? then NullReferenceMessage else MissingFieldMessage(index));
      }
      values := values + [Some(current.value[index])];
      j := j + 1;
    }
    r := Ok(values);
  }

  /** A CSV file with a header and n >= 1 records gives n rows, each holding the
      record's fields in column order. */
  lemma {:induction false} CsvRowsArePositional(csv: CsvFile, i: nat, j: nat)
    requires |csv.records| >= 2 && CsvTable(csv).Ok?
    requires i < |CsvTable(csv).value.1| && j < |CsvTable(csv).value.0|
    ensures |CsvTable(csv).value.1| == |csv.records| - 1
    ensures j < |csv.records[i + 1]| && CsvTable(csv).value.1[i][j] == Some(csv.records[i + 1][j])
  {
    var recs := CurrentRecords(csv.records);
    var width := |CsvTable(csv).value.0|;
    CsvRowsAt(recs, width, i);
  }

  lemma {:induction false} CsvRowsAt(recs: seq<Option<seq<string>>>, width: nat, i: nat)
    requires CsvRows(recs, width).Ok? && i < |recs|
    ensures CsvRow(recs[i], width).Ok? && CsvRows(recs, width).value[i] == CsvRow(recs[i], width).value
    decreases |recs|
  {
    if i < |recs| - 1 {
      CsvRowsAt(recs[..|recs| - 1], width, i);
    }
  }
}
