/**
 * Schema inference of the spreadsheet import: the three SQLGetType overloads,
 * which map a .NET column type (and its size, precision and scale) to the
 * text of a SQL Server column type.
 */
module TypeMapping {
  import opened Wrappers
  import opened Text
  import opened DataTables

  /** The type names the switch knows. */
  const SupportedTypes: set<string> := {
    "System.String", "System.Decimal", "System.Double", "System.Single",
    "System.Int64", "System.Int16", "System.Int32", "System.DateTime"
  }

  /** SQLGetType(type, columnSize, numericPrecision, numericScale); an unknown
      type throws "<type> not implemented.". */
  function SqlGetType(typeName: string, columnSize: Int32, precision: Int32, scale: Int32): (r: Result<string>)
    ensures r.Ok? <==> typeName in SupportedTypes
    ensures r.Err? ==> r.message == typeName + " not implemented."
  {
    match typeName
    case "System.String" => Ok(Varchar(if columnSize == -1 then 255 else columnSize))
    case "System.Decimal" =>
      if scale > 0 then Ok("REAL") else if precision > 10 then Ok("BIGINT") else Ok("INT")
    case "System.Double" => Ok("REAL")
    case "System.Single" => Ok("REAL")
    case "System.Int64" => Ok("BIGINT")
    case "System.Int16" => Ok("INT")
    case "System.Int32" => Ok("INT")
    case "System.DateTime" => Ok("DATETIME")
    case _ => Err(typeName + " not implemented.")
  }

  /** A text column becomes VARCHAR(n), where n is the column size, or 255 when
      the size is the unknown -1; so VARCHAR(255) comes from exactly the sizes
      -1 and 255. */
  lemma StringIsVarchar(columnSize: Int32, precision: Int32, scale: Int32)
    ensures SqlGetType("System.String", columnSize, precision, scale).Ok?
    ensures var v := SqlGetType("System.String", columnSize, precision, scale).value;
            && |v| > 9 && v[..8] == "VARCHAR(" && v[|v| - 1] == ')'
            && TryParseInt(v[8..|v| - 1]) == Some(if columnSize == -1 then 255 else columnSize)
    ensures SqlGetType("System.String", columnSize, precision, scale) == Ok("VARCHAR(255)")
            <==> columnSize == -1 || columnSize == 255
  {
    var bound := if columnSize == -1 then 255 else columnSize;
    assert SqlGetType("System.String", columnSize, precision, scale).value == Varchar(bound);
    VarcharShape(bound);
    IntToStringRoundTrip(bound);
    Varchar255(bound);
  }

  /** The text of a VARCHAR type with the given bound. */
  function Varchar(bound: int): string {
    "VARCHAR(" + IntToString(bound) + ")"
  }

  /** VARCHAR(, the printed bound, then ). */
  lemma VarcharShape(bound: int)
    ensures var v := Varchar(bound);
            |v| > 9 && v[..8] == "VARCHAR(" && v[|v| - 1] == ')' && v[8..|v| - 1] == IntToString(bound)
  {
    var n: int := bound;
    NatToStringDigits(if n < 0 then -n else n);
  }

  /** Only the bound 255 prints as VARCHAR(255). */
  lemma Varchar255(bound: Int32)
    ensures Varchar(bound) == "VARCHAR(255)" <==> bound == 255
  {
    var text := IntToString(bound);
    assert NatToString(2) == "2" && NatToString(25) == "25" && IntToString(255) == "255";
    if Varchar(bound) == "VARCHAR(255)" {
      VarcharShape(bound);
      assert "VARCHAR(255)"[8..11] == "255";
      IntToStringInjective(bound, 255);
    }
    if bound == 255 {
      assert "VARCHAR(" + "255" + ")" == "VARCHAR(255)";
    }
  }

  /** Decimal: REAL when it has a fractional scale, otherwise BIGINT above
      ten digits of precision and INT at or below. */
  lemma DecimalMapping(columnSize: Int32, precision: Int32, scale: Int32)
    ensures var r := SqlGetType("System.Decimal", columnSize, precision, scale);
            && (r == Ok("REAL") <==> scale > 0)
            && (r == Ok("BIGINT") <==> scale <= 0 && precision > 10)
            && (r == Ok("INT") <==> scale <= 0 && precision <= 10)
  {
  }

  /** The size-independent mappings. */
  lemma FixedMappings(columnSize: Int32, precision: Int32, scale: Int32)
    ensures SqlGetType("System.Double", columnSize, precision, scale) == Ok("REAL")
    ensures SqlGetType("System.Single", columnSize, precision, scale) == Ok("REAL")
    ensures SqlGetType("System.Int64", columnSize, precision, scale) == Ok("BIGINT")
    ensures SqlGetType("System.Int16", columnSize, precision, scale) == Ok("INT")
    ensures SqlGetType("System.Int32", columnSize, precision, scale) == Ok("INT")
    ensures SqlGetType("System.DateTime", columnSize, precision, scale) == Ok("DATETIME")
  {
  }

  /** Every mapped type text ends in a letter or ')', never in ',' or a line break. */
  lemma TypeTextEnding(typeName: string, columnSize: Int32, precision: Int32, scale: Int32)
    requires SqlGetType(typeName, columnSize, precision, scale).Ok?
    ensures var t := SqlGetType(typeName, columnSize, precision, scale).value;
            |t| > 0 && t[|t| - 1] != ',' && t[|t| - 1] != '\n'
  {
  }

  /** SQLGetType(DataColumn): the column's type and MaxLength, with precision
      10 and scale 2 always. */
  function ColumnSqlType(column: DataColumn): (r: Result<string>)
    ensures r.Ok? <==> column.dataType in SupportedTypes
  {
    SqlGetType(column.dataType, column.maxLength, 10, 2)
  }

  /** Through the DataColumn overload a Decimal column is always REAL, and a
      column added by name only (text, MaxLength -1) is always VARCHAR(255). */
  lemma ColumnOverload(column: DataColumn, name: string)
    ensures column.dataType == "System.Decimal" ==> ColumnSqlType(column) == Ok("REAL")
    ensures ColumnSqlType(TextColumn(name)) == Ok("VARCHAR(255)")
  {
    StringIsVarchar(-1, 10, 2);
  }

  /** A row of the schema table: the cells hold the column's type name and its
      size, precision and scale as boxed values, read back through ToString. */
  datatype SchemaRow = SchemaRow(dataType: string, columnSize: string, numericPrecision: string, numericScale: string)

  const FormatMessage := "Input string was not in a correct format."

  const OverflowMessage := "Value was either too large or too small for an Int32."

  /** int.Parse: the value Int32.TryParse finds; otherwise a FormatException
      when the text is not an integer, and an OverflowException when it is one
      outside 32 bits. */
  function ParseInt(s: string): (r: Result<Int32>)
    ensures r.Ok? <==> TryParseInt(s).Some?
    ensures r.Ok? ==> r.value == TryParseInt(s).value
    ensures r.Err? ==> r.message == if IntegerValue(s).Some? then OverflowMessage else FormatMessage
  {
    match IntegerValue(s)
    case None => Err(FormatMessage)
    case Some(v) => if Int32Min <= v <= Int32Max then Ok(v) else Err(OverflowMessage)
  }

  /** A printed 32-bit integer parses back to itself. */
  lemma ParseIntRoundTrip(n: Int32)
    ensures ParseInt(IntToString(n)) == Ok(n)
  {
    IntToStringRoundTrip(n);
  }

  /** Digits worth more than Int32.MaxValue overflow rather than fail to parse. */
  lemma ParseIntOverflow(n: nat)
    requires n > Int32Max
    ensures ParseInt(IntToString(n)) == Err(OverflowMessage)
  {
    PrintedIntegerValue(n);
  }

  /** A text holding a character that is neither white, a sign nor a digit
      is not an integer. */
  lemma ParseIntRejects(s: string, k: nat)
    requires k < |s| && !IsDigit(s[k]) && s[k] != '-' && s[k] != '+' && !IsParseWhite(s[k])
    ensures ParseInt(s) == Err(FormatMessage)
  {
    TrimParseWhiteChars(s);
    var t := TrimParseWhite(s);
    var digits := if |t| > 0 && (t[0] == '-' || t[0] == '+') then t[1..] else t;
    assert s[k] in t;
    var j :| 0 <= j < |t| && t[j] == s[k];
    if digits == t[1..] {
      assert digits[j - 1] == s[k];
    } else {
      assert digits[j] == s[k];
    }
  }

  /** An empty or all-white text is not an integer. */
  lemma ParseIntBlank(s: string)
    requires IsBlank(s)
    ensures ParseInt(s) == Err(FormatMessage)
  {
    TrimParseWhiteChars(s);
    var t := TrimParseWhite(s);
    if |t| > 0 {
      assert t[0] in s;
      assert IsWhiteSpace(t[0]);
    }
  }

  /** SQLGetType(DataRow schemaRow): int.Parse of the size, the precision and
      the scale, in that order, then the four-argument mapping. */
  function SchemaRowSqlType(row: SchemaRow): (r: Result<string>)
    ensures r.Ok? <==> && TryParseInt(row.columnSize).Some? && TryParseInt(row.numericPrecision).Some?
                       && TryParseInt(row.numericScale).Some? && row.dataType in SupportedTypes
    ensures TryParseInt(row.columnSize).None? ==> r == Err(ParseInt(row.columnSize).message)
    ensures TryParseInt(row.columnSize).Some? && TryParseInt(row.numericPrecision).None? ==>
              r == Err(ParseInt(row.numericPrecision).message)
    ensures TryParseInt(row.columnSize).Some? && TryParseInt(row.numericPrecision).Some? && TryParseInt(row.numericScale).None? ==>
              r == Err(ParseInt(row.numericScale).message)
    ensures r.Ok? ==> r == SqlGetType(row.dataType, TryParseInt(row.columnSize).value,
                                      TryParseInt(row.numericPrecision).value, TryParseInt(row.numericScale).value)
  {
    match ParseInt(row.columnSize)
    case Err(m) => Err(m)
    case Ok(size) =>
      match ParseInt(row.numericPrecision)
      case Err(m) => Err(m)
      case Ok(precision) =>
        match ParseInt(row.numericScale)
        case Err(m) => Err(m)
        case Ok(scale) => SqlGetType(row.dataType, size, precision, scale)
  }

  /** A schema row whose cells hold integers maps like the four-argument overload. */
  lemma SchemaRowAgrees(typeName: string, size: Int32, precision: Int32, scale: Int32)
    ensures SchemaRowSqlType(SchemaRow(typeName, IntToString(size), IntToString(precision), IntToString(scale)))
            == SqlGetType(typeName, size, precision, scale)
  {
    IntToStringRoundTrip(size);
    IntToStringRoundTrip(precision);
    IntToStringRoundTrip(scale);
  }
}
