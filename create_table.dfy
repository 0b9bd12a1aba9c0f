/**
 * The CREATE TABLE text the spreadsheet import sends for an uploaded table:
 * a header naming the table, one "[name] type" line per column, trailing
 * commas and line breaks trimmed, and a single line break appended. No
 * closing parenthesis is ever added.
 */
module CreateTable {
  import opened Wrappers
  import opened Text
  import opened DataTables
  import opened TypeMapping

  /** The characters the statement's TrimEnd removes. */
  const Trimmed: set<char> := {',', '\n'}

  function Header(tableName: string): string {
    "CREATE TABLE [" + tableName + "] (\n"
  }

  /** "[name] type" for one column, or the exception its type mapping throws. */
  function Declaration(column: DataColumn): (r: Result<string>)
    ensures r.Ok? <==> column.dataType in SupportedTypes
  {
    match ColumnSqlType(column)
    case Ok(t) => Ok("[" + column.columnName + "] " + t)
    case Err(m) => Err(m)
  }

  /** The declarations of the columns, each followed by ",\n", as the loop
      appends them; the first column whose type is unsupported aborts it. */
  function Declarations(columns: seq<DataColumn>): (r: Result<string>)
    ensures r.Ok? <==> forall i :: 0 <= i < |columns| ==> columns[i].dataType in SupportedTypes
    decreases |columns|
  {
    if |columns| == 0 then Ok("")
    else
      match Declarations(columns[..|columns| - 1])
      case Err(m) => Err(m)
      case Ok(prefix) =>
        match Declaration(columns[|columns| - 1])
        case Err(m) => Err(m)
        case Ok(d) => Ok(prefix + d + ",\n")
  }

  /** The statement TransformFile builds. */
  function CreateStatement(tableName: string, columns: seq<DataColumn>): (r: Result<string>)
    ensures r.Ok? <==> forall i :: 0 <= i < |columns| ==> columns[i].dataType in SupportedTypes
  {
    match Declarations(columns)
    case Err(m) => Err(m)
    case Ok(decls) => Ok(TrimEnd(Header(tableName) + decls, Trimmed) + "\n")
  }

  /** The foreach over the table's columns, as TransformFile runs it. */
  method BuildCreateStatement(tableName: string, columns: seq<DataColumn>) returns (r: Result<string>)
    ensures r == CreateStatement(tableName, columns)
  {
    var sql := Header(tableName);
    var i := 0;
    while i < |columns|
      invariant 0 <= i <= |columns|
      invariant Declarations(columns[..i]).Ok?
      invariant sql == Header(tableName) + Declarations(columns[..i]).value
    {
      var t := ColumnSqlType(columns[i]);
      if t.Err? {
        assert columns[..i + 1][..i] == columns[..i];
        DeclarationsFailurePersists(columns, i + 1);
        return Err(t.message);
      }
      var line := "[" + columns[i].columnName + "] " + t.value + ",\n";
      DeclarationsStep(columns, i);
      sql := sql + line;
      i := i + 1;
    }
    assert columns[..i] == columns;
    r := Ok(TrimEnd(sql, Trimmed) + "\n");
  }

  /** One more supported column appends its declaration and ",\n". */
  lemma DeclarationsStep(columns: seq<DataColumn>, i: nat)
    requires i < |columns| && Declarations(columns[..i]).Ok? && ColumnSqlType(columns[i]).Ok?
    ensures Declarations(columns[..i + 1]).Ok?
    ensures Declarations(columns[..i + 1]).value
            == Declarations(columns[..i]).value + ("[" + columns[i].columnName + "] " + ColumnSqlType(columns[i]).value + ",\n")
  {
    assert columns[..i + 1][..i] == columns[..i];
  }

  /** Once a prefix of the columns fails, so does the whole list, with the same message. */
  lemma {:induction false} DeclarationsFailurePersists(columns: seq<DataColumn>, k: nat)
    requires k <= |columns| && Declarations(columns[..k]).Err?
    ensures Declarations(columns) == Declarations(columns[..k])
    decreases |columns| - k
  {
    if k < |columns| {
      assert columns[..k + 1][..k] == columns[..k];
      DeclarationsFailurePersists(columns, k + 1);
    } else {
      assert columns[..k] == columns;
    }
  }

  /** The error is the one the first unsupported column throws. */
  lemma {:induction false} FirstUnsupportedColumn(tableName: string, columns: seq<DataColumn>, k: nat)
    requires k < |columns| && columns[k].dataType !in SupportedTypes
    requires forall i :: 0 <= i < k ==> columns[i].dataType in SupportedTypes
    ensures CreateStatement(tableName, columns) == Err(columns[k].dataType + " not implemented.")
  {
    assert columns[..k + 1][..k] == columns[..k];
    DeclarationsFailurePersists(columns, k + 1);
  }

  /** `texts` are the declarations of the columns, one per column, without separators. */
  predicate DeclaredAs(columns: seq<DataColumn>, texts: seq<string>) {
    |texts| == |columns| && forall i :: 0 <= i < |columns| ==> Declaration(columns[i]) == Ok(texts[i])
  }

  /** Trimming stops at the last character outside the trimmed set. */
  lemma {:induction false} TrimEndStops(s: string, t: string, chars: set<char>)
    requires |s| > 0 && s[|s| - 1] !in chars
    requires forall i :: 0 <= i < |t| ==> t[i] in chars
    ensures TrimEnd(s + t, chars) == s
    decreases |t|
  {
    if |t| == 0 {
      assert s + t == s;
    } else {
      assert (s + t)[..|s + t| - 1] == s + t[..|t| - 1];
      TrimEndStops(s, t[..|t| - 1], chars);
    }
  }

  /** The appended declarations are the declarations joined by ",\n", plus one more ",\n". */
  lemma {:induction false} DeclarationsJoined(columns: seq<DataColumn>, texts: seq<string>)
    requires |columns| > 0 && DeclaredAs(columns, texts)
    ensures Declarations(columns) == Ok(Join(texts, ",\n") + ",\n")
    decreases |columns|
  {
    var init := columns[..|columns| - 1];
    var d := texts[|texts| - 1];
    assert Declaration(columns[|columns| - 1]) == Ok(d);
    if |columns| == 1 {
      assert Declarations(init) == Ok("");
      assert Join(texts, ",\n") == d;
      assert "" + d == d;
      assert Declarations(columns) == Ok("" + d + ",\n");
    } else {
      var front := texts[..|texts| - 1];
      assert DeclaredAs(init, front) by {
        forall i | 0 <= i < |init| ensures Declaration(init[i]) == Ok(front[i]) {
          assert init[i] == columns[i];
        }
      }
      DeclarationsJoined(init, front);
      JoinLast(texts, ",\n");
      var j := Join(front, ",\n");
      assert Declarations(columns) == Ok(j + ",\n" + d + ",\n");
    }
  }

  /** Join, unfolded at the last piece, which is how the loop grows the text. */
  lemma {:induction false} JoinLast(parts: seq<string>, sep: string)
    requires |parts| >= 2
    ensures Join(parts, sep) == Join(parts[..|parts| - 1], sep) + sep + parts[|parts| - 1]
    decreases |parts|
  {
    if |parts| > 2 {
      JoinLast(parts[1..], sep);
      assert parts[1..][..|parts[1..]| - 1] == parts[..|parts| - 1][1..];
    } else {
      assert parts[..1] == [parts[0]];
    }
  }

  /** The shape of the statement: the header, the declarations in column order
      separated by ",\n", and one final line break. */
  lemma StatementShape(tableName: string, columns: seq<DataColumn>, texts: seq<string>)
    requires |columns| > 0 && DeclaredAs(columns, texts)
    ensures CreateStatement(tableName, columns) == Ok(Header(tableName) + Join(texts, ",\n") + "\n")
  {
    DeclarationsJoined(columns, texts);
    var j := Join(texts, ",\n");
    JoinEndsLikeLast(columns, texts);
    var body := Header(tableName) + j;
    assert body[|body| - 1] == j[|j| - 1];
    assert Header(tableName) + (j + ",\n") == body + ",\n";
    TrimEndStops(body, ",\n", Trimmed);
  }

  /** With no columns only "CREATE TABLE [name] (" and the line break remain. */
  lemma EmptyStatement(tableName: string)
    ensures CreateStatement(tableName, []) == Ok("CREATE TABLE [" + tableName + "] (\n")
  {
    var open := "CREATE TABLE [" + tableName + "] (";
    assert Declarations([]) == Ok("");
    assert Header(tableName) + "" == open + "\n";
    TrimEndStops(open, "\n", Trimmed);
    assert open + "\n" == "CREATE TABLE [" + tableName + "] (\n";
  }

  /** The joined declarations end in the last column's type text, so never in ',' or a line break. */
  lemma JoinEndsLikeLast(columns: seq<DataColumn>, texts: seq<string>)
    requires |columns| > 0 && DeclaredAs(columns, texts)
    ensures var j := Join(texts, ",\n");
            |j| > 0 && j[|j| - 1] !in Trimmed
  {
    var last := columns[|columns| - 1];
    var t := ColumnSqlType(last).value;
    TypeTextEnding(last.dataType, last.maxLength, 10, 2);
    var d := texts[|texts| - 1];
    assert Declaration(last) == Ok(d);
    assert d == "[" + last.columnName + "] " + t;
    assert d[|d| - 1] == t[|t| - 1];
    if |texts| > 1 {
      JoinLast(texts, ",\n");
    }
  }

  /** Number of occurrences of `c` in `s`. */
  function Count(s: string, c: char): nat
    decreases |s|
  {
    if |s| == 0 then 0 else Count(s[..|s| - 1], c) + (if s[|s| - 1] == c then 1 else 0)
  }

  lemma {:induction false} CountConcat(a: string, b: string, c: char)
    ensures Count(a + b, c) == Count(a, c) + Count(b, c)
    decreases |b|
  {
    if |b| == 0 {
      assert a + b == a;
    } else {
      assert (a + b)[..|a + b| - 1] == a + b[..|b| - 1];
      CountConcat(a, b[..|b| - 1], c);
    }
  }

  /** The opened "(" is never closed: when no name holds a parenthesis, the
      statement has exactly one more "(" than ")". */
  lemma UnclosedParenthesis(tableName: string, columns: seq<DataColumn>)
    requires '(' !in tableName && ')' !in tableName
    requires forall i :: 0 <= i < |columns| ==> '(' !in columns[i].columnName && ')' !in columns[i].columnName
    requires CreateStatement(tableName, columns).Ok?
    ensures Count(CreateStatement(tableName, columns).value, '(') == Count(CreateStatement(tableName, columns).value, ')') + 1
  {
    HeaderCounts(tableName);
    if |columns| == 0 {
      EmptyStatement(tableName);
      assert CreateStatement(tableName, columns).value == Header(tableName);
    } else {
      var texts := DeclarationsOf(columns);
      StatementShape(tableName, columns, texts);
      BalancedDeclarations(columns, texts);
      var h, j := Header(tableName), Join(texts, ",\n");
      assert Count("\n", '(') == 0 && Count("\n", ')') == 0 by {
        assert "\n"[..0] == "";
      }
      CountConcat(h, j, '(');
      CountConcat(h, j, ')');
      CountConcat(h + j, "\n", '(');
      CountConcat(h + j, "\n", ')');
    }
  }

  /** The header opens one parenthesis and closes none. */
  lemma HeaderCounts(tableName: string)
    requires '(' !in tableName && ')' !in tableName
    ensures Count(Header(tableName), '(') == 1 && Count(Header(tableName), ')') == 0
  {
    var prefix := "CREATE TABLE [" + tableName + "] ";
    ParenthesesFree(prefix, '(', ')');
    assert Header(tableName) == prefix + "(\n";
    CountConcat(prefix, "(\n", '(');
    CountConcat(prefix, "(\n", ')');
  }

  /** A string without the two characters counts neither. */
  lemma {:induction false} ParenthesesFree(s: string, open: char, close: char)
    requires forall i :: 0 <= i < |s| ==> s[i] != open && s[i] != close
    ensures Count(s, open) == 0 && Count(s, close) == 0
    decreases |s|
  {
    if |s| > 0 {
      ParenthesesFree(s[..|s| - 1], open, close);
    }
  }

  /** The declarations of supported columns exist, one per column. */
  lemma {:induction false} DeclarationsOf(columns: seq<DataColumn>) returns (texts: seq<string>)
    requires forall i :: 0 <= i < |columns| ==> columns[i].dataType in SupportedTypes
    ensures DeclaredAs(columns, texts)
    decreases |columns|
  {
    if |columns| == 0 {
      texts := [];
    } else {
      var front := DeclarationsOf(columns[..|columns| - 1]);
      texts := front + [Declaration(columns[|columns| - 1]).value];
      forall i | 0 <= i < |columns| ensures Declaration(columns[i]) == Ok(texts[i]) {
        if i < |columns| - 1 {
          assert columns[..|columns| - 1][i] == columns[i];
        }
      }
    }
  }

  /** The column declarations, joined, open and close as many parentheses. */
  lemma {:induction false} BalancedDeclarations(columns: seq<DataColumn>, texts: seq<string>)
    requires DeclaredAs(columns, texts)
    requires forall i :: 0 <= i < |columns| ==> '(' !in columns[i].columnName && ')' !in columns[i].columnName
    ensures Count(Join(texts, ",\n"), '(') == Count(Join(texts, ",\n"), ')')
    decreases |columns|
  {
    if |columns| > 0 {
      var last := columns[|columns| - 1];
      var d := texts[|texts| - 1];
      assert Declaration(last) == Ok(d);
      DeclarationBalanced(last);
      if |columns| == 1 {
        assert Join(texts, ",\n") == d;
      } else {
        var init := columns[..|columns| - 1];
        var front := texts[..|texts| - 1];
        assert DeclaredAs(init, front) by {
          forall i | 0 <= i < |init| ensures Declaration(init[i]) == Ok(front[i]) {
            assert init[i] == columns[i];
          }
        }
        BalancedDeclarations(init, front);
        JoinLast(texts, ",\n");
        var j := Join(front, ",\n");
        CountConcat(j, ",\n", '(');
        CountConcat(j, ",\n", ')');
        CountConcat(j + ",\n", d, '(');
        CountConcat(j + ",\n", d, ')');
      }
    }
  }

  /** One declaration opens and closes as many parentheses. */
  lemma DeclarationBalanced(column: DataColumn)
    requires column.dataType in SupportedTypes
    requires '(' !in column.columnName && ')' !in column.columnName
    ensures Count(Declaration(column).value, '(') == Count(Declaration(column).value, ')')
  {
    var t := ColumnSqlType(column).value;
    var prefix := "[" + column.columnName + "] ";
    ParenthesesFree(prefix, '(', ')');
    CountConcat(prefix, t, '(');
    CountConcat(prefix, t, ')');
    if column.dataType == "System.String" {
      var n := IntToString(if column.maxLength == -1 then 255 else column.maxLength);
      NumberHasNoParentheses(column.maxLength);
      assert t == "VARCHAR(" + n + ")";
      VarcharBalanced(n);
    } else {
      FixedMappings(column.maxLength, 10, 2);
      ParenthesesFree(t, '(', ')');
    }
  }

  /** "VARCHAR(n)" opens and closes one parenthesis when n holds none. */
  lemma VarcharBalanced(n: string)
    requires Count(n, '(') == 0 && Count(n, ')') == 0
    ensures Count("VARCHAR(" + n + ")", '(') == 1 && Count("VARCHAR(" + n + ")", ')') == 1
  {
    var v := "VARCHAR(";
    ParenthesesFree("VARCHAR", '(', ')');
    assert v[..|v| - 1] == "VARCHAR";
    assert Count(v, '(') == 1 && Count(v, ')') == 0;
    CountConcat(v, n, '(');
    CountConcat(v, n, ')');
    var w := v + n;
    assert (w + ")")[..|w + ")"| - 1] == w;
  }

  /** A printed number holds no parenthesis. */
  lemma NumberHasNoParentheses(size: Int32)
    ensures var n := IntToString(if size == -1 then 255 else size);
            Count(n, '(') == 0 && Count(n, ')') == 0
  {
    var v := if size == -1 then 255 else size;
    NatToStringDigits(if v < 0 then -v else v);
    ParenthesesFree(IntToString(v), '(', ')');
  }

  /** A two-column CSV with header "Name,Amount": both columns are text, so
      both are VARCHAR(255), and the text ends without a closing parenthesis. */
  lemma DonorsExample()
    ensures CreateStatement("donors", [TextColumn("Name"), TextColumn("Amount")])
            == Ok("CREATE TABLE [donors] (\n" + "[Name] VARCHAR(255)" + ",\n" + "[Amount] VARCHAR(255)" + "\n")
  {
    var columns := [TextColumn("Name"), TextColumn("Amount")];
    var texts := ["[Name] VARCHAR(255)", "[Amount] VARCHAR(255)"];
    TextDeclaration("Name");
    TextDeclaration("Amount");
    assert "[" + "Name" + "] VARCHAR(255)" == texts[0];
    assert "[" + "Amount" + "] VARCHAR(255)" == texts[1];
    assert DeclaredAs(columns, texts);
    StatementShape("donors", columns, texts);
    assert Join(texts, ",\n") == texts[0] + ",\n" + texts[1];
    assert Header("donors") == "CREATE TABLE [donors] (\n";
    assert Header("donors") + (texts[0] + ",\n" + texts[1]) == Header("donors") + texts[0] + ",\n" + texts[1];
  }

  /** A column added by name only is declared as VARCHAR(255). */
  lemma TextDeclaration(name: string)
    ensures Declaration(TextColumn(name)) == Ok("[" + name + "] VARCHAR(255)")
  {
    ColumnOverload(TextColumn(name), name);
    assert "[" + name + "] " + "VARCHAR(255)" == "[" + name + "] VARCHAR(255)";
  }
}
