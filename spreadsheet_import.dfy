/**
 * The Spreadsheet Import block: the page (upload check, import click,
 * TransformFile, RunSQL, the tick that drains the progress log, PreRender
 * that retires a finished job), the ASP.NET session it keeps the job and the
 * log in, and the AsyncTrigger that runs one SQL command in the background.
 *
 * The background thread is not modelled: AsyncTrigger.Start only records that
 * the job was started, and ExecSql is the explicit step "the job runs to its
 * end", with the server's info messages and failure given as inputs.
 */
module SpreadsheetImport {
  import opened Wrappers
  import opened Text
  import opened ProgressLog
  import opened DataTables
  import opened TypeMapping
  import opened CreateTable

  // ---- values ----

  datatype CommandType = TextCommand | StoredProcedure

  datatype ParameterValue = TextValue(text: string) | IntValue(number: int)

  /** A SqlParameter as the block fills it in: name, SqlDbType and value. */
  datatype SqlParameter = SqlParameter(name: string, dbType: string, value: ParameterValue)

  datatype SqlCommand = SqlCommand(text: string, commandType: CommandType, parameters: seq<SqlParameter>)

  datatype SqlConnection = SqlConnection(connectionString: string)

  const AllowedExtensions: seq<string> := [".csv", ".xls", ".xlsx"]

  const InvalidFileWarning := "Could not process this file.  Please select a valid spreadsheet file."

  const MissingPartsMessage := "Both Connection and Command values must be set!"

  /** The ArgumentOutOfRangeException SqlBulkCopy.DestinationTableName throws for "". */
  const EmptyDestinationMessage := "Specified argument was out of the range of valid values.\r\nParameter name: DestinationTableName"

  /** The status text RunSQL reports when its try block throws. */
  function CouldNotConnect(message: string): (r: string)
    ensures !IsBlank(r)
  {
    assert ("Could not connect to the database. " + message + "<br>")[0] == 'C';
    "Could not connect to the database. " + message + "<br>"
  }

  function UploadFailedWarning(statusText: string): string {
    "Could not upload this spreadsheet to SQL Server: " + statusText
  }

  /** The FileNotFoundException text. The framework names the mapped full path
      File.OpenRead is given; the model names the file by what it is given. */
  function FileNotFoundMessage(path: string): string {
    "Could not find file '" + path + "'."
  }

  // ---- FileInfo.Extension ----

  predicate IsSeparator(c: char) { c == '/' || c == '\\' || c == ':' }

  /** The position of the last '.' in path[..i] that comes after every separator, if any. */
  function LastDot(path: string, i: nat): (r: Option<nat>)
    requires i <= |path|
    ensures r.Some? ==> r.value < i && path[r.value] == '.'
    ensures r.Some? ==> forall k :: r.value < k < i ==> path[k] != '.' && !IsSeparator(path[k])
    ensures r.None? ==> forall k :: 0 <= k < i && path[k] == '.' ==> exists s :: k < s < i && IsSeparator(path[s])
    decreases i
  {
    if i == 0 then None
    else if path[i - 1] == '.' then Some(i - 1)
    else if IsSeparator(path[i - 1]) then None
    else LastDot(path, i - 1)
  }

  /** The characters Path.GetFullPath drops from the end of a Windows path. */
  const TrailingTrimmed: set<char> := {'.', ' '}

  /** FileInfo.Extension: FileInfo keeps the full path, which has lost its
      trailing dots and spaces; the extension runs from the last '.' of its
      file name to the end, and is empty when the name has none. */
  function Extension(path: string): (r: string)
    ensures var full := TrimEnd(path, TrailingTrimmed);
            r == "" || (2 <= |r| <= |full| && r[0] == '.' && r == full[|full| - |r|..])
    ensures r != "" ==> forall k :: 1 <= k < |r| ==> r[k] != '.' && !IsSeparator(r[k])
  {
    TrimEndIsPrefix(path, TrailingTrimmed);
    var full := TrimEnd(path, TrailingTrimmed);
    match LastDot(full, |full|)
    case None => ""
    case Some(k) => full[k..]
  }

  /** A name ending in a dot and a dot-free tail has that tail as its extension. */
  lemma ExtensionOfName(base: string, ext: string)
    requires |ext| >= 2 && ext[0] == '.' && ext[|ext| - 1] != ' '
    requires forall k :: 1 <= k < |ext| ==> ext[k] != '.' && !IsSeparator(ext[k])
    ensures Extension(base + ext) == ext
  {
    var path := base + ext;
    assert TrimEnd(path, TrailingTrimmed) == path;
    var dot := |base|;
    assert path[dot] == '.';
    forall k | dot < k < |path| ensures path[k] != '.' && !IsSeparator(path[k]) {
      assert path[k] == ext[k - dot];
    }
    LastDotFinds(path, |path|, dot);
    assert path[dot..] == ext;
  }

  /** A trailing dot or space does not change the extension, so "x.csv." and
      "x.csv " are spreadsheets like "x.csv". */
  lemma TrailingCharacterIgnored(path: string, c: char)
    requires c in TrailingTrimmed
    ensures Extension(path + [c]) == Extension(path)
  {
    assert (path + [c])[..|path|] == path;
    assert TrimEnd(path + [c], TrailingTrimmed) == TrimEnd(path, TrailingTrimmed);
  }

  /** A path that trims to a dot-free name has no extension. */
  lemma NoDotNoExtension(path: string, full: string)
    requires TrimEnd(path, TrailingTrimmed) == full
    requires forall k :: 0 <= k < |full| ==> full[k] != '.'
    ensures Extension(path) == ""
  {
  }

  lemma {:induction false} LastDotFinds(path: string, i: nat, dot: nat)
    requires dot < i <= |path| && path[dot] == '.'
    requires forall k :: dot < k < i ==> path[k] != '.' && !IsSeparator(path[k])
    ensures LastDot(path, i) == Some(dot)
    decreases i
  {
    if i - 1 != dot {
      LastDotFinds(path, i - 1, dot);
    }
  }

  /** The upload check compares extensions exactly: only these three pass. */
  lemma UploadExtensionIsCaseSensitive()
    ensures ".csv" in AllowedExtensions && ".xlsx" in AllowedExtensions
    ensures ".CSV" !in AllowedExtensions && ".Xls" !in AllowedExtensions
    ensures forall e :: e in AllowedExtensions <==> e == ".csv" || e == ".xls" || e == ".xlsx"
  {
    assert ".CSV"[1] != ".csv"[1] && ".CSV" != ".xls" && ".CSV" != ".xlsx";
    assert ".Xls"[1] != ".xls"[1] && ".Xls" != ".csv" && ".Xls" != ".xlsx";
  }

  // ---- what TransformFile sends ----

  /** The parser TransformFile picks: CSV for ".csv", Excel for ".xls" or
      ".xlsx", ignoring case; None for any other extension. */
  function UploadedTable(ext: string, csv: CsvFile, workbook: seq<Worksheet>): (r: Option<Result<(seq<DataColumn>, seq<Row>)>>)
    ensures r.None? <==> !EqualsIgnoreCase(ext, ".csv") && !EqualsIgnoreCase(ext, ".xls") && !EqualsIgnoreCase(ext, ".xlsx")
  {
    if EqualsIgnoreCase(ext, ".csv") then Some(CsvTable(csv))
    else if EqualsIgnoreCase(ext, ".xls") || EqualsIgnoreCase(ext, ".xlsx") then Some(ExcelTable(workbook))
    else None
  }

  /** The table name: the file name without its extension, then sanitised. */
  function TableName(name: string, sanitize: string -> string): string {
    var ext := Extension(name);
    if |ext| == 0 then sanitize(name) else sanitize(RemoveAll(name, ext))
  }

  /** A file named only by its extension, such as ".csv", gets the sanitised
      empty name. */
  lemma BareExtensionName(ext: string, sanitize: string -> string)
    requires |ext| >= 2 && ext[0] == '.' && ext[|ext| - 1] != ' '
    requires forall k :: 1 <= k < |ext| ==> ext[k] != '.' && !IsSeparator(ext[k])
    ensures TableName(ext, sanitize) == sanitize("")
  {
    ExtensionOfName("", ext);
    assert "" + ext == ext;
    assert ext[..|ext|] == ext && ext[|ext|..] == "";
    assert RemoveAll(ext, ext) == RemoveAll("", ext) == "";
    assert Extension(ext) == ext;
  }

  /** The CREATE TABLE text TransformFile hands to RunSQL for a file with this
      name and content, or the exception that stops it first; None when the
      extension is not a spreadsheet's. */
  function ImportStatement(name: string, csv: CsvFile, workbook: seq<Worksheet>, sanitize: string -> string): Option<Result<string>> {
    match UploadedTable(Extension(name), csv, workbook)
    case None => None
    case Some(Err(m)) => Some(Err(m))
    case Some(Ok(table)) => Some(CreateStatement(TableName(name, sanitize), table.0))
  }

  /** Every table the parsers produce has only text columns, so its statement
      is never an exception: an upload that parses always reaches RunSQL. */
  lemma ParsedTablesHaveStatements(name: string, csv: CsvFile, workbook: seq<Worksheet>, sanitize: string -> string)
    requires UploadedTable(Extension(name), csv, workbook).Some?
    requires UploadedTable(Extension(name), csv, workbook).value.Ok?
    ensures ImportStatement(name, csv, workbook, sanitize).value.Ok?
  {
    var table := UploadedTable(Extension(name), csv, workbook).value.value;
    var columns := table.0;
    assert forall i :: 0 <= i < |columns| ==> columns[i].dataType == "System.String" by {
      if EqualsIgnoreCase(Extension(name), ".csv") {
        var names := csv.records[0];
        assert AddColumns(names).Ok? && columns == AddColumns(names).value;
      } else {
        var sheet := workbook[0];
        var end := sheet.dimensionEnd.value;
        var names := PresentTexts(sheet.cells, 1, end.column);
        assert AddColumns(names).Ok? && columns == AddColumns(names).value;
      }
    }
  }

  /** The reader step of TransformFile: the CSV reader for ".csv", the Excel
      reader for ".xls" or ".xlsx", ignoring case, and no table otherwise. */
  method ReadUpload(ext: string, csv: CsvFile, workbook: seq<Worksheet>) returns (r: Option<Result<DataTable>>)
    ensures r.None? <==> UploadedTable(ext, csv, workbook).None?
    ensures r.Some? ==> (r.value.Ok? <==> UploadedTable(ext, csv, workbook).value.Ok?)
    ensures r.Some? && r.value.Err? ==> r.value.message == UploadedTable(ext, csv, workbook).value.message
    ensures r.Some? && r.value.Ok? ==>
              && fresh(r.value.value) && r.value.value.tableName == ""
              && (r.value.value.columns, r.value.value.rows) == UploadedTable(ext, csv, workbook).value.value
  {
    r := None;
    if EqualsIgnoreCase(ext, ".csv") {
      var parsed := TransformCsv(csv);
      return Some(parsed);
    }
    if EqualsIgnoreCase(ext, ".xls") || EqualsIgnoreCase(ext, ".xlsx") {
      var parsed := TransformExcel(workbook);
      return Some(parsed);
    }
  }

  /** Whether TransformFile gets as far as RunSQL: the path is not itself a
      file, the mapped file exists, and its statement can be built. */
  predicate RunsStatement(rawExists: bool, mappedExists: bool, name: string, csv: CsvFile, workbook: seq<Worksheet>,
                          sanitize: string -> string) {
    && !rawExists && mappedExists
    && ImportStatement(name, csv, workbook, sanitize).Some?
    && ImportStatement(name, csv, workbook, sanitize).value.Ok?
  }

  /** The parameters btnImport_Click builds for the stored procedure: the
      uploaded file name as @TransactionTable, and, when the CleanupTable
      setting is on, a second parameter under the same name with value 1. */
  function ImportParameters(fileName: string, cleanupTable: bool): (r: seq<SqlParameter>)
    ensures |r| == if cleanupTable then 2 else 1
    ensures forall i :: 0 <= i < |r| ==> r[i].name == "@TransactionTable" && r[i].dbType == "NVarChar"
    ensures r[0].value == TextValue(fileName)
    ensures cleanupTable ==> r[1].value == IntValue(1)
  {
    var first := SqlParameter("@TransactionTable", "NVarChar", TextValue(fileName));
    if cleanupTable then [first, SqlParameter("@TransactionTable", "NVarChar", IntValue(1))] else [first]
  }

  // ---- the session ----

  /** The user's ASP.NET session: the entries "log" and "trigger" the block
      uses, and whatever else the session holds. */
  class Session {
    var log: Option<string>
    var trigger: AsyncTrigger?
    var other: map<string, string>

    constructor (other: map<string, string>)
      ensures log == None && trigger == null && this.other == other
    {
      log, trigger, this.other := None, null, other;
    }

    /** Session.RemoveAll. */
    method RemoveAll()
      modifies this
      ensures log == None && trigger == null && other == map[]
    {
      log, trigger, other := None, null, map[];
    }
  }

  // ---- the background job ----

  class AsyncTrigger {
    var command: Option<SqlCommand>
    var connection: Option<SqlConnection>
    var isExecuting: bool
    /** The page whose LogEvent is subscribed to the job's info messages. */
    var handler: Spreadsheet?
    var disposed: bool
    var started: bool

    constructor ()
      ensures command == None && connection == None && isExecuting
      ensures handler == null && !disposed && !started
    {
      command, connection, isExecuting := None, None, true;
      handler, disposed, started := null, false, false;
    }

    constructor WithParts(conn: Option<SqlConnection>, comm: Option<SqlCommand>)
      ensures command == comm && connection == conn && isExecuting
      ensures handler == null && !disposed && !started
    {
      command, connection, isExecuting := comm, conn, true;
      handler, disposed, started := null, false, false;
    }

    /** Disposes the connection and the command; errors are swallowed. */
    method Dispose()
      modifies this
      ensures disposed
      ensures command == old(command) && connection == old(connection) && isExecuting == old(isExecuting)
      ensures handler == old(handler) && started == old(started)
    {
      disposed := true;
    }

    /** Starts the background thread that will run ExecSql. */
    method Start()
      modifies this
      ensures started
      ensures command == old(command) && connection == old(connection) && isExecuting == old(isExecuting)
      ensures handler == old(handler) && disposed == old(disposed)
    {
      started := true;
    }

    /** The job run to its end: without a connection and a command it throws at
        once; otherwise each info message the server sends is passed to the
        subscribed LogEvent, and only when the command finishes without
        `failure` does isExecuting become false. */
    method ExecSql(messages: seq<string>, failure: Option<string>) returns (o: Outcome)
      modifies this, if handler == null then {} else {handler.session}
      ensures connection.None? || command.None? ==> o == Fail(MissingPartsMessage) && isExecuting == old(isExecuting)
      ensures connection.Some? && command.Some? && failure.Some? ==> o == Fail(failure.value) && isExecuting == old(isExecuting)
      ensures o.Pass? <==> connection.Some? && command.Some? && failure.None?
      ensures o.Pass? ==> !isExecuting
      ensures command == old(command) && connection == old(connection) && handler == old(handler)
      ensures disposed == old(disposed) && started == old(started)
      ensures handler != null && connection.Some? && command.Some? ==>
                handler.session.log == AppendAll(old(handler.session.log), messages)
      ensures handler != null && (connection.None? || command.None?) ==> handler.session.log == old(handler.session.log)
      ensures handler != null ==> handler.session.trigger == old(handler.session.trigger) && handler.session.other == old(handler.session.other)
    {
      if connection.None? || command.None? {
        return Fail(MissingPartsMessage);
      }
      var i := 0;
      while i < |messages|
        invariant 0 <= i <= |messages|
        invariant command == old(command) && connection == old(connection) && handler == old(handler)
        invariant handler != null ==> handler.session.log == AppendAll(old(handler.session.log), messages[..i])
        invariant handler != null ==> handler.session.trigger == old(handler.session.trigger) && handler.session.other == old(handler.session.other)
        invariant isExecuting == old(isExecuting) && disposed == old(disposed) && started == old(started)
      {
        if handler != null {
          assert messages[..i + 1][..i] == messages[..i];
          handler.LogEvent(messages[i]);
        }
        i := i + 1;
      }
      assert messages[..i] == messages;
      if failure.Some? {
        return Fail(failure.value);
      }
      isExecuting := false;
      o := Pass;
    }
  }

  // ---- the page ----

  /** One request's instance of the block: the job it holds, and the state of
      its controls (the sync timer, the import button, the status label, the
      warning box and the hidden file-name field). */
  class Spreadsheet {
    const session: Session
    var trigger: AsyncTrigger?
    var timerEnabled: bool
    var importEnabled: bool
    var statusText: string
    var warning: string
    var fileNameValue: string

    constructor (session: Session, timerEnabled: bool, importEnabled: bool, statusText: string, warning: string, fileNameValue: string)
      ensures this.session == session && trigger == null
      ensures this.timerEnabled == timerEnabled && this.importEnabled == importEnabled
      ensures this.statusText == statusText && this.warning == warning && this.fileNameValue == fileNameValue
    {
      this.session := session;
      trigger := null;
      this.timerEnabled, this.importEnabled := timerEnabled, importEnabled;
      this.statusText, this.warning, this.fileNameValue := statusText, warning, fileNameValue;
    }

    /** LogEvent: the handler the job reports its messages to. */
    method LogEvent(message: string)
      modifies session
      ensures session.log == AppendLog(old(session.log), message)
      ensures session.trigger == old(session.trigger) && session.other == old(session.other)
    {
      if !IsBlank(message) {
        var isEmpty := session.log.None?;
        var log := (if isEmpty then message else session.log.value) + (if isEmpty then "" else "|") + (if isEmpty then "" else message);
        assert isEmpty ==> log == message + "" + "" == message;
        session.log := Some(log);
      }
    }

    /** Page_Load: pick up the job this user's session holds, if any. */
    method PageLoad()
      modifies this
      ensures trigger == if session.trigger != null then session.trigger else old(trigger)
      ensures timerEnabled == old(timerEnabled) && importEnabled == old(importEnabled)
      ensures statusText == old(statusText) && warning == old(warning) && fileNameValue == old(fileNameValue)
    {
      if session.trigger != null {
        trigger := session.trigger;
      }
    }

    /** Page_PreRender: a finished job is disposed and dropped, the timer
        stopped and the import button enabled again; with no job at all, the
        session's log and trigger entries are removed; a running job is left alone. */
    method PreRender()
      modifies this, session, trigger
      ensures old(trigger) != null && !old(trigger.isExecuting) ==>
                && old(trigger).disposed && trigger == null && session.trigger == null
                && !timerEnabled && importEnabled && session.log == old(session.log)
      ensures old(trigger) == null ==>
                && session.log == None && session.trigger == null
                && trigger == null && timerEnabled == old(timerEnabled) && importEnabled == old(importEnabled)
      ensures old(trigger) != null && old(trigger.isExecuting) ==>
                && trigger == old(trigger) && session.log == old(session.log) && session.trigger == old(session.trigger)
                && timerEnabled == old(timerEnabled) && importEnabled == old(importEnabled)
                && trigger.disposed == old(trigger.disposed)
      ensures old(trigger) != null ==> old(trigger).isExecuting == old(trigger.isExecuting)
      ensures session.other == old(session.other)
      ensures statusText == old(statusText) && warning == old(warning) && fileNameValue == old(fileNameValue)
    {
      if trigger != null && !trigger.isExecuting {
        trigger.Dispose();
        trigger := null;
        session.trigger := null;
        timerEnabled := false;
        importEnabled := true;
      } else if trigger == null {
        session.log := None;
        session.trigger := null;
      }
    }

    /** tmrSyncSQL_Tick: show every non-blank piece of the log, then leave the
        empty string (not null) in its place. */
    method Tick()
      modifies this, session
      ensures statusText == old(statusText) + Shown(old(session.log))
      ensures session.log == if old(session.log).None? then None else Some("")
      ensures session.trigger == old(session.trigger) && session.other == old(session.other)
      ensures trigger == old(trigger) && timerEnabled == old(timerEnabled) && importEnabled == old(importEnabled)
      ensures warning == old(warning) && fileNameValue == old(fileNameValue)
    {
      if session.log.Some? {
        var pieces := Split(session.log.value, '|');
        var i := 0;
        while i < |pieces|
          invariant 0 <= i <= |pieces|
          invariant statusText == old(statusText) + Rendered(pieces[..i])
          invariant session.log == old(session.log) && session.trigger == old(session.trigger) && session.other == old(session.other)
          invariant trigger == old(trigger) && timerEnabled == old(timerEnabled) && importEnabled == old(importEnabled)
          invariant warning == old(warning) && fileNameValue == old(fileNameValue)
        {
          assert pieces[..i + 1][..i] == pieces[..i];
          if !IsBlank(pieces[i]) {
            Associative(old(statusText), Rendered(pieces[..i]), pieces[i] + "<br>");
            statusText := statusText + (pieces[i] + "<br>");
          } else {
            assert Rendered(pieces[..i + 1]) == Rendered(pieces[..i]) + "";
          }
          i := i + 1;
        }
        assert pieces[..i] == pieces;
        session.log := Some("");
      } else {
        assert statusText + "" == statusText;
      }
    }

    /** fupSpreadsheet_FileUploaded: the stored file (its name `name`, whether
        it is on disk) passes only with an extension in the list, compared exactly;
        otherwise the warning is set and the file deleted. Returns whether the
        file was deleted. */
    method FileUploaded(uploadedPath: string, fileExists: bool, name: string) returns (deleted: bool)
      modifies this
      ensures !fileExists ==> !deleted && warning == old(warning) && fileNameValue == old(fileNameValue) && importEnabled == old(importEnabled)
      ensures fileExists && Extension(name) in AllowedExtensions ==>
                !deleted && warning == "" && fileNameValue == uploadedPath && importEnabled == (uploadedPath != "")
      ensures fileExists && Extension(name) !in AllowedExtensions ==>
                deleted && warning == InvalidFileWarning && fileNameValue == old(fileNameValue) && importEnabled == old(importEnabled)
      ensures trigger == old(trigger) && timerEnabled == old(timerEnabled) && statusText == old(statusText)
    {
      deleted := false;
      if fileExists {
        if Extension(name) in AllowedExtensions {
          warning := "";
          fileNameValue := uploadedPath;
          importEnabled := fileNameValue != "";
        } else {
          warning := InvalidFileWarning;
          deleted := true;
        }
      }
    }

    /** RunSQL: clear the whole session, dispose the previous job, and make a
        new one subscribed to LogEvent, with the command and its kind. Its
        connection is never set. Adding the parameters throws when there is no
        list, which leaves the new job unstarted and out of the session and is
        reported as a failure to connect; otherwise the job is started, the
        timer enabled and the job stored in the session. */
    method RunSql(sqlCommand: string, sqlParams: Option<seq<SqlParameter>>, storedProcedure: bool) returns (status: string)
      modifies this, session, trigger
      ensures session.log == None && session.other == map[]
      ensures old(trigger) != null ==> old(trigger).disposed && old(trigger).isExecuting == old(trigger.isExecuting)
      ensures trigger != null && fresh(trigger)
      ensures trigger.isExecuting && trigger.connection.None? && trigger.handler == this && !trigger.disposed
      ensures sqlParams.None? ==>
                && status == CouldNotConnect(NullReferenceMessage)
                && trigger.command == Some(SqlCommand(sqlCommand, if storedProcedure then StoredProcedure else TextCommand, []))
                && !trigger.started && session.trigger == null && timerEnabled == old(timerEnabled)
      ensures sqlParams.Some? ==>
                && status == ""
                && trigger.command == Some(SqlCommand(sqlCommand, if storedProcedure then StoredProcedure else TextCommand, sqlParams.value))
                && trigger.started && session.trigger == trigger && timerEnabled
      ensures importEnabled == old(importEnabled) && statusText == old(statusText)
      ensures warning == old(warning) && fileNameValue == old(fileNameValue)
    {
      status := "";
      session.RemoveAll();
      if trigger != null {
        trigger.Dispose();
      }
      var job := new AsyncTrigger();
      trigger := job;
      job.handler := this;
      job.command := Some(SqlCommand(sqlCommand, TextCommand, []));
      if storedProcedure {
        job.command := Some(job.command.value.(commandType := StoredProcedure));
      }
      if sqlParams.None? {
        status := status + CouldNotConnect(NullReferenceMessage);
        assert "" + CouldNotConnect(NullReferenceMessage) == CouldNotConnect(NullReferenceMessage);
        return;
      }
      var params := sqlParams.value;
      var i := 0;
      while i < |params|
        invariant 0 <= i <= |params|
        invariant job.command.Some? && job.command.value.text == sqlCommand
        invariant job.command.value.commandType == if storedProcedure then StoredProcedure else TextCommand
        invariant job.command.value.parameters == params[..i]
        invariant job.isExecuting && job.connection.None? && job.handler == this && !job.disposed && !job.started
        invariant trigger == job && session.log == None && session.other == map[] && session.trigger == null
        invariant timerEnabled == old(timerEnabled) && importEnabled == old(importEnabled) && statusText == old(statusText)
        invariant warning == old(warning) && fileNameValue == old(fileNameValue)
        invariant old(trigger) != null ==> old(trigger).disposed && old(trigger).isExecuting == old(trigger.isExecuting)
      {
        assert params[..i + 1] == params[..i] + [params[i]];
        job.command := Some(job.command.value.(parameters := job.command.value.parameters + [params[i]]));
        i := i + 1;
      }
      assert params[..i] == params;
      job.Start();
      timerEnabled := true;
      session.trigger := job;
    }

    /** TransformFile(filePath): when `filePath` itself names an existing file
        nothing happens; otherwise the mapped file (named `name`) is parsed by
        its extension, the CREATE TABLE text is built and passed to RunSQL with
        no parameter list, and the upload counts as done only if RunSQL
        reported nothing. Only the bulk copy's WriteToServer is inside a try, so
        its own errors are swallowed, but naming its destination after an empty
        table name throws, after RunSQL has run. Exceptions that escape are the
        Err results. */
    method TransformFile(rawExists: bool, mappedExists: bool, name: string, csv: CsvFile, workbook: seq<Worksheet>,
                         sanitize: string -> string) returns (r: Result<(bool, string)>)
      modifies this, session, trigger
      ensures r.Ok? ==> !r.value.0
      ensures rawExists ==> r == Ok((false, ""))
      ensures !rawExists && !mappedExists ==> r == Err(FileNotFoundMessage(name))
      ensures !rawExists && mappedExists && ImportStatement(name, csv, workbook, sanitize).None? ==> r == Ok((false, ""))
      ensures !rawExists && mappedExists && ImportStatement(name, csv, workbook, sanitize).Some? ==>
                var statement := ImportStatement(name, csv, workbook, sanitize).value;
                && (statement.Err? ==> r == Err(statement.message))
                && (statement.Ok? ==>
                      && (TableName(name, sanitize) == "" ==> r == Err(EmptyDestinationMessage))
                      && (TableName(name, sanitize) != "" ==> r == Ok((false, CouldNotConnect(NullReferenceMessage)))))
      ensures RunsStatement(rawExists, mappedExists, name, csv, workbook, sanitize) ==>
                && trigger != null && fresh(trigger) && !trigger.started && trigger.isExecuting
                && trigger.command == Some(SqlCommand(ImportStatement(name, csv, workbook, sanitize).value.value, TextCommand, []))
                && trigger.connection.None? && !trigger.disposed
                && session.log == None && session.trigger == null && session.other == map[]
                && (old(trigger) != null ==> old(trigger).disposed && old(trigger).isExecuting == old(trigger.isExecuting))
      ensures !RunsStatement(rawExists, mappedExists, name, csv, workbook, sanitize) ==>
                && trigger == old(trigger) && unchanged(session)
                && (trigger != null ==> unchanged(trigger))
      ensures importEnabled == old(importEnabled) && statusText == old(statusText) && warning == old(warning)
      ensures fileNameValue == old(fileNameValue) && timerEnabled == old(timerEnabled)
    {
      if rawExists {
        return Ok((false, ""));
      }
      if !mappedExists {
        return Err(FileNotFoundMessage(name));
      }
      var ext := Extension(name);
      var read := ReadUpload(ext, csv, workbook);
      if read.None? {
        return Ok((false, ""));
      }
      if read.value.Err? {
        return Err(read.value.message);
      }
      var table := read.value.value;
      table.tableName := sanitize(RemoveAll(name, ext));
      assert table.tableName == TableName(name, sanitize);
      assert ImportStatement(name, csv, workbook, sanitize) == Some(CreateStatement(table.tableName, table.columns));
      r := UploadTable(table.tableName, table.columns);
    }

    /** The part of TransformFile after a reader produced a table: build the
        statement for `tableName`, run it with no parameter list, then name the
        bulk copy's destination, which throws for an empty name. */
    method UploadTable(tableName: string, columns: seq<DataColumn>) returns (r: Result<(bool, string)>)
      modifies this, session, trigger
      ensures CreateStatement(tableName, columns).Err? ==>
                && r == Err(CreateStatement(tableName, columns).message)
                && trigger == old(trigger) && unchanged(session) && (trigger != null ==> unchanged(trigger))
      ensures CreateStatement(tableName, columns).Ok? ==>
                && (tableName == "" ==> r == Err(EmptyDestinationMessage))
                && (tableName != "" ==> r == Ok((false, CouldNotConnect(NullReferenceMessage))))
                && trigger != null && fresh(trigger) && !trigger.started && trigger.isExecuting
                && trigger.connection.None? && !trigger.disposed
                && trigger.command == Some(SqlCommand(CreateStatement(tableName, columns).value, TextCommand, []))
                && session.log == None && session.trigger == null && session.other == map[]
                && (old(trigger) != null ==> old(trigger).disposed && old(trigger).isExecuting == old(trigger.isExecuting))
      ensures importEnabled == old(importEnabled) && statusText == old(statusText) && warning == old(warning)
      ensures fileNameValue == old(fileNameValue) && timerEnabled == old(timerEnabled)
    {
      var sql := BuildCreateStatement(tableName, columns);
      if sql.Err? {
        return Err(sql.message);
      }
      var errors := RunSql(sql.value, None, false);
      if tableName == "" {
        return Err(EmptyDestinationMessage);
      }
      r := Ok((IsBlank(errors), errors));
    }

    /** The stored-procedure half of btnImport_Click, run after a successful
        upload: RunSQL with the procedure name and the two parameters. */
    method RunImportProcedure(storedProcedure: string, cleanupTable: bool)
      modifies this, session, trigger
      ensures trigger != null && fresh(trigger) && trigger.started && session.trigger == trigger && timerEnabled
      ensures trigger.command == Some(SqlCommand(storedProcedure, StoredProcedure, ImportParameters(old(fileNameValue), cleanupTable)))
      ensures session.log == None && session.other == map[]
      ensures importEnabled == old(importEnabled) && warning == old(warning) && fileNameValue == old(fileNameValue)
    {
      var status := RunSql(storedProcedure, Some(ImportParameters(fileNameValue, cleanupTable)), true);
    }

    /** btnImport_Click: disable the button and upload the file. TransformFile
        never reports success, so the click always ends with the upload
        warning or an exception, and the stored procedure is never run. */
    method ImportClick(rawExists: bool, mappedExists: bool, name: string, csv: CsvFile, workbook: seq<Worksheet>,
                       sanitize: string -> string) returns (o: Outcome)
      modifies this, session, trigger
      ensures !importEnabled
      ensures o.Pass? ==> exists status :: warning == UploadFailedWarning(status)
      ensures rawExists ==> o.Pass? && warning == UploadFailedWarning("")
      ensures !rawExists && !mappedExists ==> o == Fail(FileNotFoundMessage(name)) && warning == old(warning)
      ensures !rawExists && mappedExists && ImportStatement(name, csv, workbook, sanitize) == None ==> o.Pass? && warning == UploadFailedWarning("")
      ensures !rawExists && mappedExists && ImportStatement(name, csv, workbook, sanitize).Some? ==>
                var statement := ImportStatement(name, csv, workbook, sanitize).value;
                && (statement.Err? ==> o == Fail(statement.message) && warning == old(warning))
                && (statement.Ok? && TableName(name, sanitize) != "" ==>
                      o.Pass? && warning == UploadFailedWarning(CouldNotConnect(NullReferenceMessage)))
                && (statement.Ok? && TableName(name, sanitize) == "" ==> o == Fail(EmptyDestinationMessage) && warning == old(warning))
      ensures RunsStatement(rawExists, mappedExists, name, csv, workbook, sanitize) ==>
                && trigger != null && fresh(trigger) && !trigger.started && trigger.isExecuting
                && trigger.command == Some(SqlCommand(ImportStatement(name, csv, workbook, sanitize).value.value, TextCommand, []))
                && trigger.connection.None? && !trigger.disposed
                && session.log == None && session.trigger == null && session.other == map[]
                && (old(trigger) != null ==> old(trigger).disposed && old(trigger).isExecuting == old(trigger.isExecuting))
      ensures !RunsStatement(rawExists, mappedExists, name, csv, workbook, sanitize) ==>
                && trigger == old(trigger) && unchanged(session)
                && (trigger != null ==> unchanged(trigger))
      ensures statusText == old(statusText) && fileNameValue == old(fileNameValue) && timerEnabled == old(timerEnabled)
    {
      importEnabled := false;
      var uploaded := TransformFile(rawExists, mappedExists, name, csv, workbook, sanitize);
      if uploaded.Err? {
        return Fail(uploaded.message);
      }
      if !uploaded.value.0 {
        warning := UploadFailedWarning(uploaded.value.1);
        return Pass;
      }
      assert false;
    }
  }
}
