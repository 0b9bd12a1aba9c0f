# RockBlocks core, modelled in Dafny

This project models four blocks of a church-management plug-in, the parts of
them that hold logic of their own:

- **Spreadsheet import** (`Import/Spreadsheet.ascx.cs`). An uploaded `.csv`,
  `.xls` or `.xlsx` file is turned into a `DataTable`, a `CREATE TABLE`
  statement is built for it, and a background SQL job runs. The job reports
  progress through a pipe-delimited log kept in the user's session, and a
  timer drains that log onto the page. The related modules are:
  - `TypeMapping`: the `SQLGetType` overloads;
  - `ProgressLog`: the log;
  - `DataTables`: the table and its two readers;
  - `CreateTable`: the statement loop;
  - `SpreadsheetImport`: the session, the `AsyncTrigger` job and the page.
- **Pledge list** (`Finance/PledgeList.ascx.cs`, module `Pledges`). It covers:
  - which filters are visible;
  - the chain of filters: giving id, account, date overlap, last modified;
  - the default ordering;
  - the per-account summary with its grand total;
  - the filter captions;
  - the blanking of sentinel dates.
- **Group panel** (`Event/GroupPanel.ascx.cs`, module `GroupPanel`). It covers the heading with its capacity badge, the rule for adopting a group, and deleting a member with an ownership check.
- **Batch to journal** (`Intacct/BatchToJournal.ascx.cs`, module `BatchToJournal`). It covers the settings check, the variance gate on the export button, and the exported/not-exported states that close and reopen a financial batch.

`Wrappers` holds `Option`, `Result` and `Outcome`. `Text` holds the .NET string and number behaviour the blocks rely on:
- `String.Split` and `Join`;
- `TrimEnd`;
- `IsNullOrWhiteSpace`;
- `int.TryParse` and integer formatting;
- `DateTime` as ticks between `MinValue` and `MaxValue`.

Pages, controls and the session are classes whose fields the handlers update in place. Filters, mappings and formatting are functions.

As written, `TransformFile` hands `RunSQL` a null parameter list. The `foreach` over it throws inside the `try`, so every upload with a statement reports "Could not connect", and `btnImport_Click` never reaches the stored procedure. `RunSQL` also never sets the job's connection, so `ExecSql` would throw before finishing. The model follows the code in all of these, as it does for two more details: the `CREATE TABLE` text has no closing parenthesis, and the cleanup parameter reuses the name `@TransactionTable`. Every column of an uploaded file is declared `VARCHAR(255)`, because both readers add their columns by name only (Import/Spreadsheet.ascx.cs:509, :535). An upload whose name is only its extension, such as ".csv", gets an empty table name; `RunSQL` still runs, and then naming the bulk copy's destination throws outside its `try`.

## Model

| member | source | states |
|---|---|---|
| TypeMapping.SqlGetType | Import/Spreadsheet.ascx.cs:353-385 | a SQL type comes back exactly for the eight supported .NET type names; any other name fails with "<type> not implemented." |
| TypeMapping.StringIsVarchar | Import/Spreadsheet.ascx.cs:357-358 | a string column is `VARCHAR(n)` where n parses back to the column size, or to 255 for the size -1; it is `VARCHAR(255)` exactly when the size is -1 or 255 |
| TypeMapping.DecimalMapping | Import/Spreadsheet.ascx.cs:360-367 | a decimal is REAL iff its scale is positive, otherwise BIGINT iff its precision exceeds 10, otherwise INT |
| TypeMapping.FixedMappings | Import/Spreadsheet.ascx.cs:368-380 | Double and Single give REAL, Int64 gives BIGINT, Int16 and Int32 give INT, DateTime gives DATETIME, whatever the size, precision and scale |
| TypeMapping.TypeTextEnding | Import/Spreadsheet.ascx.cs:353-385 | every mapped type text is non-empty and ends in neither ',' nor a line break, so trimming the statement never eats into a type |
| TypeMapping.ColumnSqlType | Import/Spreadsheet.ascx.cs:398-401 | the DataColumn overload succeeds exactly for supported data types |
| TypeMapping.ColumnOverload | Import/Spreadsheet.ascx.cs:398-401 | with precision 10 and scale 2 fixed, a decimal column is always REAL, and a column added by name only is always VARCHAR(255) |
| TypeMapping.ParseInt | Import/Spreadsheet.ascx.cs:391-394 | `int.Parse` succeeds exactly when `int.TryParse` would, with the same value; otherwise it throws the overflow message for an integer outside 32 bits and the format message for anything else |
| TypeMapping.ParseIntRoundTrip | Import/Spreadsheet.ascx.cs:391-394 | every 32-bit integer's printed form parses back to it |
| TypeMapping.ParseIntOverflow | Import/Spreadsheet.ascx.cs:391-394 | digits worth more than `Int32.MaxValue` throw the overflow message, not the format message |
| TypeMapping.ParseIntRejects | Import/Spreadsheet.ascx.cs:391-394 | a text holding a character other than white, a sign or a digit throws the format message |
| TypeMapping.ParseIntBlank | Import/Spreadsheet.ascx.cs:391-394 | an empty or all-white text throws the format message |
| TypeMapping.SchemaRowSqlType | Import/Spreadsheet.ascx.cs:389-395 | succeeds exactly when the size, precision and scale all parse and the type is supported, and then maps the parsed values; otherwise it throws the parse error of the first of the three, in that order, that does not parse |
| TypeMapping.SchemaRowAgrees | Import/Spreadsheet.ascx.cs:389-395 | a schema row holding the printed size, precision and scale maps to the same type as the direct overload |
| ProgressLog.AppendLog | Import/Spreadsheet.ascx.cs:35-48 | a blank message leaves the log as it was; otherwise the log's '\|' pieces are the old pieces followed by the message's pieces |
| ProgressLog.AppendShown | Import/Spreadsheet.ascx.cs:35-48 | after an append, the next tick shows what it would have shown before, followed by the message's non-blank pieces |
| ProgressLog.SingleMessageShown | Import/Spreadsheet.ascx.cs:35-48 | a non-blank message without '\|' adds exactly itself plus "<br>" to what the next tick shows |
| ProgressLog.DrainedShowsNothing | Import/Spreadsheet.ascx.cs:93-104 | a log the tick has drained to the empty string shows nothing on the next tick |
| ProgressLog.RenderedConcat | Import/Spreadsheet.ascx.cs:95-101 | rendering the pieces of two logs one after the other is rendering each in turn |
| ProgressLog.AppendAllShown | Import/Spreadsheet.ascx.cs:35-48 | appending several messages adds their rendered pieces to the next tick's output, in order |
| ProgressLog.StepShowsOnce | Import/Spreadsheet.ascx.cs:35-105 | one append or one tick keeps the shown status plus the pending log output growing by exactly that event's contribution |
| ProgressLog.RunShowsEachOnce | Import/Spreadsheet.ascx.cs:35-105 | over any interleaving of appends and ticks, every reported message appears once, in order; nothing is lost or repeated |
| ProgressLog.FinalTickShowsAll | Import/Spreadsheet.ascx.cs:90-105 | starting from an empty page, a final tick leaves exactly the reported messages in the status text |
| CreateTable.Declaration | Import/Spreadsheet.ascx.cs:226-229 | a column declaration exists exactly for a supported data type |
| CreateTable.Declarations | Import/Spreadsheet.ascx.cs:226-229 | the declarations succeed exactly when every column's type is supported |
| CreateTable.CreateStatement | Import/Spreadsheet.ascx.cs:222-231 | the statement exists exactly when every column's type is supported |
| CreateTable.BuildCreateStatement | Import/Spreadsheet.ascx.cs:222-231 | the `foreach` loop that builds the text produces exactly the CreateStatement text, or its first failure |
| CreateTable.DeclarationsStep | Import/Spreadsheet.ascx.cs:226-229 | one more supported column extends the declarations with exactly its "[name] type" line and ",\n" |
| CreateTable.DeclarationsFailurePersists | Import/Spreadsheet.ascx.cs:226-229 | once a prefix of the columns fails, the whole loop fails with the same error |
| CreateTable.FirstUnsupportedColumn | Import/Spreadsheet.ascx.cs:226-229 | whatever the table name, the error is that of the first unsupported column |
| CreateTable.StatementShape | Import/Spreadsheet.ascx.cs:222-231 | the statement is the header, then the declarations in column order separated by ",\n", then one line break |
| CreateTable.EmptyStatement | Import/Spreadsheet.ascx.cs:222-231 | with no columns the statement is just the header: the trim removes its line break and the final one puts it back |
| CreateTable.UnclosedParenthesis | Import/Spreadsheet.ascx.cs:222-231 | when names have no parentheses, the statement always holds one more "(" than ")": the table is never closed |
| CreateTable.HeaderCounts | Import/Spreadsheet.ascx.cs:222 | the header opens one parenthesis and closes none |
| CreateTable.DonorsExample | Import/Spreadsheet.ascx.cs:222-231 | the statement for a two-column upload, written out |
| CreateTable.TextDeclaration | Import/Spreadsheet.ascx.cs:398-401 | a column added by name only is declared as "[name] VARCHAR(255)" |
| CreateTable.TrimEndStops | Import/Spreadsheet.ascx.cs:231 | `TrimEnd` removes a tail of trimmed characters and stops at the first character that is not one |
| DataTables.DataTable.AddColumn | Import/Spreadsheet.ascx.cs:507-510 | a column whose name matches an existing one, ignoring case, is refused and changes nothing; otherwise a text column is appended and every row gains a DBNull |
| DataTables.DataTable.AddRow | Import/Spreadsheet.ascx.cs:520 | the row is appended and nothing else changes |
| DataTables.AddColumns | Import/Spreadsheet.ascx.cs:507-510 | on success, one text column per header, in order, with names distinct ignoring case |
| DataTables.AddColumnsFailurePersists | Import/Spreadsheet.ascx.cs:507-510 | once adding a header fails, adding the remaining ones fails in the same way |
| DataTables.SheetRow | Import/Spreadsheet.ascx.cs:514-519 | a successful sheet row has the table's width |
| DataTables.SheetRows | Import/Spreadsheet.ascx.cs:512-521 | sheet rows 2 to the last row become that many rows of the table's width |
| DataTables.TransformExcel | Import/Spreadsheet.ascx.cs:503-523 | the Excel reader's loops build exactly the columns and rows of ExcelTable, or fail with the same message |
| DataTables.AddHeaderCells | Import/Spreadsheet.ascx.cs:507-510 | the text of each existing header cell becomes a column, left to right, exactly as AddColumns says, failing as it does |
| DataTables.ReadSheetRow | Import/Spreadsheet.ascx.cs:514-519 | the loop over a sheet row builds exactly SheetRow: DBNull everywhere but at existing cells, and a cell beyond the header throws |
| DataTables.ExcelRowsArePositional | Import/Spreadsheet.ascx.cs:512-521 | row i of the table holds sheet row i+2, cell by column: an existing cell's text or DBNull |
| DataTables.CurrentRecords | Import/Spreadsheet.ascx.cs:538-549 | the do-while reads one row per record after the header, and one row even when there is none |
| DataTables.CsvRow | Import/Spreadsheet.ascx.cs:541-544 | a successful CSV row holds, at each position, the current record's field at that position |
| DataTables.CsvRows | Import/Spreadsheet.ascx.cs:538-549 | one row per current record, each of the table's width |
| DataTables.FieldIndex | Import/Spreadsheet.ascx.cs:543 | a field looked up by name is read at a header equal to that name |
| DataTables.FieldIndexOfDistinct | Import/Spreadsheet.ascx.cs:533-543 | with headers a DataTable accepted, looking up column j's name reads field j |
| DataTables.TransformCsv | Import/Spreadsheet.ascx.cs:528-550 | the CSV reader's loops build exactly the columns and rows of CsvTable, or fail with the same message |
| DataTables.AddHeaders | Import/Spreadsheet.ascx.cs:533-536 | each header becomes a column, in order, exactly as AddColumns says, failing as it does |
| DataTables.ColumnsFindFields | Import/Spreadsheet.ascx.cs:533-543 | every column built from the headers finds its own field when looked up by name |
| DataTables.ReadCsvRow | Import/Spreadsheet.ascx.cs:540-545 | one pass of the do-while body, reading every column's field by name, gives CsvRow of the current record |
| DataTables.CsvRowsArePositional | Import/Spreadsheet.ascx.cs:538-549 | a file with a header and n records gives n rows, row i holding record i+1's fields in order |
| SpreadsheetImport.CouldNotConnect | Import/Spreadsheet.ascx.cs:319-322 | the failure status text is never blank |
| SpreadsheetImport.LastDot | Import/Spreadsheet.ascx.cs:117-119 | finds the last '.' after the last path separator, and finds none exactly when every dot lies before a separator |
| SpreadsheetImport.Extension | Import/Spreadsheet.ascx.cs:117-119 | `FileInfo.Extension`: empty, or a dot-led, dot-free, separator-free suffix of the path once its trailing dots and spaces are dropped |
| SpreadsheetImport.TrailingCharacterIgnored | Import/Spreadsheet.ascx.cs:117-119 | a trailing dot or space does not change the extension |
| SpreadsheetImport.NoDotNoExtension | Import/Spreadsheet.ascx.cs:117-119 | a path whose trimmed form has no dot, such as "report" or "x.", has no extension |
| SpreadsheetImport.ExtensionOfName | Import/Spreadsheet.ascx.cs:117-119 | a name ending in a dot-led tail has exactly that tail as its extension |
| SpreadsheetImport.UploadExtensionIsCaseSensitive | Import/Spreadsheet.ascx.cs:114-119 | the upload accepts exactly ".csv", ".xls" and ".xlsx" as written; ".CSV" is refused |
| SpreadsheetImport.UploadedTable | Import/Spreadsheet.ascx.cs:189-205 | TransformFile picks a reader exactly for ".csv", ".xls" or ".xlsx" in any letter case |
| SpreadsheetImport.ParsedTablesHaveStatements | Import/Spreadsheet.ascx.cs:207-231 | every table a reader produces yields a CREATE TABLE statement, its columns all being text |
| SpreadsheetImport.ImportParameters | Import/Spreadsheet.ascx.cs:157-167 | the file name parameter, and with cleanup a second parameter of value 1, both named `@TransactionTable` and typed NVarChar |
| SpreadsheetImport.Session.RemoveAll | Import/Spreadsheet.ascx.cs:287 | the session is left empty |
| SpreadsheetImport.AsyncTrigger.constructor | Import/Spreadsheet.ascx.cs:414-420 | a new job has no command or connection and is executing |
| SpreadsheetImport.AsyncTrigger.WithParts | Import/Spreadsheet.ascx.cs:422-426 | a job made from its parts is executing, unstarted and undisposed |
| SpreadsheetImport.AsyncTrigger.Dispose | Import/Spreadsheet.ascx.cs:432-440 | the job is disposed and nothing else changes |
| SpreadsheetImport.AsyncTrigger.Start | Import/Spreadsheet.ascx.cs:480-484 | the job is started and nothing else changes |
| SpreadsheetImport.AsyncTrigger.ExecSql | Import/Spreadsheet.ascx.cs:442-462 | it throws without a connection or a command, and it stops executing only when it completes; its info messages reach the page's log in order |
| SpreadsheetImport.Spreadsheet.LogEvent | Import/Spreadsheet.ascx.cs:35-48 | the session log becomes AppendLog of the old log and the message; the rest of the session is unchanged |
| SpreadsheetImport.Spreadsheet.PageLoad | Import/Spreadsheet.ascx.cs:77-83 | the page picks up the session's job when there is one |
| SpreadsheetImport.Spreadsheet.PreRender | Import/Spreadsheet.ascx.cs:55-70 | a finished job is disposed and dropped, the timer is disabled and import re-enabled; with no job, "log" and "trigger" are removed; a running job is left alone |
| SpreadsheetImport.Spreadsheet.Tick | Import/Spreadsheet.ascx.cs:90-105 | the status text gains what the log shows, and a log that existed is left as the empty string, not removed |
| SpreadsheetImport.Spreadsheet.FileUploaded | Import/Spreadsheet.ascx.cs:112-131 | an accepted upload clears the warning and records the file; a refused one sets the warning, deletes the file and leaves the import button alone |
| SpreadsheetImport.Spreadsheet.RunSql | Import/Spreadsheet.ascx.cs:281-324 | the session is cleared and the old job disposed, then a new unconnected job is made. A null parameter list leaves it unstarted and out of the session, reporting "Could not connect". Otherwise it is started and becomes the session's only job |
| SpreadsheetImport.Spreadsheet.TransformFile | Import/Spreadsheet.ascx.cs:177-272 | never reports success; a file found under its raw path is skipped with an empty status; a file found under neither path throws "Could not find file"; a reader error is rethrown; an unreadable extension gives an empty status; for a parsed file it builds the statement and starts a fresh job running it without parameters (the old job disposed, the session cleared), so it reports "Could not connect", or throws after that when the table name is empty; on every other path the job and the session are untouched; no control of the page changes |
| SpreadsheetImport.Spreadsheet.UploadTable | Import/Spreadsheet.ascx.cs:220-265 | a column type that cannot be declared fails before anything runs; otherwise a fresh job holds exactly the CREATE TABLE text as a parameterless text command, the old job is disposed and the session cleared; an empty table name then throws, and any other name reports the job's errors, never success |
| SpreadsheetImport.ReadUpload | Import/Spreadsheet.ascx.cs:189-203 | the CSV or Excel reader runs exactly for the extensions UploadedTable picks, and yields a fresh unnamed table with its columns and rows, or the reader's exception |
| SpreadsheetImport.BareExtensionName | Import/Spreadsheet.ascx.cs:207-209 | a file named only by its extension, such as ".csv", gets the sanitised empty table name |
| SpreadsheetImport.Spreadsheet.RunImportProcedure | Import/Spreadsheet.ascx.cs:153-169 | the stored procedure runs as a started job with ImportParameters of the uploaded file |
| SpreadsheetImport.Spreadsheet.ImportClick | Import/Spreadsheet.ascx.cs:138-170 | the import button is disabled; a file under its raw path or of an unreadable extension ends with the upload warning and an empty status; a missing file throws "Could not find file" and a reader error is rethrown, the warning untouched; a parsed upload with a table name ends with the "Could not connect" upload warning, and one with an empty table name throws; the job and session change exactly as in TransformFile; the status text, the file name and the timer do not change |
| Pledges.FindPerson | Finance/PledgeList.ascx.cs:400-404 | finds a person with the id exactly when one exists |
| Pledges.AsIntegerList | Finance/PledgeList.ascx.cs:421 | keeps exactly the pieces that parse as integers |
| Pledges.AccountsWithIds | Finance/PledgeList.ascx.cs:422 | exactly the accounts whose id is asked for |
| Pledges.ExistingAccountIds | Finance/PledgeList.ascx.cs:421-422 | exactly the saved ids that parse and name an existing account |
| Pledges.DateFilterIsOverlap | Finance/PledgeList.ascx.cs:430-457 | for ordered ranges, the date filter keeps a pledge exactly when its dates overlap the filter range |
| Pledges.ModifiedWindowIsExclusive | Finance/PledgeList.ascx.cs:460-467 | the last-modified filter keeps a date strictly between its bounds, never a bound itself, and keeps a pledge with no modified date |
| Pledges.Where | Finance/PledgeList.ascx.cs:407-467 | keeps exactly the pledges that satisfy the condition, and only ones from the input |
| Pledges.ResolvePerson | Finance/PledgeList.ascx.cs:393-405 | the target person wins; otherwise the saved person is used exactly when the filter is visible and the saved id parses and names a person that exists |
| Pledges.ApplyFilters | Finance/PledgeList.ascx.cs:393-467 | the filter chain, applied step by step, gives exactly Selection |
| Pledges.SelectionMembers | Finance/PledgeList.ascx.cs:393-467 | a pledge survives exactly when it satisfies every filter that applies: giving id, account GUIDs, account ids, date overlap, last modified |
| Pledges.SelectionIsSubset | Finance/PledgeList.ascx.cs:393-467 | the filters only remove pledges |
| Pledges.WorkedExamples | Finance/PledgeList.ascx.cs:434-451 | the worked Pledge/Filter examples in the source's comment come out as the comment says |
| Pledges.InsertByAccount | Finance/PledgeList.ascx.cs:469 | inserting into a list ordered by AccountId keeps it ordered and adds exactly the pledge |
| Pledges.HeadBelowInsert | Finance/PledgeList.ascx.cs:469 | a head that the new pledge sorts after is no greater than anything left after the insertion |
| Pledges.OrderByAccount | Finance/PledgeList.ascx.cs:469 | the default order is a permutation of the input, ordered by AccountId with null first |
| Pledges.GroupKeys | Finance/PledgeList.ascx.cs:478 | one key per distinct AccountId, and every AccountId has one |
| Pledges.FirstAccount | Finance/PledgeList.ascx.cs:483-484 | a group's account comes from one of its own pledges |
| Pledges.SummaryRows | Finance/PledgeList.ascx.cs:478-485 | the rows exist exactly when no group key is null, otherwise the cast fails; each row carries its key's total |
| Pledges.SummaryTotals | Finance/PledgeList.ascx.cs:472-495 | the summary fails exactly when a pledge has no account; otherwise every account has a row and the grand total is the sum of all pledge amounts |
| Pledges.GroupsCoverTotal | Finance/PledgeList.ascx.cs:478-487 | summing every group's total gives the total of all pledges |
| Pledges.SumTotalsOfRows | Finance/PledgeList.ascx.cs:487 | adding up the rows is adding up the groups |
| Pledges.DisplayFilterValue | Finance/PledgeList.ascx.cs:294-366 | an unknown key, a hidden filter, or a person or account that is not found shows nothing; otherwise the value's caption |
| Pledges.AccountsDisplay | Finance/PledgeList.ascx.cs:340-361 | the accounts caption is empty when hidden, when no saved id parses or when none names an account; otherwise it is the found accounts' names joined by "," |
| Pledges.RowDataBound | Finance/PledgeList.ascx.cs:150-165 | only the start and end date cells may change |
| Pledges.RowBlanking | Finance/PledgeList.ascx.cs:150-165 | the start cell is blanked exactly at MinValue, the end cell exactly on MaxValue's calendar day, under a short-date pattern with a four-digit year |
| Pledges.PledgeList.OnInit | Finance/PledgeList.ascx.cs:108-126 | the target is the current person when limited to them, otherwise the context person; with a target the filter panel is hidden |
| Pledges.PledgeList.BindFilter | Finance/PledgeList.ascx.cs:192-223 | the person filter shows iff there is no target and it is enabled; the account filter iff enabled and no accounts are configured; the panel hides iff it was hidden or all four filters hide, so a panel hidden for a target person stays hidden; each filter is tested through the panel, a picker inside a hidden panel reading as hidden |
| Pledges.PledgeList.BindGrid | Finance/PledgeList.ascx.cs:386-496 | the grid shows the Selection under the user's preferences, in the host's sort or else by AccountId; a picker filter applies only while the picker and its panel both show; the summary is bound as BindSummary says |
| Pledges.PledgeList.BindSummary | Finance/PledgeList.ascx.cs:472-495 | the summary shows iff ShowAccountSummary is set or there is no target; its rows and the grand total come from Summary, and a null account fails |
| Pledges.PledgeList.HiddenPanelAppliesNoPicker | Finance/PledgeList.ascx.cs:420-466 | while the filter panel is hidden no account, date or last-modified picker restricts the pledges |
| Pledges.PledgeList.OnLoad | Finance/PledgeList.ascx.cs:171-187 | a postback changes no field; limited to a current person who is absent, the block hides and nothing else changes; otherwise the filter and the grid are bound as BindFilter and BindGrid say: the filter flags, the sorted selection, and the summary panel's visibility, rows, grand total and cast failure; a filter panel hidden for a target person stays hidden |
| GroupPanel.MemberCount | Event/GroupPanel.ascx.cs:91 | counts no more members than there are |
| GroupPanel.MemberCountBounds | Event/GroupPanel.ascx.cs:91 | everyone counts iff all are active or pending; no one counts iff none is |
| GroupPanel.MemberCountStep | Event/GroupPanel.ascx.cs:91 | one more member adds one exactly when they are active or pending |
| GroupPanel.MemberCountOfConcat | Event/GroupPanel.ascx.cs:91 | the count of two member lists is the sum of their counts |
| GroupPanel.Classify | Event/GroupPanel.ascx.cs:95-106 | at capacity iff the capacity equals the count, over iff below it, under iff above it |
| GroupPanel.BadgeClasses | Event/GroupPanel.ascx.cs:95-106 | label-warning iff full, label-danger iff over, label-success iff under |
| GroupPanel.HeadingShape | Event/GroupPanel.ascx.cs:88-109 | the title starts with the group-name span and is longer exactly when the capacity is set and positive |
| GroupPanel.MembersOf | Event/GroupPanel.ascx.cs:57-73 | exactly the members of the group |
| GroupPanel.FindMember | Event/GroupPanel.ascx.cs:128 | the first member with the id, or none exactly when there is none |
| GroupPanel.FindGroup | Event/GroupPanel.ascx.cs:134 | a group with the id, or none exactly when there is none |
| GroupPanel.Panel.BuildSubgroupHeading | Event/GroupPanel.ascx.cs:88-109 | the title is the heading of the group and its members; nothing else changes |
| GroupPanel.Panel.BuildControl | Event/GroupPanel.ascx.cs:43-75 | it adopts the group only if it has none; the description, the title and the member grid follow the group passed in |
| GroupPanel.Panel.Rebuild | Event/GroupPanel.ascx.cs:35-41 | without a group nothing changes; with one, the description, the title and the grid follow that group and its stored members |
| GroupPanel.Panel.DeleteGroupMember | Event/GroupPanel.ascx.cs:124-139 | a member that exists and belongs to the panel's group is removed from the store, and the grid and title are rebuilt from the reloaded group; when the delete then fails to reload, the grid and title keep their values; otherwise the store is unchanged; with no panel group the click throws; the description never changes |
| GroupPanel.DeleteRemovesOne | Event/GroupPanel.ascx.cs:131 | deleting removes exactly that one member, and the count drops by one exactly when they counted |
| BatchToJournal.ValidSettings | Intacct/BatchToJournal.ascx.cs:287-307 | valid iff the batch id is positive and the five credentials and the journal id are all present and non-blank |
| BatchToJournal.LocationIdIsOptional | Intacct/BatchToJournal.ascx.cs:287-307 | the location id plays no part; a blank password or a non-positive batch id is invalid |
| BatchToJournal.VarianceOwnDetails | Intacct/BatchToJournal.ascx.cs:109-112 | other batches' details do not move the variance; with none of its own, a batch's variance is minus its control amount |
| BatchToJournal.NoOwnDetails | Intacct/BatchToJournal.ascx.cs:111 | a sum over no details of the batch is 0 |
| BatchToJournal.Block.ShowDetail | Intacct/BatchToJournal.ascx.cs:96-158 | the export button shows iff the settings are valid and the batch is not exported, and is enabled iff the variance is also 0; an exported batch shows its date, and the remove button if the user can edit; pending debug output is shown once and cleared |
| BatchToJournal.Block.ShowDebug | Intacct/BatchToJournal.ascx.cs:123-132 | pending debug output is appended to the debug literal once and the session entry is emptied; blank output changes nothing |
| BatchToJournal.Block.ShowButtons | Intacct/BatchToJournal.ascx.cs:135-157 | the export button shows for valid settings and no export, enabled iff the variance is 0; an export shows its date, and the remove button for an editor; otherwise nothing changes |
| BatchToJournal.Block.ExportClick | Intacct/BatchToJournal.ascx.cs:160-237 | on success the batch closes only with CloseBatch, is stamped with now, and counts as exported; on failure or without a batch nothing changes; no control of the page changes |
| BatchToJournal.Block.RemoveDateExportedClick | Intacct/BatchToJournal.ascx.cs:239-285 | with a loaded batch it reopens only with CloseBatch, and its export date is cleared so it is no longer exported; otherwise nothing changes |

## Left out

- The background thread is not modelled: starting it, `Abort`, `Join` and `Thread.Sleep` are concurrency. ExecSql is the job's completion, taken as one step.
- SQL I/O is not modelled: the connection, executing the command, `SqlBulkCopy` and the InfoMessage wiring. ExecSql takes the server's messages and its failure as inputs.
- `GetConnectionString` and the configured connection string are not modelled; the job's connection is never set as written.
- `RemoveSpecialCharacters` is taken as the uninterpreted parameter `sanitize`, with no claim made about it.
- `MapPath` and file existence are taken as inputs (`rawExists`, `mappedExists`).
- CsvHelper and EPPlus internals are not modelled. The readers work on a list of records and a map of cells.
- Letter case is compared as ASCII only; culture-specific casing is not modelled.
- The names a DataTable makes up for empty column names are not modelled.
- An exception that escapes the background thread is not modelled.
- Extension: of `Path.GetFullPath`'s normalisation only the dropping of trailing dots and spaces is modelled; relative segments, invalid path characters and over-long paths are not.
- SpreadsheetImport.Spreadsheet.TransformFile: the exception text for an empty table name is the framework's `ArgumentOutOfRangeException` text, written as a constant; a missing `RockContext` connection string is not modelled.
- Pledges.RowDataBound: dates are taken to print under a Gregorian short-date pattern with a four-digit year. Under a two-digit-year pattern such as "M/d/yy", an end date on 12/31 of another year ending in 99 prints like MaxValue and would be blanked too; that case is not modelled.
- Pledges.PledgeList.BindGrid: the host's `SortProperty` order is taken as the parameter `sort`.
- Pledges.PledgeList.BindGrid: the order among pledges with equal AccountIds is not fixed. The model keeps the first-appearance order of its insertion sort, and the database does not promise one.
- Pledges.GroupKeys: the groups come out in first-appearance order; SQL leaves that order unspecified.
- Ranges are given already parsed: `DateRangePicker.CalculateDateRangeFromDelimitedValues` and `SplitDelimitedValues().AsGuidList` are the inputs `prefs` and `guidsOf`.
- The picker values that `BindFilter` restores from the user's preferences are not modelled.
- The account, date and last-modified pickers and the person picker are taken to be children of the `gfPledges` filter panel, so their `Visible` getters read false while it is hidden; the block's markup is not part of this model.
- The grid's Add, Edit, Delete and rebind handlers, `gfPledges_ApplyFilterClick`, `AddAttributeColumns` and `SetVisible` are not modelled. They navigate, save preferences or build grid columns through the ORM and the attribute cache.
- Currency and relative-date formatting, HTML rendering beyond the caption and heading texts, and Lava are not modelled.
- History and HistoryService records are not modelled.
- GroupPanel.Panel.BuildControl: each build appends another delete column to the member grid and subscribes `DeleteGroupMember_Click` to it (Event/GroupPanel.ascx.cs:69-71), and subscribes `Actions_AddClick` and `GGroupMembers_RowDataBound` again (:61, :65); the grid's columns and handler lists are not modelled, so this per-build accumulation of delete columns and subscriptions is not captured.
- SpreadsheetImport.FileNotFoundMessage: the framework's text names the mapped full path given to `File.OpenRead`; the model names the file by the name it is given, as `MapPath` is not modelled.
- `RefreshMemberGrid`, `Actions_AddClick` and the empty `RowCommand` and `RowDataBound` handlers of the group panel are left out. They rebind the grid or raise an event and hold no rule.
- GroupMemberService.Delete and SaveChanges are modelled as removing the member from the store.
- `Encryption.DecryptString` is taken as its results: the five credential fields and the location id of Config, with an unreadable value as None. The journal id, the button text and the CloseBatch and EnableDebug flags are plain attribute values.
- The Intacct journal XML, its posting and the parsing of the response are taken as the `success` flag and its debug text.
- `Response.Redirect` is not modelled, and neither are the block's OnInit, OnLoad and settings-updated handlers, which only read the page parameter and call ShowDetail.
- The ORM, RockContext and the attribute cache are replaced by plain records and sequences.
- Utility/ForeignObjects.ascx.cs, Utility/IdleRedirect.ascx.cs and Utility/RedirectHelper/Http404Error.aspx.cs are not part of this model. They hold no rules of the blocks above.
- BatchToJournal.Block.ShowDetail: money is taken as whole cents, and the variance as exact integer arithmetic rather than the source's `decimal`.
