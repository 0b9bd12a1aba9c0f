/**
 * The Intacct batch-to-journal block: whether its settings are complete, the
 * variance that gates the export button, which controls ShowDetail reveals,
 * and how an export and its removal close and reopen the financial batch.
 * Decrypted settings, the Intacct post's success, the current time and the
 * relative-date text are inputs.
 */
module BatchToJournal {
  import opened Wrappers
  import opened Text

  datatype BatchStatus = Pending | Open | Closed

  /** The block's settings. The five credentials and the location id are what
      DecryptString makes of their attribute values, None where it cannot read
      one; the journal id is the plain attribute value, None when unset; the
      button text and the two flags are read as plain attribute values. */
  datatype Config = Config(
    senderId: Option<string>,
    senderPassword: Option<string>,
    companyId: Option<string>,
    userId: Option<string>,
    userPassword: Option<string>,
    locationId: Option<string>,
    journalId: Option<string>,
    buttonText: string,
    closeBatch: bool,
    enableDebug: bool)

  /** The settings ValidSettings demands: the five credentials and the journal id. */
  function Required(config: Config): seq<Option<string>> {
    [config.senderId, config.senderPassword, config.companyId, config.userId, config.userPassword, config.journalId]
  }

  /** ValidSettings: a positive batch id, the five credentials and the journal
      id all present and not blank. */
  function ValidSettings(batchId: int, config: Config): (r: bool)
    ensures r <==> batchId > 0 && forall s :: s in Required(config) ==> !IsNullOrWhiteSpace(s)
  {
    batchId > 0
    && !IsNullOrWhiteSpace(config.senderId)
    && !IsNullOrWhiteSpace(config.senderPassword)
    && !IsNullOrWhiteSpace(config.companyId)
    && !IsNullOrWhiteSpace(config.userId)
    && !IsNullOrWhiteSpace(config.userPassword)
    && !IsNullOrWhiteSpace(config.journalId)
  }

  /** The optional location id plays no part, and a blank credential fails. */
  lemma LocationIdIsOptional(batchId: int, config: Config, location: Option<string>)
    ensures ValidSettings(batchId, config.(locationId := location)) == ValidSettings(batchId, config)
    ensures IsNullOrWhiteSpace(config.userPassword) ==> !ValidSettings(batchId, config)
    ensures batchId <= 0 ==> !ValidSettings(batchId, config)
  {
  }

  /** A transaction detail: the batch of its transaction and its amount, in cents. */
  datatype TransactionDetail = TransactionDetail(batchId: int, amount: int)

  /** The sum of the batch's detail amounts; a sum over nothing is null, read as 0. */
  function TransactionTotal(details: seq<TransactionDetail>, batchId: int): int {
    if |details| == 0 then 0
    else TransactionTotal(details[..|details| - 1], batchId)
         + (if details[|details| - 1].batchId == batchId then details[|details| - 1].amount else 0)
  }

  /** What the batch's transactions add up to, less its control amount. */
  function Variance(details: seq<TransactionDetail>, batchId: int, controlAmount: int): int {
    TransactionTotal(details, batchId) - controlAmount
  }

  /** Details of other batches do not move the variance, and with no details of
      its own a batch's variance is minus its control amount. */
  lemma {:induction false} VarianceOwnDetails(details: seq<TransactionDetail>, batchId: int, controlAmount: int,
                                              other: TransactionDetail)
    requires other.batchId != batchId
    ensures Variance(details + [other], batchId, controlAmount) == Variance(details, batchId, controlAmount)
    ensures (forall i :: 0 <= i < |details| ==> details[i].batchId != batchId) ==>
              Variance(details, batchId, controlAmount) == -controlAmount
  {
    assert (details + [other])[..|details + [other]| - 1] == details;
    if forall i :: 0 <= i < |details| ==> details[i].batchId != batchId {
      NoOwnDetails(details, batchId);
    }
  }

  lemma {:induction false} NoOwnDetails(details: seq<TransactionDetail>, batchId: int)
    requires forall i :: 0 <= i < |details| ==> details[i].batchId != batchId
    ensures TransactionTotal(details, batchId) == 0
  {
    if |details| > 0 {
      NoOwnDetails(details[..|details| - 1], batchId);
    }
  }

  /** The batch's DateExported attribute counts as an export when it holds a
      date later than DateTime.MinValue. */
  predicate IsExported(dateExported: Option<DateTime>) {
    dateExported.Some? && dateExported.value > MinTicks
  }

  /** The financial batch row, with its DateExported attribute; the empty
      string the removal stores reads back as null. */
  class FinancialBatch {
    const id: int
    const controlAmount: int
    var status: BatchStatus
    var dateExported: Option<DateTime>

    constructor (id: int, controlAmount: int, status: BatchStatus, dateExported: Option<DateTime>)
      ensures this.id == id && this.controlAmount == controlAmount
      ensures this.status == status && this.dateExported == dateExported
    {
      this.id := id;
      this.controlAmount := controlAmount;
      this.status := status;
      this.dateExported := dateExported;
    }
  }

  class Block {
    /** The batchId page parameter. */
    const batchId: int
    const config: Config
    /** UserCanEdit. */
    const canEdit: bool
    /** The batch FinancialBatchService.Get(batchId) finds, or null. */
    const row: FinancialBatch?
    /** The `_financialBatch` field, loaded by ShowDetail. */
    var loaded: FinancialBatch?
    /** Session["IntacctDebugLava"]. */
    var sessionDebug: Option<string>
    /** btnExportToIntacct, litDateExported, btnRemoveDate and lDebug. */
    var exportShown: bool
    var exportEnabled: bool
    var exportText: string
    var dateShown: bool
    var dateText: string
    var removeShown: bool
    var debugShown: bool
    var debugText: string

    predicate Valid()
      reads this
    {
      loaded == null || loaded == row
    }

    /** The controls start as the markup leaves them: hidden and empty. */
    constructor (batchId: int, config: Config, canEdit: bool, row: FinancialBatch?, sessionDebug: Option<string>)
      ensures Valid() && loaded == null
      ensures this.batchId == batchId && this.config == config && this.canEdit == canEdit && this.row == row
      ensures this.sessionDebug == sessionDebug
      ensures !exportShown && !exportEnabled && exportText == "" && !dateShown && dateText == ""
      ensures !removeShown && !debugShown && debugText == ""
    {
      this.batchId := batchId;
      this.config := config;
      this.canEdit := canEdit;
      this.row := row;
      this.sessionDebug := sessionDebug;
      loaded := null;
      exportShown, exportEnabled, exportText := false, false, "";
      dateShown, dateText, removeShown := false, "", false;
      debugShown, debugText := false, "";
    }

    /** ShowDetail. `relative` is ToRelativeDateString. */
    method ShowDetail(details: seq<TransactionDetail>, relative: DateTime -> string)
      modifies this
      ensures Valid() && loaded == row
      ensures var exported := row != null && IsExported(row.dateExported);
              var variance := if row == null then 0 else Variance(details, row.id, row.controlAmount);
              && (ValidSettings(batchId, config) && !exported ==>
                    && exportShown && exportText == config.buttonText && exportEnabled == (variance == 0)
                    && dateShown == old(dateShown) && dateText == old(dateText) && removeShown == old(removeShown))
              && (exported ==>
                    && dateShown && dateText == "<div class=\"small\">Exported: " + relative(row.dateExported.value) + "</div>"
                    && removeShown == (old(removeShown) || canEdit)
                    && exportShown == old(exportShown) && exportEnabled == old(exportEnabled)
                    && exportText == old(exportText))
              && (!ValidSettings(batchId, config) && !exported ==>
                    && exportShown == old(exportShown) && exportEnabled == old(exportEnabled)
                    && exportText == old(exportText)
                    && dateShown == old(dateShown) && dateText == old(dateText) && removeShown == old(removeShown))
      ensures var pending := if row != null && config.enableDebug then old(sessionDebug).GetOr("") else "";
              if !IsBlank(pending) then
                debugShown && debugText == old(debugText) + pending && sessionDebug == Some("")
              else
                debugShown == old(debugShown) && debugText == old(debugText) && sessionDebug == old(sessionDebug)
    {
      var isExported := false;
      loaded := row;
      var dateExported: Option<DateTime> := None;
      var variance := 0;
      if loaded != null {
        var total := TransactionTotal(details, loaded.id);
        variance := total - loaded.controlAmount;
        dateExported := loaded.dateExported;
        if dateExported.Some? && dateExported.value > MinTicks {
          isExported := true;
        }
        if config.enableDebug {
          ShowDebug();
        }
      }
      ShowButtons(isExported, dateExported, variance, relative);
    }

    /** The debug part of ShowDetail: pending debug output is appended to the
        debug literal once, and the session entry is cleared. */
    method ShowDebug()
      modifies this
      ensures var pending := old(sessionDebug).GetOr("");
              if !IsBlank(pending) then
                debugShown && debugText == old(debugText) + pending && sessionDebug == Some("")
              else
                debugShown == old(debugShown) && debugText == old(debugText) && sessionDebug == old(sessionDebug)
      ensures loaded == old(loaded) && exportShown == old(exportShown) && exportEnabled == old(exportEnabled)
      ensures exportText == old(exportText) && dateShown == old(dateShown) && dateText == old(dateText)
      ensures removeShown == old(removeShown)
    {
      var debugLava := sessionDebug.GetOr("");
      if !IsBlank(debugLava) {
        debugShown := true;
        debugText := debugText + debugLava;
        sessionDebug := Some("");
      }
    }

    /** The button part of ShowDetail: the export button for valid settings and
        a batch not yet exported, enabled only without variance; the export date,
        and for an editor the remove button, for an exported batch. */
    method ShowButtons(isExported: bool, dateExported: Option<DateTime>, variance: int, relative: DateTime -> string)
      requires isExported ==> dateExported.Some?
      modifies this
      ensures ValidSettings(batchId, config) && !isExported ==>
                && exportShown && exportText == config.buttonText && exportEnabled == (variance == 0)
                && dateShown == old(dateShown) && dateText == old(dateText) && removeShown == old(removeShown)
      ensures isExported ==>
                && dateShown && dateText == "<div class=\"small\">Exported: " + relative(dateExported.value) + "</div>"
                && removeShown == (old(removeShown) || canEdit)
                && exportShown == old(exportShown) && exportEnabled == old(exportEnabled)
                && exportText == old(exportText)
      ensures !ValidSettings(batchId, config) && !isExported ==>
                && exportShown == old(exportShown) && exportEnabled == old(exportEnabled)
                && exportText == old(exportText)
                && dateShown == old(dateShown) && dateText == old(dateText) && removeShown == old(removeShown)
      ensures loaded == old(loaded) && sessionDebug == old(sessionDebug)
      ensures debugShown == old(debugShown) && debugText == old(debugText)
    {
      if ValidSettings(batchId, config) && !isExported {
        exportText := config.buttonText;
        exportShown := true;
        if variance == 0 {
          exportEnabled := true;
        } else {
          exportEnabled := false;
        }
      } else if isExported {
        dateText := "<div class=\"small\">Exported: " + relative(dateExported.value) + "</div>";
        dateShown := true;
        if canEdit {
          removeShown := true;
        }
      }
    }

    /** btnExportToIntacct_Click once the journal is posted: on success the
        batch is closed when CloseBatch is set and stamped with `now`, and the
        debug output the post produced goes to the session; no control of the
        page changes. Without a loaded batch, or when the post fails, nothing
        changes. */
    method ExportClick(success: bool, now: DateTime, debugLava: string)
      requires Valid()
      modifies this, row
      ensures Valid() && loaded == old(loaded)
      ensures loaded != null && success ==>
                && row.status == (if config.closeBatch then Closed else old(row.status))
                && row.dateExported == Some(now)
                && sessionDebug == Some(debugLava)
      ensures loaded != null && success && now > MinTicks ==> IsExported(row.dateExported)
      ensures !(loaded != null && success) ==>
                && sessionDebug == old(sessionDebug)
                && (row != null ==> row.status == old(row.status) && row.dateExported == old(row.dateExported))
      ensures exportShown == old(exportShown) && exportEnabled == old(exportEnabled) && exportText == old(exportText)
      ensures dateShown == old(dateShown) && dateText == old(dateText) && removeShown == old(removeShown)
      ensures debugShown == old(debugShown) && debugText == old(debugText)
    {
      if loaded != null {
        if success {
          var batch := row;
          sessionDebug := Some(debugLava);
          if config.closeBatch {
            batch.status := Closed;
          }
          batch.dateExported := Some(now);
        }
      }
    }

    /** btnRemoveDateExported_Click: reopens the batch when CloseBatch is set and
        clears its export date. Without a loaded batch nothing changes. */
    method RemoveDateExportedClick()
      requires Valid()
      modifies row
      ensures loaded != null ==>
                && row.status == (if config.closeBatch then Open else old(row.status))
                && row.dateExported.None? && !IsExported(row.dateExported)
      ensures loaded == null && row != null ==> row.status == old(row.status) && row.dateExported == old(row.dateExported)
    {
      if loaded != null {
        var batch := row;
        if config.closeBatch {
          batch.status := Open;
        }
        batch.dateExported := None;
      }
    }
  }
}
