/**
 * The pledge list block: which filters it shows, how it narrows the pledges
 * (giving unit, configured accounts, chosen accounts, date overlap, last
 * modified window), the default order, the per-account summary with its grand
 * total, the text shown for a saved filter, and the two date cells a grid row
 * blanks. The database is a plain record of sequences; dates are DateTime ticks
 * and amounts are whole cents.
 */
module Pledges {
  import opened Wrappers
  import opened Text

  // ---- Calendar dates ----

  /** Days before 1 January of year `y` (proleptic Gregorian calendar). */
  function DaysBeforeYear(y: int): int
    requires y >= 1
  {
    var n := y - 1;
    365 * n + n / 4 - n / 100 + n / 400
  }

  predicate IsLeapYear(y: int) {
    y % 4 == 0 && (y % 100 != 0 || y % 400 == 0)
  }

  /** Days before the first of month `m` in year `y`. */
  function DaysBeforeMonth(y: int, m: int): int
    requires 1 <= m <= 12
  {
    var table := [0, 31, 59, 90, 120, 151, 181, 212, 243, 273, 304, 334];
    table[m - 1] + (if m > 2 && IsLeapYear(y) then 1 else 0)
  }

  /** Midnight of month/day/year, in ticks. */
  function Date(m: int, d: int, y: int): int
    requires 1 <= m <= 12 && 1 <= d <= 31 && y >= 1
  {
    (DaysBeforeYear(y) + DaysBeforeMonth(y, m) + d - 1) * TicksPerDay
  }

  /** DateTime.ToShortDateString under a Gregorian short-date pattern with a
      four-digit year, such as "M/d/yyyy": it shows the day, month and full year
      and nothing finer, so two dates print alike exactly when they fall on the
      same day. */
  function ShortDate(t: DateTime): int {
    t / TicksPerDay
  }

  // ---- Records ----

  type Guid = string

  datatype Person = Person(id: int, givingId: string, fullName: string)

  datatype Account = Account(id: int, guid: Guid, name: string, order: int)

  /** A FinancialPledge with the fields the block reads; `givingId` is the
      GivingId of the pledge's person and `account` its Account, which is null
      exactly when the pledge has no account. */
  datatype Pledge = Pledge(
    id: int,
    givingId: string,
    accountId: Option<int>,
    account: Option<Account>,
    startDate: DateTime,
    endDate: DateTime,
    modified: Option<DateTime>,
    totalAmount: int)

  /** A date range as DateRangePicker.CalculateDateRangeFromDelimitedValues
      returns it: either bound may be missing. */
  datatype DateRange = DateRange(start: Option<DateTime>, end: Option<DateTime>)

  datatype Database = Database(pledges: seq<Pledge>, people: seq<Person>, accounts: seq<Account>)

  /** The block's attribute values. `accounts` is the raw "Accounts" setting. */
  datatype Settings = Settings(
    limitToCurrentPerson: bool,
    showAccountSummary: bool,
    accounts: string,
    showPersonFilter: bool,
    showAccountFilter: bool,
    showDateRangeFilter: bool,
    showLastModifiedFilter: bool)

  /** The grid filter's saved user preferences; the two date ranges are given as
      already calculated from their delimited values. */
  datatype Preferences = Preferences(person: string, accounts: string, dateRange: DateRange, lastModified: DateRange)

  datatype FilterVisibility = FilterVisibility(person: bool, account: bool, dates: bool, lastModified: bool)

  datatype AccountSummaryRow = AccountSummaryRow(accountId: int, totalAmount: int, name: Option<string>, order: int)

  // ---- Lookups ----

  /** PersonService.Get(id): the person with that id, or null. */
  function FindPerson(people: seq<Person>, id: int): (r: Option<Person>)
    ensures r.Some? ==> r.value in people && r.value.id == id
    ensures r.None? <==> forall i :: 0 <= i < |people| ==> people[i].id != id
  {
    if |people| == 0 then None
    else if people[0].id == id then Some(people[0])
    else FindPerson(people[1..], id)
  }

  /** Rock's AsIntegerList: the pieces AsIntegerOrNull can read, in order. */
  function AsIntegerList(pieces: seq<string>): (r: seq<int>)
    ensures forall n :: n in r <==> exists i :: 0 <= i < |pieces| && TryParseInt(pieces[i]) == Some(n)
  {
    if |pieces| == 0 then []
    else
      var rest := AsIntegerList(pieces[1..]);
      assert forall i :: 0 <= i < |pieces[1..]| ==> pieces[1..][i] == pieces[i + 1];
      match TryParseInt(pieces[0])
      case Some(n) => [n] + rest
      case None => rest
  }

  /** FinancialAccountService.GetByIds(ids): the stored accounts whose id is listed. */
  function AccountsWithIds(accounts: seq<Account>, ids: seq<int>): (r: seq<Account>)
    ensures forall a :: a in r <==> a in accounts && a.id in ids
  {
    if |accounts| == 0 then []
    else (if accounts[0].id in ids then [accounts[0]] else []) + AccountsWithIds(accounts[1..], ids)
  }

  function AccountIds(accounts: seq<Account>): (r: seq<int>)
    ensures |r| == |accounts| && forall i :: 0 <= i < |r| ==> r[i] == accounts[i].id
  {
    if |accounts| == 0 then [] else [accounts[0].id] + AccountIds(accounts[1..])
  }

  function AccountNames(accounts: seq<Account>): (r: seq<string>)
    ensures |r| == |accounts| && forall i :: 0 <= i < |r| ==> r[i] == accounts[i].name
  {
    if |accounts| == 0 then [] else [accounts[0].name] + AccountNames(accounts[1..])
  }

  /** The user's saved account ids, keeping only those that still exist. */
  function ExistingAccountIds(accounts: seq<Account>, saved: string): (r: seq<int>)
    ensures forall n :: n in r <==>
              (exists a :: a in accounts && a.id == n) && n in AsIntegerList(Split(saved, ','))
  {
    var found := AccountsWithIds(accounts, AsIntegerList(Split(saved, ',')));
    var r := AccountIds(found);
    assert forall a :: a in found ==> a.id in r by {
      forall a | a in found ensures a.id in r {
        var i :| 0 <= i < |found| && found[i] == a;
        assert r[i] == a.id;
      }
    }
    r
  }

  // ---- The filters ----

  /** A pledge stays under the date filter unless it starts after the filter's
      end or ends before its start. */
  predicate KeepsDates(start: int, end: int, filterStart: int, filterEnd: int) {
    !(start > filterEnd) && !(end < filterStart)
  }

  predicate Within(t: int, lo: int, hi: int) {
    lo <= t <= hi
  }

  /** For non-empty ranges the date filter is exactly the overlap test: some
      instant lies in both the pledge's range and the filter's. */
  lemma DateFilterIsOverlap(start: int, end: int, filterStart: int, filterEnd: int)
    requires start <= end && filterStart <= filterEnd
    ensures KeepsDates(start, end, filterStart, filterEnd)
            <==> exists t :: Within(t, start, end) && Within(t, filterStart, filterEnd)
  {
    if KeepsDates(start, end, filterStart, filterEnd) {
      var t := if start < filterStart then filterStart else start;
      assert Within(t, start, end) && Within(t, filterStart, filterEnd);
    }
  }

  /** A missing lower bound stands for DateTime.MinValue, a missing upper bound
      for DateTime.MaxValue. */
  function StartOr(range: DateRange): DateTime {
    range.start.GetOr(MinTicks)
  }

  function EndOr(range: DateRange): DateTime {
    range.end.GetOr(MaxTicks)
  }

  predicate HasBound(range: DateRange) {
    range.start.Some? || range.end.Some?
  }

  /** The last-modified test. The comparisons are lifted over a null
      ModifiedDateTime, where both are false, so such a pledge stays. */
  predicate KeepsModified(modified: Option<DateTime>, range: DateRange) {
    !(modified.Some? && modified.value >= EndOr(range)) && !(modified.Some? && modified.value <= StartOr(range))
  }

  /** The last-modified window is open at both ends. */
  lemma ModifiedWindowIsExclusive(modified: DateTime, range: DateRange)
    ensures KeepsModified(Some(modified), range) <==> StartOr(range) < modified < EndOr(range)
    ensures KeepsModified(Some(StartOr(range)), range) == false
    ensures KeepsModified(Some(EndOr(range)), range) == false
    ensures KeepsModified(None, range)
  {
  }

  /** The conditions of the chain's Where calls. */
  datatype Condition =
    | SameGivingId(givingId: string)
    | AccountGuidIn(guids: seq<Guid>)
    | AccountIdIn(ids: seq<int>)
    | Overlaps(filterStart: int, filterEnd: int)
    | ModifiedIn(window: DateRange)

  predicate Holds(c: Condition, p: Pledge) {
    match c
    case SameGivingId(g) => p.givingId == g
    case AccountGuidIn(guids) => p.account.Some? && p.account.value.guid in guids
    case AccountIdIn(ids) => p.accountId.Some? && p.accountId.value in ids
    case Overlaps(fs, fe) => KeepsDates(p.startDate, p.endDate, fs, fe)
    case ModifiedIn(window) => KeepsModified(p.modified, window)
  }

  /** Where(c): the pledges meeting `c`, in their order. */
  function Where(ps: seq<Pledge>, c: Condition): (r: seq<Pledge>)
    ensures forall x :: x in r <==> x in ps && Holds(c, x)
    ensures multiset(r) <= multiset(ps)
  {
    if |ps| == 0 then []
    else
      var rest := Where(ps[1..], c);
      assert ps == [ps[0]] + ps[1..];
      if Holds(c, ps[0]) then [ps[0]] + rest else rest
  }

  /** The filters BindGrid applies, once resolved. */
  datatype Filters = Filters(
    person: Option<Person>,
    accountGuids: seq<Guid>,
    accountIds: seq<int>,
    accountFilterShown: bool,
    dates: DateRange,
    datesShown: bool,
    lastModified: DateRange,
    lastModifiedShown: bool)

  /** The person whose giving unit is shown: the target person, otherwise the
      saved person when the person filter is shown and that person exists. */
  function ResolvePerson(target: Option<Person>, saved: string, personFilterShown: bool, people: seq<Person>): (r: Option<Person>)
    ensures target.Some? ==> r == target
    ensures target.None? && (!personFilterShown || TryParseInt(saved).None?) ==> r.None?
    ensures r.Some? && target.None? ==> r.value in people && Some(r.value.id) == TryParseInt(saved)
    ensures target.None? && personFilterShown && TryParseInt(saved).Some? ==>
              r == FindPerson(people, TryParseInt(saved).value)
    ensures target.None? && personFilterShown && (exists p :: p in people && Some(p.id) == TryParseInt(saved)) ==>
              r.Some?
  {
    if target.Some? then target
    else
      var id := TryParseInt(saved);
      if id.Some? && personFilterShown then FindPerson(people, id.value) else None
  }

  /** The filter chain of BindGrid, in its order. */
  function Selection(ps: seq<Pledge>, f: Filters): seq<Pledge> {
    var byPerson := if f.person.Some? then Where(ps, SameGivingId(f.person.value.givingId)) else ps;
    var byGuid := if |f.accountGuids| > 0
                  then Where(byPerson, AccountGuidIn(f.accountGuids))
                  else byPerson;
    var byId := if |f.accountIds| > 0 && f.accountFilterShown
                then Where(byGuid, AccountIdIn(f.accountIds))
                else byGuid;
    var fs, fe := StartOr(f.dates), EndOr(f.dates);
    var byDates := if f.datesShown && HasBound(f.dates)
                   then Where(byId, Overlaps(fs, fe))
                   else byId;
    if f.lastModifiedShown && HasBound(f.lastModified)
    then Where(byDates, ModifiedIn(f.lastModified))
    else byDates
  }

  /** The chain of Where calls in BindGrid, applied one after another. */
  method ApplyFilters(ps: seq<Pledge>, f: Filters) returns (pledges: seq<Pledge>)
    ensures pledges == Selection(ps, f)
  {
    var person := f.person;
    pledges := ps;
    if person.Some? {
      pledges := Where(pledges, SameGivingId(person.value.givingId));
    }
    var accountGuids := f.accountGuids;
    if |accountGuids| > 0 {
      pledges := Where(pledges, AccountGuidIn(accountGuids));
    }
    var accountIds := f.accountIds;
    if |accountIds| > 0 && f.accountFilterShown {
      pledges := Where(pledges, AccountIdIn(accountIds));
    }
    var filterStart, filterEnd := StartOr(f.dates), EndOr(f.dates);
    if f.datesShown && HasBound(f.dates) {
      pledges := Where(pledges, Overlaps(filterStart, filterEnd));
    }
    var window := f.lastModified;
    if f.lastModifiedShown && HasBound(window) {
      pledges := Where(pledges, ModifiedIn(window));
    }
  }

  /** A pledge is selected iff it passes every filter that applies: the same
      giving unit as the person, one of the configured account GUIDs when any
      are configured, one of the chosen accounts when the account filter is
      shown and one of them exists, an overlapping date range and a modified
      time strictly inside the window when those filters are shown and set. */
  lemma SelectionMembers(ps: seq<Pledge>, f: Filters, x: Pledge)
    ensures x in Selection(ps, f) <==>
            && x in ps
            && (f.person.Some? ==> x.givingId == f.person.value.givingId)
            && (|f.accountGuids| > 0 ==> x.account.Some? && x.account.value.guid in f.accountGuids)
            && (|f.accountIds| > 0 && f.accountFilterShown ==> x.accountId.Some? && x.accountId.value in f.accountIds)
            && (f.datesShown && HasBound(f.dates) ==>
                  !(x.startDate > EndOr(f.dates)) && !(x.endDate < StartOr(f.dates)))
            && (f.lastModifiedShown && HasBound(f.lastModified) && x.modified.Some? ==>
                  StartOr(f.lastModified) < x.modified.value < EndOr(f.lastModified))
  {
  }

  /** Every pledge the chain keeps comes from the store, at most as often. */
  lemma SelectionIsSubset(ps: seq<Pledge>, f: Filters)
    ensures multiset(Selection(ps, f)) <= multiset(ps)
  {
  }

  // ---- The comment's worked examples ----

  const Pledge1Start: int := Date(1, 1, 2011)
  const Pledge1End: int := Date(12, 31, 2011)
  /** "1/1/0000" is before DateTime.MinValue; the earliest date there is stands for it. */
  const Pledge2Start: int := MinTicks
  const Pledge2End: int := Date(1, 1, 9999)
  const Pledge3Start: int := Date(6, 1, 2011)
  const Pledge3End: int := Date(6, 1, 2012)

  /** The five filters of the comment and which of the three pledges each keeps. */
  lemma WorkedExamples()
    ensures var fs, fe := Date(1, 1, 2010), Date(1, 1, 2013);
            KeepsDates(Pledge1Start, Pledge1End, fs, fe) && KeepsDates(Pledge2Start, Pledge2End, fs, fe)
            && KeepsDates(Pledge3Start, Pledge3End, fs, fe)
    ensures var fs, fe := Date(1, 1, 2012), Date(1, 1, 2013);
            !KeepsDates(Pledge1Start, Pledge1End, fs, fe) && KeepsDates(Pledge2Start, Pledge2End, fs, fe)
            && KeepsDates(Pledge3Start, Pledge3End, fs, fe)
    ensures var fs, fe := Date(5, 1, 2012), Date(5, 2, 2012);
            !KeepsDates(Pledge1Start, Pledge1End, fs, fe) && KeepsDates(Pledge2Start, Pledge2End, fs, fe)
            && KeepsDates(Pledge3Start, Pledge3End, fs, fe)
    ensures var fs, fe := Date(5, 1, 2012), Date(1, 1, 9999);
            !KeepsDates(Pledge1Start, Pledge1End, fs, fe) && KeepsDates(Pledge2Start, Pledge2End, fs, fe)
            && KeepsDates(Pledge3Start, Pledge3End, fs, fe)
    ensures var fs, fe := Date(5, 1, 2010), Date(5, 1, 2010);
            !KeepsDates(Pledge1Start, Pledge1End, fs, fe) && KeepsDates(Pledge2Start, Pledge2End, fs, fe)
            && !KeepsDates(Pledge3Start, Pledge3End, fs, fe)
  {
  }

  // ---- Default order ----

  /** Ascending order of a nullable account id: null first. */
  predicate KeyLe(a: Option<int>, b: Option<int>) {
    a.None? || (b.Some? && a.value <= b.value)
  }

  predicate OrderedByAccount(ps: seq<Pledge>) {
    forall i, j :: 0 <= i < j < |ps| ==> KeyLe(ps[i].accountId, ps[j].accountId)
  }

  function InsertByAccount(x: Pledge, ps: seq<Pledge>): (r: seq<Pledge>)
    requires OrderedByAccount(ps)
    ensures multiset(r) == multiset(ps) + multiset{x}
    ensures OrderedByAccount(r)
  {
    if |ps| == 0 then [x]
    else if KeyLe(x.accountId, ps[0].accountId) then [x] + ps
    else
      var rest := InsertByAccount(x, ps[1..]);
      HeadBelowInsert(x, ps, rest);
      assert ps == [ps[0]] + ps[1..];
      var r := [ps[0]] + rest;
      assert forall i :: 0 < i < |r| ==> r[i] == rest[i - 1] && r[i] in rest;
      r
  }

  /** The head of an ordered list that `x` goes after is no greater than
      anything in the rest once `x` is inserted there. */
  lemma HeadBelowInsert(x: Pledge, ps: seq<Pledge>, rest: seq<Pledge>)
    requires |ps| > 0 && OrderedByAccount(ps) && !KeyLe(x.accountId, ps[0].accountId)
    requires multiset(rest) == multiset(ps[1..]) + multiset{x}
    ensures forall y :: y in rest ==> KeyLe(ps[0].accountId, y.accountId)
  {
    forall y | y in rest ensures KeyLe(ps[0].accountId, y.accountId) {
      assert y in multiset(rest);
      if y != x {
        assert y in multiset(ps[1..]);
        var j :| 0 <= j < |ps[1..]| && ps[1..][j] == y;
        assert ps[j + 1] == y;
      }
    }
  }

  /** OrderBy(p => p.AccountId). */
  function OrderByAccount(ps: seq<Pledge>): (r: seq<Pledge>)
    ensures multiset(r) == multiset(ps)
    ensures OrderedByAccount(r)
  {
    if |ps| == 0 then []
    else
      assert ps == [ps[0]] + ps[1..];
      InsertByAccount(ps[0], OrderByAccount(ps[1..]))
  }

  // ---- Account summary ----

  /** The message of the exception raised when a group's null key is read as an int. */
  const NullKeyMessage: string := "The cast to value type 'System.Int32' failed because the materialized value is null. Either the result type's generic parameter or the query must use a nullable type."

  /** Sum of TotalAmount. */
  function Total(ps: seq<Pledge>): int {
    if |ps| == 0 then 0 else Total(ps[..|ps| - 1]) + ps[|ps| - 1].totalAmount
  }

  /** The total of the pledges in the group of `key`. */
  function AmountFor(ps: seq<Pledge>, key: Option<int>): int {
    if |ps| == 0 then 0
    else AmountFor(ps[..|ps| - 1], key) + (if ps[|ps| - 1].accountId == key then ps[|ps| - 1].totalAmount else 0)
  }

  /** The GroupBy keys: every account id that occurs, once each, in order of
      first appearance. */
  function GroupKeys(ps: seq<Pledge>): (r: seq<Option<int>>)
    ensures forall i, j :: 0 <= i < j < |r| ==> r[i] != r[j]
    ensures forall k :: k in r <==> exists i :: 0 <= i < |ps| && ps[i].accountId == k
  {
    if |ps| == 0 then []
    else
      var prefix := ps[..|ps| - 1];
      var keys := GroupKeys(prefix);
      var k := ps[|ps| - 1].accountId;
      assert forall i :: 0 <= i < |prefix| ==> prefix[i] == ps[i];
      if k in keys then keys else keys + [k]
  }

  /** The first non-null account of a group. */
  function FirstAccount(ps: seq<Pledge>, key: Option<int>): (r: Option<Account>)
    ensures r.Some? ==> exists i :: 0 <= i < |ps| && ps[i].accountId == key && ps[i].account == r
  {
    if |ps| == 0 then None
    else if ps[0].accountId == key && ps[0].account.Some? then ps[0].account
    else
      var r := FirstAccount(ps[1..], key);
      assert r.Some? ==> exists i :: 1 <= i < |ps| && ps[i].accountId == key && ps[i].account == r by {
        if r.Some? {
          var i :| 0 <= i < |ps[1..]| && ps[1..][i].accountId == key && ps[1..][i].account == r;
          assert ps[i + 1] == ps[1..][i];
        }
      }
      r
  }

  /** One summary row per key; a null key throws. */
  function SummaryRows(keys: seq<Option<int>>, ps: seq<Pledge>): (r: Result<seq<AccountSummaryRow>>)
    ensures r.Ok? <==> None !in keys
    ensures r.Err? ==> r.message == NullKeyMessage
    ensures r.Ok? ==> |r.value| == |keys|
    ensures r.Ok? ==> forall i :: 0 <= i < |keys| ==>
              Some(r.value[i].accountId) == keys[i] && r.value[i].totalAmount == AmountFor(ps, keys[i])
  {
    if |keys| == 0 then Ok([])
    else
      match keys[0]
      case None => Err(NullKeyMessage)
      case Some(id) =>
        match SummaryRows(keys[1..], ps)
        case Err(m) => Err(m)
        case Ok(rest) =>
          var account := FirstAccount(ps, keys[0]);
          var name := if account.Some? then Some(account.value.name) else None;
          var order := if account.Some? then account.value.order else 0;
          Ok([AccountSummaryRow(id, AmountFor(ps, keys[0]), name, order)] + rest)
  }

  /** The GroupBy/Select of the summary list. */
  function Summary(ps: seq<Pledge>): Result<seq<AccountSummaryRow>> {
    SummaryRows(GroupKeys(ps), ps)
  }

  function SumTotals(rows: seq<AccountSummaryRow>): int {
    if |rows| == 0 then 0 else rows[0].totalAmount + SumTotals(rows[1..])
  }

  /** The grand total: the sum of the group totals, or 0 with no groups. */
  function GrandTotal(rows: seq<AccountSummaryRow>): int {
    if |rows| > 0 then SumTotals(rows) else 0
  }

  function SumOver(keys: seq<Option<int>>, ps: seq<Pledge>): int {
    if |keys| == 0 then 0 else AmountFor(ps, keys[0]) + SumOver(keys[1..], ps)
  }

  lemma {:induction false} AmountForAbsent(ps: seq<Pledge>, key: Option<int>)
    requires forall i :: 0 <= i < |ps| ==> ps[i].accountId != key
    ensures AmountFor(ps, key) == 0
  {
    if |ps| > 0 {
      AmountForAbsent(ps[..|ps| - 1], key);
    }
  }

  /** Adding one pledge raises the sum over distinct keys by its amount when
      its key is among them. */
  lemma {:induction false} SumOverStep(keys: seq<Option<int>>, ps: seq<Pledge>, p: Pledge)
    requires forall i, j :: 0 <= i < j < |keys| ==> keys[i] != keys[j]
    ensures SumOver(keys, ps + [p]) == SumOver(keys, ps) + (if p.accountId in keys then p.totalAmount else 0)
  {
    if |keys| > 0 {
      SumOverStep(keys[1..], ps, p);
      assert (ps + [p])[..|ps + [p]| - 1] == ps;
      assert p.accountId in keys <==> p.accountId == keys[0] || p.accountId in keys[1..];
    }
  }

  lemma {:induction false} SumOverAppend(keys: seq<Option<int>>, k: Option<int>, ps: seq<Pledge>)
    ensures SumOver(keys + [k], ps) == SumOver(keys, ps) + AmountFor(ps, k)
  {
    if |keys| > 0 {
      assert (keys + [k])[1..] == keys[1..] + [k];
      SumOverAppend(keys[1..], k, ps);
    }
  }

  /** Summed over the groups, the group totals give the total of all pledges. */
  lemma {:induction false} GroupsCoverTotal(ps: seq<Pledge>)
    ensures SumOver(GroupKeys(ps), ps) == Total(ps)
  {
    if |ps| > 0 {
      var prefix := ps[..|ps| - 1];
      var p := ps[|ps| - 1];
      assert ps == prefix + [p];
      var keys := GroupKeys(prefix);
      GroupsCoverTotal(prefix);
      if p.accountId in keys {
        SumOverStep(keys, prefix, p);
      } else {
        SumOverStep(keys, prefix, p);
        SumOverAppend(keys, p.accountId, ps);
        assert forall i :: 0 <= i < |prefix| ==> prefix[i].accountId != p.accountId;
        AmountForAbsent(prefix, p.accountId);
      }
    }
  }

  lemma {:induction false} SumTotalsOfRows(keys: seq<Option<int>>, ps: seq<Pledge>)
    requires SummaryRows(keys, ps).Ok?
    ensures SumTotals(SummaryRows(keys, ps).value) == SumOver(keys, ps)
  {
    if |keys| > 0 {
      SumTotalsOfRows(keys[1..], ps);
    }
  }

  /** The summary fails exactly when some pledge has no account; otherwise it
      has one row per account that occurs, each holding that account's total,
      and the grand total is the total of all the pledges. */
  lemma SummaryTotals(ps: seq<Pledge>)
    ensures Summary(ps).Err? <==> exists i :: 0 <= i < |ps| && ps[i].accountId.None?
    ensures Summary(ps).Ok? ==>
              && (forall i :: 0 <= i < |ps| ==>
                    exists j :: 0 <= j < |Summary(ps).value| && Some(Summary(ps).value[j].accountId) == ps[i].accountId)
              && (forall j :: 0 <= j < |Summary(ps).value| ==>
                    Summary(ps).value[j].totalAmount == AmountFor(ps, Some(Summary(ps).value[j].accountId)))
              && GrandTotal(Summary(ps).value) == Total(ps)
  {
    var keys := GroupKeys(ps);
    if Summary(ps).Ok? {
      var rows := Summary(ps).value;
      forall i | 0 <= i < |ps|
        ensures exists j :: 0 <= j < |rows| && Some(rows[j].accountId) == ps[i].accountId
      {
        assert ps[i].accountId in keys;
        var j :| 0 <= j < |keys| && keys[j] == ps[i].accountId;
        assert Some(rows[j].accountId) == keys[j];
      }
      SumTotalsOfRows(keys, ps);
      GroupsCoverTotal(ps);
    } else {
      assert None in keys;
    }
  }

  // ---- Displayed filter values ----

  /** gfPledges_DisplayFilterValue: the text shown for a saved filter value.
      `formatRange` is DateRangePicker.FormatDelimitedValues. */
  function DisplayFilterValue(key: string, value: string, shown: FilterVisibility, db: Database,
                              formatRange: string -> string): (r: string)
    ensures key !in {"Date Range", "Last Modified", "Person", "Accounts"} ==> r == ""
    ensures key == "Date Range" ==> r == (if shown.dates then formatRange(value) else "")
    ensures key == "Last Modified" ==> r == (if shown.lastModified then formatRange(value) else "")
    ensures key == "Person" ==>
              r == (if shown.person && TryParseInt(value).Some? && FindPerson(db.people, TryParseInt(value).value).Some?
                    then FindPerson(db.people, TryParseInt(value).value).value.fullName else "")
    ensures key == "Accounts" ==> r == AccountsText(value, shown.account, db.accounts)
  {
    match key
    case "Date Range" => if shown.dates then formatRange(value) else ""
    case "Last Modified" => if shown.lastModified then formatRange(value) else ""
    case "Person" =>
      var personId := TryParseInt(value);
      if personId.Some? && shown.person then
        match FindPerson(db.people, personId.value)
        case Some(person) => person.fullName
        case None => ""
      else ""
    case "Accounts" => AccountsText(value, shown.account, db.accounts)
    case _ => ""
  }

  /** The "Accounts" case: the names of the listed accounts that exist, joined by ','. */
  function AccountsText(value: string, accountFilterShown: bool, accounts: seq<Account>): string {
    var ids := AsIntegerList(Split(value, ','));
    if |ids| > 0 && accountFilterShown then
      var found := AccountsWithIds(accounts, ids);
      if |found| > 0 then Join(AccountNames(found), ",") else ""
    else ""
  }

  /** An account filter shows nothing when it is hidden, names no readable id,
      or none of its accounts exists; otherwise the names of those that exist. */
  lemma AccountsDisplay(value: string, accountFilterShown: bool, accounts: seq<Account>)
    ensures var ids := AsIntegerList(Split(value, ','));
            var r := AccountsText(value, accountFilterShown, accounts);
            && (!accountFilterShown ==> r == "")
            && (|ids| == 0 ==> r == "")
            && ((forall a :: a in accounts ==> a.id !in ids) ==> r == "")
            && (accountFilterShown && (exists a :: a in accounts && a.id in ids) ==>
                  r == Join(AccountNames(AccountsWithIds(accounts, ids)), ","))
  {
    var ids := AsIntegerList(Split(value, ','));
    var found := AccountsWithIds(accounts, ids);
    if exists a :: a in accounts && a.id in ids {
      var a :| a in accounts && a.id in ids;
      assert a in found;
    }
  }

  // ---- Grid rows ----

  /** GPledges_RowDataBound over a data row's cell texts: the start-date cell
      (index 4) is blanked when the start is exactly DateTime.MinValue, the
      end-date cell (index 5) when the end falls on DateTime.MaxValue's day. */
  function RowDataBound(p: Pledge, cells: seq<string>): (r: seq<string>)
    requires |cells| > 5
    ensures |r| == |cells|
    ensures forall i :: 0 <= i < |cells| && i != 4 && i != 5 ==> r[i] == cells[i]
  {
    var withStart := if p.startDate == MinTicks then cells[4 := ""] else cells;
    if ShortDate(p.endDate) == ShortDate(MaxTicks) then withStart[5 := ""] else withStart
  }

  /** The start cell is blanked only at the very first tick, while the end
      cell is blanked for any time during 31 December 9999. */
  lemma RowBlanking(p: Pledge, cells: seq<string>)
    requires |cells| > 5 && cells[4] != "" && cells[5] != ""
    ensures RowDataBound(p, cells)[4] == "" <==> p.startDate == MinTicks
    ensures RowDataBound(p, cells)[5] == "" <==> p.endDate >= MaxTicks - TicksPerDay + 1
  {
  }

  // ---- The block ----

  class PledgeList {
    const settings: Settings
    var targetPerson: Option<Person>
    /** ppFilterPerson, apFilterAccount, drpDates, drpLastModifiedDates and gfPledges. */
    var personFilterShown: bool
    var accountFilterShown: bool
    var datesShown: bool
    var lastModifiedShown: bool
    var filterShown: bool
    /** The block itself. */
    var shown: bool
    /** gPledges.DataSource. */
    var dataSource: seq<Pledge>
    /** pnlSummary, the repeater's rows and the grand total. */
    var summaryShown: bool
    var summary: seq<AccountSummaryRow>
    var grandTotal: int

    constructor (settings: Settings)
      ensures this.settings == settings && targetPerson.None?
      ensures personFilterShown && accountFilterShown && datesShown && lastModifiedShown && filterShown && shown
      ensures dataSource == [] && summaryShown && summary == [] && grandTotal == 0
    {
      this.settings := settings;
      targetPerson := None;
      personFilterShown, accountFilterShown, datesShown, lastModifiedShown := true, true, true, true;
      filterShown, shown := true, true;
      dataSource := [];
      summaryShown, summary, grandTotal := true, [], 0;
    }

    /** The part of OnInit that picks the target person: the current person when
        pledges are limited to them, otherwise the page's person context; with a
        target the filter panel is hidden. */
    method OnInit(currentPerson: Option<Person>, contextPerson: Option<Person>)
      modifies this
      ensures targetPerson == if settings.limitToCurrentPerson then currentPerson else contextPerson
      ensures filterShown == (targetPerson.None? && old(filterShown))
      ensures personFilterShown == old(personFilterShown) && accountFilterShown == old(accountFilterShown)
      ensures datesShown == old(datesShown) && lastModifiedShown == old(lastModifiedShown)
      ensures shown == old(shown) && dataSource == old(dataSource)
      ensures summaryShown == old(summaryShown) && summary == old(summary) && grandTotal == old(grandTotal)
    {
      if settings.limitToCurrentPerson {
        targetPerson := currentPerson;
      } else {
        targetPerson := contextPerson;
      }
      if targetPerson.Some? {
        filterShown := false;
      }
    }

    /** What a picker's Visible getter reads: its own flag, and false while the
        filter panel holding it is hidden. */
    predicate Shown(own: bool)
      reads this
    {
      own && filterShown
    }

    /** BindFilter's visibility rules. The panel test reads the pickers through
        their getters, so a panel that OnInit hid stays hidden. */
    method BindFilter()
      modifies this
      ensures personFilterShown == (targetPerson.None? && settings.showPersonFilter)
      ensures accountFilterShown == (settings.showAccountFilter && IsBlank(settings.accounts))
      ensures datesShown == settings.showDateRangeFilter
      ensures lastModifiedShown == settings.showLastModifiedFilter
      ensures filterShown == (old(filterShown) && (personFilterShown || accountFilterShown || datesShown || lastModifiedShown))
      ensures targetPerson == old(targetPerson) && shown == old(shown) && dataSource == old(dataSource)
      ensures summaryShown == old(summaryShown) && summary == old(summary) && grandTotal == old(grandTotal)
    {
      if targetPerson.None? && settings.showPersonFilter {
        personFilterShown := true;
      } else {
        personFilterShown := false;
      }
      accountFilterShown := settings.showAccountFilter && IsBlank(settings.accounts);
      datesShown := settings.showDateRangeFilter;
      lastModifiedShown := settings.showLastModifiedFilter;
      if !Shown(personFilterShown) && !Shown(accountFilterShown) && !Shown(datesShown) && !Shown(lastModifiedShown) {
        filterShown := false;
      } else {
        filterShown := true;
      }
    }

    /** The filters BindGrid resolves from the current state. `guidsOf` is the
        host's SplitDelimitedValues().AsGuidList(). */
    function ActiveFilters(prefs: Preferences, db: Database, guidsOf: string -> seq<Guid>): Filters
      reads this
    {
      Filters(ResolvePerson(targetPerson, prefs.person, Shown(personFilterShown), db.people),
              guidsOf(settings.accounts),
              ExistingAccountIds(db.accounts, prefs.accounts),
              Shown(accountFilterShown),
              prefs.dateRange, Shown(datesShown),
              prefs.lastModified, Shown(lastModifiedShown))
    }

    /** While the filter panel is hidden, as it is for a target person, none of
        the account, date-range and last-modified filters applies. */
    lemma HiddenPanelAppliesNoPicker(prefs: Preferences, db: Database, guidsOf: string -> seq<Guid>)
      requires !filterShown
      ensures var f := ActiveFilters(prefs, db, guidsOf);
              !f.accountFilterShown && !f.datesShown && !f.lastModifiedShown
    {
    }

    /** BindGrid. `sort` is the grid's chosen sort, when there is one. The
        outcome fails when the summary meets a pledge without an account. */
    method BindGrid(prefs: Preferences, db: Database, guidsOf: string -> seq<Guid>,
                    sort: Option<seq<Pledge> -> seq<Pledge>>) returns (o: Outcome)
      modifies this
      ensures var selected := Selection(db.pledges, old(ActiveFilters(prefs, db, guidsOf)));
              && dataSource == (if sort.Some? then sort.value(selected) else OrderByAccount(selected))
              && SummaryBound(selected, o, old(summary), old(grandTotal))
      ensures targetPerson == old(targetPerson) && shown == old(shown) && filterShown == old(filterShown)
      ensures personFilterShown == old(personFilterShown) && accountFilterShown == old(accountFilterShown)
      ensures datesShown == old(datesShown) && lastModifiedShown == old(lastModifiedShown)
    {
      var f := ActiveFilters(prefs, db, guidsOf);
      var pledges := ApplyFilters(db.pledges, f);
      dataSource := if sort.Some? then sort.value(pledges) else OrderByAccount(pledges);
      o := BindSummary(pledges);
      assert f == old(ActiveFilters(prefs, db, guidsOf));
    }

    /** The summary panel after binding `selected`: shown iff the account
        summary is asked for or there is no target person; when shown, either
        the rows and grand total of the selection, or a failure when one of
        its pledges has no account, leaving the previous rows. */
    predicate SummaryBound(selected: seq<Pledge>, o: Outcome, oldSummary: seq<AccountSummaryRow>, oldGrandTotal: int)
      reads this
    {
      && summaryShown == (settings.showAccountSummary || targetPerson.None?)
      && (o.Fail? <==> summaryShown && Summary(selected).Err?)
      && (o.Fail? ==> o.message == NullKeyMessage)
      && (summaryShown && o.Pass? ==> summary == Summary(selected).value && grandTotal == GrandTotal(summary))
      && (!summaryShown || o.Fail? ==> summary == oldSummary && grandTotal == oldGrandTotal)
    }

    /** The summary part of BindGrid. */
    method BindSummary(selected: seq<Pledge>) returns (o: Outcome)
      modifies this
      ensures SummaryBound(selected, o, old(summary), old(grandTotal))
      ensures dataSource == old(dataSource) && targetPerson == old(targetPerson) && shown == old(shown)
      ensures filterShown == old(filterShown) && personFilterShown == old(personFilterShown)
      ensures accountFilterShown == old(accountFilterShown)
      ensures datesShown == old(datesShown) && lastModifiedShown == old(lastModifiedShown)
    {
      o := Pass;
      if settings.showAccountSummary || targetPerson.None? {
        summaryShown := true;
        match Summary(selected)
        case Err(m) =>
          o := Fail(m);
        case Ok(rows) =>
          summary := rows;
          grandTotal := GrandTotal(rows);
      } else {
        summaryShown := false;
      }
    }

    /** OnLoad on the first request: a block limited to the current person with
        nobody signed in hides itself; otherwise it binds the filter and the grid. */
    method OnLoad(isPostBack: bool, currentPerson: Option<Person>, prefs: Preferences, db: Database,
                  guidsOf: string -> seq<Guid>, sort: Option<seq<Pledge> -> seq<Pledge>>) returns (o: Outcome)
      modifies this
      ensures targetPerson == old(targetPerson)
      ensures isPostBack ==> o.Pass? && shown == old(shown)
      ensures isPostBack || (settings.limitToCurrentPerson && currentPerson.None?) ==>
                && o.Pass? && dataSource == old(dataSource) && filterShown == old(filterShown)
                && personFilterShown == old(personFilterShown) && accountFilterShown == old(accountFilterShown)
                && datesShown == old(datesShown) && lastModifiedShown == old(lastModifiedShown)
                && summaryShown == old(summaryShown) && summary == old(summary) && grandTotal == old(grandTotal)
      ensures !isPostBack && settings.limitToCurrentPerson && currentPerson.None? ==> !shown
      ensures !isPostBack && !(settings.limitToCurrentPerson && currentPerson.None?) ==>
                && shown == old(shown)
                && personFilterShown == (targetPerson.None? && settings.showPersonFilter)
                && accountFilterShown == (settings.showAccountFilter && IsBlank(settings.accounts))
                && datesShown == settings.showDateRangeFilter
                && lastModifiedShown == settings.showLastModifiedFilter
                && filterShown == (old(filterShown) && (personFilterShown || accountFilterShown || datesShown || lastModifiedShown))
                && var selected := Selection(db.pledges, ActiveFilters(prefs, db, guidsOf));
                   && dataSource == (if sort.Some? then sort.value(selected) else OrderByAccount(selected))
                   && (o.Fail? <==> summaryShown && Summary(selected).Err?)
                   && SummaryBound(selected, o, old(summary), old(grandTotal))
    {
      o := Pass;
      if !isPostBack {
        if settings.limitToCurrentPerson && currentPerson.None? {
          shown := false;
        } else {
          BindFilter();
          o := BindGrid(prefs, db, guidsOf, sort);
        }
      }
    }
  }
}
