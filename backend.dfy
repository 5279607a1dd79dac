/** The data helpers of the backend client (src/lib/supabase.ts) after their query
    returns: the client-side filtering and sample-data fallbacks of `getLeads`,
    `getActivities` and `getQuotas`, the fallback store that `createActivity` prepends
    to, and the analytics built from fetched rows by `getRevenueAnalytics`,
    `getTopPerformers` and `getTeamsWithMembers`. The query itself is an input: a
    `Fetched` value holding the rows it returned or its error. */
module Backend {
  import opened Rows
  import opened Seqs
  import opened Arith
  import opened Text

  // ---------------------------------------------------------------------------
  // getLeads

  datatype LeadFilters = LeadFilters(status: Option<string>, assignedTo: Option<string>)

  /** `filters?.x` is truthy: present and not the empty string. */
  predicate Given(o: Option<string>)
  {
    o.Some? && o.value != ""
  }

  predicate StatusPasses(f: LeadFilters, l: Lead)
  {
    !Given(f.status) || StatusName(l.status) == f.status.value
  }

  predicate AssigneePasses(f: LeadFilters, l: Lead)
  {
    !Given(f.assignedTo) || l.assignedTo == f.assignedTo
  }

  function ForAssignee(f: LeadFilters): Lead -> bool
  {
    l => AssigneePasses(f, l)
  }

  function ForBoth(f: LeadFilters): Lead -> bool
  {
    l => StatusPasses(f, l) && AssigneePasses(f, l)
  }

  /** `getLeads(filters)`. On success the query's rows are filtered again by assignee;
      when that leaves nothing, the sample leads filtered by assignee are returned.
      On an error the sample leads filtered by status and assignee are returned. */
  function GetLeads(f: LeadFilters, response: Fetched<Lead>, samples: seq<Lead>): (r: seq<Lead>)
    ensures forall l :: l in r ==> AssigneePasses(f, l)
    ensures response.Failed? ==> forall l :: l in r ==> l in samples && StatusPasses(f, l)
    ensures response.Failed? ==>
      forall l :: l in samples && StatusPasses(f, l) && AssigneePasses(f, l) ==> l in r
    ensures response.Failed? ==> r == Filter(samples, ForBoth(f))
    ensures response.Rows? && !Given(f.assignedTo) && response.rows != [] ==> r == response.rows
    ensures response.Rows? && (exists l :: l in response.rows && AssigneePasses(f, l)) ==>
      r == Filter(response.rows, ForAssignee(f))
    ensures response.Rows? && (forall l :: l in response.rows ==> !AssigneePasses(f, l)) ==>
      forall l :: l in r <==> l in samples && AssigneePasses(f, l)
    ensures response.Rows? && (forall l :: l in response.rows ==> !AssigneePasses(f, l)) ==>
      r == Filter(samples, ForAssignee(f))
  {
    match response
    case Failed => Filter(samples, ForBoth(f))
    case Rows(data) =>
      var result := if Given(f.assignedTo) then Filter(data, ForAssignee(f)) else data;
      assert !Given(f.assignedTo) ==> result == Filter(data, ForAssignee(f)) by {
        if !Given(f.assignedTo) { FilterAll(data, ForAssignee(f)); }
      }
      assert (exists l :: l in data && AssigneePasses(f, l)) ==> result != [] by {
        if l :| l in data && AssigneePasses(f, l) { assert l in result; }
      }
      assert (forall l :: l in data ==> !AssigneePasses(f, l)) ==> result == [] by {
        if forall l :: l in data ==> !AssigneePasses(f, l) {
          FilterNone(data, ForAssignee(f));
        }
      }
      if |result| > 0 then result else Filter(samples, ForAssignee(f))
  }

  /** When the query returns no rows, the fallback ignores the status filter: a sample
      lead assigned to the requested user is returned whatever its status, while on an
      error it is returned only when its status matches. */
  lemma EmptyResultIgnoresStatus(f: LeadFilters, samples: seq<Lead>, l: Lead)
    requires l in samples && AssigneePasses(f, l)
    ensures l in GetLeads(f, Rows([]), samples)
    ensures l in GetLeads(f, Failed, samples) <==> StatusPasses(f, l)
  {
  }

  /** A concrete case: asking for the "lost" leads of user "u" when the query returns
      nothing gives back a won sample lead. */
  lemma EmptyResultExample()
    ensures var won := Lead("l1", "Initech", "Peter", "", "", Won, Some(50000), Some("u"), None);
            var f := LeadFilters(Some("lost"), Some("u"));
            GetLeads(f, Rows([]), [won]) == [won] && GetLeads(f, Failed, [won]) == []
  {
    var won := Lead("l1", "Initech", "Peter", "", "", Won, Some(50000), Some("u"), None);
    var f := LeadFilters(Some("lost"), Some("u"));
    assert [won][1..] == [];
  }

  // ---------------------------------------------------------------------------
  // getActivities and getQuotas

  predicate OwnedBy(a: Activity, userId: Option<string>)
  {
    userId.Some? && a.userId == userId.value
  }

  function OwnedByFn(userId: Option<string>): Activity -> bool
  {
    a => OwnedBy(a, userId)
  }

  /** `getActivities(userId)`. */
  function GetActivities(userId: Option<string>, response: Fetched<Activity>, samples: seq<Activity>)
    : (r: seq<Activity>)
    ensures Given(userId) ==> forall a :: a in r ==> a.userId == userId.value
    ensures Given(userId) && response.Rows? && (exists a :: a in response.rows && OwnedBy(a, userId)) ==>
      r == Filter(response.rows, OwnedByFn(userId))
    ensures !Given(userId) && response.Rows? && response.rows != [] ==> r == response.rows
    ensures !Given(userId) && (response.Failed? || response.rows == []) ==> r == samples
    ensures Given(userId) && (response.Failed? || forall a :: a in response.rows ==> !OwnedBy(a, userId)) ==>
      forall a :: a in r <==> a in samples && OwnedBy(a, userId)
    ensures Given(userId) && (response.Failed? || forall a :: a in response.rows ==> !OwnedBy(a, userId)) ==>
      r == Filter(samples, OwnedByFn(userId))
  {
    var fallback := if Given(userId) then Filter(samples, OwnedByFn(userId)) else samples;
    match response
    case Failed => fallback
    case Rows(data) =>
      var filtered := if Given(userId) then Filter(data, OwnedByFn(userId)) else data;
      assert Given(userId) && (exists a :: a in data && OwnedBy(a, userId)) ==> filtered != [] by {
        if Given(userId) && exists a :: a in data && OwnedBy(a, userId) {
          var a :| a in data && OwnedBy(a, userId);
          assert a in filtered;
        }
      }
      assert Given(userId) && (forall a :: a in data ==> !OwnedBy(a, userId)) ==> filtered == [] by {
        if Given(userId) && forall a :: a in data ==> !OwnedBy(a, userId) {
          FilterNone(data, OwnedByFn(userId));
        }
      }
      if |filtered| > 0 then filtered else fallback
  }

  /** `getQuotas(userId)`: the query's rows when there are any (not filtered again),
      otherwise the sample quotas of that user. `userId` is `None` when the caller
      passes no argument, and then no sample matches. */
  function QuotaOf(userId: Option<string>): Quota -> bool
  {
    (q: Quota) => Some(q.userId) == userId
  }

  function GetQuotas(userId: Option<string>, response: Fetched<Quota>, samples: seq<Quota>): (r: seq<Quota>)
    ensures response.Rows? && response.rows != [] ==> r == response.rows
    ensures response.Failed? || response.rows == [] ==>
      forall q :: q in r <==> q in samples && Some(q.userId) == userId
    ensures response.Failed? || response.rows == [] ==> r == Filter(samples, QuotaOf(userId))
  {
    if response.Rows? && response.rows != [] then response.rows
    else Filter(samples, QuotaOf(userId))
  }

  /** `getUsers()`: the query's rows when there are any, otherwise (no rows, `null`
      data, or an error) the sample users. */
  function GetUsers(response: Fetched<User>, samples: seq<User>): (r: seq<User>)
    ensures response.Rows? && response.rows != [] ==> r == response.rows
    ensures response.Failed? || response.rows == [] ==> r == samples
    ensures samples != [] ==> r != []
  {
    if response.Rows? && response.rows != [] then response.rows else samples
  }

  // ---------------------------------------------------------------------------
  // createActivity and the sample activity list it prepends to

  datatype NewActivity = NewActivity(
    userId: string, kind: string, title: string, description: string, leadId: Option<string>)

  /** What an insert call did: returned `{data, error}`, or threw. */
  datatype InsertOutcome<T> = Returned(data: seq<T>, error: Option<string>) | Threw

  datatype Reply<T> = Reply(data: seq<T>, error: Option<string>)

  /** The activity built when the insert throws: a fresh id and the current time,
      then the caller's fields. */
  function FallbackActivity(data: NewActivity, freshId: string, now: int): Activity
  {
    Activity(freshId, data.userId, data.leadId, data.kind, None, data.title, data.description, now)
  }

  /** The module-level `sampleActivities` array. */
  class SampleActivities {
    var rows: seq<Activity>

    constructor (initial: seq<Activity>)
      ensures rows == initial
    {
      rows := initial;
    }

    /** `createActivity`: the insert's reply; when the insert throws, a fallback row is
        put at the front of the sample list (`unshift`) and returned. */
    method CreateActivity(data: NewActivity, outcome: InsertOutcome<Activity>, freshId: string, now: int)
      returns (reply: Reply<Activity>)
      modifies this
      ensures outcome.Returned? ==> rows == old(rows) && reply == Reply(outcome.data, outcome.error)
      ensures outcome.Threw? ==>
        rows == [FallbackActivity(data, freshId, now)] + old(rows)
        && reply == Reply([FallbackActivity(data, freshId, now)], None)
    {
      match outcome
      case Returned(d, e) =>
        reply := Reply(d, e);
      case Threw =>
        var fallback := FallbackActivity(data, freshId, now);
        rows := [fallback] + rows;
        reply := Reply([fallback], None);
    }
  }

  // ---------------------------------------------------------------------------
  // getRevenueAnalytics

  datatype MonthTotals = MonthTotals(revenue: int, deals: nat)

  /** The `monthlyMap` Map: its entries, and its keys in insertion order. */
  datatype MonthMap = MonthMap(totals: map<YearMonth, MonthTotals>, order: seq<YearMonth>)

  /** The month a won lead is counted under, from `new Date(created_at)`; a missing
      date is read as the epoch, January 1970 (time zones are not modelled). */
  function MonthOf(l: Lead): YearMonth
  {
    l.createdAt.GetOr(YearMonth(1970, 0))
  }

  function InMonth(k: YearMonth): Lead -> bool
  {
    l => MonthOf(l) == k
  }

  /** The map after the `forEach` has visited the leads of `s` in order. */
  function Tally(s: seq<Lead>): MonthMap
  {
    if s == [] then MonthMap(map[], [])
    else
      var prev := Tally(s[..|s| - 1]);
      var lead := s[|s| - 1];
      var key := MonthOf(lead);
      var month := if key in prev.totals then prev.totals[key] else MonthTotals(0, 0);
      MonthMap(prev.totals[key := MonthTotals(month.revenue + LeadValue(lead), month.deals + 1)],
               if key in prev.totals then prev.order else prev.order + [key])
  }

  /** Fills the month map from the won leads, creating an entry at its first lead. */
  method TallyWonLeads(wonLeads: seq<Lead>) returns (monthly: MonthMap)
    ensures monthly == Tally(wonLeads)
  {
    var totals: map<YearMonth, MonthTotals> := map[];
    var order: seq<YearMonth> := [];
    for i := 0 to |wonLeads|
      invariant MonthMap(totals, order) == Tally(wonLeads[..i])
    {
      var lead := wonLeads[i];
      var key := MonthOf(lead);
      if key !in totals {
        totals := totals[key := MonthTotals(0, 0)];
        order := order + [key];
      }
      var month := totals[key];
      totals := totals[key := MonthTotals(month.revenue + LeadValue(lead), month.deals + 1)];
      assert wonLeads[..i + 1][..i] == wonLeads[..i];
    }
    assert wonLeads[..|wonLeads|] == wonLeads;
    monthly := MonthMap(totals, order);
  }

  ghost predicate WellFormedMap(m: MonthMap)
  {
    Distinct(m.order) && forall k :: k in m.totals <==> k in m.order
  }

  lemma FilterSingleton(l: Lead, p: Lead -> bool)
    ensures Filter([l], p) == if p(l) then [l] else []
  {
    assert [l][1..] == [];
  }

  /** The won leads of month `k`. */
  function LeadsIn(s: seq<Lead>, k: YearMonth): seq<Lead>
  {
    Filter(s, InMonth(k))
  }

  lemma LeadsInSnoc(init: seq<Lead>, lead: Lead, k: YearMonth)
    ensures LeadsIn(init + [lead], k) == LeadsIn(init, k) + (if MonthOf(lead) == k then [lead] else [])
    ensures SumBy(LeadsIn(init + [lead], k), LeadValue)
         == SumBy(LeadsIn(init, k), LeadValue) + (if MonthOf(lead) == k then LeadValue(lead) else 0)
  {
    FilterAppend(init, [lead], InMonth(k));
    FilterSingleton(lead, InMonth(k));
    SumByAppend(LeadsIn(init, k), if MonthOf(lead) == k then [lead] else [], LeadValue);
    assert SumBy([lead], LeadValue) == LeadValue(lead) + SumBy([lead][1..], LeadValue);
  }

  /** The key list has no repeats and holds exactly the keys of the map. */
  lemma {:induction false} TallyWellFormed(s: seq<Lead>)
    ensures WellFormedMap(Tally(s))
  {
    if s != [] {
      TallyWellFormed(s[..|s| - 1]);
    }
  }

  /** A month has an entry exactly when some lead falls in it. */
  lemma {:induction false} TallyKeys(s: seq<Lead>)
    ensures forall k :: k in Tally(s).totals <==> |LeadsIn(s, k)| > 0
  {
    if s != [] {
      var init, lead := s[..|s| - 1], s[|s| - 1];
      assert s == init + [lead];
      TallyKeys(init);
      forall k ensures k in Tally(s).totals <==> |LeadsIn(s, k)| > 0 {
        LeadsInSnoc(init, lead, k);
      }
    }
  }

  /** Each entry is the sum of values and the number of the leads of its month. */
  lemma {:induction false} TallyTotals(s: seq<Lead>)
    ensures forall k :: k in Tally(s).totals ==>
      Tally(s).totals[k] == MonthTotals(SumBy(LeadsIn(s, k), LeadValue), |LeadsIn(s, k)|)
  {
    if s != [] {
      var init, lead := s[..|s| - 1], s[|s| - 1];
      assert s == init + [lead];
      TallyTotals(init);
      TallyKeys(init);
      forall k | k in Tally(s).totals
        ensures Tally(s).totals[k] == MonthTotals(SumBy(LeadsIn(s, k), LeadValue), |LeadsIn(s, k)|)
      {
        LeadsInSnoc(init, lead, k);
      }
    }
  }


  function NegMonthIndex(k: YearMonth): int
  {
    -MonthIndex(k)
  }

  /** The map's key: `${date.getFullYear()}-${String(date.getMonth() + 1).padStart(2, '0')}`.
      Only the month is padded; a year before 0 is written with a minus sign. */
  function MonthKey(k: YearMonth): string
  {
    YearText(k.year) + "-" + [DigitChar((k.month + 1) / 10), DigitChar((k.month + 1) % 10)]
  }

  /** `String(year)`. */
  function YearText(y: int): string
  {
    if y >= 0 then Decimal(y) else "-" + Decimal(-y)
  }

  lemma FourDigits(n: nat)
    requires 1000 <= n <= 9999
    ensures |Decimal(n)| == 4
  {
    assert |Decimal(n / 1000)| == 1;
    assert Decimal(n / 100) == Decimal(n / 1000) + [DigitChar((n / 100) % 10)];
    assert Decimal(n / 10) == Decimal(n / 100) + [DigitChar((n / 10) % 10)];
  }

  /** The padded month reads back as its number. */
  lemma TwoDigits(v: nat)
    requires v < 100
    ensures DecimalValue([DigitChar(v / 10), DigitChar(v % 10)]) == v
  {
    var t := [DigitChar(v / 10), DigitChar(v % 10)];
    assert t[..1] == [t[0]] && [t[0]][..0] == [];
    assert DecimalValue([t[0]]) == v / 10;
    assert DecimalValue(t) == DecimalValue(t[..1]) * 10 + v % 10;
  }

  /** For years of four digits, `a.localeCompare(b) < 0` on the keys is chronological
      order of the months. */
  lemma MonthKeyOrder(a: YearMonth, b: YearMonth)
    requires 1000 <= a.year <= 9999 && 1000 <= b.year <= 9999
    ensures Less(MonthKey(a), MonthKey(b)) <==> MonthIndex(a) < MonthIndex(b)
  {
    var ya, yb := YearText(a.year), YearText(b.year);
    var ma := [DigitChar((a.month + 1) / 10), DigitChar((a.month + 1) % 10)];
    var mb := [DigitChar((b.month + 1) / 10), DigitChar((b.month + 1) % 10)];
    FourDigits(a.year);
    FourDigits(b.year);
    assert MonthKey(a) == ya + ("-" + ma) && MonthKey(b) == yb + ("-" + mb);
    LessAppend(ya, yb, "-" + ma, "-" + mb);
    assert ("-" + ma)[1..] == ma && ("-" + mb)[1..] == mb;
    assert Less("-" + ma, "-" + mb) <==> Less(ma, mb);
    DecimalValueOf(a.year);
    DecimalValueOf(b.year);
    LessDigits(ya, yb);
    TwoDigits(a.month + 1);
    TwoDigits(b.month + 1);
    LessDigits(ma, mb);
  }

  /** A year of three digits breaks that order: "1000-01" sorts before "999-12". */
  lemma ShortYearKeyOrder()
    ensures var early, late := YearMonth(999, 11), YearMonth(1000, 0);
      MonthIndex(early) < MonthIndex(late) && Less(MonthKey(late), MonthKey(early))
  {
    assert Decimal(1000)[0] == '1' by {
      assert Decimal(1000) == Decimal(100) + ['0'];
      assert Decimal(100) == Decimal(10) + ['0'];
      assert Decimal(10) == Decimal(1) + ['0'];
    }
    assert Decimal(999)[0] == '9' by {
      assert Decimal(999) == Decimal(99) + ['9'];
      assert Decimal(99) == Decimal(9) + ['9'];
    }
    assert MonthKey(YearMonth(1000, 0))[0] == '1';
    assert MonthKey(YearMonth(999, 11))[0] == '9';
  }

  /** `Array.from(monthlyMap.entries()).sort(by key).slice(-6)`, keys only. For years
      of four digits the key order is the order of the months (`MonthKeyOrder`), and
      sorting ascending is sorting by the negated month index, largest first. */
  function LatestKeys(m: MonthMap): seq<YearMonth>
  {
    TakeLast(SortDesc(m.order, NegMonthIndex), 6)
  }

  /** Months in strictly increasing order. */
  predicate Ascending(s: seq<YearMonth>)
  {
    forall i, j :: 0 <= i < j < |s| ==> MonthIndex(s[i]) < MonthIndex(s[j])
  }

  /** A sequence of distinct months sorted by negated index is strictly increasing. */
  lemma AscendingMonths(s: seq<YearMonth>)
    requires SortedDesc(s, NegMonthIndex) && Distinct(s)
    ensures Ascending(s)
  {
    forall i, j | 0 <= i < j < |s| ensures MonthIndex(s[i]) < MonthIndex(s[j]) {
      assert NegMonthIndex(s[i]) >= NegMonthIndex(s[j]);
      if MonthIndex(s[i]) == MonthIndex(s[j]) {
        MonthIndexInjective(s[i], s[j]);
      }
    }
  }

  lemma AscendingSuffix(s: seq<YearMonth>, k: nat)
    requires Ascending(s) && k <= |s|
    ensures Ascending(s[k..])
  {
    forall i, j | 0 <= i < j < |s[k..]| ensures MonthIndex(s[k..][i]) < MonthIndex(s[k..][j]) {
      assert s[k..][i] == s[k + i] && s[k..][j] == s[k + j];
    }
  }

  /** The shown keys are keys of the map. */
  lemma LatestKeysInOrder(m: MonthMap)
    ensures forall k :: k in LatestKeys(m) ==> k in m.order
  {
    SortDescSameElements(m.order, NegMonthIndex);
  }

  /** At most six keys are shown, in strictly increasing order. */
  lemma LatestKeysAscending(m: MonthMap)
    requires Distinct(m.order)
    ensures |LatestKeys(m)| <= 6
    ensures Ascending(LatestKeys(m))
  {
    var sorted := SortDesc(m.order, NegMonthIndex);
    SortDescSorted(m.order, NegMonthIndex);
    PermutationDistinct(m.order, sorted);
    AscendingMonths(sorted);
    AscendingSuffix(sorted, |sorted| - |LatestKeys(m)|);
  }

  /** For years of four digits the months kept are in the order `localeCompare` puts
      their keys in. */
  lemma LatestKeysKeyOrder(m: MonthMap)
    requires Distinct(m.order)
    requires forall k :: k in m.order ==> 1000 <= k.year <= 9999
    ensures forall i, j :: 0 <= i < j < |LatestKeys(m)| ==>
      Less(MonthKey(LatestKeys(m)[i]), MonthKey(LatestKeys(m)[j]))
  {
    var keys := LatestKeys(m);
    LatestKeysAscending(m);
    LatestKeysInOrder(m);
    forall i, j | 0 <= i < j < |keys| ensures Less(MonthKey(keys[i]), MonthKey(keys[j])) {
      MonthKeyOrder(keys[i], keys[j]);
    }
  }

  /** Every key of the map is shown or is earlier than all shown ones. */
  lemma LatestKeysAreLatest(m: MonthMap, k: YearMonth)
    requires Distinct(m.order) && k in m.order
    ensures k in LatestKeys(m) || forall j :: 0 <= j < |LatestKeys(m)| ==> MonthIndex(k) < MonthIndex(LatestKeys(m)[j])
  {
    var sorted := SortDesc(m.order, NegMonthIndex);
    SortedMonths(m.order);
    SuffixIsLatest(sorted, |sorted| - |LatestKeys(m)|, k);
  }

  /** In increasing months, an element is in a suffix or earlier than all of it. */
  lemma SuffixIsLatest(s: seq<YearMonth>, off: int, k: YearMonth)
    requires Ascending(s) && 0 <= off <= |s| && k in s
    ensures k in s[off..] || forall j :: 0 <= j < |s[off..]| ==> MonthIndex(k) < MonthIndex(s[off..][j])
  {
    var p :| 0 <= p < |s| && s[p] == k;
    if p >= off {
      assert s[off..][p - off] == k;
    } else {
      EarlierThanSuffix(s, p, off);
    }
  }

  /** The keys sorted by month are the keys of the map, in strictly increasing order. */
  lemma SortedMonths(order: seq<YearMonth>)
    requires Distinct(order)
    ensures var sorted := SortDesc(order, NegMonthIndex);
      Ascending(sorted) && forall k :: k in sorted <==> k in order
  {
    var sorted := SortDesc(order, NegMonthIndex);
    SortDescSameElements(order, NegMonthIndex);
    SortDescSorted(order, NegMonthIndex);
    PermutationDistinct(order, sorted);
    AscendingMonths(sorted);
  }

  lemma EarlierThanSuffix(s: seq<YearMonth>, p: int, off: int)
    requires Ascending(s) && 0 <= p < off <= |s|
    ensures forall j :: 0 <= j < |s[off..]| ==> MonthIndex(s[p]) < MonthIndex(s[off..][j])
  {
    forall j | 0 <= j < |s[off..]| ensures MonthIndex(s[p]) < MonthIndex(s[off..][j]) {
      assert s[off..][j] == s[off + j];
    }
  }

  /** One entry of `monthlyRevenue`. The month's year is kept beside its name so that
      the order can be stated; the float fields `target` and `avgDeal` are left out. */
  datatype MonthRow = MonthRow(month: YearMonth, name: string, revenue: int, deals: nat)

  predicate KeysInMap(m: MonthMap)
  {
    forall k :: k in m.order ==> k in m.totals
  }

  /** The rows of the latest six months of a filled map. */
  function SeriesOf(m: MonthMap): (rows: seq<MonthRow>)
    requires KeysInMap(m)
    ensures |rows| == |LatestKeys(m)|
    ensures forall i :: 0 <= i < |rows| ==> rows[i].month == LatestKeys(m)[i] && rows[i].month in m.totals
  {
    var keys := LatestKeys(m);
    LatestKeysInOrder(m);
    seq(|keys|, i requires 0 <= i < |keys| =>
      MonthRow(keys[i], MonthNames[keys[i].month], m.totals[keys[i]].revenue, m.totals[keys[i]].deals))
  }

  /** The monthly series built from the won leads. */
  function MonthlySeries(wonLeads: seq<Lead>): seq<MonthRow>
  {
    TallyWellFormed(wonLeads);
    SeriesOf(Tally(wonLeads))
  }

  datatype RevenueAnalytics = Monthly(rows: seq<MonthRow>) | SampleRevenue

  /** `getRevenueAnalytics`: on an error or an empty table, the hardcoded sample series;
      otherwise the series of the won leads. */
  method GetRevenueAnalytics(response: Fetched<Lead>) returns (r: RevenueAnalytics)
    ensures response.Failed? || response.rows == [] ==> r == SampleRevenue
    ensures response.Rows? && response.rows != [] ==> r == Monthly(MonthlySeries(Filter(response.rows, IsWon)))
  {
    if response.Failed? || response.rows == [] {
      return SampleRevenue;
    }
    var wonLeads := Filter(response.rows, IsWon);
    var monthly := TallyWonLeads(wonLeads);
    TallyWellFormed(wonLeads);
    r := Monthly(SeriesOf(monthly));
  }

  function RowMonths(rows: seq<MonthRow>): seq<YearMonth>
  {
    seq(|rows|, i requires 0 <= i < |rows| => rows[i].month)
  }

  lemma SeriesMonths(m: MonthMap)
    requires KeysInMap(m)
    ensures RowMonths(SeriesOf(m)) == LatestKeys(m)
  {
  }

  /** The series has at most six months, in strictly increasing order. */
  lemma MonthlySeriesAscending(wonLeads: seq<Lead>)
    ensures var rows := MonthlySeries(wonLeads);
      |rows| <= 6 && Ascending(RowMonths(rows))
  {
    TallyWellFormed(wonLeads);
    LatestKeysAscending(Tally(wonLeads));
    SeriesMonths(Tally(wonLeads));
  }

  /** The months shown are the latest that have a won lead: the month of any won lead
      is shown or is earlier than every month shown. */
  lemma MonthlySeriesLatest(wonLeads: seq<Lead>, l: Lead)
    requires l in wonLeads
    ensures var rows := MonthlySeries(wonLeads);
      MonthOf(l) in RowMonths(rows) || forall j :: 0 <= j < |rows| ==> MonthIndex(MonthOf(l)) < MonthIndex(rows[j].month)
  {
    var m := Tally(wonLeads);
    TallyWellFormed(wonLeads);
    TallyKeys(wonLeads);
    SeriesMonths(m);
    var i :| 0 <= i < |wonLeads| && wonLeads[i] == l;
    assert InMonth(MonthOf(l))(wonLeads[i]);
    assert l in LeadsIn(wonLeads, MonthOf(l));
    LatestKeysAreLatest(m, MonthOf(l));
  }

  /** Each shown month carries the sum of values and the number of that month's won
      leads, so never zero deals (`avgDeal` never takes its zero branch). */
  lemma MonthlySeriesTotals(wonLeads: seq<Lead>)
    ensures var rows := MonthlySeries(wonLeads);
      forall i :: 0 <= i < |rows| ==>
        && rows[i].deals >= 1
        && rows[i].deals == |LeadsIn(wonLeads, rows[i].month)|
        && rows[i].revenue == SumBy(LeadsIn(wonLeads, rows[i].month), LeadValue)
        && rows[i].name == MonthNames[rows[i].month.month]
  {
    var m := Tally(wonLeads);
    TallyWellFormed(wonLeads);
    TallyKeys(wonLeads);
    TallyTotals(wonLeads);
    LatestKeysInOrder(m);
  }

  // ---------------------------------------------------------------------------
  // getTopPerformers

  const DefaultQuota: int := 150000

  function IsSalesman(u: User): bool
  {
    u.role == "salesman"
  }

  /** `.eq('status', 'won')` on the leads query, applied by the backend. */
  function WonQuery(table: seq<Lead>): (r: seq<Lead>)
    ensures forall l :: l in r <==> l in table && l.status == Won
  {
    Filter(table, IsWon)
  }

  /** `quotas.find(q => q.user_id === userId)?.target_amount || 150000`. */
  function QuotaFor(quotas: seq<Quota>, userId: string): (q: int)
    ensures q != 0
    ensures (forall i :: 0 <= i < |quotas| ==> quotas[i].userId != userId) ==> q == DefaultQuota
    ensures forall i ::
      (0 <= i < |quotas| && quotas[i].userId == userId && forall j :: 0 <= j < i ==> quotas[j].userId != userId)
      ==> q == OrDefault(quotas[i].targetAmount, DefaultQuota)
  {
    var i := FindIndex(quotas, (q: Quota) => q.userId == userId);
    if i == -1 then DefaultQuota else OrDefault(quotas[i].targetAmount, DefaultQuota)
  }

  datatype Performer = Performer(name: string, revenue: int, deals: nat, quota: int, achievement: int)

  function LeadsOf(leads: seq<Lead>, userId: string): (r: seq<Lead>)
    ensures forall l :: l in r <==> l in leads && AssignedTo(l, userId)
  {
    Filter(leads, l => AssignedTo(l, userId))
  }

  function PerformerOf(u: User, wonLeads: seq<Lead>, quotas: seq<Quota>): Performer
  {
    var userLeads := LeadsOf(wonLeads, u.id);
    var revenue := SumBy(userLeads, LeadValue);
    var quota := QuotaFor(quotas, u.id);
    Performer(u.fullName, revenue, |userLeads|, quota, if quota > 0 then Percent(revenue, quota) else 0)
  }

  function PerformerRevenue(p: Performer): int
  {
    p.revenue
  }

  datatype TopPerformers = Ranked(rows: seq<Performer>) | SampleTopFive | SampleTopTwo

  function RankedPerformers(users: seq<User>, wonLeads: seq<Lead>, quotas: seq<Quota>): seq<Performer>
  {
    var all := MapSeq(Filter(users, IsSalesman), u => PerformerOf(u, wonLeads, quotas));
    TakeFirst(SortDesc(all, PerformerRevenue), 5)
  }

  /** What one awaited query of the analytics helpers gave: `{data, error}`, where the
      data may be `null` and an error may be returned, or a rejected call. These helpers
      test `error` and `data` one by one, and a rejection goes to their `catch`. */
  datatype Response<T> = Response(data: Option<seq<T>>, error: bool) | Threw

  /** The query returned rows and no error. */
  predicate Answered<T>(q: Response<T>)
  {
    q.Response? && !q.error && q.data.Some?
  }

  /** `getTopPerformers`: a rejected query lands in the `catch`, which gives the
      two-row sample; an error, a `null` data field or no users gives the five-row
      sample; no salesman among the users gives the two-row sample again. The leads
      rows are the table before the `.eq('status', 'won')` of the query. */
  function GetTopPerformers(users: Response<User>, leadsTable: Response<Lead>, quotas: Response<Quota>)
    : (r: TopPerformers)
    ensures users.Threw? || leadsTable.Threw? || quotas.Threw? ==> r == SampleTopTwo
    ensures r == SampleTopFive <==>
      && !users.Threw? && !leadsTable.Threw? && !quotas.Threw?
      && (!Answered(users) || !Answered(leadsTable) || !Answered(quotas) || users.data.value == [])
    ensures r == SampleTopTwo <==>
      || users.Threw? || leadsTable.Threw? || quotas.Threw?
      || (&& Answered(users) && Answered(leadsTable) && Answered(quotas) && users.data.value != []
          && Filter(users.data.value, IsSalesman) == [])
    ensures r.Ranked? ==>
      && Answered(users) && Answered(leadsTable) && Answered(quotas)
      && r.rows == RankedPerformers(users.data.value, WonQuery(leadsTable.data.value), quotas.data.value)
      && r.rows != []
  {
    if users.Threw? || leadsTable.Threw? || quotas.Threw? then SampleTopTwo
    else if !Answered(users) || !Answered(leadsTable) || !Answered(quotas) || users.data.value == [] then
      SampleTopFive
    else
      var performers := RankedPerformers(users.data.value, WonQuery(leadsTable.data.value), quotas.data.value);
      if |performers| > 0 then Ranked(performers) else SampleTopTwo
  }

  /** The ranking is ordered by revenue, largest first, and has at most five rows. */
  lemma RankedPerformersSorted(users: seq<User>, wonLeads: seq<Lead>, quotas: seq<Quota>)
    ensures var rows := RankedPerformers(users, wonLeads, quotas);
      |rows| <= 5 && SortedDesc(rows, PerformerRevenue)
  {
    TopSorted(MapSeq(Filter(users, IsSalesman), u => PerformerOf(u, wonLeads, quotas)), PerformerRevenue, 5);
  }

  /** Every row is the figures of a salesman: the sum and the number of their won
      leads and their quota. */
  lemma RankedPerformersAreSalesmen(users: seq<User>, wonLeads: seq<Lead>, quotas: seq<Quota>, p: Performer)
    requires p in RankedPerformers(users, wonLeads, quotas)
    ensures exists u :: u in users && IsSalesman(u) && p == PerformerOf(u, wonLeads, quotas)
  {
    var salesmen := Filter(users, IsSalesman);
    var all := MapSeq(salesmen, u => PerformerOf(u, wonLeads, quotas));
    TopSorted(all, PerformerRevenue, 5);
    var i :| 0 <= i < |all| && all[i] == p;
    assert salesmen[i] in salesmen;
  }

  /** A salesman left out of the ranking earns no more than anyone shown. */
  lemma RankedPerformersTop(users: seq<User>, wonLeads: seq<Lead>, quotas: seq<Quota>, u: User)
    requires u in users && IsSalesman(u)
    ensures var rows := RankedPerformers(users, wonLeads, quotas);
      PerformerOf(u, wonLeads, quotas) in rows
      || forall p :: p in rows ==> p.revenue >= PerformerOf(u, wonLeads, quotas).revenue
  {
    var salesmen := Filter(users, IsSalesman);
    var all := MapSeq(salesmen, u => PerformerOf(u, wonLeads, quotas));
    var k :| 0 <= k < |users| && users[k] == u;
    assert u in salesmen;
    var i :| 0 <= i < |salesmen| && salesmen[i] == u;
    assert all[i] == PerformerOf(u, wonLeads, quotas);
    TopLeftOut(all, PerformerRevenue, 5, all[i]);
  }

  /** A performer's figures. */
  lemma PerformerOfFacts(u: User, wonLeads: seq<Lead>, quotas: seq<Quota>)
    ensures var p := PerformerOf(u, wonLeads, quotas);
      && p.name == u.fullName
      && p.revenue == SumBy(LeadsOf(wonLeads, u.id), LeadValue)
      && p.deals == |LeadsOf(wonLeads, u.id)|
      && p.quota == QuotaFor(quotas, u.id)
      && (p.quota > 0 ==> p.achievement == Percent(p.revenue, p.quota))
  {
  }

  // ---------------------------------------------------------------------------
  // getTeamsWithMembers

  datatype MemberDetail = MemberDetail(
    id: string, name: string, role: string, quota: int, achieved: int, deals: nat, email: string)

  datatype TeamSummary = TeamSummary(
    id: string, name: string, manager: string, revenue: int, quota: int, achievement: int,
    region: string, members: seq<MemberDetail>)

  /** The summaries, the two sample teams of the guard, or the one-team list of the
      `catch`. */
  datatype TeamsAnswer = TeamRows(rows: seq<TeamSummary>) | SampleTeams | CaughtTeams

  /** `users.find(u => u.id === id)`. */
  function FindUser(users: seq<User>, id: string): (r: Option<User>)
    ensures r.None? <==> forall i :: 0 <= i < |users| ==> users[i].id != id
    ensures r.Some? ==> r.value in users && r.value.id == id
  {
    var i := FindIndex(users, (u: User) => u.id == id);
    if i == -1 then None else Some(users[i])
  }

  /** `text || fallback` on a field of a user that may be missing. */
  function FieldOr(user: Option<User>, field: User -> string, fallback: string): (r: string)
    ensures user.None? ==> r == fallback
    ensures user.Some? && field(user.value) != "" ==> r == field(user.value)
    ensures user.Some? && field(user.value) == "" ==> r == fallback
  {
    if user.Some? && field(user.value) != "" then field(user.value) else fallback
  }

  function FullNameOf(u: User): string { u.fullName }
  function RoleOf(u: User): string { u.role }
  function EmailOf(u: User): string { u.email }

  function MemberDetailOf(tm: TeamMember, users: seq<User>, wonLeads: seq<Lead>, quotas: seq<Quota>): MemberDetail
  {
    var user := FindUser(users, tm.userId);
    var userLeads := LeadsOf(wonLeads, tm.userId);
    MemberDetail(tm.userId, FieldOr(user, FullNameOf, "Unknown"), FieldOr(user, RoleOf, "salesman"),
                 QuotaFor(quotas, tm.userId), SumBy(userLeads, LeadValue), |userLeads|,
                 FieldOr(user, EmailOf, ""))
  }

  function MemberAchieved(m: MemberDetail): int { m.achieved }
  function MemberQuota(m: MemberDetail): int { m.quota }

  /** `tm => tm.team_id === team.id`. */
  function InTeam(team: Team): TeamMember -> bool
  {
    (tm: TeamMember) => tm.teamId == team.id
  }

  function TeamSummaryOf(team: Team, teamMembers: seq<TeamMember>, users: seq<User>,
                         wonLeads: seq<Lead>, quotas: seq<Quota>): TeamSummary
  {
    var members := Filter(teamMembers, InTeam(team));
    var details := MapSeq(members, tm => MemberDetailOf(tm, users, wonLeads, quotas));
    var revenue := SumBy(details, MemberAchieved);
    var quota := SumBy(details, MemberQuota);
    TeamSummary(team.id, team.name, FieldOr(FindUser(users, team.managerId), FullNameOf, "Unknown"),
                revenue, quota, if quota > 0 then Percent(revenue, quota) else 0,
                if team.description != "" then team.description else "Unknown", details)
  }

  predicate Errored<T>(q: Response<T>)
  {
    q.Response? && q.error
  }

  predicate NullData<T>(q: Response<T>)
  {
    q.Response? && q.data.None?
  }

  /** The rows a query returned, `null` read as none. */
  function RowsOr<T>(q: Response<T>): seq<T>
  {
    if q.Response? && q.data.Some? then q.data.value else []
  }

  /** Some team has a member, so that building its details reads the leads and the
      quotas. */
  predicate SomeTeamHasMembers(teams: seq<Team>, teamMembers: seq<TeamMember>)
  {
    exists i :: 0 <= i < |teams| && Filter(teamMembers, InTeam(teams[i])) != []
  }

  /** Some query of `getTeamsWithMembers` was rejected. */
  predicate TeamQueriesRejected(teams: Response<Team>, teamMembers: Response<TeamMember>, users: Response<User>,
                                leadsTable: Response<Lead>, quotas: Response<Quota>)
  {
    teams.Threw? || teamMembers.Threw? || users.Threw? || leadsTable.Threw? || quotas.Threw?
  }

  /** `teamsError || membersError || usersError || leadsError || quotasError || !teams
      || !users || teams.length === 0`. */
  predicate TeamsGuard(teams: Response<Team>, teamMembers: Response<TeamMember>, users: Response<User>,
                       leadsTable: Response<Lead>, quotas: Response<Quota>)
  {
    || Errored(teams) || Errored(teamMembers) || Errored(users) || Errored(leadsTable) || Errored(quotas)
    || NullData(teams) || NullData(users) || RowsOr(teams) == []
  }

  /** `getTeamsWithMembers`. A rejected query lands in the `catch`, which gives the
      one-team list. The guard gives the two sample teams. Otherwise every team is
      summarised; `null` members, or `null` leads or quotas once some team has a
      member, make a `.filter` or `.find` throw, and the `catch` again gives the
      one-team list. There is always a team on that path, so the list after
      `teamsWithData.length > 0` is never returned. */
  function GetTeamsWithMembers(teams: Response<Team>, teamMembers: Response<TeamMember>, users: Response<User>,
                               leadsTable: Response<Lead>, quotas: Response<Quota>): (r: TeamsAnswer)
    ensures r == SampleTeams <==>
      !TeamQueriesRejected(teams, teamMembers, users, leadsTable, quotas)
      && TeamsGuard(teams, teamMembers, users, leadsTable, quotas)
    ensures r == CaughtTeams <==>
      || TeamQueriesRejected(teams, teamMembers, users, leadsTable, quotas)
      || (&& !TeamsGuard(teams, teamMembers, users, leadsTable, quotas)
          && (|| NullData(teamMembers)
              || ((NullData(leadsTable) || NullData(quotas)) && SomeTeamHasMembers(RowsOr(teams), RowsOr(teamMembers)))))
    ensures r.TeamRows? ==> Answered(teams) && Answered(teamMembers) && Answered(users)
    ensures r.TeamRows? ==> |r.rows| == |RowsOr(teams)| > 0
    ensures r.TeamRows? ==> forall i :: 0 <= i < |r.rows| ==>
      r.rows[i] == TeamSummaryOf(RowsOr(teams)[i], RowsOr(teamMembers), RowsOr(users),
                                 WonQuery(RowsOr(leadsTable)), RowsOr(quotas))
  {
    if teams.Threw? || teamMembers.Threw? || users.Threw? || leadsTable.Threw? || quotas.Threw? then
      CaughtTeams
    else if teams.error || teamMembers.error || users.error || leadsTable.error || quotas.error
         || teams.data.None? || users.data.None? || teams.data.value == [] then
      SampleTeams
    else if teamMembers.data.None? then
      CaughtTeams
    else if (leadsTable.data.None? || quotas.data.None?) && SomeTeamHasMembers(teams.data.value, teamMembers.data.value) then
      CaughtTeams
    else
      var wonLeads := WonQuery(RowsOr(leadsTable));
      TeamRows(MapSeq(teams.data.value, t => TeamSummaryOf(t, teamMembers.data.value, users.data.value, wonLeads, RowsOr(quotas))))
  }

  /** A team's members are its `team_members` rows, in order, one detail each: a user
      is listed exactly when a row links them to the team. */
  lemma TeamSummaryMembers(team: Team, teamMembers: seq<TeamMember>, users: seq<User>,
                           wonLeads: seq<Lead>, quotas: seq<Quota>)
    ensures var t := TeamSummaryOf(team, teamMembers, users, wonLeads, quotas);
      var rows := Filter(teamMembers, InTeam(team));
      && |t.members| == |rows|
      && (forall i :: 0 <= i < |rows| ==> t.members[i] == MemberDetailOf(rows[i], users, wonLeads, quotas))
      && forall u :: (exists i :: 0 <= i < |t.members| && t.members[i].id == u) <==> TeamMember(team.id, u) in teamMembers
  {
    var t := TeamSummaryOf(team, teamMembers, users, wonLeads, quotas);
    var rows := Filter(teamMembers, InTeam(team));
    forall u ensures (exists i :: 0 <= i < |t.members| && t.members[i].id == u) <==> TeamMember(team.id, u) in teamMembers {
      if i :| 0 <= i < |t.members| && t.members[i].id == u {
        assert rows[i] in rows;
        assert rows[i] == TeamMember(team.id, u);
      }
      if TeamMember(team.id, u) in teamMembers {
        var j :| 0 <= j < |teamMembers| && teamMembers[j] == TeamMember(team.id, u);
        assert InTeam(team)(teamMembers[j]);
        var i :| 0 <= i < |rows| && rows[i] == TeamMember(team.id, u);
        assert t.members[i].id == u;
      }
    }
  }

  /** A member's figures: achieved is the sum of values of their won leads and deals is
      their number; the quota is never 0; a user who cannot be found is "Unknown". */
  lemma MemberDetailFacts(tm: TeamMember, users: seq<User>, wonLeads: seq<Lead>, quotas: seq<Quota>)
    ensures var m := MemberDetailOf(tm, users, wonLeads, quotas);
      && m.id == tm.userId
      && m.achieved == SumBy(LeadsOf(wonLeads, tm.userId), LeadValue)
      && m.deals == |LeadsOf(wonLeads, tm.userId)|
      && m.quota != 0
      && ((forall i :: 0 <= i < |users| ==> users[i].id != tm.userId) ==> m.name == "Unknown" && m.email == "")
  {
  }

  /** A team's quota is the sum of its members' quotas. When no quota row of a member
      has a negative target, every member counts at least 1 towards it, so the team's
      achievement falls back to 0 only for a team without members. */
  lemma {:induction false} TeamQuotaPositive(details: seq<MemberDetail>)
    requires forall i :: 0 <= i < |details| ==> details[i].quota > 0
    ensures SumBy(details, MemberQuota) >= |details|
  {
    if details != [] {
      TeamQuotaPositive(details[1..]);
    }
  }

  lemma QuotaForPositive(quotas: seq<Quota>, userId: string)
    requires forall q :: q in quotas ==> q.targetAmount.GetOr(0) >= 0
    ensures QuotaFor(quotas, userId) > 0
  {
  }

  lemma TeamAchievementGuard(team: Team, teamMembers: seq<TeamMember>, users: seq<User>,
                             wonLeads: seq<Lead>, quotas: seq<Quota>)
    requires forall q :: q in quotas ==> q.targetAmount.GetOr(0) >= 0
    ensures var t := TeamSummaryOf(team, teamMembers, users, wonLeads, quotas);
      && t.revenue == SumBy(t.members, MemberAchieved)
      && t.quota == SumBy(t.members, MemberQuota)
      && (t.members != [] ==> t.quota > 0 && t.achievement == Percent(t.revenue, t.quota))
      && (t.members == [] ==> t.quota == 0 && t.achievement == 0)
  {
    var t := TeamSummaryOf(team, teamMembers, users, wonLeads, quotas);
    forall i | 0 <= i < |t.members| ensures t.members[i].quota > 0 {
      QuotaForPositive(quotas, t.members[i].id);
    }
    TeamQuotaPositive(t.members);
  }
}
