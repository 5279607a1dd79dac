/** The revenue trend chart (src/components/dashboard/RevenueChart.tsx): two
    dictionaries keyed by month name, seeded with the six calendar months up to today,
    filled from the won leads and from the quotas, and read back as the last six keys
    in insertion order. */
module RevenueChart {
  import opened Rows
  import opened Seqs
  import opened Arith

  // ---------------------------------------------------------------------------
  // A dictionary keyed by month name, as a JavaScript object with non-numeric keys:
  // `Object.keys` lists the keys in the order they were first assigned. The twelve
  // names are distinct (`MonthNamesDistinct`), so a name stands for its month
  // number 0..11 and the dictionary is keyed by that number.

  datatype Dict = Dict(keys: seq<Month>, vals: map<Month, int>)

  const Empty: Dict := Dict([], map[])

  ghost predicate WellFormed(d: Dict)
  {
    Distinct(d.keys) && forall k :: k in d.vals <==> k in d.keys
  }

  /** `d[k] = v`: a new key goes to the end of the key order, an old key keeps its
      place. */
  function Put(d: Dict, k: Month, v: int): (r: Dict)
    ensures k in d.vals ==> r.keys == d.keys
    ensures k !in d.vals ==> r.keys == d.keys + [k]
    ensures r.vals == d.vals[k := v]
  {
    if k in d.vals then Dict(d.keys, d.vals[k := v]) else Dict(d.keys + [k], d.vals[k := v])
  }

  lemma PutWellFormed(d: Dict, k: Month, v: int)
    requires WellFormed(d)
    ensures WellFormed(Put(d, k, v))
  {
    if k !in d.vals {
      var ks := d.keys + [k];
      forall i, j | 0 <= i < j < |ks| ensures ks[i] != ks[j] {
        if j == |ks| - 1 { assert ks[i] in d.keys; }
      }
    }
  }

  /** `d[k] || 0`. */
  function Get(d: Dict, k: Month): int
  {
    if k in d.vals then d.vals[k] else 0
  }

  /** Reading back a key just assigned, or another one. */
  lemma GetPut(d: Dict, k: Month, v: int, k2: Month)
    ensures Get(Put(d, k, v), k2) == if k == k2 then v else Get(d, k2)
  {
  }

  lemma MonthNamesDistinct()
    ensures forall i, j :: 0 <= i < j < 12 ==> MonthNames[i] != MonthNames[j]
  {
  }

  // ---------------------------------------------------------------------------
  // The six months up to today

  /** `new Date(today.getFullYear(), today.getMonth() - i, 1)`, as a month. */
  function MonthsBefore(today: YearMonth, i: int): (m: YearMonth)
    ensures MonthIndex(m) == MonthIndex(today) - i
  {
    var idx := MonthIndex(today) - i;
    YearMonth(idx / 12, idx % 12)
  }

  /** The months (by name) the seeding loop assigns, oldest first (`i` from 5 down
      to 0). */
  function WindowNames(today: YearMonth): (names: seq<Month>)
    ensures |names| == 6
  {
    seq(6, k requires 0 <= k < 6 => MonthsBefore(today, 5 - k).month)
  }

  /** Months less than a year apart have different numbers. */
  lemma MonthsApart(a: YearMonth, b: YearMonth)
    requires 0 < MonthIndex(b) - MonthIndex(a) < 12
    ensures a.month != b.month
  {
  }

  /** Six consecutive months have six different names. */
  lemma WindowNamesDistinct(today: YearMonth)
    ensures Distinct(WindowNames(today))
  {
    var names := WindowNames(today);
    forall i, j | 0 <= i < j < 6 ensures names[i] != names[j] {
      MonthsApart(MonthsBefore(today, 5 - i), MonthsBefore(today, 5 - j));
    }
  }

  /** The dictionary after assigning 0 to each of `names` in turn. */
  function Seeded(names: seq<Month>): Dict
  {
    if names == [] then Empty else Put(Seeded(names[..|names| - 1]), names[|names| - 1], 0)
  }

  lemma {:induction false} SeededFacts(names: seq<Month>)
    requires Distinct(names)
    ensures Seeded(names).keys == names
    ensures WellFormed(Seeded(names))
    ensures forall k :: Get(Seeded(names), k) == 0
  {
    if names != [] {
      var init := names[..|names| - 1];
      assert Distinct(init);
      SeededFacts(init);
      assert names[|names| - 1] !in init;
      assert names == init + [names[|names| - 1]];
      PutWellFormed(Seeded(init), names[|names| - 1], 0);
      forall k ensures Get(Seeded(names), k) == 0 {
        GetPut(Seeded(init), names[|names| - 1], 0, k);
      }
    }
  }

  // ---------------------------------------------------------------------------
  // Aggregation

  /** `monthNames[new Date(lead.created_at).getMonth()]`. */
  function LeadMonthName(l: Lead): Month
    requires l.createdAt.Some?
  {
    l.createdAt.value.month
  }

  /** `lead.status === 'won' && lead.created_at`. */
  function Counted(l: Lead): bool
  {
    IsWon(l) && l.createdAt.Some?
  }

  /** One step of the lead loop. */
  function AddLead(d: Dict, l: Lead): Dict
  {
    if Counted(l) then Put(d, LeadMonthName(l), Get(d, LeadMonthName(l)) + LeadValue(l)) else d
  }

  /** `leads.forEach(AddLead)`. */
  function AddLeads(d: Dict, leads: seq<Lead>): Dict
  {
    if leads == [] then d else AddLead(AddLeads(d, leads[..|leads| - 1]), leads[|leads| - 1])
  }

  function QuotaMonthName(q: Quota): Month
  {
    q.periodStart.month
  }

  /** One step of the quota loop: `(d[k] || 0) + (quota.target_amount || 0)`. */
  function AddQuota(d: Dict, q: Quota): Dict
  {
    Put(d, QuotaMonthName(q), Get(d, QuotaMonthName(q)) + OrZero(q.targetAmount))
  }

  function AddQuotas(d: Dict, quotas: seq<Quota>): Dict
  {
    if quotas == [] then d else AddQuota(AddQuotas(d, quotas[..|quotas| - 1]), quotas[|quotas| - 1])
  }

  /** The leads a bucket name collects: won, dated, and created in a month of that
      name, in any year. */
  function InBucket(k: Month): Lead -> bool
  {
    (l: Lead) => Counted(l) && LeadMonthName(l) == k
  }

  function QuotaInBucket(k: Month): Quota -> bool
  {
    (q: Quota) => QuotaMonthName(q) == k
  }

  function QuotaAmount(q: Quota): int
  {
    OrZero(q.targetAmount)
  }

  /** One lead adds its value to its own bucket and leaves the others alone. */
  lemma AddLeadBucket(d: Dict, l: Lead, k: Month)
    ensures Get(AddLead(d, l), k) == Get(d, k) + (if InBucket(k)(l) then LeadValue(l) else 0)
  {
    if Counted(l) {
      GetPut(d, LeadMonthName(l), Get(d, LeadMonthName(l)) + LeadValue(l), k);
    }
  }

  /** A bucket ends up with what it held plus the values of the leads it collects. */
  lemma {:induction false} AddLeadsBucket(d: Dict, leads: seq<Lead>, k: Month)
    ensures Get(AddLeads(d, leads), k) == Get(d, k) + SumBy(Filter(leads, InBucket(k)), LeadValue)
  {
    if leads != [] {
      var init := leads[..|leads| - 1];
      var l := leads[|leads| - 1];
      assert AddLeads(d, leads) == AddLead(AddLeads(d, init), l);
      AddLeadsBucket(d, init, k);
      AddLeadBucket(AddLeads(d, init), l, k);
      assert leads == init + [l];
      SumFilterSnoc(init, l, InBucket(k), LeadValue);
    }
  }

  lemma AddQuotaBucket(d: Dict, q: Quota, k: Month)
    ensures Get(AddQuota(d, q), k) == Get(d, k) + (if QuotaInBucket(k)(q) then QuotaAmount(q) else 0)
  {
    GetPut(d, QuotaMonthName(q), Get(d, QuotaMonthName(q)) + OrZero(q.targetAmount), k);
  }

  lemma {:induction false} AddQuotasBucket(d: Dict, quotas: seq<Quota>, k: Month)
    ensures Get(AddQuotas(d, quotas), k) == Get(d, k) + SumBy(Filter(quotas, QuotaInBucket(k)), QuotaAmount)
  {
    if quotas != [] {
      var init := quotas[..|quotas| - 1];
      var q := quotas[|quotas| - 1];
      assert AddQuotas(d, quotas) == AddQuota(AddQuotas(d, init), q);
      AddQuotasBucket(d, init, k);
      AddQuotaBucket(AddQuotas(d, init), q, k);
      assert quotas == init + [q];
      SumFilterSnoc(init, q, QuotaInBucket(k), QuotaAmount);
    }
  }

  /** The target dictionary has a key exactly when it was seeded or some quota starts
      in a month of that name. */
  lemma {:induction false} AddQuotasHas(d: Dict, quotas: seq<Quota>, k: Month)
    ensures k in AddQuotas(d, quotas).vals <==> k in d.vals || Filter(quotas, QuotaInBucket(k)) != []
  {
    if quotas != [] {
      var init := quotas[..|quotas| - 1];
      var q := quotas[|quotas| - 1];
      AddQuotasHas(d, init, k);
      assert quotas == init + [q];
      FilterAppend(init, [q], QuotaInBucket(k));
      assert [q][1..] == [];
    }
  }

  lemma AddLeadsSingle(d: Dict, l: Lead)
    ensures AddLeads(d, [l]) == AddLead(d, l)
  {
    assert [l][..0] == [];
  }

  /** The loops only ever add keys at the end. */
  lemma {:induction false} AddLeadsKeys(d: Dict, leads: seq<Lead>)
    ensures d.keys <= AddLeads(d, leads).keys
  {
    if leads != [] {
      AddLeadsKeys(d, leads[..|leads| - 1]);
    }
  }

  // ---------------------------------------------------------------------------
  // The chart

  /** A chart point; `target` is a JavaScript number, `NaN` when the target
      dictionary has no entry for the month. */
  datatype Point = Point(month: string, revenue: int, target: JsNumber)

  /** What is shown: the points, or the sample series when there are none. */
  datatype ChartData = Points(points: seq<Point>) | SampleChart

  /** `Math.round(d[k] / 1000)`: a key the dictionary lacks reads as `undefined`, and
      dividing it gives `NaN`. */
  function Thousands(d: Dict, k: Month): JsNumber
  {
    if k in d.vals then Num(RoundDiv(d.vals[k], 1000)) else NaN
  }

  /** `Object.keys(monthlyRevenue).slice(-6).map(...)`, in thousands, rounded: one
      point per key of the last six revenue keys, in order; the target is `NaN`
      exactly for a key the target dictionary lacks. */
  function PointsOf(revenue: Dict, target: Dict): (r: seq<Point>)
    ensures |r| == |TakeLast(revenue.keys, 6)|
    ensures forall i :: 0 <= i < |r| ==>
      var k := TakeLast(revenue.keys, 6)[i];
      && r[i].month == MonthNames[k]
      && r[i].revenue == RoundDiv(Get(revenue, k), 1000)
      && (r[i].target.NaN? <==> k !in target.vals)
      && (k in target.vals ==> r[i].target == Num(RoundDiv(target.vals[k], 1000)))
  {
    var ks := TakeLast(revenue.keys, 6);
    seq(|ks|, i requires 0 <= i < |ks| =>
      Point(MonthNames[ks[i]], RoundDiv(Get(revenue, ks[i]), 1000), Thousands(target, ks[i])))
  }

  /** The chart as the component computes it. */
  function ChartAsWritten(today: YearMonth, leads: Option<seq<Lead>>, quotas: Option<seq<Quota>>): ChartData
  {
    var seeded := Seeded(WindowNames(today));
    var revenue := AddLeads(seeded, leads.GetOr([]));
    var target := AddQuotas(seeded, quotas.GetOr([]));
    var points := PointsOf(revenue, target);
    if |points| > 0 then Points(points) else SampleChart
  }

  /** `fetchData` up to `setData`: the seeding loop, the two `forEach` loops over
      the dictionaries, and the read-back. */
  method BuildChart(today: YearMonth, leads: Option<seq<Lead>>, quotas: Option<seq<Quota>>) returns (data: ChartData)
    ensures data == ChartAsWritten(today, leads, quotas)
  {
    var seeded := SeedMonths(today);
    var monthlyRevenue := seeded;
    var monthlyTarget := seeded;
    if leads.Some? {
      monthlyRevenue := AddLeadValues(seeded, leads.value);
    }
    if quotas.Some? {
      monthlyTarget := AddQuotaTargets(seeded, quotas.value);
    }
    var chartData := PointsOf(monthlyRevenue, monthlyTarget);
    data := if |chartData| > 0 then Points(chartData) else SampleChart;
  }

  /** The seeding loop: `for (let i = 5; i >= 0; i--) d[monthNames[...]] = 0`. The two
      dictionaries are seeded alike, so one result stands for both. */
  method SeedMonths(today: YearMonth) returns (d: Dict)
    ensures d == Seeded(WindowNames(today))
  {
    d := Empty;
    ghost var names := WindowNames(today);
    var i := 5;
    while i >= 0
      invariant -1 <= i <= 5
      invariant d == Seeded(names[..5 - i])
    {
      var monthKey := MonthsBefore(today, i).month;
      SeededSnoc(names, 5 - i);
      d := Put(d, monthKey, 0);
      i := i - 1;
    }
    assert names[..6] == names;
  }

  lemma SeededSnoc(names: seq<Month>, n: nat)
    requires n < |names|
    ensures Seeded(names[..n + 1]) == Put(Seeded(names[..n]), names[n], 0)
  {
    assert names[..n + 1][..n] == names[..n];
  }

  /** `leads.forEach(...)` over the revenue dictionary. */
  method AddLeadValues(d: Dict, ls: seq<Lead>) returns (r: Dict)
    ensures r == AddLeads(d, ls)
  {
    r := d;
    for j := 0 to |ls|
      invariant r == AddLeads(d, ls[..j])
    {
      assert ls[..j + 1][..j] == ls[..j];
      var lead := ls[j];
      if lead.status == Won && lead.createdAt.Some? {
        var monthKey := lead.createdAt.value.month;
        r := Put(r, monthKey, Get(r, monthKey) + OrZero(lead.value));
      }
    }
    assert ls[..|ls|] == ls;
  }

  /** `quotas.forEach(...)` over the target dictionary. */
  method AddQuotaTargets(d: Dict, qs: seq<Quota>) returns (r: Dict)
    ensures r == AddQuotas(d, qs)
  {
    r := d;
    for j := 0 to |qs|
      invariant r == AddQuotas(d, qs[..j])
    {
      assert qs[..j + 1][..j] == qs[..j];
      var monthKey := qs[j].periodStart.month;
      r := Put(r, monthKey, Get(r, monthKey) + OrZero(qs[j].targetAmount));
    }
    assert qs[..|qs|] == qs;
  }

  /** The keys the chart reads back: the last six of the revenue dictionary. */
  function ChartKeys(today: YearMonth, leads: seq<Lead>): seq<Month>
  {
    TakeLast(AddLeads(Seeded(WindowNames(today)), leads).keys, 6)
  }

  /** The chart always has exactly six points, so the sample series is never shown
      by this path; every point's revenue is the rounded thousands of the won, dated
      leads created in a month of that name, whatever the year. Its target is the
      rounded thousands of the quotas starting in a month of that name when the month
      was seeded or some quota starts in it, and `NaN` otherwise. */
  lemma ChartAsWrittenFacts(today: YearMonth, leads: seq<Lead>, quotas: seq<Quota>)
    ensures var c := ChartAsWritten(today, Some(leads), Some(quotas));
      var ks := ChartKeys(today, leads);
      && c.Points? && |c.points| == 6 && |ks| == 6
      && forall i :: 0 <= i < 6 ==>
           && c.points[i].month == MonthNames[ks[i]]
           && c.points[i].revenue == RoundDiv(SumBy(Filter(leads, InBucket(ks[i])), LeadValue), 1000)
           && (c.points[i].target.NaN? <==> ks[i] !in WindowNames(today) && Filter(quotas, QuotaInBucket(ks[i])) == [])
           && (c.points[i].target.Num? ==>
                 c.points[i].target.value == RoundDiv(SumBy(Filter(quotas, QuotaInBucket(ks[i])), QuotaAmount), 1000))
  {
    var names := WindowNames(today);
    WindowNamesDistinct(today);
    SeededFacts(names);
    var seeded := Seeded(names);
    AddLeadsKeys(seeded, leads);
    var ks := ChartKeys(today, leads);
    var target := AddQuotas(seeded, quotas);
    forall i | 0 <= i < 6
      ensures Get(AddLeads(seeded, leads), ks[i]) == SumBy(Filter(leads, InBucket(ks[i])), LeadValue)
      ensures Get(target, ks[i]) == SumBy(Filter(quotas, QuotaInBucket(ks[i])), QuotaAmount)
      ensures ks[i] in target.vals <==> ks[i] in names || Filter(quotas, QuotaInBucket(ks[i])) != []
      ensures ks[i] in target.vals ==> target.vals[ks[i]] == Get(target, ks[i])
    {
      AddLeadsBucket(seeded, leads, ks[i]);
      AddQuotasBucket(seeded, quotas, ks[i]);
      AddQuotasHas(seeded, quotas, ks[i]);
    }
  }

  /** With no leads or quotas the points are the six months up to today, oldest
      first, with revenue and target 0. */
  lemma ChartAsWrittenWindow(today: YearMonth)
    ensures var c := ChartAsWritten(today, Some([]), Some([]));
      && c.Points? && |c.points| == 6
      && forall i :: 0 <= i < 6 ==>
           c.points[i].month == MonthNames[WindowNames(today)[i]] && c.points[i].revenue == 0 && c.points[i].target == Num(0)
  {
    WindowNamesDistinct(today);
    SeededFacts(WindowNames(today));
  }

  const June2026: YearMonth := YearMonth(2026, 5)

  /** A won lead of 5000 created in September 2025. */
  const SeptemberLead: Lead := Lead("l1", "", "", "", "", Won, Some(5000), None, Some(YearMonth(2025, 8)))

  /** A won lead of 7000 created in June 2025. */
  const LastJuneLead: Lead := Lead("l2", "", "", "", "", Won, Some(7000), None, Some(YearMonth(2025, 5)))

  /** The buckets seeded in June 2026, January to June. */
  lemma SeededJune2026()
    ensures WindowNames(June2026) == [0, 1, 2, 3, 4, 5]
    ensures Seeded(WindowNames(June2026)).keys == [0, 1, 2, 3, 4, 5]
    ensures forall k :: Get(Seeded(WindowNames(June2026)), k) == 0
    ensures WellFormed(Seeded(WindowNames(June2026)))
  {
    WindowNamesDistinct(June2026);
    SeededFacts(WindowNames(June2026));
  }

  /** The lead from September 2025 appends the key "Sep" to the seeded six. */
  lemma SeptemberKeys()
    ensures AddLeads(Seeded(WindowNames(June2026)), [SeptemberLead]).keys == [0, 1, 2, 3, 4, 5, 8]
  {
    SeededJune2026();
    var seeded := Seeded(WindowNames(June2026));
    AddLeadsSingle(seeded, SeptemberLead);
    assert 8 !in seeded.keys;
  }

  /** The lead from September 2025, seen in June 2026, adds the key "Sep" after the
      six seeded months, so the six points read Feb to Jun and then Sep: January
      drops out and a month outside the window is shown last. */
  lemma OldLeadDisplacesMonth()
    ensures var c := ChartAsWritten(June2026, Some([SeptemberLead]), Some([]));
      && c.Points? && |c.points| == 6 && c.points[0].month == "Feb" && c.points[5].month == "Sep"
      && c.points[5].revenue == 5 && c.points[5].target == NaN
  {
    SeptemberKeys();
    var seeded := Seeded(WindowNames(June2026));
    var revenue := AddLeads(seeded, [SeptemberLead]);
    assert AddQuotas(seeded, []) == seeded;
    var points := PointsOf(revenue, seeded);
    assert TakeLast(revenue.keys, 6) == [1, 2, 3, 4, 5, 8];
    assert points[0].month == MonthNames[1] == "Feb";
    assert points[5].month == MonthNames[8] == "Sep";
    SeededJune2026();
    assert 8 !in seeded.vals;
    AddLeadsSingle(seeded, SeptemberLead);
    GetPut(seeded, 8, 5000, 8);
    assert points[5].revenue == RoundDiv(5000, 1000) == 5;
  }

  /** The lead from June 2025 adds its value to the seeded "Jun" key. */
  lemma JuneRevenue()
    ensures var revenue := AddLeads(Seeded(WindowNames(June2026)), [LastJuneLead]);
      revenue.keys == [0, 1, 2, 3, 4, 5] && Get(revenue, 5) == 7000
  {
    SeededJune2026();
    var seeded := Seeded(WindowNames(June2026));
    AddLeadsSingle(seeded, LastJuneLead);
    GetPut(seeded, 5, 7000, 5);
  }

  /** The lead from June 2025, seen in June 2026, lands in the current "Jun" bucket. */
  lemma LastYearLeadCounted()
    ensures var c := ChartAsWritten(June2026, Some([LastJuneLead]), Some([]));
      c.Points? && |c.points| == 6 && c.points[5].month == "Jun" && c.points[5].revenue == 7
  {
    JuneRevenue();
    var seeded := Seeded(WindowNames(June2026));
    var revenue := AddLeads(seeded, [LastJuneLead]);
    assert AddQuotas(seeded, []) == seeded;
    var points := PointsOf(revenue, seeded);
    assert TakeLast(revenue.keys, 6) == [0, 1, 2, 3, 4, 5];
    assert points[5].month == MonthNames[5] == "Jun";
    assert points[5].revenue == RoundDiv(7000, 1000) == 7;
  }

  // ---------------------------------------------------------------------------
  // The chart the component evidently intends: the six months up to today, each
  // keyed by year and month.

  function Window(today: YearMonth): (w: seq<YearMonth>)
    ensures |w| == 6
  {
    seq(6, k requires 0 <= k < 6 => MonthsBefore(today, 5 - k))
  }

  function CreatedIn(m: YearMonth): Lead -> bool
  {
    (l: Lead) => IsWon(l) && l.createdAt == Some(m)
  }

  function StartsIn(m: YearMonth): Quota -> bool
  {
    (q: Quota) => q.periodStart == m
  }

  function PointIn(leads: seq<Lead>, quotas: seq<Quota>): YearMonth -> Point
  {
    (m: YearMonth) => Point(MonthNames[m.month],
      RoundDiv(SumBy(Filter(leads, CreatedIn(m)), LeadValue), 1000),
      Num(RoundDiv(SumBy(Filter(quotas, StartsIn(m)), QuotaAmount), 1000)))
  }

  /** Six points for the six calendar months ending with today's, oldest first,
      each holding only the leads and quotas of that very month; no target is `NaN`. */
  function Chart(today: YearMonth, leads: Option<seq<Lead>>, quotas: Option<seq<Quota>>): (c: ChartData)
    ensures c.Points? && |c.points| == 6
    ensures forall i :: 0 <= i < 6 ==> c.points[i].month == MonthNames[Window(today)[i].month]
    ensures forall i :: 0 <= i < 6 ==> MonthIndex(Window(today)[i]) == MonthIndex(today) - 5 + i
    ensures forall i :: 0 <= i < 6 ==> c.points[i].target.Num?
  {
    Points(MapSeq(Window(today), PointIn(leads.GetOr([]), quotas.GetOr([]))))
  }

  /** A lead created outside the six months does not change the chart. */
  lemma ChartIgnoresOldLead(today: YearMonth, leads: seq<Lead>, quotas: seq<Quota>, l: Lead)
    requires forall i :: 0 <= i < 6 ==> l.createdAt != Some(Window(today)[i])
    ensures Chart(today, Some(leads + [l]), Some(quotas)) == Chart(today, Some(leads), Some(quotas))
  {
    forall i | 0 <= i < 6
      ensures Filter(leads + [l], CreatedIn(Window(today)[i])) == Filter(leads, CreatedIn(Window(today)[i]))
    {
      FilterAppend(leads, [l], CreatedIn(Window(today)[i]));
    }
  }

  /** Distinct points are distinct months, so no lead is counted in two of them. */
  lemma ChartMonthsDistinct(today: YearMonth)
    ensures forall i, j :: 0 <= i < j < 6 ==> Window(today)[i] != Window(today)[j]
  {
  }
}
