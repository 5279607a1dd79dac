/** The statistics of the salesman's dashboard (src/pages/SalesmanDashboard.tsx), as
    `fetchDashboardData` derives them from the fetched rows: quota, pipeline value,
    active and won leads, conversion rate, calls made, quota progress and the
    leaderboard rank. */
module SalesmanDashboard {
  import opened Rows
  import opened Seqs
  import opened Arith

  /** What the five fetches returned (`data || []`): the user's leads, activities
      and quotas, all users and all leads. */
  datatype DashboardData = DashboardData(
    leads: seq<Lead>, activities: seq<Activity>, quotas: seq<Quota>, allUsers: seq<User>, allLeads: seq<Lead>)

  /** Without a signed-in user nothing is fetched and every list is empty. */
  function Fetched(user: Option<User>, data: DashboardData): (d: DashboardData)
    ensures user.None? ==> d == DashboardData([], [], [], [], [])
    ensures user.Some? ==> d == data
  {
    if user.Some? then data else DashboardData([], [], [], [], [])
  }

  const DefaultQuota: int := 250000

  /** `quotas.length > 0 ? quotas[0].target_amount : 250000`; a missing target
      stays missing. */
  function UserQuota(quotas: seq<Quota>): (q: Option<int>)
    ensures quotas == [] ==> q == Some(DefaultQuota)
    ensures quotas != [] ==> q == quotas[0].targetAmount
  {
    if |quotas| > 0 then quotas[0].targetAmount else Some(DefaultQuota)
  }

  /** `['qualified', 'negotiation'].includes(l.status)`. */
  function InPipeline(l: Lead): bool
  {
    StatusName(l.status) in ["qualified", "negotiation"]
  }

  function IsCall(a: Activity): bool
  {
    a.kind == "call"
  }

  /** `((won / total) * 100).toFixed(1)` as tenths of a percent, or 0 without leads. */
  function ConversionTenths(won: nat, total: nat): (r: int)
    requires won <= total
    ensures total == 0 ==> r == 0
    ensures 0 <= r <= 1000
  {
    if total > 0 then
      var r := RoundDiv(1000 * won, total);
      assert 0 <= r <= 1000 by {
        if r > 1000 { assert 2 * total * r >= 2 * total * 1001 by { MulMono(2 * total, 1001, r); } }
        if r < 0 { assert 2 * total * (r + 1) <= 0 by { MulMono(2 * total, r + 1, 0); } }
      }
      r
    else 0
  }

  /** `Math.min(Math.round((wonValue / quota) * 100), 100)`, where a missing quota
      reads as 0. Dividing by a zero quota gives +Infinity (capped to 100) for a
      positive won value, and NaN or -Infinity otherwise, which `None` stands for. */
  function QuotaProgress(wonValue: int, quota: Option<int>): (r: Option<int>)
    ensures r.Some? ==> r.value <= 100
    ensures quota.GetOr(0) != 0 ==> r.Some?
    ensures quota.GetOr(0) == 0 ==> (r.Some? <==> wonValue > 0)
    ensures quota.GetOr(0) > 0 && wonValue >= quota.GetOr(0) ==> r == Some(100)
    ensures quota.GetOr(0) > 0 && 0 <= wonValue ==> r.Some? && r.value >= 0
  {
    var d := quota.GetOr(0);
    if d == 0 then (if wonValue > 0 then Some(100) else None)
    else
      var p := RoundRatio(100 * wonValue, d);
      assert d > 0 && wonValue >= d ==> p >= 100 by {
        if d > 0 && wonValue >= d { PercentOfNotMore(wonValue, d); }
      }
      assert d > 0 && 0 <= wonValue < d ==> p >= 0 by {
        if d > 0 && 0 <= wonValue < d { PercentBounds(wonValue, d); }
      }
      Some(Min(p, 100))
  }

  // ---------------------------------------------------------------------------
  // Leaderboard

  datatype Standing = Standing(id: string, revenue: int)

  function StandingRevenue(p: Standing): int
  {
    p.revenue
  }

  function IsSalesman(u: User): bool
  {
    u.role == "salesman"
  }

  /** The sum of values of the won leads assigned to `id`. */
  function WonRevenue(allLeads: seq<Lead>, id: string): int
  {
    SumBy(Filter(allLeads, (l: Lead) => AssignedTo(l, id) && IsWon(l)), LeadValue)
  }

  function StandingOf(allLeads: seq<Lead>): User -> Standing
  {
    (u: User) => Standing(u.id, WonRevenue(allLeads, u.id))
  }

  /** `salesPerformance`: every salesman with their won revenue, largest first. */
  function SalesPerformance(allUsers: seq<User>, allLeads: seq<Lead>): seq<Standing>
  {
    SortDesc(MapSeq(Filter(allUsers, IsSalesman), StandingOf(allLeads)), StandingRevenue)
  }

  function IsUser(userId: Option<string>): Standing -> bool
  {
    (p: Standing) => Some(p.id) == userId
  }

  /** `userRank > 0 ? userRank : salespeople.length`. */
  function LeaderboardRank(userId: Option<string>, allUsers: seq<User>, allLeads: seq<Lead>): int
  {
    var k := FindIndex(SalesPerformance(allUsers, allLeads), IsUser(userId)) + 1;
    if k > 0 then k else |Filter(allUsers, IsSalesman)|
  }

  /** A user who is not among the salesmen gets the number of salesmen as rank. */
  lemma LeaderboardRankAbsent(userId: Option<string>, allUsers: seq<User>, allLeads: seq<Lead>)
    requires forall u :: u in allUsers && IsSalesman(u) ==> Some(u.id) != userId
    ensures LeaderboardRank(userId, allUsers, allLeads) == |Filter(allUsers, IsSalesman)|
  {
    var all := MapSeq(Filter(allUsers, IsSalesman), StandingOf(allLeads));
    var perf := SalesPerformance(allUsers, allLeads);
    SortDescSameElements(all, StandingRevenue);
    forall i | 0 <= i < |perf| ensures !IsUser(userId)(perf[i]) {
      assert perf[i] in all;
      var k :| 0 <= k < |all| && all[k] == perf[i];
      assert Filter(allUsers, IsSalesman)[k] in Filter(allUsers, IsSalesman);
    }
  }

  /** The rank of a user found in the standings is their 1-based position there:
      everyone above earns at least as much, and everyone who earns strictly more is
      above. */
  lemma LeaderboardRankPosition(userId: Option<string>, allUsers: seq<User>, allLeads: seq<Lead>, i: nat)
    requires i < |SalesPerformance(allUsers, allLeads)|
    requires Some(SalesPerformance(allUsers, allLeads)[i].id) == userId
    requires forall j :: 0 <= j < i ==> Some(SalesPerformance(allUsers, allLeads)[j].id) != userId
    ensures var perf := SalesPerformance(allUsers, allLeads);
      && LeaderboardRank(userId, allUsers, allLeads) == i + 1
      && (forall j :: 0 <= j < i ==> perf[j].revenue >= perf[i].revenue)
      && (forall j :: 0 <= j < |perf| && perf[j].revenue > perf[i].revenue ==> j < i)
  {
    var perf := SalesPerformance(allUsers, allLeads);
    SortDescSorted(MapSeq(Filter(allUsers, IsSalesman), StandingOf(allLeads)), StandingRevenue);
    forall j | 0 <= j < |perf| && perf[j].revenue > perf[i].revenue ensures j < i {
      SortedDescLargerBefore(perf, StandingRevenue, j, i);
    }
  }

  /** The leaderboard holds every salesman once, each with the sum of values of
      their won leads, ordered by that sum, largest first, ties in user order. */
  lemma SalesPerformanceFacts(allUsers: seq<User>, allLeads: seq<Lead>)
    ensures var perf := SalesPerformance(allUsers, allLeads);
      && SortedDesc(perf, StandingRevenue)
      && multiset(perf) == multiset(MapSeq(Filter(allUsers, IsSalesman), StandingOf(allLeads)))
      && forall p :: p in perf ==> p.revenue == WonRevenue(allLeads, p.id)
  {
    var all := MapSeq(Filter(allUsers, IsSalesman), StandingOf(allLeads));
    SortDescSorted(all, StandingRevenue);
    SortDescSameElements(all, StandingRevenue);
  }

  // ---------------------------------------------------------------------------
  // The statistics

  datatype Stats = Stats(
    userQuota: Option<int>, pipelineValue: int, activeLeads: nat, wonLeads: nat, wonValue: int,
    conversionTenths: int, callsCount: nat, quotaProgress: Option<int>, leaderboardRank: int)

  /** The derivations of `fetchDashboardData` once the rows are in. */
  function DashboardStats(user: Option<User>, data: DashboardData): Stats
  {
    var d := Fetched(user, data);
    var pipeline := Filter(d.leads, InPipeline);
    var won := Filter(d.leads, IsWon);
    var wonValue := SumBy(won, LeadValue);
    var quota := UserQuota(d.quotas);
    var userId := if user.Some? then Some(user.value.id) else None;
    Stats(quota, SumBy(pipeline, LeadValue), |pipeline|, |won|, wonValue,
          ConversionTenths(|won|, |d.leads|), |Filter(d.activities, IsCall)|,
          QuotaProgress(wonValue, quota),
          LeaderboardRank(userId, d.allUsers, d.allLeads))
  }

  lemma {:induction false} PipelineAndWonDisjoint(leads: seq<Lead>)
    ensures |Filter(leads, InPipeline)| + |Filter(leads, IsWon)| <= |leads|
  {
    if leads != [] {
      PipelineAndWonDisjoint(leads[1..]);
    }
  }

  /** Pipeline and won leads are disjoint, so together they are at most all the
      leads; the conversion rate is 0 without leads and lies in 0..100 percent;
      quota progress never exceeds 100. */
  lemma DashboardStatsFacts(user: Option<User>, data: DashboardData)
    ensures var s := DashboardStats(user, data);
      var d := Fetched(user, data);
      && s.activeLeads + s.wonLeads <= |d.leads|
      && s.wonLeads <= |d.leads|
      && (d.leads == [] ==> s.conversionTenths == 0)
      && 0 <= s.conversionTenths <= 1000
      && (s.quotaProgress.Some? ==> s.quotaProgress.value <= 100)
      && s.pipelineValue == SumBy(Filter(d.leads, InPipeline), LeadValue)
      && s.activeLeads == |Filter(d.leads, InPipeline)|
      && s.callsCount == |Filter(d.activities, IsCall)|
      && (user.None? ==> s.userQuota == Some(DefaultQuota) && s.leaderboardRank == 0 && s.activeLeads == 0)
  {
    var d := Fetched(user, data);
    PipelineAndWonDisjoint(d.leads);
  }
}
