/** The manager's performance page (src/pages/ManagerPerformance.tsx): every user
    whose role mentions "sales", with win rate and achieved revenue over the leads
    assigned to them, sorted by win rate, highest first. */
module ManagerPerformance {
  import opened Rows
  import opened Seqs
  import opened Arith
  import opened Text

  /** A row of the page. */
  datatype RepPerformance = RepPerformance(id: string, name: string, winRate: int, cycle: int, quota: int, achieved: int)

  function WinRateOf(p: RepPerformance): int
  {
    p.winRate
  }

  /** `String(u.role || "").toLowerCase().includes("sales")`. */
  function IsSalesperson(u: User): bool
  {
    Contains(Lower(u.role), "sales")
  }

  /** The page counts a lead as won only when its status reads "closed_won". */
  function IsClosedWon(l: Lead): bool
  {
    StatusName(l.status) == "closed_won"
  }

  function LeadsOf(leads: seq<Lead>, id: string): seq<Lead>
  {
    Filter(leads, (l: Lead) => AssignedTo(l, id))
  }

  /** `totalLeads > 0 ? Math.round((closedWon / totalLeads) * 100) : 0`. */
  function WinRate(closedWon: nat, totalLeads: nat): (r: int)
    requires closedWon <= totalLeads
    ensures totalLeads == 0 ==> r == 0
    ensures 0 <= r <= 100
    ensures totalLeads > 0 && closedWon == totalLeads ==> r == 100
    ensures closedWon == 0 ==> r == 0
  {
    if totalLeads > 0 then
      PercentBounds(closedWon, totalLeads);
      assert closedWon == totalLeads ==> Percent(closedWon, totalLeads) >= 100 by {
        if closedWon == totalLeads { PercentOfNotMore(closedWon, totalLeads); }
      }
      Percent(closedWon, totalLeads)
    else 0
  }

  /** `salesman.full_name || salesman.email?.split("@")[0] || "Unknown"`. */
  function RepName(u: User): (r: string)
    ensures r != ""
    ensures u.fullName != "" ==> r == u.fullName
    ensures u.fullName == "" && LocalPart(u.email) != "" ==> r == LocalPart(u.email)
    ensures u.fullName == "" && LocalPart(u.email) == "" ==> r == "Unknown"
  {
    if u.fullName != "" then u.fullName
    else if LocalPart(u.email) != "" then LocalPart(u.email)
    else "Unknown"
  }

  function RepOf(leads: seq<Lead>): User -> RepPerformance
  {
    (u: User) =>
      var own := LeadsOf(leads, u.id);
      var closed := Filter(own, IsClosedWon);
      RepPerformance(u.id, RepName(u), WinRate(|closed|, |own|), 30, 150000, SumBy(closed, LeadValue))
  }

  /** `performance.sort((a, b) => b.winRate - a.winRate)` over the salespeople. */
  function Performance(users: seq<User>, leads: seq<Lead>): seq<RepPerformance>
  {
    SortDesc(MapSeq(Filter(users, IsSalesperson), RepOf(leads)), WinRateOf)
  }

  /** What the page shows: nothing without a signed-in manager, otherwise the ranking
      over the fetched rows (`data || []`). */
  function Shown(manager: Option<User>, users: Option<seq<User>>, leads: Option<seq<Lead>>): seq<RepPerformance>
  {
    if manager.None? then [] else Performance(users.GetOr([]), leads.GetOr([]))
  }

  /** The ranking holds exactly one row per salesperson, ordered by win rate, highest
      first. */
  lemma PerformanceRanking(users: seq<User>, leads: seq<Lead>)
    ensures var r := Performance(users, leads);
      && SortedDesc(r, WinRateOf)
      && multiset(r) == multiset(MapSeq(Filter(users, IsSalesperson), RepOf(leads)))
      && |r| == |Filter(users, IsSalesperson)|
  {
    SortDescSorted(MapSeq(Filter(users, IsSalesperson), RepOf(leads)), WinRateOf);
  }

  /** Every row stands for a user whose role mentions "sales", with a win rate in
      0..100 that is 0 when the rep has no leads, the fixed cycle of 30 days and quota
      of 150000, and the sum of values of the rep's "closed_won" leads. */
  lemma PerformanceRows(users: seq<User>, leads: seq<Lead>, r: RepPerformance)
    requires r in Performance(users, leads)
    ensures exists u :: u in users && IsSalesperson(u) && r == RepOf(leads)(u)
    ensures 0 <= r.winRate <= 100 && r.cycle == 30 && r.quota == 150000
    ensures LeadsOf(leads, r.id) == [] ==> r.winRate == 0
    ensures r.achieved == SumBy(Filter(LeadsOf(leads, r.id), IsClosedWon), LeadValue)
  {
    var all := MapSeq(Filter(users, IsSalesperson), RepOf(leads));
    SortDescSameElements(all, WinRateOf);
    var k :| 0 <= k < |all| && all[k] == r;
    var u := Filter(users, IsSalesperson)[k];
    assert u in Filter(users, IsSalesperson);
  }

  /** A lead whose status is "won" is not "closed_won": a rep whose leads are all
      "won" has win rate 0 and achieved 0. */
  lemma WonLeadsDoNotCount(leads: seq<Lead>, u: User)
    requires forall i :: 0 <= i < |leads| ==> leads[i].status == Won
    ensures RepOf(leads)(u).winRate == 0 && RepOf(leads)(u).achieved == 0
  {
    var own := LeadsOf(leads, u.id);
    forall i | 0 <= i < |own| ensures !IsClosedWon(own[i]) {
      assert own[i] in leads;
    }
    FilterNone(own, IsClosedWon);
  }
}
