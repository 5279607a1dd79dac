/** The performance bar chart (src/components/dashboard/PerformanceChart.tsx): one
    bar group per user with their won and total lead counts against a fixed target. */
module PerformanceChart {
  import opened Rows
  import opened Seqs
  import TeamPerformance

  /** A bar group of the chart. */
  datatype Bar = Bar(agent: string, target: int, achieved: nat, deals: nat)

  function LeadsOf(leads: seq<Lead>, id: string): seq<Lead>
  {
    Filter(leads, (l: Lead) => AssignedTo(l, id))
  }

  function BarOf(leads: seq<Lead>): User -> Bar
  {
    (u: User) => Bar(TeamPerformance.DisplayName(u), 10, |Filter(LeadsOf(leads, u.id), IsWon)|, |LeadsOf(leads, u.id)|)
  }

  /** `performanceData`, set only once both lists arrived (`users && leads`): one
      bar group per user, in user order, labelled with the user's display name; the
      target is always 10; `achieved` counts that user's won leads and `deals` all
      their leads, so no bar has more won than total deals. */
  function ChartData(users: Option<seq<User>>, leads: Option<seq<Lead>>): (bars: seq<Bar>)
    ensures !(users.Some? && leads.Some?) ==> bars == []
    ensures users.Some? && leads.Some? ==> |bars| == |users.value|
    ensures users.Some? && leads.Some? ==> forall i :: 0 <= i < |bars| ==>
      && bars[i].agent == TeamPerformance.DisplayName(users.value[i])
      && bars[i].target == 10
      && bars[i].achieved == |Filter(LeadsOf(leads.value, users.value[i].id), IsWon)|
      && bars[i].deals == |LeadsOf(leads.value, users.value[i].id)|
      && bars[i].achieved <= bars[i].deals
  {
    if users.Some? && leads.Some? then MapSeq(users.value, BarOf(leads.value)) else []
  }
}
