# SalesFlow CRM front end: a Dafny model of its client-side logic

SalesFlow is a CRM front end whose rows (users, leads, activities, quotas, teams,
projects) live in a hosted backend. This project models what the client does with
those rows once they arrive, and proves properties of that model:

- the backend client's post-processing: the `getLeads`, `getActivities` and `getQuotas`
  fallbacks, the monthly revenue series of `getRevenueAnalytics`, the top-five ranking
  of `getTopPerformers`, the team summaries of `getTeamsWithMembers`, and the in-memory
  sample list that `createActivity` prepends to (module `Backend`);
- the manager's lead table: the realtime INSERT/UPDATE/DELETE reducer over the held
  list, the search and status filter, and the edit dialog with its optimistic status
  patch (`ManagerLeads`, with the patch shared in `LeadEditing`);
- the salesman's lead table: its filter, badge labels, call and message routing, the
  edit and note dialogs and the note guard (`SalesmanLeads`);
- the dashboards and cards: salesman statistics and leaderboard rank
  (`SalesmanDashboard`), the manager's team selection and totals (`ManagerTeam`), the
  team performance card with its in-place sort on an array (`TeamPerformance`), the
  performance bar chart (`PerformanceChart`), the manager's win-rate ranking
  (`ManagerPerformance`), the quota card (`QuotaProgress`), the revenue trend chart
  with its month-name dictionaries (`RevenueChart`), the recent-activity card and its
  time labels (`ActivityTimeline`), and the projects page (`ManagerDashboard`).

Shared modules: `Rows` (the row datatypes, `x || default` on numbers, status text),
`Seqs` (filter, map, sums, a stable descending sort, first/last slices), `Text`
(`toLowerCase`, `includes`, `trim`, `split('@')[0]`) and `Arith` (`Math.round` of a
ratio, `Math.ceil`, `min`/`max`).

Conventions. What a backend call returns is a parameter. Where a helper treats a
returned error like a thrown one (`if (error) throw error`) and reads `null` data as no
rows, the answer is a `Fetched<T>`: `Rows(rows)` or `Failed`. `getTopPerformers` and
`getTeamsWithMembers` instead test each query's `error` and `data` and send a rejected
call to their `catch`, with different results; each of their queries is a
`Response<T>`: `Response(data, error)` with `data` an `Option`, or `Threw`. Elsewhere
`Option<seq<T>>` stands for a `data` field that may be `null`. Dates come already parsed: a month is
`YearMonth(year, month 0..11)`, an activity's time and the clock are milliseconds.
Optional text columns are the empty string when absent, since the views only test them
for truthiness; numeric columns read with `|| 0` or `|| default` are `Option<int>`.
JavaScript's stable `Array.prototype.sort` with a key difference as comparator is a
stable insertion sort, largest key first. Where a component's state changes step by
step (the lead tables, the team page, the team card, the projects page, the activity
card, the sample activity list), it is a `class` whose methods state every field they
leave.

The lead status is text in the rows. The lead tables declare five values, but the
manager's performance page compares against `"closed_won"`, so the model keeps any
other text as `Status.Other`.

## Model

| member | source | states |
|---|---|---|
| Rows.ParseStatus | src/components/dashboard/ManagerLeadsTable.tsx:22 | reading the status column keeps the text; only the five declared names become named statuses, and `Other` never holds one of them |
| Rows.ParseStatusName | src/components/dashboard/ManagerLeadsTable.tsx:22 | the text of a status reads back as that status, so the text determines the status |
| Rows.OrDefault | src/lib/supabase.ts:389 | `n \|\| default`: a missing or zero number gives the default, any other number itself |
| Rows.OrZero | src/lib/supabase.ts:387 | `n \|\| 0`: a missing number counts as 0 |
| Text.Lower | src/components/dashboard/ManagerLeadsTable.tsx:90 | lower-casing keeps the length and maps each character on its own |
| Text.LocalPart | src/components/dashboard/TeamPerformance.tsx:33 | the part before the first '@' is a prefix of the address with no '@' in it, followed by '@' when shorter |
| Text.TrimEmpty | src/components/dashboard/SalesmanLeadsTable.tsx:168 | a text trims to nothing exactly when every character is white space |
| Backend.GetLeads | src/lib/supabase.ts:118-141 | with an assignee, every lead returned is theirs on all three paths; when the answer holds some of their rows, exactly those rows come back, in order; the catch path gives exactly the samples that pass the status and assignee filters, in order; with no assignee, non-empty rows come back unchanged; rows with nothing for the assignee give exactly the assignee's samples, in order, whatever the status filter |
| Backend.EmptyResultIgnoresStatus | src/lib/supabase.ts:129-131 | when the query returns no rows, a sample lead of the assignee is returned whatever the status filter says, while the catch path returns it only if it passes the status filter |
| Backend.EmptyResultExample | src/lib/supabase.ts:129-138 | asking for a user's "lost" leads with an empty answer returns their won sample lead; the catch path returns nothing |
| Backend.GetActivities | src/lib/supabase.ts:231-243 | with a user id every activity returned is that user's, and when the answer holds some of theirs, exactly those rows come back, in order; without an id, non-empty rows come back unchanged and an error or no rows gives all samples; with an id and an error or nothing of theirs, exactly the user's samples, in order |
| Backend.GetQuotas | src/lib/supabase.ts:246-258 | non-empty rows come back as they are; an error or no rows gives exactly the user's sample quotas, in order |
| Backend.GetUsers | src/lib/supabase.ts:62-73 | non-empty rows come back as they are; an error or no rows gives the sample users, so with samples the answer is never empty |
| Backend.SampleActivities.constructor | src/lib/supabase.ts:23-27 | the sample list starts as given |
| Backend.SampleActivities.CreateActivity | src/lib/supabase.ts:269-288 | an insert that returns passes its reply through and leaves the samples alone; one that throws puts a fallback row with the fresh id and current time at the front of the samples and returns it alone with no error |
| Backend.Tally | src/lib/supabase.ts:319-330 | the month map after the `forEach`; stated by TallyWellFormed, TallyKeys and TallyTotals |
| Backend.TallyWonLeads | src/lib/supabase.ts:319-330 | the `forEach` over the won leads fills the month map exactly as `Tally` defines it |
| Backend.TallyWellFormed | src/lib/supabase.ts:319-330 | the map's key order has no repeats and lists exactly its keys |
| Backend.TallyKeys | src/lib/supabase.ts:323-326 | a month has an entry exactly when some won lead falls in it |
| Backend.TallyTotals | src/lib/supabase.ts:327-329 | each entry holds the sum of values (a missing value as 0) and the number of that month's won leads |
| Backend.MonthKey | src/lib/supabase.ts:323 | the key text, year unpadded and month padded to two digits; its order is stated by MonthKeyOrder and ShortYearKeyOrder |
| Backend.MonthKeyOrder | src/lib/supabase.ts:323-333 | for years from 1000 to 9999, one key sorts before another under `localeCompare` exactly when its month is earlier |
| Backend.ShortYearKeyOrder | src/lib/supabase.ts:323-333 | for a three-digit year that order breaks: "1000-01" sorts before "999-12" |
| Backend.LatestKeys | src/lib/supabase.ts:332-334 | the keys sorted and cut to the last six; stated by LatestKeysAscending, LatestKeysAreLatest and LatestKeysKeyOrder |
| Backend.AscendingMonths | src/lib/supabase.ts:332-333 | distinct months sorted by negated month index are in strictly increasing chronological order |
| Backend.LatestKeysKeyOrder | src/lib/supabase.ts:332-334 | for years from 1000 to 9999, the months kept are in the order `localeCompare` puts their keys in |
| Backend.LatestKeysAscending | src/lib/supabase.ts:332-334 | the months kept are at most six, in strictly increasing order |
| Backend.LatestKeysAreLatest | src/lib/supabase.ts:332-334 | every month of the map is kept or is earlier than every month kept |
| Backend.SeriesOf | src/lib/supabase.ts:335-345 | one row per kept month, in the same order, each for a month of the map |
| Backend.MonthlySeries | src/lib/supabase.ts:319-345 | the series built from the won leads; stated by MonthlySeriesAscending, MonthlySeriesLatest and MonthlySeriesTotals |
| Backend.GetRevenueAnalytics | src/lib/supabase.ts:291-365 | an error or an empty table gives the sample series; otherwise the series is built from the rows with status won only |
| Backend.MonthlySeriesAscending | src/lib/supabase.ts:332-334 | the series has at most six months, strictly increasing |
| Backend.MonthlySeriesLatest | src/lib/supabase.ts:332-334 | the month of any won lead is in the series or earlier than every month in it |
| Backend.MonthlySeriesTotals | src/lib/supabase.ts:324-343 | each month shown has the sum and count of that month's won leads and at least one deal, so `avgDeal` never takes its zero branch, and carries the month's name |
| Backend.WonQuery | src/lib/supabase.ts:370 | the leads query keeps exactly the rows with status won |
| Backend.QuotaFor | src/lib/supabase.ts:388-389 | the first quota row of the user gives its target unless missing or zero; no row gives 150000; the result is never 0 |
| Backend.LeadsOf | src/lib/supabase.ts:386 | exactly the leads assigned to the user |
| Backend.PerformerOf | src/lib/supabase.ts:385-398 | one salesman's figures; stated by PerformerOfFacts |
| Backend.RankedPerformers | src/lib/supabase.ts:383-400 | the salesmen's figures sorted by revenue and cut to five; stated by RankedPerformersSorted, RankedPerformersAreSalesmen and RankedPerformersTop |
| Backend.GetTopPerformers | src/lib/supabase.ts:367-412 | a rejected query gives the two-row sample of the catch; otherwise a returned error, a `null` data field or no users gives the five-row sample, and only then; with every query answered, no salesman among the users gives the two-row sample; any ranking shown is exactly `RankedPerformers` of the users, the won leads and the quotas, and never empty |
| Backend.RankedPerformersSorted | src/lib/supabase.ts:398-399 | at most five rows, ordered by revenue, largest first |
| Backend.RankedPerformersAreSalesmen | src/lib/supabase.ts:383-397 | every row is the figures of a user whose role is salesman |
| Backend.RankedPerformersTop | src/lib/supabase.ts:398-399 | a salesman left out earns no more than anyone shown |
| Backend.PerformerOfFacts | src/lib/supabase.ts:385-396 | a performer's name is the full name, revenue and deals are the sum and count of their won leads, the quota is the defaulted quota, and achievement is the rounded percentage of quota |
| Backend.FindUser | src/lib/supabase.ts:457 | no user is found exactly when no row has the id; a found user is a row with that id |
| Backend.FieldOr | src/lib/supabase.ts:464-469 | `user?.field \|\| fallback`: the fallback for a missing user or an empty field, the field otherwise |
| Backend.MemberDetailOf | src/lib/supabase.ts:456-470 | one member's details; stated by MemberDetailFacts |
| Backend.TeamSummaryOf | src/lib/supabase.ts:454-484 | one team's summary; stated by TeamSummaryMembers and TeamAchievementGuard |
| Backend.GetTeamsWithMembers | src/lib/supabase.ts:414-519 | a rejected query gives the one-team list of the catch; otherwise a returned error, `null` teams or users, or no teams give the two sample teams, and only then; `null` members, or `null` leads or quotas while some team has a member, throw into the catch; otherwise one summary per team, in order, each `TeamSummaryOf` the team over the members, users, won leads and quotas, and the list after `teamsWithData.length > 0` is never reached |
| Backend.TeamSummaryMembers | src/lib/supabase.ts:455-471 | a team's members are its `team_members` rows with its id, in order, one detail each; a user is listed exactly when a row links them to the team |
| Backend.MemberDetailFacts | src/lib/supabase.ts:456-470 | a member's achieved and deals are the sum and count of their won leads, the quota is never 0, and a user who cannot be found is "Unknown" with no email |
| Backend.TeamQuotaPositive | src/lib/supabase.ts:473 | summing positive quotas gives at least one per member |
| Backend.QuotaForPositive | src/lib/supabase.ts:461 | with no negative targets, a member's quota is positive |
| Backend.TeamAchievementGuard | src/lib/supabase.ts:472-481 | team revenue and quota are the sums over the members; a team with members has a positive quota and the rounded percentage as achievement; a team without members has quota 0 and achievement 0 |
| LeadEditing.PatchStatus | src/components/dashboard/ManagerLeadsTable.tsx:151-155 | the patched list has the same length |
| LeadEditing.PatchStatusFacts | src/components/dashboard/SalesmanLeadsTable.tsx:149-153 | the patch keeps order and ids; a lead with the selected id reads the edited status and differs only in status; every other lead is unchanged |
| LeadEditing.PatchStatusKeepsUniqueIds | src/components/dashboard/ManagerLeadsTable.tsx:151-155 | distinct ids stay distinct |
| LeadEditing.PatchStatusIdempotent | src/components/dashboard/ManagerLeadsTable.tsx:151-155 | patching twice with the same status is patching once |
| LeadEditing.PatchStatusAbsentId | src/components/dashboard/SalesmanLeadsTable.tsx:149-153 | an id no lead has leaves the list as it was |
| ManagerLeads.Reconcile | src/components/dashboard/ManagerLeadsTable.tsx:65-78 | the realtime reducer; stated by ReconcileInsert, ReconcileUpdate, ReconcileDelete, ReconcileIgnored, ReconcileKeepsUniqueIds and ReconcileReplay |
| ManagerLeads.ReconcileInsert | src/components/dashboard/ManagerLeadsTable.tsx:66-69 | an INSERT of a held id changes nothing; of a new id, puts the row in front of the list |
| ManagerLeads.ReconcileUpdate | src/components/dashboard/ManagerLeadsTable.tsx:71-72 | an UPDATE keeps length, order and ids, replaces every entry with the row's id by the row, and leaves the others |
| ManagerLeads.ReconcileDelete | src/components/dashboard/ManagerLeadsTable.tsx:74-75 | a DELETE keeps exactly the entries with another id, in order, and drops every entry with the old id |
| ManagerLeads.ReconcileIgnored | src/components/dashboard/ManagerLeadsTable.tsx:77 | another event type, or an event without the row it needs, changes nothing |
| ManagerLeads.ReconcileKeepsUniqueIds | src/components/dashboard/ManagerLeadsTable.tsx:65-78 | distinct ids stay distinct under every event |
| ManagerLeads.ReconcileReplay | src/components/dashboard/ManagerLeadsTable.tsx:65-78 | with distinct ids, applying the same INSERT, UPDATE or DELETE twice is applying it once |
| ManagerLeads.FilteredLeads | src/components/dashboard/ManagerLeadsTable.tsx:89-93 | a lead is shown exactly when its lower-cased company name contains the lower-cased query and the filter is "all" or its status; the result keeps the list's order |
| ManagerLeads.FilteredLeadsEverything | src/components/dashboard/ManagerLeadsTable.tsx:89-93 | an empty query with "all" shows the whole list |
| ManagerLeads.StatusLabel | src/components/dashboard/ManagerLeadsTable.tsx:104-114 | each of the five statuses has a label, its name with a capital first letter; any other text has none |
| ManagerLeads.LeadsView.constructor | src/components/dashboard/ManagerLeadsTable.tsx:35-45 | the table starts empty, loading, with no search, "all" and no dialog open |
| ManagerLeads.LeadsView.FetchLeads | src/components/dashboard/ManagerLeadsTable.tsx:48-59 | the leads are what `getLeads` with no filters returns and the users what `getUsers` returns, samples included; loading ends |
| ManagerLeads.LeadsView.ApplyChange | src/components/dashboard/ManagerLeadsTable.tsx:63-79 | a realtime event replaces the held list by the reducer's result and changes nothing else |
| ManagerLeads.LeadsView.SetSearch | src/components/dashboard/ManagerLeadsTable.tsx:180 | the query is replaced; nothing else changes |
| ManagerLeads.LeadsView.SetStatusFilter | src/components/dashboard/ManagerLeadsTable.tsx:194-212 | the status filter is replaced; nothing else changes |
| ManagerLeads.LeadsView.ViewDetails | src/components/dashboard/ManagerLeadsTable.tsx:119-122 | the lead is selected and the details dialog opens |
| ManagerLeads.LeadsView.EditClick | src/components/dashboard/ManagerLeadsTable.tsx:124-129 | the lead is selected, the edit dialog opens on its current status, and the message is cleared |
| ManagerLeads.LeadsView.UpdateLead | src/components/dashboard/ManagerLeadsTable.tsx:131-167 | nothing happens without a selected lead; a successful update patches the held list and shows success; an error or a throw shows only its message; loading ends |
| ManagerLeads.LeadsView.SetEditingStatus | src/components/dashboard/ManagerLeadsTable.tsx:340-352 | the option chosen becomes the status the next save sends; nothing else changes |
| ManagerLeads.LeadsView.SetShowDetails | src/components/dashboard/ManagerLeadsTable.tsx:292-318 | the details dialog opens or closes; nothing else changes |
| ManagerLeads.LeadsView.SetShowEdit | src/components/dashboard/ManagerLeadsTable.tsx:324-359 | the edit dialog opens or closes, keeping the selection and the chosen status |
| ManagerLeads.LeadsView.CloseEditAfterSave | src/components/dashboard/ManagerLeadsTable.tsx:157-160 | the timer closes the edit dialog and clears the selection |
| SalesmanLeads.FilteredLeads | src/components/dashboard/SalesmanLeadsTable.tsx:61-66 | a lead is shown exactly when the lower-cased query occurs in its company or contact name and the filter is "all" or its status; the result keeps the list's order |
| SalesmanLeads.EmptyQueryFiltersByStatus | src/components/dashboard/SalesmanLeadsTable.tsx:61-66 | an empty query matches every lead, leaving only the status filter |
| SalesmanLeads.FilteredLeadsEverything | src/components/dashboard/SalesmanLeadsTable.tsx:61-66 | an empty query with "all" shows the whole list |
| SalesmanLeads.BadgeLabel | src/components/dashboard/SalesmanLeadsTable.tsx:77-87 | a badge has text exactly when the label table has the status's name |
| SalesmanLeads.QualifiedHasNoBadge | src/components/dashboard/SalesmanLeadsTable.tsx:77-83 | a qualified lead gets no badge text; new, negotiation, won and lost do |
| SalesmanLeads.CallAction | src/components/dashboard/SalesmanLeadsTable.tsx:92-98 | calling navigates to `tel:` plus the phone exactly when there is a phone, and alerts otherwise |
| SalesmanLeads.MessageAction | src/components/dashboard/SalesmanLeadsTable.tsx:100-108 | messaging navigates when there is an email or a phone, to `mailto:` first and `sms:` second, and alerts otherwise |
| SalesmanLeads.CallImpliesMessage | src/components/dashboard/SalesmanLeadsTable.tsx:92-108 | whenever calling navigates, messaging does too; messaging alerts exactly when there is no email and calling alerts |
| SalesmanLeads.NoteAcceptedMeaning | src/components/dashboard/SalesmanLeadsTable.tsx:168-171 | a note is accepted exactly when a lead is selected and some character of the note is not white space |
| SalesmanLeads.MyLeadsView.constructor | src/components/dashboard/SalesmanLeadsTable.tsx:31-42 | the table starts empty, loading, with no search, "all" and no dialog open |
| SalesmanLeads.MyLeadsView.FetchLeads | src/components/dashboard/SalesmanLeadsTable.tsx:45-57 | a signed-in user's leads are what `getLeads` with them as assignee returns; without a user the list stays; loading ends |
| SalesmanLeads.MyLeadsView.SetSearch | src/components/dashboard/SalesmanLeadsTable.tsx:217 | the query is replaced; nothing else changes |
| SalesmanLeads.MyLeadsView.SetStatusFilter | src/components/dashboard/SalesmanLeadsTable.tsx:231-249 | the status filter is replaced; nothing else changes |
| SalesmanLeads.MyLeadsView.SetNoteText | src/components/dashboard/SalesmanLeadsTable.tsx:457 | the note text is replaced; nothing else changes |
| SalesmanLeads.MyLeadsView.ViewDetails | src/components/dashboard/SalesmanLeadsTable.tsx:110-113 | the lead is selected and the details dialog opens |
| SalesmanLeads.MyLeadsView.EditClick | src/components/dashboard/SalesmanLeadsTable.tsx:115-120 | the lead is selected, the edit dialog opens on its current status, and the message is cleared |
| SalesmanLeads.MyLeadsView.AddNote | src/components/dashboard/SalesmanLeadsTable.tsx:122-127 | the lead is selected and the note dialog opens empty with no message |
| SalesmanLeads.MyLeadsView.UpdateLead | src/components/dashboard/SalesmanLeadsTable.tsx:129-165 | nothing happens without a selected lead; a successful update patches the held list and shows success; an error or a throw shows only its message; loading ends |
| SalesmanLeads.MyLeadsView.AddNoteSubmit | src/components/dashboard/SalesmanLeadsTable.tsx:167-204 | a refused note alerts and sends nothing; an accepted one sends one "note" activity for the selected lead with the user, the text and the time, and shows the outcome; the held leads never change |
| SalesmanLeads.MyLeadsView.SetEditingStatus | src/components/dashboard/SalesmanLeadsTable.tsx:401-413 | the option chosen becomes the status the next save sends; nothing else changes |
| SalesmanLeads.MyLeadsView.SetShowDetails | src/components/dashboard/SalesmanLeadsTable.tsx:345-379 | the details dialog opens or closes; nothing else changes |
| SalesmanLeads.MyLeadsView.SetShowEdit | src/components/dashboard/SalesmanLeadsTable.tsx:385-420 | the edit dialog opens or closes, keeping the selection and the chosen status |
| SalesmanLeads.MyLeadsView.SetShowNote | src/components/dashboard/SalesmanLeadsTable.tsx:436-467 | the note dialog opens or closes, keeping the typed note |
| SalesmanLeads.MyLeadsView.CloseEditAfterSave | src/components/dashboard/SalesmanLeadsTable.tsx:155-158 | the timer closes the edit dialog and clears the selection |
| SalesmanLeads.MyLeadsView.CloseNoteAfterSave | src/components/dashboard/SalesmanLeadsTable.tsx:193-197 | the timer closes the note dialog, clears the selection and empties the note |
| SalesmanLeads.LoadedLeadsAreOwn | src/components/dashboard/SalesmanLeadsTable.tsx:47-50 | a salesman with a non-empty id only ever holds leads assigned to them, from the backend or from the samples |
| SalesmanDashboard.Fetched | src/pages/SalesmanDashboard.tsx:70-88 | without a signed-in user every list is empty; with one, the fetched lists |
| SalesmanDashboard.UserQuota | src/pages/SalesmanDashboard.tsx:89 | the first quota's target, or 250000 when there are no quota rows |
| SalesmanDashboard.ConversionTenths | src/pages/SalesmanDashboard.tsx:99 | the conversion rate, in tenths of a percent, is 0 without leads and lies in 0..100 percent |
| SalesmanDashboard.QuotaProgress | src/pages/SalesmanDashboard.tsx:101 | progress never exceeds 100, is exactly 100 once the quota is reached, and has no finite value (NaN or minus infinity) exactly when the quota is 0 or missing and the won value is not positive |
| SalesmanDashboard.SalesPerformance | src/pages/SalesmanDashboard.tsx:104-109 | the standings; stated by SalesPerformanceFacts |
| SalesmanDashboard.LeaderboardRank | src/pages/SalesmanDashboard.tsx:111-112 | the rank shown; stated by LeaderboardRankAbsent and LeaderboardRankPosition |
| SalesmanDashboard.LeaderboardRankAbsent | src/pages/SalesmanDashboard.tsx:111-112 | a user who is not among the salesmen gets the number of salesmen as rank |
| SalesmanDashboard.LeaderboardRankPosition | src/pages/SalesmanDashboard.tsx:104-112 | a user found in the standings has their 1-based position as rank; everyone above earns at least as much and everyone earning strictly more is above |
| SalesmanDashboard.SalesPerformanceFacts | src/pages/SalesmanDashboard.tsx:104-109 | the standings hold every salesman once with the sum of their won leads, largest first |
| SalesmanDashboard.PipelineAndWonDisjoint | src/pages/SalesmanDashboard.tsx:91-97 | pipeline and won leads together are at most all the leads |
| SalesmanDashboard.DashboardStats | src/pages/SalesmanDashboard.tsx:84-114 | the statistics derived from the rows; stated by DashboardStatsFacts and PipelineAndWonDisjoint |
| SalesmanDashboard.DashboardStatsFacts | src/pages/SalesmanDashboard.tsx:84-114 | active plus won is at most the leads; pipeline value and active leads are the sum and count over qualified and negotiation leads; calls count the call activities; without a user the quota is 250000 and the rank 0 |
| ManagerTeam.Ids | src/pages/ManagerTeam.tsx:35 | the ids of the salesmen, one per salesman, in order |
| ManagerTeam.SelectedSalesmen | src/pages/ManagerTeam.tsx:41 | a salesman is selected exactly when their id is in the selection; the result keeps the list's order |
| ManagerTeam.AllSelected | src/pages/ManagerTeam.tsx:35 | selecting every id selects every salesman |
| ManagerTeam.SelectionIsASet | src/pages/ManagerTeam.tsx:41 | two selections with the same ids select the same members, so a repeated id selects once |
| ManagerTeam.Toggled | src/pages/ManagerTeam.tsx:72-74 | checking appends the id; unchecking removes every occurrence of it and keeps the rest in order |
| ManagerTeam.ToggleSelection | src/pages/ManagerTeam.tsx:72-74 | after a toggle the member with that id is shown exactly when the box is checked, and every other member as before |
| ManagerTeam.CheckTwice | src/pages/ManagerTeam.tsx:72-74 | checking an id already selected changes nothing shown |
| ManagerTeam.TeamTotals | src/pages/ManagerTeam.tsx:42-44 | the totals over the selected members; stated by TotalsWithout |
| ManagerTeam.TotalsWithout | src/pages/ManagerTeam.tsx:42-44 | deselecting a member takes exactly their quota, achieved and deals off the totals |
| ManagerTeam.SelectedWithoutAbsent | src/pages/ManagerTeam.tsx:73 | unchecking an id no member has changes nothing shown |
| ManagerTeam.TeamAchievement | src/pages/ManagerTeam.tsx:96 | 0 when the total quota is not positive; within 0..100 up to the quota; at least 100 beyond it |
| ManagerTeam.MemberPercent | src/pages/ManagerTeam.tsx:102 | 0 when the quota or the achieved figure is missing or 0; within 0..100 up to the quota |
| ManagerTeam.TeamView.constructor | src/pages/ManagerTeam.tsx:26-28 | the page starts with no salesmen, nothing selected, loading |
| ManagerTeam.TeamView.FetchSalesmen | src/pages/ManagerTeam.tsx:31-37 | the salesmen are the answer, a null answer as none, all of them selected, and loading ends |
| ManagerTeam.TeamView.Toggle | src/pages/ManagerTeam.tsx:71-75 | the selection becomes the toggled selection; the salesmen stay |
| PerformanceChart.ChartData | src/components/dashboard/PerformanceChart.tsx:29-43 | nothing until both lists arrived; then one bar per user, in order, with the display name, target 10, won leads as achieved and all leads as deals, never more won than deals |
| TeamPerformance.DisplayName | src/components/dashboard/TeamPerformance.tsx:33 | the full name, or a prefix of the email with no '@' when there is none |
| TeamPerformance.SortByRevenue | src/components/dashboard/TeamPerformance.tsx:41 | the array is sorted in place into the stable descending order by revenue |
| TeamPerformance.InsertInPlace | src/components/dashboard/TeamPerformance.tsx:41 | one insertion step leaves the prefix up to `i` as the earlier prefix with the element inserted by key, and the rest of the array untouched |
| TeamPerformance.ShiftSmaller | src/components/dashboard/TeamPerformance.tsx:41 | the inner loop shifts right by one exactly the run of elements with smaller revenue and stops at one that is at least as large |
| TeamPerformance.Inserted | src/components/dashboard/TeamPerformance.tsx:41 | the shifted array with the element stored into the gap is the stable insertion of that element |
| TeamPerformance.MemberOf | src/components/dashboard/TeamPerformance.tsx:26-37 | one user's row; stated by ShownFacts |
| TeamPerformance.Shown | src/components/dashboard/TeamPerformance.tsx:25-42 | the rows shown; stated by ShownFacts and ShownLeftOut |
| TeamPerformance.TopMembers | src/components/dashboard/TeamPerformance.tsx:26-42 | the rows built, sorted and cut to five are the first five of the stable descending order |
| TeamPerformance.ShownFacts | src/components/dashboard/TeamPerformance.tsx:26-42 | at most five rows, largest revenue first; each stands for one user, of any role, as "Sales Rep" with the sum and count of their won leads |
| TeamPerformance.ShownLeftOut | src/components/dashboard/TeamPerformance.tsx:41-42 | a user left out earns no more than any row shown |
| TeamPerformance.TeamCard.constructor | src/components/dashboard/TeamPerformance.tsx:16-17 | the card starts with no rows, loading |
| TeamPerformance.TeamCard.FetchTeamData | src/components/dashboard/TeamPerformance.tsx:20-49 | once both lists arrived the rows are the shown ones; otherwise they stay; loading ends |
| ManagerPerformance.WinRate | src/pages/ManagerPerformance.tsx:51 | 0 without leads or without closed deals, 100 when all are closed, always within 0..100 |
| ManagerPerformance.RepName | src/pages/ManagerPerformance.tsx:58 | the full name, else the email's local part, else "Unknown"; never empty |
| ManagerPerformance.IsSalesperson | src/pages/ManagerPerformance.tsx:42-44 | the role test; stated through PerformanceRanking and PerformanceRows |
| ManagerPerformance.IsClosedWon | src/pages/ManagerPerformance.tsx:49 | the won test on "closed_won"; stated by WonLeadsDoNotCount |
| ManagerPerformance.RepOf | src/pages/ManagerPerformance.tsx:47-64 | one salesperson's row; stated by PerformanceRows |
| ManagerPerformance.Performance | src/pages/ManagerPerformance.tsx:42-66 | the ranking; stated by PerformanceRanking and PerformanceRows |
| ManagerPerformance.Shown | src/pages/ManagerPerformance.tsx:38-66 | nothing without a manager, otherwise the ranking of the fetched rows; stated through Performance |
| ManagerPerformance.PerformanceRanking | src/pages/ManagerPerformance.tsx:42-66 | one row per user whose lower-cased role contains "sales", ordered by win rate, highest first |
| ManagerPerformance.PerformanceRows | src/pages/ManagerPerformance.tsx:47-64 | every row is a salesperson's, with a win rate in 0..100 that is 0 without leads, cycle 30, quota 150000 and the sum of their "closed_won" leads |
| ManagerPerformance.WonLeadsDoNotCount | src/pages/ManagerPerformance.tsx:49-55 | leads with status "won" add nothing: win rate 0 and achieved 0 |
| QuotaProgress.QuotaField | src/components/dashboard/QuotaProgress.tsx:41 | a quota row has no numeric property other than `target_amount` |
| QuotaProgress.TargetAsWritten | src/components/dashboard/QuotaProgress.tsx:28-41 | the target as written; stated by TargetAsWrittenIgnoresQuota |
| QuotaProgress.TargetAsWrittenIgnoresQuota | src/components/dashboard/QuotaProgress.tsx:41 | as written, the target is always 250000 |
| QuotaProgress.TargetAsWrittenExample | src/components/dashboard/QuotaProgress.tsx:41 | a user with a quota of 150000 is measured against 250000 as written and against 150000 when `target_amount` is read |
| QuotaProgress.QuotaTarget | src/components/dashboard/QuotaProgress.tsx:28-41 | the first quota's non-zero target amount, else 250000; never 0 |
| QuotaProgress.DaysLeft | src/components/dashboard/QuotaProgress.tsx:38-43 | at least one day; for time left, the number of started days left; none left gives 1 |
| QuotaProgress.Achieved | src/components/dashboard/QuotaProgress.tsx:32-33 | the won revenue; stated by AchievedNonNegative |
| QuotaProgress.Fetched | src/components/dashboard/QuotaProgress.tsx:22-45 | as written: without a user the initial state; with one, target 250000 whatever the quota, the won revenue of their leads (a null list as none) and the clamped days left |
| QuotaProgress.FetchedCorrected | src/components/dashboard/QuotaProgress.tsx:22-45 | the state with the target read from `target_amount`; it differs from the as-written state only in the target |
| QuotaProgress.ProgressBar | src/components/dashboard/QuotaProgress.tsx:83 | never above 100, exactly 100 once the target is reached, not negative for non-negative revenue |
| QuotaProgress.Remaining | src/components/dashboard/QuotaProgress.tsx:86 | never negative, 0 exactly when the target is reached, and otherwise what achieved lacks of it |
| QuotaProgress.AchievedNonNegative | src/components/dashboard/QuotaProgress.tsx:32-33 | leads of non-negative value give a non-negative achieved sum |
| QuotaProgress.CardBounds | src/components/dashboard/QuotaProgress.tsx:40-86 | as written, the bar lies in 0..100 and remaining plus the capped achieved sum is the target |
| QuotaProgress.CardBoundsCorrected | src/components/dashboard/QuotaProgress.tsx:40-86 | the same bounds with the corrected target, when it is positive |
| RevenueChart.Put | src/components/dashboard/RevenueChart.tsx:32 | assigning a key sets its value; a new key goes to the end of the key order, an old one keeps its place |
| RevenueChart.PutWellFormed | src/components/dashboard/RevenueChart.tsx:32 | assignment keeps the key order free of repeats and in step with the keys |
| RevenueChart.GetPut | src/components/dashboard/RevenueChart.tsx:42 | reading the key just assigned gives the value; other keys read as before |
| RevenueChart.MonthsBefore | src/components/dashboard/RevenueChart.tsx:30 | `new Date(year, month - i, 1)` is the month `i` months before today |
| RevenueChart.WindowNames | src/components/dashboard/RevenueChart.tsx:29-31 | the seeding loop names six months |
| RevenueChart.WindowNamesDistinct | src/components/dashboard/RevenueChart.tsx:29-31 | six consecutive months have six different names |
| RevenueChart.SeededFacts | src/components/dashboard/RevenueChart.tsx:29-34 | after seeding, the keys are the names in loop order and every bucket reads 0 |
| RevenueChart.AddLeads | src/components/dashboard/RevenueChart.tsx:37-45 | the lead loop over the dictionary; stated by AddLeadsBucket |
| RevenueChart.AddQuotas | src/components/dashboard/RevenueChart.tsx:48-54 | the quota loop over the dictionary; stated by AddQuotasBucket and AddQuotasHas |
| RevenueChart.AddLeadsBucket | src/components/dashboard/RevenueChart.tsx:38-44 | a bucket ends with what it held plus the values of the won, dated leads whose month has its name |
| RevenueChart.AddQuotasBucket | src/components/dashboard/RevenueChart.tsx:49-53 | a bucket ends with what it held plus the targets of the quotas starting in a month of its name |
| RevenueChart.AddQuotasHas | src/components/dashboard/RevenueChart.tsx:49-53 | the target dictionary has a key exactly when it was seeded or some quota starts in a month of that name |
| RevenueChart.PointsOf | src/components/dashboard/RevenueChart.tsx:57-63 | one point per key among the last six, in order, with its name and rounded revenue; the target is `NaN` exactly when the target dictionary lacks the key, and otherwise its rounded thousands |
| RevenueChart.ChartAsWritten | src/components/dashboard/RevenueChart.tsx:18-72 | the chart as the component computes it; stated by ChartAsWrittenFacts and ChartAsWrittenWindow |
| RevenueChart.BuildChart | src/components/dashboard/RevenueChart.tsx:18-72 | the seeding loop and the two `forEach` loops build exactly the chart `ChartAsWritten` describes |
| RevenueChart.SeedMonths | src/components/dashboard/RevenueChart.tsx:29-34 | the seeding loop gives the dictionary with the six names at 0 |
| RevenueChart.AddLeadValues | src/components/dashboard/RevenueChart.tsx:37-45 | the lead loop adds every counted lead in order |
| RevenueChart.AddQuotaTargets | src/components/dashboard/RevenueChart.tsx:48-54 | the quota loop adds every quota in order |
| RevenueChart.ChartAsWrittenFacts | src/components/dashboard/RevenueChart.tsx:57-65 | on the success path the chart always has six points, so the sample series is never shown; each revenue rounds its bucket sum in thousands; a target is `NaN` exactly when its month was not seeded and no quota starts in a month of that name, and otherwise rounds the quota sum in thousands |
| RevenueChart.ChartAsWrittenWindow | src/components/dashboard/RevenueChart.tsx:29-63 | with no rows the points are the six months up to today, oldest first, all at 0 |
| RevenueChart.SeededJune2026 | src/components/dashboard/RevenueChart.tsx:29-34 | in June the seeded buckets are January to June |
| RevenueChart.SeptemberKeys | src/components/dashboard/RevenueChart.tsx:38-44 | a won lead from last September adds the key "Sep" after the six seeded ones |
| RevenueChart.OldLeadDisplacesMonth | src/components/dashboard/RevenueChart.tsx:38-63 | that lead pushes January out of the chart and shows "Sep" as the latest month, with revenue 5 and target `NaN` |
| RevenueChart.JuneRevenue | src/components/dashboard/RevenueChart.tsx:38-44 | a won lead from June of last year adds its value to the seeded "Jun" key and adds no key |
| RevenueChart.LastYearLeadCounted | src/components/dashboard/RevenueChart.tsx:40-42 | a won lead from June of last year is counted in this June's point |
| RevenueChart.Window | src/components/dashboard/RevenueChart.tsx:29-31 | the six months ending with today's |
| RevenueChart.Chart | src/components/dashboard/RevenueChart.tsx:23-72 | six points for the six calendar months ending with today's, oldest first, each named by its month, none with a `NaN` target |
| RevenueChart.ChartIgnoresOldLead | src/components/dashboard/RevenueChart.tsx:38-44 | a lead created outside the six months does not change the chart |
| RevenueChart.ChartMonthsDistinct | src/components/dashboard/RevenueChart.tsx:29-31 | the six points are six different calendar months |
| ActivityTimeline.ItemType | src/components/dashboard/ActivityTimeline.tsx:27 | the lower-cased activity type when there is one, else "note"; never empty |
| ActivityTimeline.ItemTitle | src/components/dashboard/ActivityTimeline.tsx:31 | the description, or "Activity" when empty; never empty |
| ActivityTimeline.Recent | src/components/dashboard/ActivityTimeline.tsx:26-39 | the entries shown; stated by RecentFacts, RecentLeftOut and RecentKeepsFew |
| ActivityTimeline.RecentFacts | src/components/dashboard/ActivityTimeline.tsx:26-39 | at most five entries, as many as there are up to five, newest first, each the normalised form of one of the activities |
| ActivityTimeline.RecentLeftOut | src/components/dashboard/ActivityTimeline.tsx:37-39 | an activity left off is no newer than any entry shown |
| ActivityTimeline.RecentKeepsFew | src/components/dashboard/ActivityTimeline.tsx:37-39 | five or fewer activities are all shown |
| ActivityTimeline.FormatTime | src/components/dashboard/ActivityTimeline.tsx:69-83 | minutes under an hour, hours under a day, "Yesterday" on the second day, days up to the seventh, the date after; each count is the elapsed time rounded down to its unit |
| ActivityTimeline.DaysAtYesterdayTest | src/components/dashboard/ActivityTimeline.tsx:73-79 | once the minute and hour tests fail the day count is at least one |
| ActivityTimeline.FormatTimeMonotone | src/components/dashboard/ActivityTimeline.tsx:77-82 | a later clock reading never moves a label to a finer unit |
| ActivityTimeline.Timeline.constructor | src/components/dashboard/ActivityTimeline.tsx:16-17 | the card starts empty, loading |
| ActivityTimeline.Timeline.FetchActivities | src/components/dashboard/ActivityTimeline.tsx:20-46 | a signed-in user's entries are the recent ones of their activities; without a user nothing changes; loading ends |
| ManagerDashboard.ToNumber | src/pages/ManagerDashboard.tsx:49 | the empty text is 0, digits their decimal value, anything else not a number |
| Text.Decimal | src/pages/ManagerDashboard.tsx:220 | a whole number as text is a non-empty string of digits |
| Text.DecimalValueOf | src/pages/ManagerDashboard.tsx:49 | the decimal text of a number reads back as that number |
| Text.Less | src/lib/supabase.ts:333 | `localeCompare` on texts of digits and '-'; stated by LessAppend and LessDigits |
| Text.LessAppend | src/lib/supabase.ts:333 | when the first parts have one length, they decide the comparison, and the rest decides when they are equal |
| Text.LessDigits | src/lib/supabase.ts:333 | digit texts of one length compare as their values, and are equal exactly when their values are |
| ManagerDashboard.DecimalRoundTrip | src/pages/ManagerDashboard.tsx:49 | reading back typed decimal text gives the number typed |
| ManagerDashboard.Payload | src/pages/ManagerDashboard.tsx:46-51 | name and description as typed, a budget only for non-empty text and then as its number, status "active" |
| ManagerDashboard.TypedBudgetSent | src/pages/ManagerDashboard.tsx:49 | a budget typed as a whole number is sent as that number |
| ManagerDashboard.ProjectBudget | src/pages/ManagerDashboard.tsx:177 | a missing budget counts as 0 |
| ManagerDashboard.Stats | src/pages/ManagerDashboard.tsx:146-177 | cards only when there are projects: the total, the active count never above it, and the summed budgets |
| ManagerDashboard.AllActive | src/pages/ManagerDashboard.tsx:152-164 | the active count equals the total exactly when every project is active |
| ManagerDashboard.TotalBudget | src/pages/ManagerDashboard.tsx:177 | the budget sum; stated by TotalBudgetSnoc and TotalBudgetNonNegative |
| ManagerDashboard.TotalBudgetSnoc | src/pages/ManagerDashboard.tsx:177 | one more project adds its budget, or nothing without one |
| ManagerDashboard.TotalBudgetNonNegative | src/pages/ManagerDashboard.tsx:177 | missing or non-negative budgets sum to a non-negative total |
| ManagerDashboard.ProjectsPage.constructor | src/pages/ManagerDashboard.tsx:13-17 | the page starts loading, with no projects, the dialog closed and the form empty |
| ManagerDashboard.ProjectsPage.FetchData | src/pages/ManagerDashboard.tsx:20-37 | with a user the list is what `getProjects` returned; without one or on a throw it stays; loading ends on every path |
| ManagerDashboard.ProjectsPage.OpenModal | src/pages/ManagerDashboard.tsx:93 | the dialog opens, keeping the form |
| ManagerDashboard.ProjectsPage.CancelModal | src/pages/ManagerDashboard.tsx:226 | the dialog closes without clearing the form |
| ManagerDashboard.ProjectsPage.SetName | src/pages/ManagerDashboard.tsx:201 | the name field is replaced, the others kept |
| ManagerDashboard.ProjectsPage.SetDescription | src/pages/ManagerDashboard.tsx:210 | the description field is replaced, the others kept |
| ManagerDashboard.ProjectsPage.SetBudget | src/pages/ManagerDashboard.tsx:220 | the budget field is replaced, the others kept |
| ManagerDashboard.ProjectsPage.HandleCreateProject | src/pages/ManagerDashboard.tsx:42-61 | an empty name sends nothing and changes nothing; otherwise the payload is sent; on success the list is reloaded, the dialog closes and the form empties; on a throw they stay; the creating flag ends cleared |

## Left out

- The backend client itself: the connection, sign-up, sign-in, sign-out, `getCurrentUser` and the realtime channel wiring are calls into the hosted service. Their answers are parameters (`Fetched`, `Option`, a user `Option<User>`).
- The thin create, update, delete and by-id forwarders of the backend client (`createLead`, `updateLead`, `deleteLead`, `getTeams`, `getTeamById`, `createTeam`, `updateTeam`, `getQuotaById`, `getUserById`, `createUser`, `updateUser`): they only pass their arguments to the service.
- `getProjects`, `createProject` and `getUsersByRole` are imported by the pages but defined in none of the source files; what they return is a parameter.
- The hardcoded sample datasets: sample rows are parameters (`samples`), and the fixed sample series, top-performer and teams answers are tags (`SampleRevenue`, `SampleTopFive`, `SampleTopTwo`, `SampleTeams`, `CaughtTeams`).
- Floating point: the 85% target and the fractional `avgDeal` of `getRevenueAnalytics`, `dailyTarget` and `isOnTrack` of the quota card, and the fractional percentage before rounding. Percentages are stated through `Math.round` of an exact ratio with halves rounded up, which is what `Math.round` does for non-negative values.
- SalesmanDashboard.ConversionTenths: models `toFixed(1)` as a whole number of tenths rounded half up, not the text `toFixed` produces for binary floating point.
- Display formatting: `toFixed`, `toLocaleString`, `toLocaleDateString`, the "$…K" texts and JSX. The time labels are a datatype rather than their texts, and the chart's division by 1000 is stated as rounding to thousands.
- Dates and clocks: `new Date(...)`, `getMonth`, `getFullYear` and `Date.now` are integer parameters (a `YearMonth`, milliseconds). Time zones are not modelled.
- AscendingMonths: the sort of `getRevenueAnalytics` is stated by month index. That is the order `localeCompare` gives the keys for years 1000 to 9999 (MonthKeyOrder, LatestKeysKeyOrder); for earlier years the key order differs (ShortYearKeyOrder). `localeCompare` is taken as comparing character codes, which agrees with locale collation on texts of digits and '-'.
- Text.Lower: maps only the ASCII letters, not the full Unicode case mapping of `toLowerCase`.
- ManagerDashboard.ToNumber: reads only strings of decimal digits; decimals, signs, exponents, surrounding spaces and hexadecimal text, which `Number` accepts, are read as not a number.
- RevenueChart: the month dictionaries are modelled by month number with an explicit key order, which is how a string-keyed object with non-index keys iterates.
- ManagerLeads.Reconcile: a realtime UPDATE carries every column of the row, so the spread merge `{...l, ...newRow}` is modelled as replacing the entry by the new row.
- ManagerDashboard.ProjectsPage.HandleCreateProject: the `creatingProject` flag is set for the duration of the awaited calls; only its value at the end is stated, since the calls in between are not modelled.
- Concurrency and timing: interleavings of realtime callbacks with fetches, the stale `leads` closure read by `handleUpdateLead`, the 1.5-second `setTimeout` (modelled as a separate method run later) and unmount cleanup.
- The icon and colour switches of the activity card, for types outside the four they name, produce nothing; they are display only.
- `useAuth`, the service worker, `main.tsx`, and the static pages with hardcoded arrays (sales pipeline, manager pipeline, manager activity, my leads page, team overview, settings) hold no logic over the rows.

## Findings

| source | as written | input that shows it | evidently intended | confidence | as-written member | corrected member |
|---|---|---|---|---|---|---|
| src/components/dashboard/QuotaProgress.tsx:41 | the target is read from `currentQuota?.target`, a property quota rows do not have, so it is always 250000 | a user whose quota row has `target_amount` 150000 | the quota's `target_amount`, as every other view reads it | not executed | QuotaProgress.TargetAsWrittenExample | QuotaProgress.FetchedCorrected |
| src/components/dashboard/RevenueChart.tsx:38-63 | a won lead from a month outside the six seeded ones adds a seventh key, and `slice(-6)` then drops the oldest seeded month; the month added has no target entry, so its target is `NaN` | in June 2026, one won lead of 5000 created in September 2025 | only the six calendar months ending with the current one are charted | not executed | RevenueChart.OldLeadDisplacesMonth | RevenueChart.ChartIgnoresOldLead |
| src/components/dashboard/RevenueChart.tsx:40-42 | buckets are keyed by month name alone, so the same month of another year adds to this year's bucket | in June 2026, one won lead of 7000 created in June 2025 | each point counts only its own calendar month | not executed | RevenueChart.LastYearLeadCounted | RevenueChart.ChartIgnoresOldLead |
