/** The manager's team page (src/pages/ManagerTeam.tsx): the list of salesmen, the
    set of selected ids that the check boxes toggle, the selected members and the
    totals over them. */
module ManagerTeam {
  import opened Rows
  import opened Seqs
  import opened Arith

  /** A row of `getUsersByRole('salesman')`; the figures are optional. */
  datatype Salesman = Salesman(
    id: string, fullName: string, role: string, email: string, phone: string,
    quota: Option<int>, achieved: Option<int>, deals: Option<int>)

  function Ids(salesmen: seq<Salesman>): (r: seq<string>)
    ensures |r| == |salesmen| && forall i :: 0 <= i < |r| ==> r[i] == salesmen[i].id
  {
    seq(|salesmen|, i requires 0 <= i < |salesmen| => salesmen[i].id)
  }

  function IsSelected(selectedIds: seq<string>): Salesman -> bool
  {
    (s: Salesman) => s.id in selectedIds
  }

  /** `salesmen.filter(s => selectedIds.includes(s.id))`. */
  function SelectedSalesmen(salesmen: seq<Salesman>, selectedIds: seq<string>): (r: seq<Salesman>)
    ensures forall s :: s in r <==> s in salesmen && s.id in selectedIds
    ensures IsSubsequence(r, salesmen)
  {
    FilterIsSubsequence(salesmen, IsSelected(selectedIds));
    Filter(salesmen, IsSelected(selectedIds))
  }

  /** Selecting every id selects every salesman. */
  lemma AllSelected(salesmen: seq<Salesman>)
    ensures SelectedSalesmen(salesmen, Ids(salesmen)) == salesmen
  {
    FilterAll(salesmen, IsSelected(Ids(salesmen)));
  }

  /** The selection is read as a set: an id listed twice selects its member once,
      and the order of the ids is irrelevant. */
  lemma SelectionIsASet(salesmen: seq<Salesman>, a: seq<string>, b: seq<string>)
    requires forall id :: id in a <==> id in b
    ensures SelectedSalesmen(salesmen, a) == SelectedSalesmen(salesmen, b)
  {
    FilterCongruent(salesmen, IsSelected(a), IsSelected(b));
  }

  /** The check box callback: checking appends the id, unchecking removes every
      occurrence of it. */
  function Toggled(selectedIds: seq<string>, id: string, checked: bool): (r: seq<string>)
    ensures checked ==> r == selectedIds + [id]
    ensures !checked ==> forall x :: x in r <==> x in selectedIds && x != id
    ensures !checked ==> IsSubsequence(r, selectedIds)
  {
    if checked then selectedIds + [id]
    else
      FilterIsSubsequence(selectedIds, (x: string) => x != id);
      Filter(selectedIds, (x: string) => x != id)
  }

  /** After a toggle the member with that id is shown exactly when the box is
      checked, and every other member is shown as before. */
  lemma ToggleSelection(salesmen: seq<Salesman>, selectedIds: seq<string>, id: string, checked: bool)
    ensures forall s :: s in SelectedSalesmen(salesmen, Toggled(selectedIds, id, checked)) <==>
      s in salesmen && (if s.id == id then checked else s.id in selectedIds)
  {
  }

  /** Checking an id that is already selected changes nothing that is shown. */
  lemma CheckTwice(salesmen: seq<Salesman>, selectedIds: seq<string>, id: string)
    requires id in selectedIds
    ensures SelectedSalesmen(salesmen, Toggled(selectedIds, id, true)) == SelectedSalesmen(salesmen, selectedIds)
  {
    SelectionIsASet(salesmen, selectedIds + [id], selectedIds);
  }

  function QuotaOf(m: Salesman): int { OrZero(m.quota) }
  function AchievedOf(m: Salesman): int { OrZero(m.achieved) }
  function DealsOf(m: Salesman): int { OrZero(m.deals) }

  datatype Totals = Totals(quota: int, achieved: int, deals: int)

  /** `totalQuota`, `totalAchieved` and `totalDeals`: sums over the selected
      members with a missing figure counted as 0. */
  function TeamTotals(salesmen: seq<Salesman>, selectedIds: seq<string>): Totals
  {
    var selected := SelectedSalesmen(salesmen, selectedIds);
    Totals(SumBy(selected, QuotaOf), SumBy(selected, AchievedOf), SumBy(selected, DealsOf))
  }

  /** Deselecting a member takes exactly their figures off the totals. */
  lemma {:induction false} TotalsWithout(salesmen: seq<Salesman>, selectedIds: seq<string>, i: nat)
    requires forall j, k :: 0 <= j < k < |salesmen| ==> salesmen[j].id != salesmen[k].id
    requires i < |salesmen| && salesmen[i].id in selectedIds
    ensures var before := TeamTotals(salesmen, selectedIds);
      var after := TeamTotals(salesmen, Toggled(selectedIds, salesmen[i].id, false));
      && after.quota == before.quota - QuotaOf(salesmen[i])
      && after.achieved == before.achieved - AchievedOf(salesmen[i])
      && after.deals == before.deals - DealsOf(salesmen[i])
  {
    var id := salesmen[i].id;
    var t := Toggled(selectedIds, id, false);
    var rest := salesmen[1..];
    var head := if salesmen[0].id in selectedIds then [salesmen[0]] else [];
    assert SelectedSalesmen(salesmen, selectedIds) == head + SelectedSalesmen(rest, selectedIds);
    if i == 0 {
      assert forall s :: s in rest ==> s.id != id;
      SelectedWithoutAbsent(rest, selectedIds, id);
      assert SelectedSalesmen(salesmen, t) == SelectedSalesmen(rest, selectedIds);
      assert (head + SelectedSalesmen(rest, selectedIds))[1..] == SelectedSalesmen(rest, selectedIds);
    } else {
      TotalsWithout(rest, selectedIds, i - 1);
      assert SelectedSalesmen(salesmen, t) == head + SelectedSalesmen(rest, t);
      SumByAppend(head, SelectedSalesmen(rest, selectedIds), QuotaOf);
      SumByAppend(head, SelectedSalesmen(rest, t), QuotaOf);
      SumByAppend(head, SelectedSalesmen(rest, selectedIds), AchievedOf);
      SumByAppend(head, SelectedSalesmen(rest, t), AchievedOf);
      SumByAppend(head, SelectedSalesmen(rest, selectedIds), DealsOf);
      SumByAppend(head, SelectedSalesmen(rest, t), DealsOf);
    }
  }

  /** Removing an id that no listed member has leaves the selection as it was. */
  lemma SelectedWithoutAbsent(salesmen: seq<Salesman>, selectedIds: seq<string>, id: string)
    requires forall s :: s in salesmen ==> s.id != id
    ensures SelectedSalesmen(salesmen, Toggled(selectedIds, id, false)) == SelectedSalesmen(salesmen, selectedIds)
  {
    FilterCongruent(salesmen, IsSelected(Toggled(selectedIds, id, false)), IsSelected(selectedIds));
  }

  /** The Achievement card: 0 when the total quota is not positive. */
  function TeamAchievement(t: Totals): (r: int)
    ensures t.quota <= 0 ==> r == 0
    ensures t.quota > 0 && 0 <= t.achieved <= t.quota ==> 0 <= r <= 100
    ensures t.quota > 0 && t.achieved >= t.quota ==> r >= 100
  {
    if t.quota > 0 then
      var r := Percent(t.achieved, t.quota);
      assert 0 <= t.achieved <= t.quota ==> 0 <= r <= 100 by {
        if 0 <= t.achieved <= t.quota { PercentBounds(t.achieved, t.quota); }
      }
      assert t.achieved >= t.quota ==> r >= 100 by {
        if t.achieved >= t.quota { PercentOfNotMore(t.achieved, t.quota); }
      }
      r
    else 0
  }

  /** A member's percentage: 0 unless both the quota and the achieved figure are
      present and non-zero. */
  function MemberPercent(m: Salesman): (r: int)
    ensures QuotaOf(m) == 0 || AchievedOf(m) == 0 ==> r == 0
    ensures QuotaOf(m) > 0 && 0 <= AchievedOf(m) <= QuotaOf(m) ==> 0 <= r <= 100
  {
    if QuotaOf(m) != 0 && AchievedOf(m) != 0 then
      var r := RoundRatio(100 * AchievedOf(m), QuotaOf(m));
      assert QuotaOf(m) > 0 && 0 <= AchievedOf(m) <= QuotaOf(m) ==> 0 <= r <= 100 by {
        if QuotaOf(m) > 0 && 0 <= AchievedOf(m) <= QuotaOf(m) { PercentBounds(AchievedOf(m), QuotaOf(m)); }
      }
      r
    else 0
  }

  class TeamView {
    var salesmen: seq<Salesman>
    var selectedIds: seq<string>
    var loading: bool

    constructor ()
      ensures salesmen == [] && selectedIds == [] && loading
    {
      salesmen := [];
      selectedIds := [];
      loading := true;
    }

    function Selected(): seq<Salesman>
      reads this
    {
      SelectedSalesmen(salesmen, selectedIds)
    }

    /** `fetchSalesmen`: the answer (a null answer as no rows), all of it selected. */
    method FetchSalesmen(data: Option<seq<Salesman>>)
      modifies this
      ensures salesmen == data.GetOr([]) && selectedIds == Ids(salesmen) && !loading
      ensures Selected() == salesmen
    {
      loading := true;
      salesmen := data.GetOr([]);
      selectedIds := Ids(salesmen);
      AllSelected(salesmen);
      loading := false;
    }

    method Toggle(id: string, checked: bool)
      modifies this
      ensures selectedIds == Toggled(old(selectedIds), id, checked)
      ensures salesmen == old(salesmen) && loading == old(loading)
    {
      selectedIds := Toggled(selectedIds, id, checked);
    }
  }
}
