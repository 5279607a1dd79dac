/** The quota progress card (src/components/dashboard/QuotaProgress.tsx): the
    signed-in user's won revenue against their quota target, the days left in the
    month, and the capped progress bar and remaining amount. */
module QuotaProgress {
  import opened Rows
  import opened Seqs
  import opened Arith

  const DefaultTarget: int := 250000
  const MillisPerDay: int := 86400000

  /** The card's state: `{ target, achieved, daysLeft }`. */
  datatype QuotaData = QuotaData(target: int, achieved: int, daysLeft: int)

  const Initial: QuotaData := QuotaData(DefaultTarget, 0, 15)

  /** Reading a numeric property of a quota row by name, as the view does: the rows
      carry `target_amount` and no property called `target`. */
  function QuotaField(q: Quota, name: string): (r: Option<int>)
    ensures name != "target_amount" ==> r == None
  {
    if name == "target_amount" then q.targetAmount else None
  }

  /** `currentQuota?.target || 250000`, as written: the property read is `target`. */
  function TargetAsWritten(quotas: seq<Quota>): int
  {
    if |quotas| > 0 then OrDefault(QuotaField(quotas[0], "target"), DefaultTarget) else DefaultTarget
  }

  /** As written the target never depends on the quota rows. */
  lemma TargetAsWrittenIgnoresQuota(quotas: seq<Quota>)
    ensures TargetAsWritten(quotas) == DefaultTarget
  {
  }

  /** A user with a quota of 150000 is measured against 250000. */
  lemma TargetAsWrittenExample()
    ensures var q := Quota("q1", "u1", Some(150000), YearMonth(2025, 0));
      TargetAsWritten([q]) == 250000 && QuotaTarget([q]) == 150000
  {
  }

  /** The target read from `target_amount`, the column every quota row carries:
      the first quota's non-zero amount, else 250000. */
  function QuotaTarget(quotas: seq<Quota>): (t: int)
    ensures quotas != [] && quotas[0].targetAmount.Some? && quotas[0].targetAmount.value != 0 ==>
      t == quotas[0].targetAmount.value
    ensures quotas == [] || quotas[0].targetAmount.None? || quotas[0].targetAmount.value == 0 ==>
      t == DefaultTarget
    ensures t != 0
  {
    if |quotas| > 0 then OrDefault(QuotaField(quotas[0], "target_amount"), DefaultTarget) else DefaultTarget
  }

  /** `Math.max(1, Math.ceil(msToEndOfMonth / 86400000))`. On the last day of a
      month the end-of-month instant has already passed and the difference is
      negative; the clamp keeps at least one day. */
  function DaysLeft(msToEndOfMonth: int): (d: int)
    ensures d >= 1
    ensures msToEndOfMonth > 0 ==> MillisPerDay * (d - 1) < msToEndOfMonth <= MillisPerDay * d
    ensures msToEndOfMonth <= 0 ==> d == 1
  {
    var c := CeilDiv(msToEndOfMonth, MillisPerDay);
    assert msToEndOfMonth > 0 ==> c >= 1;
    assert msToEndOfMonth <= 0 ==> c <= 0;
    Max(1, c)
  }

  /** `wonLeads.reduce(sum + (l.value || 0))` over the user's leads with status won. */
  function Achieved(leads: seq<Lead>): int
  {
    SumBy(Filter(leads, IsWon), LeadValue)
  }

  /** The state after `fetchQuotaData`, as written: unchanged without a signed-in
      user, otherwise the target read from the missing `target` property (always
      250000), the won revenue and the clamped days left; a missing lead list
      (`leads || []`) counts as no leads. */
  function Fetched(user: Option<User>, quotas: seq<Quota>, leads: Option<seq<Lead>>, msToEndOfMonth: int): (q: QuotaData)
    ensures user.None? ==> q == Initial
    ensures user.Some? ==> q.target == DefaultTarget && q.achieved == Achieved(leads.GetOr([]))
    ensures q.daysLeft >= 1
  {
    if user.None? then Initial
    else QuotaData(TargetAsWritten(quotas), Achieved(leads.GetOr([])), DaysLeft(msToEndOfMonth))
  }

  /** The state `fetchQuotaData` evidently intends: the same, with the target read
      from `target_amount`. It differs from `Fetched` only in the target. */
  function FetchedCorrected(user: Option<User>, quotas: seq<Quota>, leads: Option<seq<Lead>>, msToEndOfMonth: int)
    : (q: QuotaData)
    ensures user.None? ==> q == Initial
    ensures user.Some? ==> q.target == QuotaTarget(quotas)
    ensures q == Fetched(user, quotas, leads, msToEndOfMonth).(target := q.target)
    ensures q.daysLeft >= 1 && q.target != 0
  {
    if user.None? then Initial
    else QuotaData(QuotaTarget(quotas), Achieved(leads.GetOr([])), DaysLeft(msToEndOfMonth))
  }

  /** `Math.min(percentage, 100)`, with the percentage rounded to a whole number:
      never above 100, exactly 100 once the target is reached, and not negative for
      a non-negative revenue against a positive target. */
  function ProgressBar(q: QuotaData): (v: int)
    requires q.target != 0
    ensures v <= 100
    ensures q.target > 0 && q.achieved >= q.target ==> v == 100
    ensures q.target > 0 && q.achieved >= 0 ==> v >= 0
  {
    var p := RoundRatio(100 * q.achieved, q.target);
    assert q.target > 0 && q.achieved >= q.target ==> p >= 100 by {
      if q.target > 0 && q.achieved >= q.target { PercentOfNotMore(q.achieved, q.target); }
    }
    assert q.target > 0 && 0 <= q.achieved < q.target ==> p >= 0 by {
      if q.target > 0 && 0 <= q.achieved < q.target { PercentBounds(q.achieved, q.target); }
    }
    Min(p, 100)
  }

  /** `Math.max(0, target - achieved)`: what is left, never negative, and zero
      exactly when the target is reached. */
  function Remaining(q: QuotaData): (r: int)
    ensures r >= 0 && r >= q.target - q.achieved
    ensures r == 0 <==> q.achieved >= q.target
    ensures q.achieved < q.target ==> q.achieved + r == q.target
  {
    Max(0, q.target - q.achieved)
  }

  /** Every won lead of a non-negative value adds to the achieved sum. */
  lemma {:induction false} AchievedNonNegative(leads: seq<Lead>)
    requires forall i :: 0 <= i < |leads| ==> LeadValue(leads[i]) >= 0
    ensures Achieved(leads) >= 0
  {
    var won := Filter(leads, IsWon);
    forall i | 0 <= i < |won| ensures LeadValue(won[i]) >= 0 {
      assert won[i] in leads;
    }
    SumByNonNegative(won, LeadValue);
  }

  /** For a signed-in user with leads of non-negative value, the bar lies in 0..100
      and the remaining amount plus the capped achieved sum make the target. */
  lemma CardBounds(user: Option<User>, quotas: seq<Quota>, leads: seq<Lead>, msToEndOfMonth: int)
    requires user.Some?
    requires forall i :: 0 <= i < |leads| ==> LeadValue(leads[i]) >= 0
    ensures var q := Fetched(user, quotas, Some(leads), msToEndOfMonth);
      && 0 <= ProgressBar(q) <= 100
      && Remaining(q) + Min(q.achieved, q.target) == q.target
  {
    AchievedNonNegative(leads);
  }

  /** The same bounds hold for the corrected target when it is positive. */
  lemma CardBoundsCorrected(user: Option<User>, quotas: seq<Quota>, leads: seq<Lead>, msToEndOfMonth: int)
    requires user.Some? && QuotaTarget(quotas) > 0
    requires forall i :: 0 <= i < |leads| ==> LeadValue(leads[i]) >= 0
    ensures var q := FetchedCorrected(user, quotas, Some(leads), msToEndOfMonth);
      && 0 <= ProgressBar(q) <= 100
      && Remaining(q) + Min(q.achieved, q.target) == q.target
  {
    AchievedNonNegative(leads);
  }
}
