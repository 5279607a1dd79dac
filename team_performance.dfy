/** The team performance card (src/components/dashboard/TeamPerformance.tsx): every
    user with the revenue and number of their won leads, sorted in place by revenue,
    largest first, and cut to the first five. */
module TeamPerformance {
  import opened Rows
  import opened Seqs
  import opened Text

  /** A row of the card. */
  datatype Member = Member(id: string, name: string, role: string, revenue: int, dealsWon: nat)

  function MemberRevenue(m: Member): int
  {
    m.revenue
  }

  /** `user.full_name || user.email.split('@')[0]`. */
  function DisplayName(u: User): (r: string)
    ensures u.fullName != "" ==> r == u.fullName
    ensures u.fullName == "" ==> r <= u.email && '@' !in r
  {
    if u.fullName != "" then u.fullName else LocalPart(u.email)
  }

  /** `leads.filter(assigned_to === id).filter(status === 'won')`. */
  function WonLeadsOf(leads: seq<Lead>, id: string): seq<Lead>
  {
    Filter(Filter(leads, (l: Lead) => AssignedTo(l, id)), IsWon)
  }

  function MemberOf(leads: seq<Lead>): User -> Member
  {
    (u: User) => Member(u.id, DisplayName(u), "Sales Rep", SumBy(WonLeadsOf(leads, u.id), LeadValue), |WonLeadsOf(leads, u.id)|)
  }

  /** `membersData.sort((a, b) => b.revenue - a.revenue)`: a stable insertion sort in
      place, with the same outcome as `SortDesc`. */
  method SortByRevenue(a: array<Member>)
    modifies a
    ensures a[..] == SortDesc(old(a[..]), MemberRevenue)
  {
    ghost var s := a[..];
    var i := 0;
    while i < a.Length
      invariant 0 <= i <= a.Length
      invariant a[..i] == SortDesc(s[..i], MemberRevenue)
      invariant forall k :: i <= k < a.Length ==> a[k] == s[k]
    {
      assert a[i] == s[i];
      InsertInPlace(a, i);
      SortDescSnoc(s, i, MemberRevenue);
      i := i + 1;
    }
    assert a[..] == a[..a.Length] && s == s[..a.Length];
  }

  /** Moves `a[i]` back past the elements of the prefix with a smaller revenue. */
  method InsertInPlace(a: array<Member>, i: int)
    requires 0 <= i < a.Length
    modifies a
    ensures a[..i + 1] == InsertByKey(old(a[..i]), old(a[i]), MemberRevenue)
    ensures forall k :: i < k < a.Length ==> a[k] == old(a[k])
  {
    ghost var before := a[..];
    var x := a[i];
    var j := ShiftSmaller(a, i, x);
    a[j] := x;
    Inserted(before, a[..], x, i, j);
  }

  /** The inner loop: shifts right by one, from `i - 1` down, every element whose
      revenue is below that of `x`, and returns the gap it leaves. */
  method ShiftSmaller(a: array<Member>, i: int, x: Member) returns (j: int)
    requires 0 <= i < a.Length
    modifies a
    ensures 0 <= j <= i
    ensures forall k :: 0 <= k < j ==> a[k] == old(a[k])
    ensures forall k :: j < k <= i ==> a[k] == old(a[k - 1])
    ensures forall k :: i < k < a.Length ==> a[k] == old(a[k])
    ensures forall k :: j <= k < i ==> old(a[k]).revenue < x.revenue
    ensures j == 0 || old(a[j - 1]).revenue >= x.revenue
  {
    j := i;
    while j > 0 && a[j - 1].revenue < x.revenue
      invariant 0 <= j <= i
      invariant forall k :: 0 <= k < j ==> a[k] == old(a[k])
      invariant forall k :: j < k <= i ==> a[k] == old(a[k - 1])
      invariant forall k :: i < k < a.Length ==> a[k] == old(a[k])
      invariant forall k :: j <= k < i ==> old(a[k]).revenue < x.revenue
    {
      a[j] := a[j - 1];
      j := j - 1;
    }
  }

  /** The array after the inner loop and the store of `x` into its gap holds, up to
      `i`, the sorted prefix with `x` inserted. */
  lemma Inserted(before: seq<Member>, after: seq<Member>, x: Member, i: int, j: int)
    requires |after| == |before| && 0 <= j <= i < |before|
    requires forall k :: 0 <= k < j ==> after[k] == before[k]
    requires after[j] == x
    requires forall k :: j < k <= i ==> after[k] == before[k - 1]
    requires forall k :: j <= k < i ==> before[k].revenue < x.revenue
    requires j == 0 || before[j - 1].revenue >= x.revenue
    ensures after[..i + 1] == InsertByKey(before[..i], x, MemberRevenue)
  {
    var t, p := before[..i], after[..i + 1];
    forall k | j <= k < |t| ensures MemberRevenue(t[k]) < MemberRevenue(x) {
      assert t[k] == before[k];
    }
    assert j == 0 || MemberRevenue(t[j - 1]) >= MemberRevenue(x) by {
      if j > 0 { assert t[j - 1] == before[j - 1]; }
    }
    InsertByKeySplit(t, x, MemberRevenue, j);
    forall k | 0 <= k < j ensures p[k] == t[k] {
      assert p[k] == after[k] && t[k] == before[k];
    }
    forall k | j < k < |p| ensures p[k] == t[k - 1] {
      assert p[k] == after[k] && t[k - 1] == before[k - 1];
    }
    Placed(p, t, x, j);
  }

  /** The array prefix after the inner loop: the shifted part and `x` in its gap. */
  lemma Placed(p: seq<Member>, sorted: seq<Member>, x: Member, j: nat)
    requires |p| == |sorted| + 1 && j <= |sorted|
    requires forall k :: 0 <= k < j ==> p[k] == sorted[k]
    requires p[j] == x
    requires forall k :: j < k < |p| ==> p[k] == sorted[k - 1]
    ensures p == sorted[..j] + [x] + sorted[j..]
  {
    var r := sorted[..j] + [x] + sorted[j..];
    forall k | 0 <= k < |p| ensures p[k] == r[k] {
      if k < j { assert r[k] == sorted[k]; }
      else if k > j { assert r[k] == sorted[k - 1]; }
    }
  }

  /** The rows built, sorted and cut to five, as `fetchTeamData` computes them. */
  method TopMembers(users: seq<User>, leads: seq<Lead>) returns (top: seq<Member>)
    ensures top == TakeFirst(SortDesc(MapSeq(users, MemberOf(leads)), MemberRevenue), 5)
  {
    var membersData := MapSeq(users, MemberOf(leads));
    var a := new Member[|membersData|](i requires 0 <= i < |membersData| => membersData[i]);
    assert a[..] == membersData;
    SortByRevenue(a);
    top := TakeFirst(a[..], 5);
  }

  /** The card's rows: nothing until both lists arrived (`users && leads`). */
  function Shown(users: Option<seq<User>>, leads: Option<seq<Lead>>): seq<Member>
  {
    if users.Some? && leads.Some? then
      TakeFirst(SortDesc(MapSeq(users.value, MemberOf(leads.value)), MemberRevenue), 5)
    else []
  }

  /** At most five rows, largest revenue first; each row stands for one user, of any
      role, labelled "Sales Rep", with the sum of values and the number of that
      user's won leads; and a user left out earns no more than anyone shown. */
  lemma ShownFacts(users: seq<User>, leads: seq<Lead>)
    ensures var top := Shown(Some(users), Some(leads));
      && |top| <= 5
      && SortedDesc(top, MemberRevenue)
      && (forall m :: m in top ==> exists u :: u in users && m == MemberOf(leads)(u))
      && (forall m :: m in top ==>
            m.role == "Sales Rep" && m.revenue == SumBy(WonLeadsOf(leads, m.id), LeadValue) && m.dealsWon == |WonLeadsOf(leads, m.id)|)
  {
    var all := MapSeq(users, MemberOf(leads));
    TopSorted(all, MemberRevenue, 5);
    forall m | m in Shown(Some(users), Some(leads)) ensures exists u :: u in users && m == MemberOf(leads)(u) {
      var k :| 0 <= k < |all| && all[k] == m;
      assert users[k] in users;
    }
  }

  /** A user whose row is not shown earns no more than any row shown. */
  lemma ShownLeftOut(users: seq<User>, leads: seq<Lead>, u: User)
    requires u in users
    ensures var top := Shown(Some(users), Some(leads));
      MemberOf(leads)(u) in top || forall m :: m in top ==> m.revenue >= MemberOf(leads)(u).revenue
  {
    var all := MapSeq(users, MemberOf(leads));
    var k :| 0 <= k < |users| && users[k] == u;
    assert all[k] == MemberOf(leads)(u);
    TopLeftOut(all, MemberRevenue, 5, MemberOf(leads)(u));
  }

  /** The card is filled once the lists arrived, and `loading` cleared either way. */
  class TeamCard {
    var members: seq<Member>
    var loading: bool

    constructor ()
      ensures members == [] && loading
    {
      members := [];
      loading := true;
    }

    method FetchTeamData(users: Option<seq<User>>, leads: Option<seq<Lead>>)
      modifies this
      ensures users.Some? && leads.Some? ==> members == Shown(users, leads)
      ensures !(users.Some? && leads.Some?) ==> members == old(members)
      ensures !loading
    {
      if users.Some? && leads.Some? {
        members := TopMembers(users.value, leads.value);
      }
      loading := false;
    }
  }
}
