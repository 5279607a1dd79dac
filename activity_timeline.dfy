/** The recent-activity card (src/components/dashboard/ActivityTimeline.tsx): the
    signed-in user's activities, normalised to a type and a title, newest first and
    cut to five, each labelled with how long ago it happened. Times are milliseconds
    since the epoch; the clock reading is a parameter. */
module ActivityTimeline {
  import opened Rows
  import opened Seqs
  import opened Text
  import Backend

  /** An entry of the card. */
  datatype Item = Item(id: string, kind: string, title: string, createdAt: int, activityType: Option<string>)

  function ItemTime(it: Item): int
  {
    it.createdAt
  }

  /** `activity.activity_type?.toLowerCase() || "note"`: the `type` column itself is
      never read, so an activity without `activity_type` is a note whatever its type. */
  function ItemType(a: Activity): (t: string)
    ensures a.activityType.Some? && a.activityType.value != "" ==> t == Lower(a.activityType.value)
    ensures a.activityType.None? || a.activityType.value == "" ==> t == "note"
    ensures t != ""
  {
    if a.activityType.Some? && Lower(a.activityType.value) != "" then Lower(a.activityType.value) else "note"
  }

  /** `activity.description || "Activity"`: never empty. */
  function ItemTitle(a: Activity): (t: string)
    ensures t != ""
    ensures a.description != "" ==> t == a.description
    ensures a.description == "" ==> t == "Activity"
  {
    if a.description != "" then a.description else "Activity"
  }

  function ToItem(a: Activity): Item
  {
    Item(a.id, ItemType(a), ItemTitle(a), a.createdAt, a.activityType)
  }

  /** The normalised activities sorted by time, newest first, and cut to five. */
  function Recent(data: seq<Activity>): seq<Item>
  {
    TakeFirst(SortDesc(MapSeq(data, ToItem), ItemTime), 5)
  }

  /** At most five entries, as many as there are activities up to five, newest first,
      and each the normalised form of one of the activities. */
  lemma RecentFacts(data: seq<Activity>)
    ensures var r := Recent(data);
      && |r| == (if |data| < 5 then |data| else 5)
      && SortedDesc(r, ItemTime)
      && (forall it :: it in r ==> exists a :: a in data && it == ToItem(a))
      && (forall it :: it in r ==> it.title != "" && it.kind != "")
  {
    var all := MapSeq(data, ToItem);
    TopSorted(all, ItemTime, 5);
    forall it | it in Recent(data) ensures exists a :: a in data && it == ToItem(a) {
      var k :| 0 <= k < |all| && all[k] == it;
      assert data[k] in data;
    }
  }

  /** An activity left off the card is no newer than any entry on it. */
  lemma RecentLeftOut(data: seq<Activity>, a: Activity)
    requires a in data
    ensures ToItem(a) in Recent(data) || forall it :: it in Recent(data) ==> it.createdAt >= a.createdAt
  {
    var all := MapSeq(data, ToItem);
    var k :| 0 <= k < |data| && data[k] == a;
    assert all[k] == ToItem(a);
    TopLeftOut(all, ItemTime, 5, ToItem(a));
  }

  /** Five or fewer activities are all shown. */
  lemma RecentKeepsFew(data: seq<Activity>)
    requires |data| <= 5
    ensures multiset(Recent(data)) == multiset(MapSeq(data, ToItem))
  {
    var sorted := SortDesc(MapSeq(data, ToItem), ItemTime);
    assert Recent(data) == sorted[..|sorted|] == sorted;
  }

  // ---------------------------------------------------------------------------
  // formatTime

  const MillisPerMinute: int := 60000
  const MillisPerHour: int := 3600000
  const MillisPerDay: int := 86400000

  /** The label `formatTime` gives: "Nm ago", "Nh ago", "Yesterday", "Nd ago", or the
      date itself. */
  datatype TimeLabel = MinutesAgo(minutes: int) | HoursAgo(hours: int) | Yesterday | DaysAgo(days: int) | OnDate(at: int)

  /** `formatTime` at clock reading `now`: the elapsed milliseconds floored to
      minutes, hours and days (`Math.floor`; Dafny's division agrees with it for a
      positive divisor) and tested in that order. Stated against the elapsed time
      alone: under an hour in minutes (a negative count for a time in the future),
      then under a day in hours, then the second day as "Yesterday", then up to the
      seventh day in days, and the date after that; every count is the elapsed time
      rounded down to its unit. */
  function FormatTime(createdAt: int, now: int): (r: TimeLabel)
    ensures r.MinutesAgo? <==> now - createdAt < MillisPerHour
    ensures r.MinutesAgo? ==> MillisPerMinute * r.minutes <= now - createdAt < MillisPerMinute * (r.minutes + 1)
    ensures r.MinutesAgo? && now >= createdAt ==> 0 <= r.minutes < 60
    ensures now < createdAt ==> r.MinutesAgo? && r.minutes < 0
    ensures r.HoursAgo? <==> MillisPerHour <= now - createdAt < MillisPerDay
    ensures r.HoursAgo? ==> 1 <= r.hours < 24
    ensures r.HoursAgo? ==> MillisPerHour * r.hours <= now - createdAt < MillisPerHour * (r.hours + 1)
    ensures r.Yesterday? <==> MillisPerDay <= now - createdAt < 2 * MillisPerDay
    ensures r.DaysAgo? <==> 2 * MillisPerDay <= now - createdAt < 7 * MillisPerDay
    ensures r.DaysAgo? ==> 2 <= r.days < 7
    ensures r.DaysAgo? ==> MillisPerDay * r.days <= now - createdAt < MillisPerDay * (r.days + 1)
    ensures r.OnDate? <==> now - createdAt >= 7 * MillisPerDay
    ensures r.OnDate? ==> r.at == createdAt
  {
    var diffMs := now - createdAt;
    var diffMins := diffMs / MillisPerMinute;
    var diffHours := diffMs / MillisPerHour;
    var diffDays := diffMs / MillisPerDay;
    if diffMins < 60 then MinutesAgo(diffMins)
    else if diffHours < 24 then HoursAgo(diffHours)
    else if diffDays == 1 then Yesterday
    else if diffDays < 7 then DaysAgo(diffDays)
    else OnDate(createdAt)
  }

  /** Once the minute and hour tests have failed, the day count is at least one, so
      the "Yesterday" test is the first one a whole day can meet. */
  lemma DaysAtYesterdayTest(diffMs: int)
    requires diffMs / MillisPerMinute >= 60 && diffMs / MillisPerHour >= 24
    ensures diffMs / MillisPerDay >= 1
  {
    assert diffMs >= MillisPerHour * 24;
  }

  /** The unit a label counts in, finest first. */
  function Coarseness(l: TimeLabel): nat
  {
    match l
    case MinutesAgo(_) => 0
    case HoursAgo(_) => 1
    case Yesterday => 2
    case DaysAgo(_) => 3
    case OnDate(_) => 4
  }

  /** A later clock reading never moves a label back to a finer unit. */
  lemma FormatTimeMonotone(createdAt: int, now: int, later: int)
    requires now <= later
    ensures Coarseness(FormatTime(createdAt, now)) <= Coarseness(FormatTime(createdAt, later))
  {
  }

  // ---------------------------------------------------------------------------
  // The card

  class Timeline {
    var activities: seq<Item>
    var loading: bool

    constructor ()
      ensures activities == [] && loading
    {
      activities := [];
      loading := true;
    }

    /** `fetchActivities`: for a signed-in user, the recent entries of what
        `getActivities(user.id)` returns (its query result `response` or its sample
        rows); nothing changes without a user; `loading` is cleared either way. */
    method FetchActivities(user: Option<User>, response: Fetched<Activity>, samples: seq<Activity>)
      modifies this
      ensures user.Some? ==> activities == Recent(Backend.GetActivities(Some(user.value.id), response, samples))
      ensures user.None? ==> activities == old(activities)
      ensures !loading
    {
      if user.Some? {
        var data := Backend.GetActivities(Some(user.value.id), response, samples);
        activities := Recent(data);
      }
      loading := false;
    }
  }
}
