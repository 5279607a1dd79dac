/** The rows the views receive from the backend, as values. Optional text columns
    (email, phone, full name, description) are the empty string when absent: every use
    in the views only tests them for truthiness. Numeric columns that the views read
    with `x || 0` or `x || default` are `Option<int>`. Dates are given already parsed:
    a lead's creation month and a quota's start month as (year, month 0..11), an
    activity's creation time in milliseconds. */
module Rows {

  datatype Option<+T> = None | Some(value: T)
  {
    function GetOr(default: T): T
    {
      match this
      case Some(v) => v
      case None => default
    }
  }

  /** `n || default` on a number column: a missing value or 0 gives the default. */
  function OrDefault(n: Option<int>, default: int): (r: int)
    ensures n.Some? && n.value != 0 ==> r == n.value
    ensures n.None? || n.value == 0 ==> r == default
  {
    if n.Some? && n.value != 0 then n.value else default
  }

  /** `n || 0`. */
  function OrZero(n: Option<int>): (r: int)
    ensures r == n.GetOr(0)
  {
    OrDefault(n, 0)
  }

  /** Status text other than the five declared names. */
  type OtherName = s: string | s !in {"new", "qualified", "negotiation", "won", "lost"}
    witness "closed_won"

  /** A lead's status. The lead tables declare the five named values; the column is
      text, and one view compares it against "closed_won", so any other text is kept
      as `Other`, which never holds one of the five names. */
  datatype Status = New | Qualified | Negotiation | Won | Lost | Other(name: OtherName)

  function StatusName(s: Status): string
  {
    match s
    case New => "new"
    case Qualified => "qualified"
    case Negotiation => "negotiation"
    case Won => "won"
    case Lost => "lost"
    case Other(name) => name
  }

  /** Reading the status column. */
  function ParseStatus(name: string): (s: Status)
    ensures StatusName(s) == name
    ensures s.Other? ==> name !in {"new", "qualified", "negotiation", "won", "lost"}
  {
    if name == "new" then New
    else if name == "qualified" then Qualified
    else if name == "negotiation" then Negotiation
    else if name == "won" then Won
    else if name == "lost" then Lost
    else Other(name)
  }

  /** Reading back the text of a status gives the same status: the text of a status
      determines it. */
  lemma ParseStatusName(s: Status)
    ensures ParseStatus(StatusName(s)) == s
  {
  }

  /** `getMonth()`: 0 for January to 11 for December. */
  type Month = m: int | 0 <= m < 12

  /** Month of a date as `getFullYear()` and `getMonth()` give it. */
  datatype YearMonth = YearMonth(year: int, month: Month)

  /** Months counted from year 0, so that chronological order is integer order. */
  function MonthIndex(m: YearMonth): int
  {
    m.year * 12 + m.month
  }

  /** Distinct months have distinct indices. */
  lemma MonthIndexInjective(a: YearMonth, b: YearMonth)
    requires MonthIndex(a) == MonthIndex(b)
    ensures a == b
  {
  }

  const MonthNames: seq<string> :=
    ["Jan", "Feb", "Mar", "Apr", "May", "Jun", "Jul", "Aug", "Sep", "Oct", "Nov", "Dec"]

  datatype Lead = Lead(
    id: string,
    companyName: string,
    contactName: string,
    contactEmail: string,
    contactPhone: string,
    status: Status,
    value: Option<int>,
    assignedTo: Option<string>,
    createdAt: Option<YearMonth>)

  /** `lead.value || 0`. */
  function LeadValue(l: Lead): int
  {
    OrZero(l.value)
  }

  function IsWon(l: Lead): bool
  {
    l.status == Won
  }

  /** `lead.assigned_to === userId`. */
  function AssignedTo(l: Lead, userId: string): bool
  {
    l.assignedTo == Some(userId)
  }

  datatype User = User(id: string, email: string, fullName: string, role: string)

  datatype Quota = Quota(id: string, userId: string, targetAmount: Option<int>, periodStart: YearMonth)

  datatype Activity = Activity(
    id: string,
    userId: string,
    leadId: Option<string>,
    kind: string,
    activityType: Option<string>,
    title: string,
    description: string,
    createdAt: int)

  datatype Project = Project(id: string, name: string, description: string, budget: Option<int>, status: string)

  datatype Team = Team(id: string, name: string, managerId: string, description: string)

  datatype TeamMember = TeamMember(teamId: string, userId: string)

  /** What a query gives back to a helper that treats a returned error like a thrown
      one (`if (error) throw error`) and reads a `null` data field as no rows: the
      rows, or the error. */
  datatype Fetched<T> = Rows(rows: seq<T>) | Failed
}
