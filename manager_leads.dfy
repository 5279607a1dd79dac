/** The manager's lead table (src/components/dashboard/ManagerLeadsTable.tsx): the
    held lead list, the realtime change reducer that folds INSERT, UPDATE and DELETE
    events into it, the search and status filter, and the edit dialog whose save
    patches one lead's status. */
module ManagerLeads {
  import opened Rows
  import opened Seqs
  import opened Text
  import opened LeadEditing
  import Backend

  // ---------------------------------------------------------------------------
  // Realtime reconciliation

  /** A realtime payload: its event type, its `new` row and the id of its `old` row
      (absent when the field is null). A `new` row carries every column of the
      lead, so spreading it over a held lead gives the new row itself. */
  datatype ChangeEvent = ChangeEvent(eventType: string, newRow: Option<Lead>, oldId: Option<string>)

  /** `prev.some(l => l.id === id)`. */
  predicate HasId(s: seq<Lead>, id: string)
  {
    exists i :: 0 <= i < |s| && s[i].id == id
  }

  function Replaced(l: Lead, row: Lead): Lead
  {
    if l.id == row.id then row else l
  }

  function KeepsOtherId(id: string): Lead -> bool
  {
    (l: Lead) => l.id != id
  }

  /** The `setLeads(prev => …)` reducer. */
  function Reconcile(prev: seq<Lead>, e: ChangeEvent): seq<Lead>
  {
    if e.eventType == "INSERT" && e.newRow.Some? then
      if HasId(prev, e.newRow.value.id) then prev else [e.newRow.value] + prev
    else if e.eventType == "UPDATE" && e.newRow.Some? then
      seq(|prev|, i requires 0 <= i < |prev| => Replaced(prev[i], e.newRow.value))
    else if e.eventType == "DELETE" && e.oldId.Some? then
      Filter(prev, KeepsOtherId(e.oldId.value))
    else prev
  }

  /** An INSERT prepends a row whose id is not yet held, and leaves the list as it
      was when the id is held. */
  lemma ReconcileInsert(prev: seq<Lead>, row: Lead, oldId: Option<string>)
    ensures HasId(prev, row.id) ==> Reconcile(prev, ChangeEvent("INSERT", Some(row), oldId)) == prev
    ensures !HasId(prev, row.id) ==> Reconcile(prev, ChangeEvent("INSERT", Some(row), oldId)) == [row] + prev
  {
  }

  /** An UPDATE keeps the length and the order, puts the new row in place of every
      entry with its id and leaves every other entry as it was. */
  lemma ReconcileUpdate(prev: seq<Lead>, row: Lead, oldId: Option<string>)
    ensures var r := Reconcile(prev, ChangeEvent("UPDATE", Some(row), oldId));
      && |r| == |prev|
      && forall i :: 0 <= i < |prev| ==>
           r[i].id == prev[i].id && (prev[i].id == row.id ==> r[i] == row) && (prev[i].id != row.id ==> r[i] == prev[i])
  {
  }

  /** A DELETE removes exactly the entries with the old row's id and keeps the rest,
      in order. */
  lemma ReconcileDelete(prev: seq<Lead>, newRow: Option<Lead>, id: string)
    ensures var r := Reconcile(prev, ChangeEvent("DELETE", newRow, Some(id)));
      && (forall l :: l in r <==> l in prev && l.id != id)
      && IsSubsequence(r, prev)
      && (forall i :: 0 <= i < |prev| && prev[i].id == id ==> prev[i] !in r)
  {
    var r := Filter(prev, KeepsOtherId(id));
    assert Reconcile(prev, ChangeEvent("DELETE", newRow, Some(id))) == r;
    FilterIsSubsequence(prev, KeepsOtherId(id));
    forall l | l in prev && l.id != id ensures l in r {
      var i :| 0 <= i < |prev| && prev[i] == l;
      assert KeepsOtherId(id)(prev[i]);
    }
  }

  /** Any other event type, or an event without the row it needs, changes nothing. */
  lemma ReconcileIgnored(prev: seq<Lead>, e: ChangeEvent)
    requires e.eventType !in {"INSERT", "UPDATE", "DELETE"}
      || (e.eventType in {"INSERT", "UPDATE"} && e.newRow.None?)
      || (e.eventType == "DELETE" && e.oldId.None?)
    ensures Reconcile(prev, e) == prev
  {
  }

  lemma {:induction false} FilterKeepsUniqueIds(s: seq<Lead>, p: Lead -> bool)
    requires UniqueIds(s)
    ensures UniqueIds(Filter(s, p))
  {
    if s != [] {
      FilterKeepsUniqueIds(s[1..], p);
      var rest := Filter(s[1..], p);
      if p(s[0]) {
        var r := Filter(s, p);
        assert r == [s[0]] + rest;
        forall j | 0 < j < |r| ensures r[0].id != r[j].id {
          assert r[j] == rest[j - 1];
          assert rest[j - 1] in s[1..];
          var k :| 0 <= k < |s[1..]| && s[1..][k] == rest[j - 1];
          assert s[k + 1] == r[j];
        }
      }
    }
  }

  /** Unique ids stay unique under every event. */
  lemma ReconcileKeepsUniqueIds(prev: seq<Lead>, e: ChangeEvent)
    requires UniqueIds(prev)
    ensures UniqueIds(Reconcile(prev, e))
  {
    if e.eventType == "INSERT" && e.newRow.Some? {
    } else if e.eventType == "UPDATE" && e.newRow.Some? {
    } else if e.eventType == "DELETE" && e.oldId.Some? {
      FilterKeepsUniqueIds(prev, KeepsOtherId(e.oldId.value));
    }
  }

  /** Replaying an event that the list already reflects changes nothing: an INSERT
      of a held id, an UPDATE with a row already held under unique ids, and a
      DELETE of an id no longer held. */
  lemma ReconcileReplay(prev: seq<Lead>, e: ChangeEvent)
    requires UniqueIds(prev)
    ensures e.eventType == "INSERT" && e.newRow.Some? ==>
      Reconcile(Reconcile(prev, e), e) == Reconcile(prev, e)
    ensures e.eventType == "UPDATE" && e.newRow.Some? ==>
      Reconcile(Reconcile(prev, e), e) == Reconcile(prev, e)
    ensures e.eventType == "DELETE" && e.oldId.Some? ==>
      Reconcile(Reconcile(prev, e), e) == Reconcile(prev, e)
  {
    if e.eventType == "INSERT" && e.newRow.Some? {
      if !HasId(prev, e.newRow.value.id) {
        assert Reconcile(prev, e)[0].id == e.newRow.value.id;
      }
    } else if e.eventType == "DELETE" && e.oldId.Some? {
      var once := Reconcile(prev, e);
      FilterAll(once, KeepsOtherId(e.oldId.value));
    }
  }

  // ---------------------------------------------------------------------------
  // Search and status filter

  predicate MatchesSearch(l: Lead, query: string)
  {
    Contains(Lower(l.companyName), Lower(query))
  }

  predicate MatchesStatus(l: Lead, statusFilter: string)
  {
    statusFilter == "all" || StatusName(l.status) == statusFilter
  }

  function ShownBy(query: string, statusFilter: string): Lead -> bool
  {
    (l: Lead) => MatchesSearch(l, query) && MatchesStatus(l, statusFilter)
  }

  /** `filteredLeads`. */
  function FilteredLeads(leads: seq<Lead>, query: string, statusFilter: string): (r: seq<Lead>)
    ensures forall l :: l in r <==> l in leads && MatchesSearch(l, query) && MatchesStatus(l, statusFilter)
    ensures IsSubsequence(r, leads)
  {
    FilterIsSubsequence(leads, ShownBy(query, statusFilter));
    Filter(leads, ShownBy(query, statusFilter))
  }

  /** With an empty query and "all", every lead is shown. */
  lemma FilteredLeadsEverything(leads: seq<Lead>)
    ensures FilteredLeads(leads, "", "all") == leads
  {
    forall i | 0 <= i < |leads| ensures ShownBy("", "all")(leads[i]) {
      ContainsEmpty(Lower(leads[i].companyName));
    }
    FilterAll(leads, ShownBy("", "all"));
  }

  /** The display label of a status (`labels[status]`): the status's name with a
      capital first letter; undefined for a status outside the five. */
  function StatusLabel(s: Status): (r: Option<string>)
    ensures r.None? <==> s.Other?
    ensures r.Some? ==> |r.value| > 0 && 'A' <= r.value[0] <= 'Z' && Lower(r.value) == StatusName(s)
  {
    match s
    case New => Some("New")
    case Qualified => Some("Qualified")
    case Negotiation => Some("Negotiation")
    case Won => Some("Won")
    case Lost => Some("Lost")
    case Other(_) => None
  }

  // ---------------------------------------------------------------------------
  // The component's state

  /** The dialog state: `selectedLead`, the two modal flags, `editingStatus`,
      `updateLoading` and `updateMessage`. */
  datatype Dialog = Dialog(
    selected: Option<Lead>, showDetails: bool, showEdit: bool, editingStatus: string,
    updateLoading: bool, message: Option<Message>)

  const NoDialog := Dialog(None, false, false, "", false, None)

  class LeadsView {
    var leads: seq<Lead>
    var users: seq<User>
    var loading: bool
    var searchQuery: string
    var statusFilter: string
    var dialog: Dialog

    constructor ()
      ensures leads == [] && users == [] && loading
      ensures searchQuery == "" && statusFilter == "all" && dialog == NoDialog
    {
      leads := [];
      users := [];
      loading := true;
      searchQuery := "";
      statusFilter := "all";
      dialog := NoDialog;
    }

    function Shown(): seq<Lead>
      reads this
    {
      FilteredLeads(leads, searchQuery, statusFilter)
    }

    /** `fetchLeads`: every lead through `getLeads()` with no filters, and every user
        through `getUsers()`, each falling back to its samples; loading ends. Neither
        helper throws, so the `catch` is never taken, and neither answers `null`. */
    method FetchLeads(leadsResponse: Fetched<Lead>, sampleLeads: seq<Lead>,
                      usersResponse: Fetched<User>, sampleUsers: seq<User>)
      modifies this
      ensures leads == Backend.GetLeads(Backend.LeadFilters(None, None), leadsResponse, sampleLeads)
      ensures users == Backend.GetUsers(usersResponse, sampleUsers)
      ensures !loading
      ensures searchQuery == old(searchQuery) && statusFilter == old(statusFilter) && dialog == old(dialog)
    {
      leads := Backend.GetLeads(Backend.LeadFilters(None, None), leadsResponse, sampleLeads);
      users := Backend.GetUsers(usersResponse, sampleUsers);
      loading := false;
    }

    /** The realtime callback. */
    method ApplyChange(e: ChangeEvent)
      modifies this
      ensures leads == Reconcile(old(leads), e)
      ensures users == old(users) && loading == old(loading) && searchQuery == old(searchQuery)
      ensures statusFilter == old(statusFilter) && dialog == old(dialog)
    {
      leads := Reconcile(leads, e);
    }

    method SetSearch(query: string)
      modifies this
      ensures searchQuery == query
      ensures leads == old(leads) && users == old(users) && loading == old(loading)
      ensures statusFilter == old(statusFilter) && dialog == old(dialog)
    {
      searchQuery := query;
    }

    method SetStatusFilter(status: string)
      modifies this
      ensures statusFilter == status
      ensures leads == old(leads) && users == old(users) && loading == old(loading)
      ensures searchQuery == old(searchQuery) && dialog == old(dialog)
    {
      statusFilter := status;
    }

    /** `handleViewDetails`. */
    method ViewDetails(lead: Lead)
      modifies this
      ensures dialog == old(dialog).(selected := Some(lead), showDetails := true)
      ensures leads == old(leads) && users == old(users) && loading == old(loading)
      ensures searchQuery == old(searchQuery) && statusFilter == old(statusFilter)
    {
      dialog := dialog.(selected := Some(lead), showDetails := true);
    }

    /** `handleEditClick`: the dialog opens on the lead's current status with no
        message. */
    method EditClick(lead: Lead)
      modifies this
      ensures dialog == old(dialog).(selected := Some(lead), editingStatus := StatusName(lead.status),
                                     message := None, showEdit := true)
      ensures leads == old(leads) && users == old(users) && loading == old(loading)
      ensures searchQuery == old(searchQuery) && statusFilter == old(statusFilter)
    {
      dialog := dialog.(selected := Some(lead), editingStatus := StatusName(lead.status),
                        message := None, showEdit := true);
    }

    /** The status select of the edit dialog: the chosen option becomes the status
        the next save sends. */
    method SetEditingStatus(status: string)
      modifies this
      ensures dialog == old(dialog).(editingStatus := status)
      ensures leads == old(leads) && users == old(users) && loading == old(loading)
      ensures searchQuery == old(searchQuery) && statusFilter == old(statusFilter)
    {
      dialog := dialog.(editingStatus := status);
    }

    /** The details dialog's `onOpenChange`, and its Close button with `false`. */
    method SetShowDetails(open: bool)
      modifies this
      ensures dialog == old(dialog).(showDetails := open)
      ensures leads == old(leads) && users == old(users) && loading == old(loading)
      ensures searchQuery == old(searchQuery) && statusFilter == old(statusFilter)
    {
      dialog := dialog.(showDetails := open);
    }

    /** The edit dialog's `onOpenChange`, and its Cancel button with `false`; the
        selected lead and the chosen status are kept. */
    method SetShowEdit(open: bool)
      modifies this
      ensures dialog == old(dialog).(showEdit := open)
      ensures leads == old(leads) && users == old(users) && loading == old(loading)
      ensures searchQuery == old(searchQuery) && statusFilter == old(statusFilter)
    {
      dialog := dialog.(showEdit := open);
    }

    /** `handleUpdateLead`, given what the update call did. Without a selected lead
        nothing happens. On success the held list is patched and a success message
        shown; on either kind of error only the error's message is shown. Loading
        ends in every case. */
    method UpdateLead(outcome: CallOutcome)
      modifies this
      ensures old(dialog).selected.None? ==> leads == old(leads) && dialog == old(dialog)
      ensures old(dialog).selected.Some? && outcome.Done? ==>
        leads == PatchStatus(old(leads), old(dialog).selected.value.id, old(dialog).editingStatus)
        && dialog == old(dialog).(updateLoading := false, message := Some(Message(Success, "Lead updated successfully!")))
      ensures old(dialog).selected.Some? && !outcome.Done? ==>
        leads == old(leads)
        && dialog == old(dialog).(updateLoading := false, message := Some(Message(Error, outcome.message)))
      ensures users == old(users) && loading == old(loading)
      ensures searchQuery == old(searchQuery) && statusFilter == old(statusFilter)
    {
      if dialog.selected.None? {
        return;
      }
      var lead := dialog.selected.value;
      dialog := dialog.(updateLoading := true, message := None);
      match outcome {
        case Done =>
          dialog := dialog.(message := Some(Message(Success, "Lead updated successfully!")));
          leads := PatchStatus(leads, lead.id, dialog.editingStatus);
        case ReturnedError(m) =>
          dialog := dialog.(message := Some(Message(Error, m)));
        case Threw(m) =>
          dialog := dialog.(message := Some(Message(Error, m)));
      }
      dialog := dialog.(updateLoading := false);
    }

    /** The timer that closes the edit dialog after a successful save. */
    method CloseEditAfterSave()
      modifies this
      ensures dialog == old(dialog).(showEdit := false, selected := None)
      ensures leads == old(leads) && users == old(users) && loading == old(loading)
      ensures searchQuery == old(searchQuery) && statusFilter == old(statusFilter)
    {
      dialog := dialog.(showEdit := false, selected := None);
    }
  }
}
