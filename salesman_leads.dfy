/** The salesman's own lead table (src/components/dashboard/SalesmanLeadsTable.tsx):
    the search over company and contact names with a status filter, the badge
    label table, the call and message links, and the edit and note dialogs. */
module SalesmanLeads {
  import opened Rows
  import opened Seqs
  import opened Text
  import opened LeadEditing
  import Backend

  // ---------------------------------------------------------------------------
  // Search and status filter

  predicate MatchesSearch(l: Lead, query: string)
  {
    Contains(Lower(l.companyName), Lower(query)) || Contains(Lower(l.contactName), Lower(query))
  }

  predicate MatchesStatus(l: Lead, statusFilter: string)
  {
    statusFilter == "all" || StatusName(l.status) == statusFilter
  }

  function ShownBy(query: string, statusFilter: string): Lead -> bool
  {
    (l: Lead) => MatchesSearch(l, query) && MatchesStatus(l, statusFilter)
  }

  /** `filteredLeads`: the search matches the company name or the contact name,
      ignoring case. */
  function FilteredLeads(leads: seq<Lead>, query: string, statusFilter: string): (r: seq<Lead>)
    ensures forall l :: l in r <==> l in leads && MatchesSearch(l, query) && MatchesStatus(l, statusFilter)
    ensures IsSubsequence(r, leads)
  {
    FilterIsSubsequence(leads, ShownBy(query, statusFilter));
    Filter(leads, ShownBy(query, statusFilter))
  }

  /** An empty query matches every lead, so only the status filter is left. */
  lemma EmptyQueryFiltersByStatus(leads: seq<Lead>, statusFilter: string)
    ensures FilteredLeads(leads, "", statusFilter) == Filter(leads, (l: Lead) => MatchesStatus(l, statusFilter))
  {
    forall i | 0 <= i < |leads|
      ensures ShownBy("", statusFilter)(leads[i]) == MatchesStatus(leads[i], statusFilter)
    {
      ContainsEmpty(Lower(leads[i].companyName));
    }
    FilterCongruent(leads, ShownBy("", statusFilter), (l: Lead) => MatchesStatus(l, statusFilter));
  }

  /** With an empty query and "all", every lead is shown. */
  lemma FilteredLeadsEverything(leads: seq<Lead>)
    ensures FilteredLeads(leads, "", "all") == leads
  {
    EmptyQueryFiltersByStatus(leads, "all");
    FilterAll(leads, (l: Lead) => MatchesStatus(l, "all"));
  }

  // ---------------------------------------------------------------------------
  // Badge labels

  /** The `labels` table, keyed by status text. It names a "contacted" status and
      has no entry for "qualified". */
  const BadgeLabels: map<string, string> :=
    map["new" := "New", "contacted" := "Contacted", "negotiation" := "Negotiation", "won" := "Won", "lost" := "Lost"]

  /** `labels[status]`, undefined when the table has no entry. */
  function BadgeLabel(s: Status): (r: Option<string>)
    ensures r.Some? <==> StatusName(s) in BadgeLabels
  {
    if StatusName(s) in BadgeLabels then Some(BadgeLabels[StatusName(s)]) else None
  }

  /** A qualified lead gets no badge text; every other named status does. */
  lemma QualifiedHasNoBadge()
    ensures BadgeLabel(Qualified).None?
    ensures BadgeLabel(New).Some? && BadgeLabel(Negotiation).Some? && BadgeLabel(Won).Some? && BadgeLabel(Lost).Some?
  {
    assert StatusName(Qualified) !in BadgeLabels by {
      assert StatusName(Qualified) == "qualified";
      assert "qualified" != "new" && "qualified" != "contacted" && "qualified" != "negotiation";
      assert "qualified" != "won" && "qualified" != "lost";
    }
  }

  // ---------------------------------------------------------------------------
  // Call and message links

  /** Where a contact button leads: a URL the page navigates to, or an alert. */
  datatype ContactAction = Navigate(url: string) | Alert(text: string)

  /** `handleCallLead`. */
  function CallAction(l: Lead): (r: ContactAction)
    ensures r.Navigate? <==> l.contactPhone != ""
    ensures r.Navigate? ==> r.url == "tel:" + l.contactPhone
  {
    if l.contactPhone != "" then Navigate("tel:" + l.contactPhone)
    else Alert("No phone number available for this lead")
  }

  /** `handleMessageLead`: email first, then text message. */
  function MessageAction(l: Lead): (r: ContactAction)
    ensures r.Navigate? <==> l.contactEmail != "" || l.contactPhone != ""
    ensures l.contactEmail != "" ==> r == Navigate("mailto:" + l.contactEmail)
    ensures l.contactEmail == "" && l.contactPhone != "" ==> r == Navigate("sms:" + l.contactPhone)
  {
    if l.contactEmail != "" then Navigate("mailto:" + l.contactEmail)
    else if l.contactPhone != "" then Navigate("sms:" + l.contactPhone)
    else Alert("No contact information available for this lead")
  }

  /** Whenever calling is possible, messaging is too, and messaging alerts only for
      a lead with neither an email nor a phone. */
  lemma CallImpliesMessage(l: Lead)
    ensures CallAction(l).Navigate? ==> MessageAction(l).Navigate?
    ensures MessageAction(l).Alert? <==> l.contactEmail == "" && CallAction(l).Alert?
  {
  }

  // ---------------------------------------------------------------------------
  // Adding a note

  /** The guard of `handleAddNoteSubmit`: a lead is selected and the note is not
      blank after trimming. */
  predicate NoteAccepted(selected: Option<Lead>, noteText: string)
  {
    selected.Some? && Trim(noteText) != ""
  }

  /** A note is refused exactly when no lead is selected or every character of it
      is white space. */
  lemma NoteAcceptedMeaning(selected: Option<Lead>, noteText: string)
    ensures NoteAccepted(selected, noteText) <==>
      selected.Some? && exists i :: 0 <= i < |noteText| && !IsSpace(noteText[i])
  {
    TrimEmpty(noteText);
  }

  /** The activity row a note inserts. */
  datatype NoteRow = NoteRow(userId: Option<string>, leadId: string, kind: string, description: string, createdAt: int)

  // ---------------------------------------------------------------------------
  // The component's state

  /** The dialog state: `selectedLead`, the three modal flags, `editingStatus`,
      `noteText`, `updateLoading` and `updateMessage`. */
  datatype Dialog = Dialog(
    selected: Option<Lead>, showDetails: bool, showEdit: bool, showNote: bool,
    editingStatus: string, noteText: string, updateLoading: bool, message: Option<Message>)

  const NoDialog := Dialog(None, false, false, false, "", "", false, None)

  class MyLeadsView {
    var leads: seq<Lead>
    var loading: bool
    var searchQuery: string
    var statusFilter: string
    var dialog: Dialog

    constructor ()
      ensures leads == [] && loading && searchQuery == "" && statusFilter == "all" && dialog == NoDialog
    {
      leads := [];
      loading := true;
      searchQuery := "";
      statusFilter := "all";
      dialog := NoDialog;
    }

    function Shown(): seq<Lead>
      reads this
    {
      FilteredLeads(leads, searchQuery, statusFilter)
    }

    /** `fetchLeads`: the signed-in user's leads, through `getLeads` with the user as
        assignee; without a user the list stays as it was. Loading ends. */
    method FetchLeads(user: Option<User>, response: Fetched<Lead>, samples: seq<Lead>)
      modifies this
      ensures user.Some? ==> leads == Backend.GetLeads(Backend.LeadFilters(None, Some(user.value.id)), response, samples)
      ensures user.None? ==> leads == old(leads)
      ensures !loading && searchQuery == old(searchQuery) && statusFilter == old(statusFilter) && dialog == old(dialog)
    {
      if user.Some? {
        leads := Backend.GetLeads(Backend.LeadFilters(None, Some(user.value.id)), response, samples);
      }
      loading := false;
    }

    method SetSearch(query: string)
      modifies this
      ensures searchQuery == query
      ensures leads == old(leads) && loading == old(loading) && statusFilter == old(statusFilter) && dialog == old(dialog)
    {
      searchQuery := query;
    }

    method SetStatusFilter(status: string)
      modifies this
      ensures statusFilter == status
      ensures leads == old(leads) && loading == old(loading) && searchQuery == old(searchQuery) && dialog == old(dialog)
    {
      statusFilter := status;
    }

    method SetNoteText(text: string)
      modifies this
      ensures dialog == old(dialog).(noteText := text)
      ensures leads == old(leads) && loading == old(loading) && searchQuery == old(searchQuery)
      ensures statusFilter == old(statusFilter)
    {
      dialog := dialog.(noteText := text);
    }

    /** `handleViewDetails`. */
    method ViewDetails(lead: Lead)
      modifies this
      ensures dialog == old(dialog).(selected := Some(lead), showDetails := true)
      ensures leads == old(leads) && loading == old(loading) && searchQuery == old(searchQuery)
      ensures statusFilter == old(statusFilter)
    {
      dialog := dialog.(selected := Some(lead), showDetails := true);
    }

    /** `handleEditClick`. */
    method EditClick(lead: Lead)
      modifies this
      ensures dialog == old(dialog).(selected := Some(lead), editingStatus := StatusName(lead.status),
                                     message := None, showEdit := true)
      ensures leads == old(leads) && loading == old(loading) && searchQuery == old(searchQuery)
      ensures statusFilter == old(statusFilter)
    {
      dialog := dialog.(selected := Some(lead), editingStatus := StatusName(lead.status),
                        message := None, showEdit := true);
    }

    /** `handleAddNote`: the note dialog opens empty. */
    method AddNote(lead: Lead)
      modifies this
      ensures dialog == old(dialog).(selected := Some(lead), noteText := "", message := None, showNote := true)
      ensures leads == old(leads) && loading == old(loading) && searchQuery == old(searchQuery)
      ensures statusFilter == old(statusFilter)
    {
      dialog := dialog.(selected := Some(lead), noteText := "", message := None, showNote := true);
    }

    /** The status select of the edit dialog: the chosen option becomes the status
        the next save sends. */
    method SetEditingStatus(status: string)
      modifies this
      ensures dialog == old(dialog).(editingStatus := status)
      ensures leads == old(leads) && loading == old(loading) && searchQuery == old(searchQuery)
      ensures statusFilter == old(statusFilter)
    {
      dialog := dialog.(editingStatus := status);
    }

    /** The details dialog's `onOpenChange`, and its Close button with `false`. */
    method SetShowDetails(open: bool)
      modifies this
      ensures dialog == old(dialog).(showDetails := open)
      ensures leads == old(leads) && loading == old(loading) && searchQuery == old(searchQuery)
      ensures statusFilter == old(statusFilter)
    {
      dialog := dialog.(showDetails := open);
    }

    /** The edit dialog's `onOpenChange`, and its Cancel button with `false`. */
    method SetShowEdit(open: bool)
      modifies this
      ensures dialog == old(dialog).(showEdit := open)
      ensures leads == old(leads) && loading == old(loading) && searchQuery == old(searchQuery)
      ensures statusFilter == old(statusFilter)
    {
      dialog := dialog.(showEdit := open);
    }

    /** The note dialog's `onOpenChange`, and its Cancel button with `false`; the
        typed note is kept. */
    method SetShowNote(open: bool)
      modifies this
      ensures dialog == old(dialog).(showNote := open)
      ensures leads == old(leads) && loading == old(loading) && searchQuery == old(searchQuery)
      ensures statusFilter == old(statusFilter)
    {
      dialog := dialog.(showNote := open);
    }

    /** `handleUpdateLead`, given what the update call did. */
    method UpdateLead(outcome: CallOutcome)
      modifies this
      ensures old(dialog).selected.None? ==> leads == old(leads) && dialog == old(dialog)
      ensures old(dialog).selected.Some? && outcome.Done? ==>
        leads == PatchStatus(old(leads), old(dialog).selected.value.id, old(dialog).editingStatus)
        && dialog == old(dialog).(updateLoading := false, message := Some(Message(Success, "Lead updated successfully!")))
      ensures old(dialog).selected.Some? && !outcome.Done? ==>
        leads == old(leads)
        && dialog == old(dialog).(updateLoading := false, message := Some(Message(Error, outcome.message)))
      ensures loading == old(loading) && searchQuery == old(searchQuery) && statusFilter == old(statusFilter)
    {
      if dialog.selected.None? {
        return;
      }
      var lead := dialog.selected.value;
      dialog := dialog.(updateLoading := true, message := None);
      match outcome {
        case Done =>
          dialog := dialog.(message := Some(Message(Success, "Lead updated successfully!")));
          leads := PatchStatus(leads, lead.id, dialog.editingStatus);
        case ReturnedError(m) =>
          dialog := dialog.(message := Some(Message(Error, m)));
        case Threw(m) =>
          dialog := dialog.(message := Some(Message(Error, m)));
      }
      dialog := dialog.(updateLoading := false);
    }

    /** `handleAddNoteSubmit`, given the signed-in user's id, the current time and
        what the insert did. A refused note raises the alert and sends nothing;
        an accepted one sends one activity row of type "note" for the selected
        lead and shows the outcome. The held leads never change. */
    method AddNoteSubmit(userId: Option<string>, now: int, outcome: CallOutcome)
      returns (alert: Option<string>, sent: Option<NoteRow>)
      modifies this
      ensures !NoteAccepted(old(dialog).selected, old(dialog).noteText) ==>
        alert == Some("Please enter a note") && sent.None? && dialog == old(dialog)
      ensures NoteAccepted(old(dialog).selected, old(dialog).noteText) ==>
        && alert.None?
        && sent == Some(NoteRow(userId, old(dialog).selected.value.id, "note", old(dialog).noteText, now))
        && dialog == old(dialog).(updateLoading := false, message := Some(
             if outcome.Done? then Message(Success, "Note added successfully!") else Message(Error, outcome.message)))
      ensures leads == old(leads) && loading == old(loading) && searchQuery == old(searchQuery)
      ensures statusFilter == old(statusFilter)
    {
      if !NoteAccepted(dialog.selected, dialog.noteText) {
        return Some("Please enter a note"), None;
      }
      alert := None;
      dialog := dialog.(updateLoading := true, message := None);
      sent := Some(NoteRow(userId, dialog.selected.value.id, "note", dialog.noteText, now));
      match outcome {
        case Done =>
          dialog := dialog.(message := Some(Message(Success, "Note added successfully!")));
        case ReturnedError(m) =>
          dialog := dialog.(message := Some(Message(Error, m)));
        case Threw(m) =>
          dialog := dialog.(message := Some(Message(Error, m)));
      }
      dialog := dialog.(updateLoading := false);
    }

    /** The timer that closes the edit dialog after a successful save. */
    method CloseEditAfterSave()
      modifies this
      ensures dialog == old(dialog).(showEdit := false, selected := None)
      ensures leads == old(leads) && loading == old(loading) && searchQuery == old(searchQuery)
      ensures statusFilter == old(statusFilter)
    {
      dialog := dialog.(showEdit := false, selected := None);
    }

    /** The timer that closes the note dialog after a saved note. */
    method CloseNoteAfterSave()
      modifies this
      ensures dialog == old(dialog).(showNote := false, selected := None, noteText := "")
      ensures leads == old(leads) && loading == old(loading) && searchQuery == old(searchQuery)
      ensures statusFilter == old(statusFilter)
    {
      dialog := dialog.(showNote := false, selected := None, noteText := "");
    }
  }

  /** A signed-in salesman with a non-empty id only ever holds leads assigned to
      them after loading, whether the leads came from the backend or the samples. */
  lemma LoadedLeadsAreOwn(user: User, response: Fetched<Lead>, samples: seq<Lead>)
    requires user.id != ""
    ensures forall l :: l in Backend.GetLeads(Backend.LeadFilters(None, Some(user.id)), response, samples) ==>
      AssignedTo(l, user.id)
  {
  }
}
