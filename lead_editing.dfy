/** What the two lead tables share: the optimistic status patch applied to the held
    list after a successful update, the message shown in the edit dialog, and the
    outcome of a call to the backend. */
module LeadEditing {
  import opened Rows

  /** `updateMessage`: `{ type: "success" | "error", text }`. */
  datatype MessageKind = Success | Error
  datatype Message = Message(kind: MessageKind, text: string)

  /** What an awaited backend call did: resolved without an error, resolved with an
      error, or threw. Both error cases carry `error.message`. */
  datatype CallOutcome = Done | ReturnedError(message: string) | Threw(message: string)

  /** All ids of the list are distinct. */
  ghost predicate UniqueIds(s: seq<Lead>)
  {
    forall i, j :: 0 <= i < j < |s| ==> s[i].id != s[j].id
  }

  function WithStatus(l: Lead, id: string, status: string): Lead
  {
    if l.id == id then l.(status := ParseStatus(status)) else l
  }

  /** `leads.map(lead => lead.id === id ? { ...lead, status } : lead)`. */
  function PatchStatus(leads: seq<Lead>, id: string, status: string): (r: seq<Lead>)
    ensures |r| == |leads|
  {
    seq(|leads|, i requires 0 <= i < |leads| => WithStatus(leads[i], id, status))
  }

  /** The patch keeps the order and every id; a lead with the selected id now reads
      the edited status and differs from before in its status only; every other
      lead is unchanged. */
  lemma PatchStatusFacts(leads: seq<Lead>, id: string, status: string)
    ensures var r := PatchStatus(leads, id, status);
      forall i :: 0 <= i < |leads| ==>
        && r[i].id == leads[i].id
        && r[i].(status := leads[i].status) == leads[i]
        && (leads[i].id == id ==> StatusName(r[i].status) == status)
        && (leads[i].id != id ==> r[i] == leads[i])
  {
  }

  lemma PatchStatusKeepsUniqueIds(leads: seq<Lead>, id: string, status: string)
    requires UniqueIds(leads)
    ensures UniqueIds(PatchStatus(leads, id, status))
  {
    PatchStatusFacts(leads, id, status);
  }

  /** Patching twice with the same status is patching once. */
  lemma PatchStatusIdempotent(leads: seq<Lead>, id: string, status: string)
    ensures PatchStatus(PatchStatus(leads, id, status), id, status) == PatchStatus(leads, id, status)
  {
    var once := PatchStatus(leads, id, status);
    forall i | 0 <= i < |leads|
      ensures PatchStatus(once, id, status)[i] == once[i]
    {
      if leads[i].id == id {
        assert once[i].status == ParseStatus(status);
      }
    }
  }

  /** A patch with an id no lead has leaves the list as it was. */
  lemma PatchStatusAbsentId(leads: seq<Lead>, id: string, status: string)
    requires forall i :: 0 <= i < |leads| ==> leads[i].id != id
    ensures PatchStatus(leads, id, status) == leads
  {
  }
}
