/** The appointment list: one card per appointment, whose controls depend on the
    viewer's role and the appointment's status, and the component's local editing
    state (the card being edited, its draft, the reviewers' status drafts keyed by
    appointment id, and the card whose status form is open). */
module AppointmentList {
  import opened Domain

  const AmberBadge := "bg-amber-50 text-amber-700 border-amber-200"
  const GreenBadge := "bg-green-50 text-green-700 border-green-200"
  const RedBadge := "bg-red-50 text-red-700 border-red-200"
  const BlueBadge := "bg-blue-50 text-blue-700 border-blue-200"
  const GrayBadge := "bg-gray-50 text-gray-700 border-gray-200"

  const DeleteFailed := "Failed to delete appointment"
  const UpdateFailed := "Failed to update appointment"
  const StatusUpdateFailed := "Failed to update status"

  /** `getStatusColor`: the badge classes of a status, looked up in a fixed table with a
      gray fallback. */
  function StatusColor(status: string): (c: string)
    ensures status == Pending ==> c == AmberBadge
    ensures status == Approved ==> c == GreenBadge
    ensures status == Rejected ==> c == RedBadge
    ensures status == Completed ==> c == BlueBadge
    ensures status == Cancelled ==> c == GrayBadge
  {
    var colors := map[Pending := AmberBadge, Approved := GreenBadge, Rejected := RedBadge,
                      Completed := BlueBadge, Cancelled := GrayBadge];
    if status in colors then colors[status] else GrayBadge
  }

  /** A status outside the table is shown like a cancelled appointment, and only
      cancelled or unknown statuses are shown gray. */
  lemma UnknownStatusIsGray(status: string)
    ensures status !in {Pending, Approved, Rejected, Completed} <==> StatusColor(status) == GrayBadge
    ensures status !in {Pending, Approved, Rejected, Completed, Cancelled} ==> StatusColor(status) == StatusColor(Cancelled)
  {
  }

  /** `appointment.notes || ''`. */
  function NotesOrEmpty(notes: Option<string>): (n: string)
    ensures notes.Some? ==> n == notes.value
    ensures notes.None? ==> n == ""
  {
    match notes
    case Some(v) => v
    case None => ""
  }

  /** The draft `handleEdit` seeds from an appointment. `isoDate` stands for the
      appointment's date after the `toISOString().split('T')[0]` conversion. */
  function SeedEditForm(a: Appointment, isoDate: string): (f: AppointmentFields)
    ensures f.date == isoDate && f.time == a.time && f.purpose == a.purpose
    ensures a.notes == None ==> f.notes == ""
    ensures a.notes.Some? ==> f.notes == a.notes.value
  {
    AppointmentFields(isoDate, a.time, a.purpose, NotesOrEmpty(a.notes))
  }

  /** The four inputs of the edit form. */
  datatype EditField = DateInput | TimeInput | PurposeInput | NotesInput

  /** `{ ...editForm, [field]: value }`. */
  function WithEditField(f: AppointmentFields, field: EditField, value: string): (g: AppointmentFields)
    ensures field == DateInput ==> g == f.(date := value)
    ensures field == TimeInput ==> g == f.(time := value)
    ensures field == PurposeInput ==> g == f.(purpose := value)
    ensures field == NotesInput ==> g == f.(notes := value)
  {
    match field
    case DateInput => AppointmentFields(value, f.time, f.purpose, f.notes)
    case TimeInput => AppointmentFields(f.date, value, f.purpose, f.notes)
    case PurposeInput => AppointmentFields(f.date, f.time, value, f.notes)
    case NotesInput => AppointmentFields(f.date, f.time, f.purpose, value)
  }

  /** The two inputs of a status form. */
  datatype DraftField = StatusInput | HodNotesInput

  /** `getStatusForm`: the draft kept for `id`, or the empty draft. */
  function DraftOf(forms: map<Id, StatusDraft>, id: Id): (d: StatusDraft)
    ensures id !in forms ==> d == EmptyDraft
    ensures id in forms ==> d == forms[id]
  {
    if id in forms then forms[id] else EmptyDraft
  }

  /** The map `updateStatusForm(id, field, value)` leaves: the draft of `id` (or the
      empty draft) with `field` set to `value`; every other entry as it was. */
  function WithDraftField(forms: map<Id, StatusDraft>, id: Id, field: DraftField, value: string): (r: map<Id, StatusDraft>)
    ensures r.Keys == forms.Keys + {id}
    ensures field == StatusInput ==> r[id] == StatusDraft(value, DraftOf(forms, id).hodNotes)
    ensures field == HodNotesInput ==> r[id] == StatusDraft(DraftOf(forms, id).status, value)
    ensures forall k :: k in forms && k != id ==> r[k] == forms[k]
  {
    var old_ := DraftOf(forms, id);
    var draft := match field
      case StatusInput => StatusDraft(value, old_.hodNotes)
      case HodNotesInput => StatusDraft(old_.status, value);
    forms[id := draft]
  }

  /** The map left by `delete newForms[id]` on a copy: without `id`, otherwise the same. */
  function WithoutDraft(forms: map<Id, StatusDraft>, id: Id): (r: map<Id, StatusDraft>)
    ensures r.Keys == forms.Keys - {id}
    ensures forall k :: k in r ==> r[k] == forms[k]
    ensures DraftOf(r, id) == EmptyDraft
  {
    forms - {id}
  }

  /** Reading back a field just written gives the written value; the other field of
      that draft and every other id's draft read the same as before. */
  lemma DraftFieldReadBack(forms: map<Id, StatusDraft>, id: Id, field: DraftField, value: string, other: Id)
    ensures field == StatusInput ==> DraftOf(WithDraftField(forms, id, field, value), id).status == value
    ensures field == StatusInput ==> DraftOf(WithDraftField(forms, id, field, value), id).hodNotes == DraftOf(forms, id).hodNotes
    ensures field == HodNotesInput ==> DraftOf(WithDraftField(forms, id, field, value), id).hodNotes == value
    ensures field == HodNotesInput ==> DraftOf(WithDraftField(forms, id, field, value), id).status == DraftOf(forms, id).status
    ensures other != id ==> DraftOf(WithDraftField(forms, id, field, value), other) == DraftOf(forms, other)
  {
  }

  /** Removing a draft and reading any other id gives what was there before. */
  lemma WithoutDraftReadBack(forms: map<Id, StatusDraft>, id: Id, other: Id)
    ensures other != id ==> DraftOf(WithoutDraft(forms, id), other) == DraftOf(forms, other)
    ensures DraftOf(WithoutDraft(forms, id), id) == EmptyDraft
  {
  }

  /** What the reviewer's status area of a card shows. */
  datatype StatusPanel =
    | NoStatusPanel                                      // not a reviewer, or not pending
    | StatusButton                                       // the "Update Status" button
    | StatusForm(draft: StatusDraft, submitEnabled: bool) // the open form

  /** One rendered card. */
  datatype Card =
    | EditCard(id: Id, form: AppointmentFields)
    | DetailCard(id: Id, badge: string, statusPanel: StatusPanel, studentActions: bool)

  /** The rendered list: the placeholder, or one card per appointment. */
  datatype ListView = NoAppointmentsFound | Cards(cards: seq<Card>)

  /** What a dashboard shows where its list goes: a spinner while loading, or this
      component with the given props. */
  datatype ListPanel = LoadingSpinner | ListOf(appointments: seq<Appointment>, isStudent: bool)

  /** The card of one appointment, given the viewer's role and the list's state. */
  function CardFor(a: Appointment, isStudent: bool, editingId: Option<Id>, editForm: AppointmentFields,
                   statusForms: map<Id, StatusDraft>, activeStatusId: Option<Id>): (c: Card)
    ensures c.id == a.id
    ensures c.EditCard? ==> c.form == editForm
    ensures c.DetailCard? ==> c.badge == StatusColor(a.status)
    ensures c.DetailCard? && c.statusPanel.StatusForm? ==>
      c.statusPanel.draft == DraftOf(statusForms, a.id) && (c.statusPanel.submitEnabled <==> c.statusPanel.draft.status != "")
  {
    if editingId == Some(a.id) && isStudent then
      EditCard(a.id, editForm)
    else
      var panel :=
        if !isStudent && a.status == Pending then
          if activeStatusId != Some(a.id) then StatusButton
          else StatusForm(DraftOf(statusForms, a.id), DraftOf(statusForms, a.id).status != "")
        else NoStatusPanel;
      DetailCard(a.id, StatusColor(a.status), panel, isStudent && a.status == Pending)
  }

  /** The card offers the student's Edit and Delete buttons. */
  predicate OffersEditAndDelete(c: Card) {
    c.DetailCard? && c.studentActions
  }

  /** The card offers the reviewer a way to update the status. */
  predicate OffersStatusUpdate(c: Card) {
    c.DetailCard? && c.statusPanel != NoStatusPanel
  }

  /** Which controls a card offers, in both directions. */
  lemma CardControls(a: Appointment, isStudent: bool, editingId: Option<Id>, editForm: AppointmentFields,
                     statusForms: map<Id, StatusDraft>, activeStatusId: Option<Id>)
    ensures var c := CardFor(a, isStudent, editingId, editForm, statusForms, activeStatusId);
      && (c.EditCard? <==> editingId == Some(a.id) && isStudent)
      && (OffersEditAndDelete(c) <==> isStudent && a.status == Pending && editingId != Some(a.id))
      && (OffersStatusUpdate(c) <==> !isStudent && a.status == Pending)
      && (c.DetailCard? && c.statusPanel.StatusForm? <==> !isStudent && a.status == Pending && activeStatusId == Some(a.id))
      && (c.DetailCard? ==> c.badge == StatusColor(a.status))
  {
  }

  /** An appointment that is not pending offers no edit, delete or status control,
      whatever the role; it can only be shown in the edit view while it is the one
      being edited. */
  lemma NonPendingOffersNoControls(a: Appointment, isStudent: bool, editingId: Option<Id>, editForm: AppointmentFields,
                                   statusForms: map<Id, StatusDraft>, activeStatusId: Option<Id>)
    requires a.status != Pending
    ensures var c := CardFor(a, isStudent, editingId, editForm, statusForms, activeStatusId);
      !OffersEditAndDelete(c) && !OffersStatusUpdate(c) && (c.EditCard? ==> editingId == Some(a.id))
  {
  }

  /** The status submit button is enabled exactly when the draft's status is non-empty. */
  lemma StatusSubmitEnabledIff(a: Appointment, editingId: Option<Id>, editForm: AppointmentFields,
                               statusForms: map<Id, StatusDraft>)
    requires a.status == Pending
    ensures var c := CardFor(a, false, editingId, editForm, statusForms, Some(a.id));
      c == DetailCard(a.id, AmberBadge, StatusForm(DraftOf(statusForms, a.id), c.statusPanel.submitEnabled), false)
      && (c.statusPanel.submitEnabled <==> DraftOf(statusForms, a.id).status != "")
  {
  }

  /** How the reviewer's inputs drive the open form's submit button: choosing a status
      enables it exactly when the choice is non-empty, typing notes leaves it as it was,
      and discarding the draft disables it. */
  lemma StatusSubmitFollowsDraft(a: Appointment, forms: map<Id, StatusDraft>, field: DraftField, value: string)
    requires a.status == Pending
    ensures var before := CardFor(a, false, None, EmptyFields, forms, Some(a.id));
      var after := CardFor(a, false, None, EmptyFields, WithDraftField(forms, a.id, field, value), Some(a.id));
      && (field == StatusInput ==> (after.statusPanel.submitEnabled <==> value != ""))
      && (field == HodNotesInput ==> after.statusPanel.submitEnabled == before.statusPanel.submitEnabled)
    ensures !CardFor(a, false, None, EmptyFields, WithoutDraft(forms, a.id), Some(a.id)).statusPanel.submitEnabled
  {
  }

  /** The edit view at AppointmentList line 110 tests only the id and the role: an
      approved appointment that is still the one being edited is shown with its edit
      form and Save button. */
  lemma EditViewIgnoresStatus()
    ensures var a := Appointment("a1", None, None, "s@x", "2026-01-05", "09:00", "Discuss", None, Approved, None);
      CardFor(a, true, Some("a1"), EmptyFields, map[], None) == EditCard("a1", EmptyFields)
  {
  }

  /** The whole list: the single placeholder for no appointments, else one card each,
      in order. */
  function RenderList(appointments: seq<Appointment>, isStudent: bool, editingId: Option<Id>, editForm: AppointmentFields,
                      statusForms: map<Id, StatusDraft>, activeStatusId: Option<Id>): (v: ListView)
    ensures v == NoAppointmentsFound <==> |appointments| == 0
    ensures v.Cards? ==> |v.cards| == |appointments|
    ensures v.Cards? ==> forall i :: 0 <= i < |appointments| ==>
      v.cards[i] == CardFor(appointments[i], isStudent, editingId, editForm, statusForms, activeStatusId)
  {
    if |appointments| == 0 then NoAppointmentsFound
    else Cards(seq(|appointments|, i requires 0 <= i < |appointments| =>
                 CardFor(appointments[i], isStudent, editingId, editForm, statusForms, activeStatusId)))
  }

  /** A reviewer's list never shows an edit view nor the Edit and Delete buttons. */
  lemma ReviewerListHasNoStudentControls(appointments: seq<Appointment>, editingId: Option<Id>, editForm: AppointmentFields,
                                         statusForms: map<Id, StatusDraft>, activeStatusId: Option<Id>, i: nat)
    requires i < |appointments|
    ensures var v := RenderList(appointments, false, editingId, editForm, statusForms, activeStatusId);
      v.Cards? && v.cards[i].DetailCard? && !OffersEditAndDelete(v.cards[i])
  {
  }

  /** The local state of one list, with the effects its handlers have on the outside
      world: the requests sent, the number of `onUpdate` calls, the alerts shown. */
  class ListState {
    var editingId: Option<Id>
    var editForm: AppointmentFields
    var statusForms: map<Id, StatusDraft>
    var activeStatusId: Option<Id>
    var requests: seq<Request>
    var updateCalls: nat
    var alerts: seq<string>

    constructor ()
      ensures editingId == None && editForm == EmptyFields
      ensures statusForms == map[] && activeStatusId == None
      ensures requests == [] && updateCalls == 0 && alerts == []
    {
      editingId, editForm := None, EmptyFields;
      statusForms, activeStatusId := map[], None;
      requests, updateCalls, alerts := [], 0, [];
    }

    /** The rendered list for the given props. */
    function View(appointments: seq<Appointment>, isStudent: bool): (v: ListView)
      reads this
      ensures v == NoAppointmentsFound <==> |appointments| == 0
    {
      RenderList(appointments, isStudent, editingId, editForm, statusForms, activeStatusId)
    }

    /** `getStatusForm`. */
    function GetStatusForm(id: Id): (d: StatusDraft)
      reads this
      ensures id !in statusForms ==> d == EmptyDraft
    {
      DraftOf(statusForms, id)
    }

    /** The first half of `handleDelete`: nothing without confirmation; otherwise one
        DELETE is sent. Nothing on screen changes while it is in flight. */
    method StartDelete(id: Id, confirmed: bool)
      modifies this
      ensures requests == if confirmed then old(requests) + [DeleteAppointment(id)] else old(requests)
      ensures editingId == old(editingId) && editForm == old(editForm)
      ensures statusForms == old(statusForms) && activeStatusId == old(activeStatusId)
      ensures updateCalls == old(updateCalls) && alerts == old(alerts)
    {
      if confirmed {
        requests := requests + [DeleteAppointment(id)];
      }
    }

    /** The second half of `handleDelete`: `onUpdate` on success, an alert on failure;
        the list state is untouched either way. */
    method DeleteFinished(outcome: Response<()>)
      modifies this
      ensures updateCalls == if outcome.Ok? then old(updateCalls) + 1 else old(updateCalls)
      ensures alerts == if outcome.Err? then old(alerts) + [ErrorText(outcome.message, DeleteFailed)] else old(alerts)
      ensures editingId == old(editingId) && editForm == old(editForm)
      ensures statusForms == old(statusForms) && activeStatusId == old(activeStatusId)
      ensures requests == old(requests)
    {
      match outcome {
        case Ok(_) =>
          updateCalls := updateCalls + 1;
        case Err(message) =>
          alerts := alerts + [ErrorText(message, DeleteFailed)];
      }
    }

    /** `handleEdit`: edit this appointment, starting from its current values. */
    method Edit(a: Appointment, isoDate: string)
      modifies this
      ensures editingId == Some(a.id) && editForm == SeedEditForm(a, isoDate)
      ensures statusForms == old(statusForms) && activeStatusId == old(activeStatusId)
      ensures requests == old(requests) && updateCalls == old(updateCalls) && alerts == old(alerts)
    {
      editingId := Some(a.id);
      editForm := SeedEditForm(a, isoDate);
    }

    /** An input of the edit form changed. */
    method SetEditField(field: EditField, value: string)
      modifies this
      ensures editForm == WithEditField(old(editForm), field, value)
      ensures editingId == old(editingId)
      ensures statusForms == old(statusForms) && activeStatusId == old(activeStatusId)
      ensures requests == old(requests) && updateCalls == old(updateCalls) && alerts == old(alerts)
    {
      editForm := WithEditField(editForm, field, value);
    }

    /** The edit form's Cancel: leave the edit view, and nothing else. */
    method CancelEdit()
      modifies this
      ensures editingId == None && editForm == old(editForm)
      ensures statusForms == old(statusForms) && activeStatusId == old(activeStatusId)
      ensures requests == old(requests) && updateCalls == old(updateCalls) && alerts == old(alerts)
    {
      editingId := None;
    }

    /** The first half of `handleUpdate`: one PUT of the current draft. The edit view
        stays open and every control stays usable while it is in flight. */
    method StartUpdate(id: Id)
      modifies this
      ensures requests == old(requests) + [UpdateAppointment(id, old(editForm))]
      ensures editingId == old(editingId) && editForm == old(editForm)
      ensures statusForms == old(statusForms) && activeStatusId == old(activeStatusId)
      ensures updateCalls == old(updateCalls) && alerts == old(alerts)
    {
      requests := requests + [UpdateAppointment(id, editForm)];
    }

    /** The second half of `handleUpdate`: on success leave the edit view, whichever
        card it shows by now, and call `onUpdate`; on failure stay and alert. */
    method UpdateFinished(outcome: Response<Appointment>)
      modifies this
      ensures editingId == if outcome.Ok? then None else old(editingId)
      ensures updateCalls == if outcome.Ok? then old(updateCalls) + 1 else old(updateCalls)
      ensures alerts == if outcome.Err? then old(alerts) + [ErrorText(outcome.message, UpdateFailed)] else old(alerts)
      ensures editForm == old(editForm) && requests == old(requests)
      ensures statusForms == old(statusForms) && activeStatusId == old(activeStatusId)
    {
      match outcome {
        case Ok(_) =>
          editingId := None;
          updateCalls := updateCalls + 1;
        case Err(message) =>
          alerts := alerts + [ErrorText(message, UpdateFailed)];
      }
    }

    /** A card's "Update Status" button: open that card's status form. */
    method OpenStatusForm(id: Id)
      modifies this
      ensures activeStatusId == Some(id)
      ensures statusForms == old(statusForms)
      ensures editingId == old(editingId) && editForm == old(editForm)
      ensures requests == old(requests) && updateCalls == old(updateCalls) && alerts == old(alerts)
    {
      activeStatusId := Some(id);
    }

    /** `updateStatusForm(id, field, value)`. */
    method UpdateStatusForm(id: Id, field: DraftField, value: string)
      modifies this
      ensures statusForms == WithDraftField(old(statusForms), id, field, value)
      ensures activeStatusId == old(activeStatusId)
      ensures editingId == old(editingId) && editForm == old(editForm)
      ensures requests == old(requests) && updateCalls == old(updateCalls) && alerts == old(alerts)
    {
      statusForms := WithDraftField(statusForms, id, field, value);
    }

    /** The first half of `handleStatusUpdate`: nothing for an empty draft status;
        otherwise one PATCH of the draft, reported by `sent`. The form, its draft and its
        submit button stay as they are while the PATCH is in flight. */
    method StartStatusUpdate(id: Id) returns (sent: bool)
      modifies this
      ensures sent <==> DraftOf(old(statusForms), id).status != ""
      ensures requests == if sent then old(requests) + [UpdateStatus(id, DraftOf(old(statusForms), id))] else old(requests)
      ensures statusForms == old(statusForms) && activeStatusId == old(activeStatusId)
      ensures editingId == old(editingId) && editForm == old(editForm)
      ensures updateCalls == old(updateCalls) && alerts == old(alerts)
    {
      var draft := DraftOf(statusForms, id);
      sent := draft.status != "";
      if sent {
        requests := requests + [UpdateStatus(id, draft)];
      }
    }

    /** The second half of `handleStatusUpdate`: on success drop the draft, close the
        form and call `onUpdate`; on failure keep both and alert. */
    method StatusUpdateFinished(id: Id, outcome: Response<Appointment>)
      modifies this
      ensures statusForms == if outcome.Ok? then WithoutDraft(old(statusForms), id) else old(statusForms)
      ensures activeStatusId == if outcome.Ok? then None else old(activeStatusId)
      ensures updateCalls == if outcome.Ok? then old(updateCalls) + 1 else old(updateCalls)
      ensures alerts == if outcome.Err? then old(alerts) + [ErrorText(outcome.message, StatusUpdateFailed)] else old(alerts)
      ensures editingId == old(editingId) && editForm == old(editForm) && requests == old(requests)
    {
      match outcome {
        case Ok(_) =>
          statusForms := WithoutDraft(statusForms, id);
          activeStatusId := None;
          updateCalls := updateCalls + 1;
        case Err(message) =>
          alerts := alerts + [ErrorText(message, StatusUpdateFailed)];
      }
    }

    /** The status form's Cancel: close the form and drop that card's draft. */
    method CancelStatus(id: Id)
      modifies this
      ensures activeStatusId == None && statusForms == WithoutDraft(old(statusForms), id)
      ensures editingId == old(editingId) && editForm == old(editForm)
      ensures requests == old(requests) && updateCalls == old(updateCalls) && alerts == old(alerts)
    {
      activeStatusId := None;
      statusForms := WithoutDraft(statusForms, id);
    }
  }

  /** A reviewer rejects a pending appointment with a note: exactly one PATCH with that
      draft, and afterwards the draft is gone and no form is open. */
  method ReviewerRejectsScenario(outcome: Response<Appointment>)
    requires outcome.Ok?
  {
    var list := new ListState();
    list.OpenStatusForm("a1");
    list.UpdateStatusForm("a1", StatusInput, Rejected);
    list.UpdateStatusForm("a1", HodNotesInput, "Conflicts with exam");
    assert list.GetStatusForm("a1") == StatusDraft(Rejected, "Conflicts with exam");
    var sent := list.StartStatusUpdate("a1");
    assert sent;
    list.StatusUpdateFinished("a1", outcome);
    assert list.requests == [UpdateStatus("a1", StatusDraft(Rejected, "Conflicts with exam"))];
    assert "a1" !in list.statusForms && list.activeStatusId == None && list.updateCalls == 1;
  }

  /** Editing then cancelling, and declining a delete, send nothing and never call
      `onUpdate`. */
  method StudentChangesMindScenario(a: Appointment, isoDate: string)
  {
    var list := new ListState();
    list.Edit(a, isoDate);
    list.CancelEdit();
    list.StartDelete(a.id, false);
    assert list.requests == [] && list.updateCalls == 0 && list.editingId == None;
  }

  /** Opening another card's form leaves the first card's draft in place, so reopening
      the first card shows it again (the form is not reseeded when opened). */
  method ReopenedFormKeepsDraftScenario()
  {
    var list := new ListState();
    list.OpenStatusForm("a1");
    list.UpdateStatusForm("a1", StatusInput, Approved);
    list.OpenStatusForm("a2");
    list.OpenStatusForm("a1");
    assert list.GetStatusForm("a1") == StatusDraft(Approved, "");
  }

  /** The status submit button is not disabled while the PATCH is in flight: a second
      click sends the same draft again, and both successes call `onUpdate`. */
  method DoubleStatusSubmitScenario(first: Response<Appointment>, second: Response<Appointment>)
    requires first.Ok? && second.Ok?
  {
    var list := new ListState();
    list.OpenStatusForm("a1");
    list.UpdateStatusForm("a1", StatusInput, Approved);
    var sent1 := list.StartStatusUpdate("a1");
    var sent2 := list.StartStatusUpdate("a1");
    assert sent1 && sent2;
    assert list.requests == [UpdateStatus("a1", StatusDraft(Approved, "")), UpdateStatus("a1", StatusDraft(Approved, ""))];
    list.StatusUpdateFinished("a1", first);
    list.StatusUpdateFinished("a1", second);
    assert list.updateCalls == 2 && list.activeStatusId == None;
  }

  /** A PUT that succeeds after the student has cancelled and opened another card's edit
      view closes that other view. */
  method LateUpdateClosesOtherEditScenario(a: Appointment, b: Appointment, isoA: string, isoB: string,
                                           outcome: Response<Appointment>)
    requires outcome.Ok?
  {
    var list := new ListState();
    list.Edit(a, isoA);
    list.StartUpdate(a.id);
    list.CancelEdit();
    list.Edit(b, isoB);
    assert list.editingId == Some(b.id);
    list.UpdateFinished(outcome);
    assert list.editingId == None && list.updateCalls == 1;
    assert list.requests == [UpdateAppointment(a.id, SeedEditForm(a, isoA))];
  }
}
