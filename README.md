# Appointment booking front end: a Dafny model of its state machines

The front end of a department's appointment system has two roles. Students book, edit
and delete their own pending appointments. The head of department (HOD) reviews,
filters and approves or rejects them. Under the JSX and the HTTP calls, the React
components hold small state machines and list derivations. This project models them:

- `Domain` (domain.dfy): the `Appointment` and `Slot` records, the request bodies, a
  request's outcome `Ok(body) | Err(Option<message>)`, the log of requests sent, the
  `x || fallback` error text, and `Array.prototype.filter` with its properties.
- `AppointmentList` (appointment_list.dfy): class `ListState` holds the list's four
  state fields (`editingId`, `editForm`, `statusForms`, `activeStatusId`). Its handlers
  are methods. The status colour, the draft lookup, the map updates and the card
  rendering are pure functions.
- `BookAppointment` (book_appointment.dfy): class `BookingForm` holds `formData`,
  `availableSlots`, `loading`, `loadingSlots` and `error`, plus the date effect, the
  slot fetch and the submit handler. The available count, the time options and the
  submit, hint and warning predicates are pure.
- `HodDashboard` (hod_dashboard.dfy): the status filter, the stats and what the
  reviewer's dashboard shows. All of it is pure; the chosen filter is a parameter.
- `Dashboard` (dashboard.dfy): class `DashboardState` holds `appointments`, `loading`
  and `showBookForm`, with the fetch, created, updated and toggle handlers. Role
  dispatch and the student counts are pure.

How the outside world appears in the model:

- Every HTTP request is appended to a `requests: seq<Request>` field. Its outcome is a
  method parameter.
- `onUpdate` and `onSuccess` are counters (`updateCalls`, `successCalls`).
- `window.confirm` is a boolean parameter. `alert` appends to an `alerts` log.
- Every async handler is split into a start method, which sends the request, and a
  finish method, which applies the response: `DateEffect`/`SlotsFetched`,
  `StartSubmit`/`SubmitFinished`, `StartDelete`/`DeleteFinished`,
  `StartUpdate`/`UpdateFinished`, `StartStatusUpdate`/`StatusUpdateFinished` and
  `StartFetch`/`FetchFinished`. Any other handler may run in between, as it can in
  the browser. A finish method accepts any response at any time, so responses that
  arrive late or out of order are covered. The model does not pair a response with
  the request it answers.
- Dates are opaque strings. In `handleEdit`, the ISO date that is derived from the
  stored date is passed in as `isoDate`.

The intended behaviour is that only pending appointments can be edited or reviewed,
that each action is applied once, and that a date change replaces the availability
shown. In these places the code does something else, and the model follows the code:

- Only pending appointments should show an edit form. The edit view
  (src/components/AppointmentList.jsx:110) checks only the id and the role, not the
  status. An appointment that is no longer pending while it is still being edited is
  shown with its edit form (`AppointmentList.EditViewIgnoresStatus`). In every other
  state, a non-pending appointment offers no controls.
- Opening a status form should start from an empty draft. The button
  (src/components/AppointmentList.jsx:222) only sets `activeStatusId`. A reviewer can
  type a draft for one card and then open another card's form. The first draft stays in
  `statusForms` and shows again when that form is reopened
  (`ReopenedFormKeepsDraftScenario`).
- A status update should be sent once. The status submit button
  (src/components/AppointmentList.jsx:252-254) is not disabled while the PATCH is in
  flight. Two clicks send the same draft twice, and `onUpdate` is called twice
  (`DoubleStatusSubmitScenario`).
- Saving an edit should close only that edit. A PUT that succeeds after the student has
  cancelled and opened another card's edit view closes that other view
  (src/components/AppointmentList.jsx:59, `LateUpdateClosesOtherEditScenario`).
- A new date should clear the previous date's availability. A new non-empty date
  (src/components/BookAppointment.jsx:82, 19-20) keeps the previous slots while its
  fetch runs. If that fetch fails (:31-34), the old slots are still listed and
  selectable, and the hint (:90) shows their count (`StaleSlotsScenario`).
- Refetched lists should be shown in request order. Two overlapping refetches of the
  dashboard (src/components/Dashboard.jsx:20-29) that resolve in reverse order leave
  the older list on screen (`OutOfOrderRefetchScenario`).
- A successful booking resets the form, but the component never sets `error` back to
  `''` there. `StartSubmit` already cleared it, so the error stays as `SlotsFetched` may
  have set it in the meantime.

## Model

| member | source | states |
|---|---|---|
| `Domain.ErrorText` | src/components/AppointmentList.jsx:42 | the text is the server's message when it is present and non-empty, else the action's fallback; never empty when the fallback is not |
| `Domain.Filter` | src/components/HODDashboard.jsx:9-19 | `.filter(keep)` is never longer than its input and keeps only accepted elements of the input; with its lemmas: order preserved, each accepted element kept as often as it occurs, nothing else |
| `Domain.WithStatus` | src/components/HODDashboard.jsx:15-19 | the result holds only appointments of the list that have the given status |
| `Domain.WithStatusSelects` | src/components/HODDashboard.jsx:15-19 | the status filter is an order-preserving subsequence, and holds each appointment with that status as often as the list does, and no other |
| `Domain.FourStatusCountsBounded` | src/components/HODDashboard.jsx:14-20 | for four distinct statuses, the four counts sum to at most the list length |
| `Domain.TwoStatusCountsBounded` | src/components/Dashboard.jsx:44-45 | for two distinct statuses, the two counts sum to at most the list length |
| `AppointmentList.StatusColor` | src/components/AppointmentList.jsx:12-21 | each of the five statuses maps to its fixed badge classes |
| `AppointmentList.UnknownStatusIsGray` | src/components/AppointmentList.jsx:20 | a status outside the table is gray like `cancelled`, and a badge is gray exactly when the status is none of the other four |
| `AppointmentList.NotesOrEmpty` | src/components/AppointmentList.jsx:52 | absent notes become `''`, present notes are kept |
| `AppointmentList.SeedEditForm` | src/components/AppointmentList.jsx:46-54 | the edit draft takes the appointment's time and purpose, the converted date, and its notes or `''` |
| `AppointmentList.WithEditField` | src/components/AppointmentList.jsx:116-150 | an edit input changes its own field of the draft and no other |
| `AppointmentList.DraftOf` | src/components/AppointmentList.jsx:94-96 | an id that has no entry reads as the empty draft; an id that has one reads as its entry |
| `AppointmentList.WithDraftField` | src/components/AppointmentList.jsx:84-92 | the key set gains the id; that id's draft changes in the given field and keeps the other; every other entry is unchanged |
| `AppointmentList.WithoutDraft` | src/components/AppointmentList.jsx:72-76 | the key set loses the id; every remaining entry is unchanged; the id reads as the empty draft |
| `AppointmentList.DraftFieldReadBack` | src/components/AppointmentList.jsx:84-96 | after `updateStatusForm`, `getStatusForm` returns the written value, the other field as before, and every other id's draft as before |
| `AppointmentList.WithoutDraftReadBack` | src/components/AppointmentList.jsx:262-266 | after an entry is dropped, every other id reads as before |
| `AppointmentList.CardFor` | src/components/AppointmentList.jsx:110-294 | a card is for its appointment's id; the edit view shows the current draft; a detail card carries its status badge; an open status form shows the id's draft, with submit enabled iff its status is non-empty |
| `AppointmentList.CardControls` | src/components/AppointmentList.jsx:110-294 | both directions: edit view iff edited id and student; Edit/Delete iff student, pending and not being edited; status area iff reviewer and pending; open form iff also the active id |
| `AppointmentList.NonPendingOffersNoControls` | src/components/AppointmentList.jsx:218-294 | a non-pending appointment offers no Edit, Delete or status control for either role |
| `AppointmentList.StatusSubmitEnabledIff` | src/components/AppointmentList.jsx:252-254 | the status submit button is enabled exactly when the draft status is non-empty |
| `AppointmentList.StatusSubmitFollowsDraft` | src/components/AppointmentList.jsx:228-267 | choosing a status enables the open form's submit iff the choice is non-empty; typing notes leaves it as it was; dropping the draft disables it |
| `AppointmentList.EditViewIgnoresStatus` | src/components/AppointmentList.jsx:110 | an approved appointment whose id is being edited is shown in the edit view |
| `AppointmentList.RenderList` | src/components/AppointmentList.jsx:98-108 | the placeholder is shown exactly for an empty list; otherwise there is one card per appointment, in order |
| `AppointmentList.ReviewerListHasNoStudentControls` | src/components/AppointmentList.jsx:110-294 | a reviewer's list never shows an edit view or the Edit and Delete buttons |
| `AppointmentList.ListState.constructor` | src/components/AppointmentList.jsx:7-10 | no card edited, an empty draft, no status drafts, no open form, no effects |
| `AppointmentList.ListState.View` | src/components/AppointmentList.jsx:98-104 | the current state renders the placeholder exactly for an empty list |
| `AppointmentList.ListState.GetStatusForm` | src/components/AppointmentList.jsx:94-96 | an id with no draft reads as the empty draft |
| `AppointmentList.ListState.StartDelete` | src/components/AppointmentList.jsx:33-39 | declined: nothing changes; confirmed: one DELETE of that id; no other state changes |
| `AppointmentList.ListState.DeleteFinished` | src/components/AppointmentList.jsx:40-43 | `onUpdate` once on success, or an alert and no `onUpdate` on failure; the list state is untouched |
| `AppointmentList.ListState.Edit` | src/components/AppointmentList.jsx:46-54 | `editingId` becomes the appointment's id and the draft is seeded from it; nothing is sent |
| `AppointmentList.ListState.SetEditField` | src/components/AppointmentList.jsx:116-150 | only the draft changes, in the given field |
| `AppointmentList.ListState.CancelEdit` | src/components/AppointmentList.jsx:159-161 | only `editingId` changes, to none; no request, no `onUpdate` |
| `AppointmentList.ListState.StartUpdate` | src/components/AppointmentList.jsx:56-58 | one PUT of the current draft for that id; the edit view stays open and nothing else changes |
| `AppointmentList.ListState.UpdateFinished` | src/components/AppointmentList.jsx:59-62 | on success whatever edit view is open is left and `onUpdate` is called once; on failure an alert, and `editingId` is kept |
| `AppointmentList.ListState.OpenStatusForm` | src/components/AppointmentList.jsx:220-224 | only `activeStatusId` changes; the drafts are untouched |
| `AppointmentList.ListState.UpdateStatusForm` | src/components/AppointmentList.jsx:84-92 | `statusForms` becomes the copy with that field of that id's draft set; nothing else changes |
| `AppointmentList.ListState.StartStatusUpdate` | src/components/AppointmentList.jsx:66-71 | sent iff the draft status is non-empty; then one PATCH of that draft, otherwise no request; the form and drafts stay as they are |
| `AppointmentList.ListState.StatusUpdateFinished` | src/components/AppointmentList.jsx:72-80 | on success the entry is dropped, the form is closed and `onUpdate` is called once; on failure both are unchanged, an alert, and no `onUpdate` |
| `AppointmentList.ListState.CancelStatus` | src/components/AppointmentList.jsx:259-267 | the form is closed and that id's draft is dropped, with no request |
| `BookAppointment.AvailableSlots` | src/components/BookAppointment.jsx:58 | only fetched slots that are available |
| `BookAppointment.AvailableCount` | src/components/BookAppointment.jsx:58 | the count never exceeds the number of slots |
| `BookAppointment.AvailableCountExtremes` | src/components/BookAppointment.jsx:58 | the count is 0 iff no slot is available, and equals the slot count iff all are |
| `BookAppointment.AvailableCountAppend` | src/components/BookAppointment.jsx:58 | the count distributes over concatenation |
| `BookAppointment.TimeOptions` | src/components/BookAppointment.jsx:107-116 | one option per slot, in order, with the slot's time; disabled iff the slot is unavailable |
| `BookAppointment.EnabledOptionsMatchCount` | src/components/BookAppointment.jsx:107-116 | the number of selectable options equals the available count |
| `BookAppointment.AvailabilityExample` | src/components/BookAppointment.jsx:58-116 | for slots 09:00 (open) and 10:00 (taken), the count is 1 and 10:00 is offered but disabled |
| `BookAppointment.SubmitEnabled` | src/components/BookAppointment.jsx:156 | submit is never enabled during a booking, nor with date, time or purpose empty |
| `BookAppointment.ShowsAvailableHint` | src/components/BookAppointment.jsx:90 | the hint needs a date and at least one available slot |
| `BookAppointment.NoSlotsWarning` | src/components/BookAppointment.jsx:118 | the warning never shows with the hint, and only when every fetched slot is taken |
| `BookAppointment.TimeSelectDisabled` | src/components/BookAppointment.jsx:99 | the selector is disabled without a date and while slots load |
| `BookAppointment.SubmitEnabledIff` | src/components/BookAppointment.jsx:156 | submit is enabled iff not loading and date, time and purpose are all non-empty; notes do not matter |
| `BookAppointment.HintOrWarning` | src/components/BookAppointment.jsx:90-120 | while the time selector is enabled, exactly one of the count hint and the no-slots warning shows; the warning shows iff no slot is available |
| `BookAppointment.BookingForm.constructor` | src/components/BookAppointment.jsx:7-16 | all fields `''`, no slots, not loading, no error |
| `BookAppointment.BookingForm.DateEffect` | src/components/BookAppointment.jsx:18-25 | with a date: slot loading starts and one availability GET for that date is sent; without a date: the slots and the time are cleared |
| `BookAppointment.BookingForm.SlotsFetched` | src/components/BookAppointment.jsx:27-38 | success stores the slots; failure sets the slot-loading error and keeps the slots; `loadingSlots` is false afterwards, so the selector is enabled iff there is a date |
| `BookAppointment.BookingForm.ChangeDate` | src/components/BookAppointment.jsx:82 | the date is set, the time cleared, purpose and notes kept; a new non-empty date starts a fetch and keeps the old slots, a new empty date clears them; a new or empty date leaves the selector disabled; submit is disabled afterwards |
| `BookAppointment.BookingForm.ChangeTime` | src/components/BookAppointment.jsx:101 | only the time changes |
| `BookAppointment.BookingForm.ChangePurpose` | src/components/BookAppointment.jsx:133 | only the purpose changes |
| `BookAppointment.BookingForm.ChangeNotes` | src/components/BookAppointment.jsx:147 | only the notes change, and whether submit is enabled does not |
| `BookAppointment.BookingForm.StartSubmit` | src/components/BookAppointment.jsx:40-46 | the error is cleared, loading is set, one POST of the current fields is sent, and submit is disabled |
| `BookAppointment.BookingForm.SubmitFinished` | src/components/BookAppointment.jsx:46-54 | success: fields and slots emptied, `onSuccess` called once; failure: fields kept, error is the server message or the fallback, and submit is enabled again iff the fields are filled; loading is false afterwards |
| `HodDashboard.Filtered` | src/components/HODDashboard.jsx:9-12 | the filtered list is never longer than the full list |
| `HodDashboard.FilterAllShowsEverything` | src/components/HODDashboard.jsx:9-10 | the `'all'` filter shows the full list |
| `HodDashboard.FilterByStatus` | src/components/HODDashboard.jsx:9-12 | any other filter shows the order-preserving subsequence of appointments with that status: each one, as often as it occurs, and no other |
| `HodDashboard.StatsOf` | src/components/HODDashboard.jsx:14-20 | total is the list length; each status count is at most the total |
| `HodDashboard.StatusCountsWithinTotal` | src/components/HODDashboard.jsx:14-20 | pending + approved + rejected + completed never exceeds the total |
| `HodDashboard.ButtonCount` | src/components/HODDashboard.jsx:82-121 | the count a filter button shows, read from the stats, equals the length of the list that button shows |
| `HodDashboard.View` | src/components/HODDashboard.jsx:126-137 | spinner iff loading; otherwise a reviewer-mode list, never longer than the full list; total is the list length |
| `HodDashboard.StatsIgnoreFilter` | src/components/HODDashboard.jsx:9-20 | the stats do not depend on the filter and are computed from the full list |
| `HodDashboard.LoadedListMatchesStat` | src/components/HODDashboard.jsx:126-137 | once loaded, the list handed on is the filtered list, with `isStudent` false, and as long as its button's count |
| `Dashboard.ScreenFor` | src/components/Dashboard.jsx:40-45 | a student's counts are each at most the total, and the total is the list length |
| `Dashboard.RoleDispatch` | src/components/Dashboard.jsx:40-42 | the HOD dashboard is shown iff the role is `'hod'`, with the same appointments and loading flag |
| `Dashboard.StudentScreenCounts` | src/components/Dashboard.jsx:44-45 | pending and approved counts are the status counts and together at most the total; once loaded, the list is the full list in student mode |
| `Dashboard.DashboardState.constructor` | src/components/Dashboard.jsx:12-14 | no appointments, loading, form hidden |
| `Dashboard.DashboardState.Render` | src/components/Dashboard.jsx:40-126 | the student total is the current list's length |
| `Dashboard.DashboardState.StartFetch` | src/components/Dashboard.jsx:16-22 | one GET; the list, the loading flag and the form's visibility are unchanged |
| `Dashboard.DashboardState.FetchFinished` | src/components/Dashboard.jsx:23-28 | success replaces the appointments, failure keeps them; loading is false afterwards |
| `Dashboard.DashboardState.AppointmentCreated` | src/components/Dashboard.jsx:31-34 | the form is hidden and one GET is sent |
| `Dashboard.DashboardState.AppointmentUpdated` | src/components/Dashboard.jsx:36-38 | one GET is sent; the form's visibility is kept |
| `Dashboard.DashboardState.ToggleBookForm` | src/components/Dashboard.jsx:96 | visibility is negated, so two toggles restore it; nothing else changes |

## Left out

- HTTP and the `API_URL` environment lookup: each request is a logged `Request` value, and its outcome is a parameter.
- `formatDate`/`toLocaleDateString`, the `toISOString().split('T')` conversion and `minDate`: these depend on the locale and the clock. Dates are opaque strings, and the converted date in `handleEdit` is a parameter.
- Which request a response answers. A finish method (`SlotsFetched`, `SubmitFinished`, `DeleteFinished`, `UpdateFinished`, `StatusUpdateFinished`, `FetchFinished`) accepts any response at any time. That covers late and out-of-order responses, such as an old date's slots overwriting a newer date's, but the model does not check that a finish follows a matching start.
- `console.error`, `useAuth` and logout, the JSX markup, and Tailwind classes other than the status badge classes.
- The card header's `studentName || 'Student'` and `studentId || 'N/A'` display texts, and the display of notes and HOD notes.
- JavaScript object lookups of inherited keys (`colors['toString']`): statuses are treated as plain keys.
- The initial `editForm` `{}` is modelled as a draft with all fields `''`. Its fields cannot be seen, because the edit view only appears after `handleEdit` has seeded them.
- The time option placeholder labels ('Loading slots...', 'Select a time', 'Select date first') and the button labels.
- The browser's `required`-field validation on form submit is not modelled. `StartSubmit` has no precondition, just like the handler.
