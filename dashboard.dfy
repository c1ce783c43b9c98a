/** The top-level dashboard: it fetches the appointments, dispatches on the user's role,
    and for a student shows the counts, the booking form toggle and the list. */
module Dashboard {
  import opened Domain
  import AppointmentList

  const HodRole := "hod"

  /** What the dashboard renders. */
  datatype Screen =
    | HodScreen(appointments: seq<Appointment>, loading: bool)     // the reviewer's dashboard with these props
    | StudentScreen(total: nat, pendingCount: nat, approvedCount: nat,
                    showsBookForm: bool, list: AppointmentList.ListPanel)

  /** The screen for a user's role (`user?.role`, absent when there is no user). */
  function ScreenFor(role: Option<string>, appointments: seq<Appointment>, loading: bool, showBookForm: bool): (s: Screen)
    ensures s.StudentScreen? ==> s.pendingCount <= s.total && s.approvedCount <= s.total && s.total == |appointments|
  {
    if role == Some(HodRole) then HodScreen(appointments, loading)
    else StudentScreen(|appointments|,
                       |WithStatus(appointments, Pending)|,
                       |WithStatus(appointments, Approved)|,
                       showBookForm,
                       if loading then AppointmentList.LoadingSpinner
                       else AppointmentList.ListOf(appointments, true))
  }

  /** A reviewer gets the reviewer's dashboard with the same appointments and loading
      flag; every other user, or none, gets the student's. */
  lemma RoleDispatch(role: Option<string>, appointments: seq<Appointment>, loading: bool, showBookForm: bool)
    ensures ScreenFor(role, appointments, loading, showBookForm).HodScreen? <==> role == Some(HodRole)
    ensures role == Some(HodRole) ==> ScreenFor(role, appointments, loading, showBookForm) == HodScreen(appointments, loading)
  {
  }

  /** A student sees every fetched appointment in a student-mode list once loaded, and
      the pending and approved counts together never exceed the total. */
  lemma StudentScreenCounts(role: Option<string>, appointments: seq<Appointment>, loading: bool, showBookForm: bool)
    requires role != Some(HodRole)
    ensures var s := ScreenFor(role, appointments, loading, showBookForm);
      && s.StudentScreen?
      && s.pendingCount + s.approvedCount <= s.total
      && s.pendingCount == |WithStatus(appointments, Pending)|
      && s.approvedCount == |WithStatus(appointments, Approved)|
      && s.showsBookForm == showBookForm
      && (s.list == AppointmentList.LoadingSpinner <==> loading)
      && (!loading ==> s.list == AppointmentList.ListOf(appointments, true))
  {
    TwoStatusCountsBounded(appointments, Pending, Approved);
  }

  /** The dashboard's state and the requests it sent. */
  class DashboardState {
    var appointments: seq<Appointment>
    var loading: bool
    var showBookForm: bool
    var requests: seq<Request>

    /** The initial state, before the mount effect's fetch. */
    constructor ()
      ensures appointments == [] && loading && !showBookForm && requests == []
    {
      appointments, loading, showBookForm := [], true, false;
      requests := [];
    }

    /** What is rendered for the signed-in user's role. */
    function Render(role: Option<string>): (s: Screen)
      reads this
      ensures s.StudentScreen? ==> s.total == |appointments|
    {
      ScreenFor(role, appointments, loading, showBookForm)
    }

    /** The first half of `fetchAppointments` (also run on mount): one GET. Nothing on
        screen changes while it is in flight; a refetch leaves `loading` as it is. */
    method StartFetch()
      modifies this
      ensures requests == old(requests) + [ListAppointments]
      ensures appointments == old(appointments) && loading == old(loading) && showBookForm == old(showBookForm)
    {
      requests := requests + [ListAppointments];
    }

    /** The second half of `fetchAppointments`: the response replaces the list, a
        failure keeps it; the loading flag is off afterwards. */
    method FetchFinished(outcome: Response<seq<Appointment>>)
      modifies this
      ensures appointments == if outcome.Ok? then outcome.body else old(appointments)
      ensures !loading && showBookForm == old(showBookForm) && requests == old(requests)
    {
      match outcome {
        case Ok(fetched) =>
          appointments := fetched;
        case Err(_) =>
      }
      loading := false;
    }

    /** `handleAppointmentCreated`: hide the form, then start a fetch. */
    method AppointmentCreated()
      modifies this
      ensures !showBookForm
      ensures requests == old(requests) + [ListAppointments]
      ensures appointments == old(appointments) && loading == old(loading)
    {
      showBookForm := false;
      StartFetch();
    }

    /** `handleAppointmentUpdated`: start a fetch. */
    method AppointmentUpdated()
      modifies this
      ensures requests == old(requests) + [ListAppointments]
      ensures appointments == old(appointments) && loading == old(loading) && showBookForm == old(showBookForm)
    {
      StartFetch();
    }

    /** The book button: show or hide the booking form. */
    method ToggleBookForm()
      modifies this
      ensures showBookForm == !old(showBookForm)
      ensures appointments == old(appointments) && loading == old(loading) && requests == old(requests)
    {
      showBookForm := !showBookForm;
    }
  }

  /** The mount fetch ends loading; toggling twice restores the form's visibility; a
      failed refetch keeps the loaded list. */
  method DashboardScenario(first: seq<Appointment>, refetchError: Option<string>)
  {
    var d := new DashboardState();
    d.StartFetch();
    assert d.Render(None) == StudentScreen(0, 0, 0, false, AppointmentList.LoadingSpinner);
    d.FetchFinished(Ok(first));
    d.ToggleBookForm();
    d.ToggleBookForm();
    assert !d.showBookForm && !d.loading && d.appointments == first;
    d.AppointmentUpdated();
    d.FetchFinished(Err(refetchError));
    assert d.appointments == first && d.requests == [ListAppointments, ListAppointments];
  }

  /** Two refetches whose responses arrive in reverse order: the older list is the one
      left on screen. */
  method OutOfOrderRefetchScenario(older: seq<Appointment>, newer: seq<Appointment>)
  {
    var d := new DashboardState();
    d.AppointmentUpdated();
    d.AppointmentUpdated();
    d.FetchFinished(Ok(newer));
    d.FetchFinished(Ok(older));
    assert d.appointments == older && |d.requests| == 2;
  }
}
