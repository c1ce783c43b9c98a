/** The reviewer's dashboard: summary counts over all fetched appointments, and the list
    narrowed by the chosen status filter. */
module HodDashboard {
  import opened Domain
  import AppointmentList

  /** The filter value that shows every appointment. */
  const All := "all"

  /** The values the filter buttons set, in the order the buttons appear. */
  const FilterButtons := [All, Pending, Approved, Rejected]

  /** `filteredAppointments`: everything for "all"; otherwise the appointments whose
      status is the filter value. */
  function Filtered(appointments: seq<Appointment>, filter: string): (r: seq<Appointment>)
    ensures |r| <= |appointments|
  {
    Filter(appointments, (a: Appointment) => filter == All || a.status == filter)
  }

  /** The "all" filter shows the whole list. */
  lemma FilterAllShowsEverything(appointments: seq<Appointment>)
    ensures Filtered(appointments, All) == appointments
  {
    FilterAcceptingAll(appointments, (a: Appointment) => All == All || a.status == All);
  }

  /** Any other filter value shows the order-preserving subsequence of appointments with
      that status: each such appointment as often as it occurs, nothing else. */
  lemma FilterByStatus(appointments: seq<Appointment>, filter: string)
    requires filter != All
    ensures Filtered(appointments, filter) == WithStatus(appointments, filter)
    ensures IsSubsequence(Filtered(appointments, filter), appointments)
    ensures forall a :: a in Filtered(appointments, filter) ==> a.status == filter
    ensures forall a :: a in appointments && a.status == filter ==> a in Filtered(appointments, filter)
    ensures forall a :: multiset(Filtered(appointments, filter))[a]
                     == if a.status == filter then multiset(appointments)[a] else 0
  {
    FilterCongruent(appointments, (a: Appointment) => filter == All || a.status == filter,
                                  (a: Appointment) => a.status == filter);
    WithStatusSelects(appointments, filter);
    forall a | a in appointments && a.status == filter
      ensures a in Filtered(appointments, filter)
    {
      FilterKeeps(appointments, (a: Appointment) => a.status == filter, a);
    }
  }

  /** The summary cards. */
  datatype Stats = Stats(total: nat, pending: nat, approved: nat, rejected: nat, completed: nat)

  /** `stats`: the list's length and the number of appointments with each status. */
  function StatsOf(appointments: seq<Appointment>): (s: Stats)
    ensures s.total == |appointments|
    ensures s.pending <= s.total && s.approved <= s.total && s.rejected <= s.total && s.completed <= s.total
  {
    Stats(|appointments|,
          |WithStatus(appointments, Pending)|,
          |WithStatus(appointments, Approved)|,
          |WithStatus(appointments, Rejected)|,
          |WithStatus(appointments, Completed)|)
  }

  /** The four status counts together never exceed the total. */
  lemma StatusCountsWithinTotal(appointments: seq<Appointment>)
    ensures var s := StatsOf(appointments);
      s.pending + s.approved + s.rejected + s.completed <= s.total
  {
    FourStatusCountsBounded(appointments, Pending, Approved, Rejected, Completed);
  }

  /** The count shown on a filter button, read from the stats: the total for "all",
      the matching status count for the other three. It is the length of the list
      that button shows. */
  function ButtonCount(appointments: seq<Appointment>, filter: string): (n: nat)
    requires filter in FilterButtons
    ensures n == |Filtered(appointments, filter)|
  {
    var s := StatsOf(appointments);
    if filter == All then
      FilterAllShowsEverything(appointments);
      s.total
    else
      FilterByStatus(appointments, filter);
      if filter == Pending then s.pending
      else if filter == Approved then s.approved
      else s.rejected
  }

  /** What the dashboard shows for its props and the chosen filter. */
  datatype HodView = HodView(stats: Stats, list: AppointmentList.ListPanel)

  function View(appointments: seq<Appointment>, loading: bool, filter: string): (v: HodView)
    ensures v.stats.total == |appointments|
    ensures loading <==> v.list == AppointmentList.LoadingSpinner
    ensures v.list.ListOf? ==> !v.list.isStudent && |v.list.appointments| <= |appointments|
  {
    HodView(StatsOf(appointments),
            if loading then AppointmentList.LoadingSpinner else AppointmentList.ListOf(Filtered(appointments, filter), false))
  }

  /** Changing the filter changes the list shown, never the stats. */
  lemma StatsIgnoreFilter(appointments: seq<Appointment>, loading: bool, f: string, g: string)
    ensures View(appointments, loading, f).stats == View(appointments, loading, g).stats
    ensures View(appointments, loading, f).stats == StatsOf(appointments)
  {
  }

  /** Once loaded, the reviewer's list holds the chosen status's appointments, as many as
      that filter button's count says, and is rendered for a reviewer. */
  lemma LoadedListMatchesStat(appointments: seq<Appointment>, filter: string)
    requires filter in FilterButtons
    ensures var v := View(appointments, false, filter);
      v.list == AppointmentList.ListOf(Filtered(appointments, filter), false)
      && |v.list.appointments| == ButtonCount(appointments, filter)
  {
  }
}
