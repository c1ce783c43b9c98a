/** The records the front end receives from the appointments service, the outcome of a
    request, the requests the components send, and the list filtering that every
    component uses (`Array.prototype.filter` followed by `.length`). */
module Domain {

  datatype Option<+T> = None | Some(value: T)

  /** The outcome of one HTTP request: the parsed response body, or a rejection that
      carries the server's optional `response.data.message`. */
  datatype Response<+T> = Ok(body: T) | Err(message: Option<string>)

  /** The `_id` the service gives an appointment (an opaque string key). */
  type Id = string

  const Pending := "pending"
  const Approved := "approved"
  const Rejected := "rejected"
  const Completed := "completed"
  const Cancelled := "cancelled"

  /** An appointment as fetched. Optional fields are the ones the components read with
      a `||` fallback. Dates are opaque strings. */
  datatype Appointment = Appointment(
    id: Id,
    studentId: Option<string>,
    studentName: Option<string>,
    studentEmail: string,
    date: string,
    time: string,
    purpose: string,
    notes: Option<string>,
    status: string,
    hodNotes: Option<string>)

  /** One entry of the availability response for a date. */
  datatype Slot = Slot(time: string, available: bool)

  /** The `{date, time, purpose, notes}` body of a create or an update request, and
      the draft a form holds for it. */
  datatype AppointmentFields = AppointmentFields(date: string, time: string, purpose: string, notes: string)

  const EmptyFields := AppointmentFields("", "", "", "")

  /** The `{status, hodNotes}` body of a status update, and the reviewer's draft of it. */
  datatype StatusDraft = StatusDraft(status: string, hodNotes: string)

  const EmptyDraft := StatusDraft("", "")

  /** The requests the components send, one constructor per endpoint. */
  datatype Request =
    | ListAppointments                                  // GET    /appointments
    | CreateAppointment(fields: AppointmentFields)      // POST   /appointments
    | UpdateAppointment(id: Id, fields: AppointmentFields) // PUT /appointments/{id}
    | DeleteAppointment(id: Id)                         // DELETE /appointments/{id}
    | UpdateStatus(id: Id, draft: StatusDraft)          // PATCH  /appointments/{id}/status
    | GetAvailability(date: string)                     // GET    /appointments/availability/{date}

  /** What the user is told after a failed request: `error.response?.data?.message ||
      fallback`. An absent or empty server message yields the fallback. */
  function ErrorText(message: Option<string>, fallback: string): (t: string)
    ensures t == fallback || (message == Some(t) && t != "")
    ensures message.Some? && message.value != "" ==> t == message.value
    ensures t == "" ==> fallback == ""
  {
    match message
    case Some(m) => if m != "" then m else fallback
    case None => fallback
  }

  /** `s.filter(keep)`: the elements of `s` that `keep` accepts, in their order. */
  function Filter<T(==)>(s: seq<T>, keep: T -> bool): (r: seq<T>)
    ensures |r| <= |s|
    ensures forall x :: x in r ==> x in s && keep(x)
  {
    if s == [] then []
    else (if keep(s[0]) then [s[0]] else []) + Filter(s[1..], keep)
  }

  /** `sub` is obtained from `s` by dropping elements, keeping the order of the rest. */
  ghost predicate IsSubsequence<T>(sub: seq<T>, s: seq<T>)
    decreases |s|
  {
    if sub == [] then true
    else if s == [] then false
    else (sub[0] == s[0] && IsSubsequence(sub[1..], s[1..])) || IsSubsequence(sub, s[1..])
  }

  lemma {:induction false} FilterIsSubsequence<T>(s: seq<T>, keep: T -> bool)
    ensures IsSubsequence(Filter(s, keep), s)
    decreases |s|
  {
    if s != [] {
      FilterIsSubsequence(s[1..], keep);
      var rest := Filter(s[1..], keep);
      if keep(s[0]) {
        assert Filter(s, keep) == [s[0]] + rest;
        assert ([s[0]] + rest)[1..] == rest;
      } else {
        assert Filter(s, keep) == rest;
      }
    }
  }

  /** Every accepted element is kept as often as it occurs; every rejected one is gone. */
  lemma {:induction false} FilterMultiset<T>(s: seq<T>, keep: T -> bool, x: T)
    ensures multiset(Filter(s, keep))[x] == if keep(x) then multiset(s)[x] else 0
    decreases |s|
  {
    if s != [] {
      FilterMultiset(s[1..], keep, x);
      assert s == [s[0]] + s[1..];
      assert multiset(s) == multiset([s[0]]) + multiset(s[1..]);
    }
  }

  /** An element of `s` that `keep` accepts survives the filter. */
  lemma FilterKeeps<T>(s: seq<T>, keep: T -> bool, x: T)
    requires x in s && keep(x)
    ensures x in Filter(s, keep)
  {
    FilterMultiset(s, keep, x);
    assert x in multiset(s);
  }

  /** A filter that accepts everything leaves the sequence as it is. */
  lemma {:induction false} FilterAcceptingAll<T>(s: seq<T>, keep: T -> bool)
    requires forall i :: 0 <= i < |s| ==> keep(s[i])
    ensures Filter(s, keep) == s
    decreases |s|
  {
    if s != [] {
      FilterAcceptingAll(s[1..], keep);
      assert [s[0]] + s[1..] == s;
    }
  }

  /** A filter that rejects everything leaves nothing; the converse holds too. */
  lemma {:induction false} FilterEmptyIff<T>(s: seq<T>, keep: T -> bool)
    ensures Filter(s, keep) == [] <==> forall i :: 0 <= i < |s| ==> !keep(s[i])
    decreases |s|
  {
    if s != [] {
      FilterEmptyIff(s[1..], keep);
      assert forall i :: 1 <= i < |s| ==> s[i] == s[1..][i - 1];
    }
  }

  /** Two filters that agree on the elements of `s` select the same subsequence. */
  lemma {:induction false} FilterCongruent<T>(s: seq<T>, p: T -> bool, q: T -> bool)
    requires forall i :: 0 <= i < |s| ==> p(s[i]) == q(s[i])
    ensures Filter(s, p) == Filter(s, q)
    decreases |s|
  {
    if s != [] {
      assert forall i :: 1 <= i < |s[1..]| + 1 ==> s[1..][i - 1] == s[i];
      FilterCongruent(s[1..], p, q);
    }
  }

  /** `appointments.filter(a => a.status === status)`. */
  function WithStatus(appointments: seq<Appointment>, status: string): (r: seq<Appointment>)
    ensures forall a :: a in r ==> a in appointments && a.status == status
  {
    Filter(appointments, (a: Appointment) => a.status == status)
  }

  /** Unfolding `WithStatus` by one element. */
  lemma WithStatusCons(appointments: seq<Appointment>, status: string)
    requires appointments != []
    ensures WithStatus(appointments, status)
         == (if appointments[0].status == status then [appointments[0]] else [])
            + WithStatus(appointments[1..], status)
  {
  }

  /** `WithStatus` selects exactly the appointments with that status, each as often as
      it occurs, in their order. */
  lemma WithStatusSelects(appointments: seq<Appointment>, status: string)
    ensures IsSubsequence(WithStatus(appointments, status), appointments)
    ensures forall a :: multiset(WithStatus(appointments, status))[a]
                     == if a.status == status then multiset(appointments)[a] else 0
  {
    FilterIsSubsequence(appointments, (a: Appointment) => a.status == status);
    forall a {
      FilterMultiset(appointments, (a: Appointment) => a.status == status, a);
    }
  }

  /** Appointments with distinct statuses are counted once across the four counts. */
  lemma {:induction false} FourStatusCountsBounded(appointments: seq<Appointment>, s1: string, s2: string, s3: string, s4: string)
    requires s1 != s2 && s1 != s3 && s1 != s4 && s2 != s3 && s2 != s4 && s3 != s4
    ensures |WithStatus(appointments, s1)| + |WithStatus(appointments, s2)|
          + |WithStatus(appointments, s3)| + |WithStatus(appointments, s4)| <= |appointments|
    decreases |appointments|
  {
    if appointments != [] {
      FourStatusCountsBounded(appointments[1..], s1, s2, s3, s4);
      WithStatusCons(appointments, s1);
      WithStatusCons(appointments, s2);
      WithStatusCons(appointments, s3);
      WithStatusCons(appointments, s4);
    }
  }

  /** Two distinct statuses never count more appointments than there are. */
  lemma {:induction false} TwoStatusCountsBounded(appointments: seq<Appointment>, s1: string, s2: string)
    requires s1 != s2
    ensures |WithStatus(appointments, s1)| + |WithStatus(appointments, s2)| <= |appointments|
    decreases |appointments|
  {
    if appointments != [] {
      TwoStatusCountsBounded(appointments[1..], s1, s2);
      WithStatusCons(appointments, s1);
      WithStatusCons(appointments, s2);
    }
  }
}
