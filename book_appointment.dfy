/** The booking form: its four fields, the availability slots fetched for the chosen
    date, the two in-flight flags and the inline error, and the rules that decide what
    the form offers. */
module BookAppointment {
  import opened Domain

  const SlotsFailed := "Failed to load available time slots"
  const BookingFailed := "Failed to book appointment"

  /** `availableSlots.filter(slot => slot.available)`. */
  function AvailableSlots(slots: seq<Slot>): (r: seq<Slot>)
    ensures forall s :: s in r ==> s in slots && s.available
  {
    Filter(slots, (s: Slot) => s.available)
  }

  /** `availableCount`: how many fetched slots can be chosen. */
  function AvailableCount(slots: seq<Slot>): (n: nat)
    ensures n <= |slots|
  {
    |AvailableSlots(slots)|
  }

  /** The count is zero exactly when no slot is available, and it equals the number of
      slots exactly when all of them are. */
  lemma {:induction false} AvailableCountExtremes(slots: seq<Slot>)
    ensures AvailableCount(slots) == 0 <==> forall i :: 0 <= i < |slots| ==> !slots[i].available
    ensures AvailableCount(slots) == |slots| <==> forall i :: 0 <= i < |slots| ==> slots[i].available
    decreases |slots|
  {
    FilterEmptyIff(slots, (s: Slot) => s.available);
    if slots != [] {
      AvailableCountExtremes(slots[1..]);
      assert forall i :: 1 <= i < |slots| ==> slots[i] == slots[1..][i - 1];
    }
  }

  /** The count of a concatenation is the sum of the counts. */
  lemma {:induction false} AvailableCountAppend(a: seq<Slot>, b: seq<Slot>)
    ensures AvailableCount(a + b) == AvailableCount(a) + AvailableCount(b)
    decreases |a|
  {
    if a == [] {
      assert a + b == b;
    } else {
      AvailableCountAppend(a[1..], b);
      assert (a + b)[0] == a[0] && (a + b)[1..] == a[1..] + b;
    }
  }

  /** One option of the time selector. */
  datatype TimeOption = TimeOption(value: string, disabled: bool)

  /** The time selector's options after its placeholder: every fetched slot, in order;
      an unavailable one is shown but disabled. */
  function TimeOptions(slots: seq<Slot>): (r: seq<TimeOption>)
    ensures |r| == |slots|
    ensures forall i :: 0 <= i < |slots| ==> r[i].value == slots[i].time && (r[i].disabled <==> !slots[i].available)
  {
    if slots == [] then []
    else [TimeOption(slots[0].time, !slots[0].available)] + TimeOptions(slots[1..])
  }

  /** The enabled options are as many as the available count. */
  lemma {:induction false} EnabledOptionsMatchCount(slots: seq<Slot>)
    ensures |Filter(TimeOptions(slots), (o: TimeOption) => !o.disabled)| == AvailableCount(slots)
    decreases |slots|
  {
    if slots != [] {
      EnabledOptionsMatchCount(slots[1..]);
      assert TimeOptions(slots)[1..] == TimeOptions(slots[1..]);
    }
  }

  /** The slots of the availability example: one open, one taken. */
  lemma AvailabilityExample()
    ensures var slots := [Slot("09:00", true), Slot("10:00", false)];
      AvailableCount(slots) == 1 && TimeOptions(slots)[1] == TimeOption("10:00", true)
  {
    var slots := [Slot("09:00", true), Slot("10:00", false)];
    assert slots[1..] == [Slot("10:00", false)];
    assert slots[1..][1..] == [];
  }

  /** The submit button is enabled: not submitting, and date, time and purpose filled.
      It is never enabled while a booking is in flight or a required field is empty. */
  predicate SubmitEnabled(form: AppointmentFields, loading: bool)
    ensures SubmitEnabled(form, loading) ==> form.date != "" && form.time != "" && form.purpose != ""
    ensures loading ==> !SubmitEnabled(form, loading)
  {
    !(loading || form.date == "" || form.time == "" || form.purpose == "")
  }

  /** The "(n available)" hint next to the Time label is shown: it needs a date and at
      least one open slot among the fetched ones. */
  predicate ShowsAvailableHint(date: string, slots: seq<Slot>)
    ensures ShowsAvailableHint(date, slots) ==> date != "" && exists i :: 0 <= i < |slots| && slots[i].available
  {
    AvailableCountExtremes(slots);
    date != "" && AvailableCount(slots) > 0
  }

  /** The "no available slots" warning is shown: never together with the hint, and only
      when every fetched slot (possibly none) is taken. */
  predicate NoSlotsWarning(date: string, slots: seq<Slot>, loadingSlots: bool)
    ensures NoSlotsWarning(date, slots, loadingSlots) ==> !ShowsAvailableHint(date, slots)
    ensures NoSlotsWarning(date, slots, loadingSlots) ==> forall i :: 0 <= i < |slots| ==> !slots[i].available
  {
    AvailableCountExtremes(slots);
    date != "" && AvailableCount(slots) == 0 && !loadingSlots
  }

  /** The time selector is disabled: always without a date, and while slots are loading. */
  predicate TimeSelectDisabled(date: string, loadingSlots: bool)
    ensures date == "" ==> TimeSelectDisabled(date, loadingSlots)
    ensures loadingSlots ==> TimeSelectDisabled(date, loadingSlots)
  {
    date == "" || loadingSlots
  }

  /** The submit button is never enabled while a required field is empty or a booking
      is in flight, and is enabled otherwise. */
  lemma SubmitEnabledIff(form: AppointmentFields, loading: bool)
    ensures SubmitEnabled(form, loading) <==> !loading && form.date != "" && form.time != "" && form.purpose != ""
    ensures SubmitEnabled(form, loading) ==> SubmitEnabled(form.(notes := ""), loading)
  {
  }

  /** While the time selector is enabled, exactly one of the hint and the warning shows:
      the hint when some slot is available, the warning when none is. */
  lemma HintOrWarning(date: string, slots: seq<Slot>, loadingSlots: bool)
    requires !TimeSelectDisabled(date, loadingSlots)
    ensures ShowsAvailableHint(date, slots) != NoSlotsWarning(date, slots, loadingSlots)
    ensures NoSlotsWarning(date, slots, loadingSlots) <==> forall i :: 0 <= i < |slots| ==> !slots[i].available
  {
    AvailableCountExtremes(slots);
  }

  /** The form's state and its effects: the requests it sent and how often it called
      `onSuccess`. */
  class BookingForm {
    var formData: AppointmentFields
    var availableSlots: seq<Slot>
    var loading: bool
    var loadingSlots: bool
    var error: string
    var requests: seq<Request>
    var successCalls: nat

    /** The initial state; the effect that runs on mount sees an empty date and only
        clears what is already clear. */
    constructor ()
      ensures formData == EmptyFields && availableSlots == []
      ensures !loading && !loadingSlots && error == ""
      ensures requests == [] && successCalls == 0
    {
      formData, availableSlots := EmptyFields, [];
      loading, loadingSlots, error := false, false, "";
      requests, successCalls := [], 0;
    }

    /** The effect on `formData.date`: with a date, start fetching its slots; without,
        clear the slots and the chosen time. */
    method DateEffect()
      modifies this
      ensures old(formData.date) != "" ==>
        && loadingSlots && requests == old(requests) + [GetAvailability(old(formData.date))]
        && formData == old(formData) && availableSlots == old(availableSlots)
      ensures old(formData.date) == "" ==>
        && availableSlots == [] && formData == old(formData).(time := "")
        && loadingSlots == old(loadingSlots) && requests == old(requests)
      ensures loading == old(loading) && error == old(error) && successCalls == old(successCalls)
    {
      if formData.date != "" {
        loadingSlots := true;
        requests := requests + [GetAvailability(formData.date)];
      } else {
        availableSlots := [];
        formData := formData.(time := "");
      }
    }

    /** The end of a slot fetch: store the slots, or report the failure; either way the
        fetch is over. */
    method SlotsFetched(outcome: Response<seq<Slot>>)
      modifies this
      ensures !loadingSlots
      ensures availableSlots == if outcome.Ok? then outcome.body else old(availableSlots)
      ensures error == if outcome.Ok? then old(error) else SlotsFailed
      ensures formData == old(formData) && loading == old(loading)
      ensures requests == old(requests) && successCalls == old(successCalls)
      ensures TimeSelectDisabled(formData.date, loadingSlots) <==> formData.date == ""
    {
      match outcome {
        case Ok(slots) =>
          availableSlots := slots;
        case Err(_) =>
          error := SlotsFailed;
      }
      loadingSlots := false;
    }

    /** The date input changed: set the date and clear the time; when the date is a new
        value, the date effect follows. */
    method ChangeDate(value: string)
      modifies this
      ensures formData == old(formData).(date := value, time := "")
      ensures value != old(formData.date) && value != "" ==>
        loadingSlots && requests == old(requests) + [GetAvailability(value)] && availableSlots == old(availableSlots)
      ensures value != old(formData.date) && value == "" ==>
        availableSlots == [] && loadingSlots == old(loadingSlots) && requests == old(requests)
      ensures value == old(formData.date) ==>
        availableSlots == old(availableSlots) && loadingSlots == old(loadingSlots) && requests == old(requests)
      ensures loading == old(loading) && error == old(error) && successCalls == old(successCalls)
      ensures (value != old(formData.date) || value == "") ==> TimeSelectDisabled(formData.date, loadingSlots)
      ensures !SubmitEnabled(formData, loading)
    {
      var previous := formData.date;
      formData := formData.(date := value, time := "");
      if value != previous {
        DateEffect();
      }
    }

    /** The time selector changed. */
    method ChangeTime(value: string)
      modifies this
      ensures formData == old(formData).(time := value)
      ensures availableSlots == old(availableSlots) && loading == old(loading) && loadingSlots == old(loadingSlots)
      ensures error == old(error) && requests == old(requests) && successCalls == old(successCalls)
    {
      formData := formData.(time := value);
    }

    /** The purpose text changed. */
    method ChangePurpose(value: string)
      modifies this
      ensures formData == old(formData).(purpose := value)
      ensures availableSlots == old(availableSlots) && loading == old(loading) && loadingSlots == old(loadingSlots)
      ensures error == old(error) && requests == old(requests) && successCalls == old(successCalls)
    {
      formData := formData.(purpose := value);
    }

    /** The notes text changed. */
    method ChangeNotes(value: string)
      modifies this
      ensures formData == old(formData).(notes := value)
      ensures availableSlots == old(availableSlots) && loading == old(loading) && loadingSlots == old(loadingSlots)
      ensures error == old(error) && requests == old(requests) && successCalls == old(successCalls)
      ensures SubmitEnabled(formData, loading) == SubmitEnabled(old(formData), old(loading))
    {
      formData := formData.(notes := value);
    }

    /** The first half of `handleSubmit`: clear the error, mark the booking in flight
        and POST the current fields. */
    method StartSubmit()
      modifies this
      ensures error == "" && loading
      ensures requests == old(requests) + [CreateAppointment(old(formData))]
      ensures formData == old(formData) && availableSlots == old(availableSlots)
      ensures loadingSlots == old(loadingSlots) && successCalls == old(successCalls)
      ensures !SubmitEnabled(formData, loading)
    {
      error := "";
      loading := true;
      requests := requests + [CreateAppointment(formData)];
    }

    /** The second half of `handleSubmit`: on success empty the form and the slots and
        call `onSuccess` once; on failure keep the fields and show the server's message
        or the fallback; either way the booking is over. */
    method SubmitFinished(outcome: Response<Appointment>)
      modifies this
      ensures !loading
      ensures outcome.Ok? ==> formData == EmptyFields && availableSlots == [] && successCalls == old(successCalls) + 1
      ensures outcome.Ok? ==> error == old(error)
      ensures outcome.Err? ==> formData == old(formData) && availableSlots == old(availableSlots)
      ensures outcome.Err? ==> error == ErrorText(outcome.message, BookingFailed) && successCalls == old(successCalls)
      ensures loadingSlots == old(loadingSlots) && requests == old(requests)
      ensures outcome.Ok? ==> !SubmitEnabled(formData, loading)
      ensures outcome.Err? ==> (SubmitEnabled(formData, loading) <==> SubmitEnabled(old(formData), false))
    {
      match outcome {
        case Ok(_) =>
          var previous := formData.date;
          formData := EmptyFields;
          availableSlots := [];
          successCalls := successCalls + 1;
          if previous != "" {
            DateEffect();
          }
        case Err(message) =>
          error := ErrorText(message, BookingFailed);
      }
      loading := false;
    }
  }

  /** A student books "09:00" for a date: one POST with those fields and empty notes,
      then an empty form and a single `onSuccess`. */
  method BookingScenario(date: string, slots: seq<Slot>, created: Appointment)
    requires date != ""
  {
    var form := new BookingForm();
    form.ChangeDate(date);
    assert form.requests == [GetAvailability(date)] && form.loadingSlots && form.formData.time == "";
    form.SlotsFetched(Ok(slots));
    form.ChangeTime("09:00");
    form.ChangePurpose("Discuss grade");
    assert SubmitEnabled(form.formData, form.loading);
    form.StartSubmit();
    assert !SubmitEnabled(form.formData, form.loading);
    form.SubmitFinished(Ok(created));
    assert form.requests[1] == CreateAppointment(AppointmentFields(date, "09:00", "Discuss grade", ""));
    assert form.formData == EmptyFields && form.successCalls == 1 && !form.loading;
  }

  /** A new date keeps the previous date's slots while its own fetch runs; when that
      fetch fails they are still there afterwards, selectable, and counted by the hint. */
  method StaleSlotsScenario(d1: string, d2: string, s1: seq<Slot>, failure: Option<string>)
    requires d1 != "" && d2 != "" && d1 != d2
  {
    var form := new BookingForm();
    form.ChangeDate(d1);
    form.SlotsFetched(Ok(s1));
    form.ChangeDate(d2);
    assert form.availableSlots == s1 && TimeSelectDisabled(form.formData.date, form.loadingSlots);
    form.SlotsFetched(Err(failure));
    assert form.formData.date == d2 && form.availableSlots == s1 && form.error == SlotsFailed;
    assert !TimeSelectDisabled(form.formData.date, form.loadingSlots);
    assert ShowsAvailableHint(form.formData.date, form.availableSlots) <==> AvailableCount(s1) > 0;
  }
}
