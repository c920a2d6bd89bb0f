/**
  `AppointmentViewModel`: the cached appointments of the selected day, kept
  in start-time order after a creation. Every API call is a parameter
  carrying the outcome it produced; the calendar sync that follows a change
  does not touch the list.
*/
module AppointmentViewModels {
  import opened Wrappers
  import opened Text
  import opened Uuids
  import opened ClientModel
  import opened ServiceModel
  import opened AppointmentModel
  import opened ApiClient
  import opened ListOps
  import opened Sorting

  /** `{ $0.id == id }` */
  function HasId(id: Uuid): Appointment -> bool {
    (a: Appointment) => a.id == Some(id)
  }

  /** Start-time order is one `sort(by:)` accepts. */
  lemma StartTimeOrder(less: (Appointment, Appointment) -> bool)
    requires forall a, b :: less(a, b) == StrLess(a.startTime, b.startTime)
    ensures StrictWeakOrder(less)
  {
    forall a: Appointment
      ensures !less(a, a)
    {
      StrLessIrreflexive(a.startTime);
    }
    forall a: Appointment, b: Appointment, c: Appointment | less(a, b) && less(b, c)
      ensures less(a, c)
    {
      StrLessTransitive(a.startTime, b.startTime, c.startTime);
    }
    forall a: Appointment, b: Appointment, c: Appointment | !less(a, b) && !less(b, c)
      ensures !less(a, c)
    {
      StrLessNegativeTransitive(a.startTime, b.startTime, c.startTime);
    }
  }

  /** `{ $0.startTime < $1.startTime }` */
  function ByStartTime(): (less: (Appointment, Appointment) -> bool)
    ensures StrictWeakOrder(less)
    ensures forall a, b :: less(a, b) == StrLess(a.startTime, b.startTime)
  {
    var less := (a: Appointment, b: Appointment) => StrLess(a.startTime, b.startTime);
    StartTimeOrder(less);
    less
  }

  /** `services?.compactMap { $0.id } ?? []`: the ids the services have, in order. */
  function ServiceIds(services: Option<seq<Service>>): (r: seq<Uuid>)
    ensures services.None? ==> r == []
    ensures services.Some? ==> |r| <= |services.value|
    ensures services.Some? ==> forall id :: id in r <==> Some(id) in IdsOf(services.value)
    ensures services.Some? ==> forall id :: multiset(r)[id] == multiset(IdsOf(services.value))[Some(id)]
  {
    if services.None? then []
    else
      CompactIdsCounts(services.value);
      CompactIds(services.value)
  }

  function IdsOf(services: seq<Service>): seq<Option<Uuid>> {
    seq(|services|, i requires 0 <= i < |services| => services[i].id)
  }

  /**
    `compactMap(\.id)`: the non-nil ids; `CompactIdsCounts` says each comes
    out as often as the services carry it, `CompactIdsAppend` and
    `CompactIdsOne` fix the order.
  */
  function CompactIds(services: seq<Service>): (r: seq<Uuid>)
    ensures |r| <= |services|
    ensures forall id :: id in r <==> Some(id) in IdsOf(services)
  {
    if services == [] then []
    else
      var rest := CompactIds(services[1..]);
      assert IdsOf(services) == [services[0].id] + IdsOf(services[1..]);
      (if services[0].id.Some? then [services[0].id.value] else []) + rest
  }

  /** Every id comes out as often as the services carry it. */
  lemma {:induction false} CompactIdsCounts(services: seq<Service>)
    ensures forall id :: multiset(CompactIds(services))[id] == multiset(IdsOf(services))[Some(id)]
  {
    if services != [] {
      assert IdsOf(services) == [services[0].id] + IdsOf(services[1..]);
      CompactIdsCounts(services[1..]);
    }
  }

  /** One service contributes its id, or nothing when it has none. */
  lemma CompactIdsOne(s: Service)
    ensures CompactIds([s]) == if s.id.Some? then [s.id.value] else []
  {
    assert [s][1..] == [];
  }

  /** `compactMap` works piece by piece, so the ids come out in the services' order. */
  lemma {:induction false} CompactIdsAppend(a: seq<Service>, b: seq<Service>)
    ensures CompactIds(a + b) == CompactIds(a) + CompactIds(b)
  {
    if a == [] {
      assert a + b == b;
    } else {
      assert (a + b)[1..] == a[1..] + b;
      CompactIdsAppend(a[1..], b);
    }
  }

  /**
    The request `cancelAppointment(id:)` sends for `current`: its date, start
    time, client and notes, the ids of its services, and the cancelled status.
  */
  function CancelRequest(current: Appointment): (r: UpdateAppointmentRequest)
    ensures r.date == current.date && r.startTime == current.startTime
    ensures r.clientId == current.clientId && r.notes == current.notes
    ensures r.serviceIds == ServiceIds(current.services)
    ensures r.status == Cancelled
  {
    UpdateAppointmentRequest(current.date, current.startTime, current.clientId,
      ServiceIds(current.services), current.notes, Cancelled)
  }

  class AppointmentViewModel {
    var appointments: seq<Appointment>
    var isLoading: bool
    var errorMessage: Option<string>
    var showError: bool

    constructor ()
      ensures appointments == [] && !isLoading && errorMessage.None? && !showError
    {
      appointments := [];
      isLoading := false;
      errorMessage := None;
      showError := false;
    }

    /** `loadAppointments()`: the list is replaced on success and kept on failure; loading ends either way. */
    method LoadAppointments(outcome: Result<seq<Appointment>, Thrown>)
      modifies this
      ensures !isLoading
      ensures outcome.Success? ==> appointments == outcome.value && errorMessage.None? && showError == old(showError)
      ensures outcome.Failure? ==>
        && appointments == old(appointments)
        && errorMessage == Some(LocalizedDescription(outcome.error)) && showError
    {
      isLoading := true;
      errorMessage := None;
      if outcome.Success? {
        appointments := outcome.value;
      } else {
        errorMessage := Some(LocalizedDescription(outcome.error));
        showError := true;
      }
      isLoading := false;
    }

    /** Records a failed call the way every method does. */
    method Fail(error: Thrown)
      modifies this
      ensures appointments == old(appointments) && isLoading == old(isLoading)
      ensures errorMessage == Some(LocalizedDescription(error)) && showError
    {
      errorMessage := Some(LocalizedDescription(error));
      showError := true;
    }

    /**
      `createAppointment(request:)`: the created appointment, with the client
      the lookup found or none when the lookup failed, joins the list, which
      is then put in start-time order.
    */
    method CreateAppointment(outcome: Result<Appointment, Thrown>, clientLookup: Result<Client, Thrown>)
      returns (ok: bool)
      modifies this
      ensures ok <==> outcome.Success?
      ensures isLoading == old(isLoading)
      ensures ok ==>
        var added := outcome.value.(client := clientLookup.ToOption());
        && appointments == SortBy(old(appointments) + [added], ByStartTime())
        && SortedBy(appointments, ByStartTime())
        && multiset(appointments) == multiset(old(appointments)) + multiset{added}
        && errorMessage == old(errorMessage) && showError == old(showError)
      ensures !ok ==> (appointments == old(appointments)
        && errorMessage == Some(LocalizedDescription(outcome.error)) && showError)
    {
      if outcome.Failure? {
        Fail(outcome.error);
        return false;
      }
      var withClient := outcome.value.(client := clientLookup.ToOption());
      appointments := SortBy(appointments + [withClient], ByStartTime());
      return true;
    }

    /**
      `updateAppointment(id:request:)`: the first row with the id takes the
      server's copy, which keeps the client the row already had; no row, no
      change, still true.
    */
    method UpdateAppointment(id: Uuid, outcome: Result<Appointment, Thrown>) returns (ok: bool)
      modifies this
      ensures ok <==> outcome.Success?
      ensures isLoading == old(isLoading)
      ensures ok ==> errorMessage == old(errorMessage) && showError == old(showError)
      ensures ok && FirstIndex(old(appointments), HasId(id)).None? ==> appointments == old(appointments)
      ensures ok && FirstIndex(old(appointments), HasId(id)).Some? ==>
        var k := FirstIndex(old(appointments), HasId(id)).value;
        appointments == old(appointments)[k := outcome.value.(client := old(appointments)[k].client)]
      ensures !ok ==> (appointments == old(appointments)
        && errorMessage == Some(LocalizedDescription(outcome.error)) && showError)
    {
      if outcome.Failure? {
        Fail(outcome.error);
        return false;
      }
      var index := FirstIndex(appointments, HasId(id));
      if index.Some? {
        var withClient := outcome.value.(client := appointments[index.value].client);
        appointments := appointments[index.value := withClient];
      }
      return true;
    }

    /** `deleteAppointment(id:)`: every row with the id goes, the others stay in order. */
    method DeleteAppointment(id: Uuid, outcome: Result<(), Thrown>) returns (ok: bool)
      modifies this
      ensures ok <==> outcome.Success?
      ensures isLoading == old(isLoading)
      ensures ok ==> (appointments == RemoveAll(old(appointments), HasId(id))
        && errorMessage == old(errorMessage) && showError == old(showError))
      ensures !ok ==> (appointments == old(appointments)
        && errorMessage == Some(LocalizedDescription(outcome.error)) && showError)
    {
      if outcome.Failure? {
        Fail(outcome.error);
        return false;
      }
      appointments := RemoveAll(appointments, HasId(id));
      return true;
    }

    /**
      `cancelAppointment(id:)`: without a row with the id nothing is sent and
      the answer is false; otherwise the row's cancel request is sent as an
      update, with `outcome` the update's result.
    */
    method CancelAppointment(id: Uuid, outcome: Result<Appointment, Thrown>)
      returns (ok: bool, sent: Option<UpdateAppointmentRequest>)
      modifies this
      ensures FirstIndex(old(appointments), HasId(id)).None? ==>
        && !ok && sent.None? && appointments == old(appointments)
        && errorMessage == old(errorMessage) && showError == old(showError)
      ensures FirstIndex(old(appointments), HasId(id)).Some? ==>
        var k := FirstIndex(old(appointments), HasId(id)).value;
        && sent == Some(CancelRequest(old(appointments)[k]))
        && (ok <==> outcome.Success?)
        && (ok ==> appointments == old(appointments)[k := outcome.value.(client := old(appointments)[k].client)])
        && (ok ==> errorMessage == old(errorMessage) && showError == old(showError))
        && (!ok ==> (appointments == old(appointments)
          && errorMessage == Some(LocalizedDescription(outcome.error)) && showError))
      ensures isLoading == old(isLoading)
    {
      var index := FirstIndex(appointments, HasId(id));
      if index.None? {
        return false, None;
      }
      var current := appointments[index.value];
      sent := Some(CancelRequest(current));
      ok := UpdateAppointment(id, outcome);
    }
  }
}
