/**
  `AppointmentFormView`: the form that creates or edits an appointment. It
  holds the picked client, the set of picked service ids, the notes and, when
  editing, the status; it loads the client and service lists, shows the price
  and duration totals of the selection, and saves through the appointment
  view model.

  The picked day and time are `Date`s in the source; here each is the text
  the form's formatters write for it ("yyyy-MM-dd" and "HH:mm"), which is
  all `save()` sends.
*/
module AppointmentFormView {
  import opened Wrappers
  import opened Uuids
  import opened ClientModel
  import opened ServiceModel
  import opened AppointmentModel
  import opened ApiClient
  import opened ListOps
  import ServiceViewModels
  import AppointmentViewModels
  import Sorting

  // ---------------------------------------------------------------- selection

  /** The tap on a service row: its id leaves the set if present and joins it if absent; a nil id does nothing. */
  function Toggled(selection: set<Uuid>, id: Option<Uuid>): (r: set<Uuid>)
    ensures id.None? ==> r == selection
    ensures id.Some? ==> (id.value in r <==> id.value !in selection)
    ensures id.Some? ==> r - {id.value} == selection - {id.value}
  {
    if id.None? then selection
    else if id.value in selection then selection - {id.value}
    else selection + {id.value}
  }

  /** Tapping the same row twice restores the selection. */
  lemma ToggledTwice(selection: set<Uuid>, id: Option<Uuid>)
    ensures Toggled(Toggled(selection, id), id) == selection
  {
    if id.Some? {
      var once := Toggled(selection, id);
      var twice := Toggled(once, id);
      assert id.value in twice <==> id.value in selection;
      assert twice - {id.value} == selection - {id.value};
    }
  }

  /** Whatever is tapped, every id in the selection is the id of some service tapped, or was there before. */
  lemma {:induction false} TappedIdsOnly(selection: set<Uuid>, taps: seq<Service>)
    ensures forall id :: id in TapAll(selection, taps) ==> id in selection || Some(id) in IdsOfAll(taps)
  {
    if taps != [] {
      TappedIdsOnly(selection, taps[..|taps| - 1]);
    }
  }

  /** Tapping the rows of `taps` one after the other. */
  function TapAll(selection: set<Uuid>, taps: seq<Service>): set<Uuid> {
    if taps == [] then selection else Toggled(TapAll(selection, taps[..|taps| - 1]), taps[|taps| - 1].id)
  }

  function IdsOfAll(services: seq<Service>): set<Option<Uuid>> {
    set s | s in services :: s.id
  }

  /** `Set(services.compactMap(\.id))`: the selection an edited appointment starts from. */
  function SelectionOf(services: seq<Service>): (r: set<Uuid>)
    ensures forall id :: id in r <==> Some(id) in AppointmentViewModels.IdsOf(services)
  {
    var ids := AppointmentViewModels.CompactIds(services);
    set id | id in ids
  }

  /** `isValid`: a client is picked and so is at least one service. */
  predicate IsValid(selectedClientId: Option<Uuid>, selectedServiceIds: set<Uuid>) {
    selectedClientId.Some? && selectedServiceIds != {}
  }

  /**
    The picker is replaced by a locked row when a client was preselected and
    the list holds a client with that id; the row shows the first such client.
  */
  function LockedClient(preselected: Option<Uuid>, clients: seq<Client>): (r: Option<Client>)
    ensures r.Some? ==> preselected.Some? && r.value in clients && r.value.id == preselected
    ensures r.None? <==> preselected.None? || forall i :: 0 <= i < |clients| ==> clients[i].id != preselected
  {
    if clients == [] || preselected.None? then None
    else match FirstIndex(clients, (c: Client) => c.id == preselected)
      case Some(i) => Some(clients[i])
      case None => None
  }

  // ---------------------------------------------------------------- totals

  /** `{ $0.id != nil && selectedServiceIds.contains($0.id!) }` */
  function IsSelected(selection: set<Uuid>): Service -> bool {
    (s: Service) => s.id.Some? && s.id.value in selection
  }

  /** `.reduce(0) { $0 + field($1) }` */
  function Sum(xs: seq<Service>, field: Service -> int): int {
    if xs == [] then 0 else field(xs[0]) + Sum(xs[1..], field)
  }

  /** The total of `field` (price or duration) over every listed service whose id is selected, active or not. */
  function Total(services: seq<Service>, selection: set<Uuid>, field: Service -> int): int {
    Sum(Filter(services, IsSelected(selection)), field)
  }

  function Price(): Service -> int {
    (s: Service) => s.price
  }

  function Duration(): Service -> int {
    (s: Service) => s.duration
  }

  lemma {:induction false} SumAppend(xs: seq<Service>, ys: seq<Service>, field: Service -> int)
    ensures Sum(xs + ys, field) == Sum(xs, field) + Sum(ys, field)
  {
    if xs == [] {
      assert xs + ys == ys;
    } else {
      assert (xs + ys)[1..] == xs[1..] + ys;
      SumAppend(xs[1..], ys, field);
    }
  }

  /** The total over a list is the first service's share plus the total over the rest. */
  lemma TotalCons(services: seq<Service>, selection: set<Uuid>, field: Service -> int)
    requires services != []
    ensures Total(services, selection, field)
      == (if IsSelected(selection)(services[0]) then field(services[0]) else 0) + Total(services[1..], selection, field)
  {
    var head := if IsSelected(selection)(services[0]) then [services[0]] else [];
    SumAppend(head, Filter(services[1..], IsSelected(selection)), field);
    if head != [] {
      assert head[1..] == [];
    }
  }

  /** With nothing selected both totals are zero. */
  lemma {:induction false} TotalOfNothing(services: seq<Service>, field: Service -> int)
    ensures Total(services, {}, field) == 0
  {
    if services != [] {
      TotalCons(services, {}, field);
      TotalOfNothing(services[1..], field);
    }
  }

  /** Selecting one more id adds the price (or duration) of every listed service with that id. */
  lemma {:induction false} TotalSelectOne(services: seq<Service>, selection: set<Uuid>, id: Uuid, field: Service -> int)
    requires id !in selection
    ensures Total(services, selection + {id}, field)
      == Total(services, selection, field) + Sum(Filter(services, ServiceViewModels.HasId(id)), field)
  {
    if services != [] {
      TotalSelectOne(services[1..], selection, id, field);
      TotalCons(services, selection + {id}, field);
      TotalCons(services, selection, field);
      var head := if ServiceViewModels.HasId(id)(services[0]) then [services[0]] else [];
      SumAppend(head, Filter(services[1..], ServiceViewModels.HasId(id)), field);
      if head != [] {
        assert head[1..] == [];
      }
    }
  }

  /** A tap moves each total by the share of the services with the tapped id, up or down. */
  lemma TotalAfterToggle(services: seq<Service>, selection: set<Uuid>, id: Uuid, field: Service -> int)
    ensures var share := Sum(Filter(services, ServiceViewModels.HasId(id)), field);
      Total(services, Toggled(selection, Some(id)), field)
        == Total(services, selection, field) + (if id in selection then -share else share)
  {
    if id in selection {
      TotalSelectOne(services, selection - {id}, id, field);
      assert selection - {id} + {id} == selection;
    } else {
      TotalSelectOne(services, selection, id, field);
    }
  }

  // ---------------------------------------------------------------- save

  /** What `save()` hands to the view model: an update of the edited appointment or a creation. */
  datatype SaveRequest =
    | Update(id: Uuid, update: UpdateAppointmentRequest)
    | Create(create: CreateAppointmentRequest)

  /** `notes.isEmpty ? nil : notes`: the notes the request carries, from which `?? ""` gives the form's notes back. */
  function NotesField(notes: string): (r: Option<string>)
    ensures r.None? <==> notes == ""
    ensures r.GetOr("") == notes
  {
    if notes == [] then None else Some(notes)
  }

  /** `Array(selectedServiceIds)`: some order of the selected ids, each once. */
  ghost predicate Enumerates(order: seq<Uuid>, selection: set<Uuid>) {
    (forall id :: id in order <==> id in selection)
    && forall i, j :: 0 <= i < j < |order| ==> order[i] != order[j]
  }

  /**
    The request `save()` builds from the form, nil when no client is picked.
    It edits when the form was opened on an appointment that has an id, and
    only then carries the status.
  */
  function RequestFor(
    appointment: Option<Appointment>, selectedClientId: Option<Uuid>, date: string, startTime: string,
    order: seq<Uuid>, notes: string, status: AppointmentStatus): (r: Option<SaveRequest>)
    ensures r.None? <==> selectedClientId.None?
    ensures r.Some? ==> (r.value.Update? <==> appointment.Some? && appointment.value.id.Some?)
    ensures r.Some? && r.value.Update? ==>
      && r.value.id == appointment.value.id.value
      && r.value.update == UpdateAppointmentRequest(date, startTime, selectedClientId.value, order, NotesField(notes), status)
    ensures r.Some? && r.value.Create? ==>
      r.value.create == CreateAppointmentRequest(date, startTime, selectedClientId.value, order, NotesField(notes))
  {
    match selectedClientId
    case None => None
    case Some(clientId) =>
      if appointment.Some? && appointment.value.id.Some? then
        Some(Update(appointment.value.id.value,
          UpdateAppointmentRequest(date, startTime, clientId, order, NotesField(notes), status)))
      else
        Some(Create(CreateAppointmentRequest(date, startTime, clientId, order, NotesField(notes))))
  }

  /** A valid form always sends a request, and the request lists exactly the selected services, each once. */
  lemma ValidFormSends(
    appointment: Option<Appointment>, selectedClientId: Option<Uuid>, date: string, startTime: string,
    order: seq<Uuid>, notes: string, status: AppointmentStatus, selection: set<Uuid>)
    requires IsValid(selectedClientId, selection) && Enumerates(order, selection)
    ensures var r := RequestFor(appointment, selectedClientId, date, startTime, order, notes, status);
      && r.Some?
      && var ids := if r.value.Update? then r.value.update.serviceIds else r.value.create.serviceIds;
      && (set id | id in ids) == selection
      && |ids| == |selection|
  {
    var ids := order;
    var asSet := set id | id in ids;
    assert asSet == selection;
    DistinctCardinality(ids);
  }

  /** A list without repeats has as many elements as its set. */
  lemma {:induction false} DistinctCardinality(xs: seq<Uuid>)
    requires forall i, j :: 0 <= i < j < |xs| ==> xs[i] != xs[j]
    ensures |set x | x in xs| == |xs|
  {
    if xs != [] {
      var rest := xs[..|xs| - 1];
      var last := xs[|xs| - 1];
      DistinctCardinality(rest);
      assert (set x | x in xs) == (set x | x in rest) + {last};
      assert last !in (set x | x in rest);
    }
  }

  // ---------------------------------------------------------------- the form

  class AppointmentForm {
    const viewModel: AppointmentViewModels.AppointmentViewModel
    const appointment: Option<Appointment>
    const preselectedClientId: Option<Uuid>
    const preselectedDate: Option<string>

    var date: string
    var startTime: string
    var selectedClientId: Option<Uuid>
    var selectedServiceIds: set<Uuid>
    var notes: string
    var status: AppointmentStatus
    var isSaving: bool
    var clients: seq<Client>
    var services: seq<Service>
    var isLoadingData: bool

    /** A fresh form: today's date and the current time, nothing picked, data still to load. */
    constructor (
      viewModel: AppointmentViewModels.AppointmentViewModel, appointment: Option<Appointment>,
      preselectedClientId: Option<Uuid>, preselectedDate: Option<string>, today: string, now: string)
      ensures this.viewModel == viewModel && this.appointment == appointment
      ensures this.preselectedClientId == preselectedClientId && this.preselectedDate == preselectedDate
      ensures date == today && startTime == now
      ensures selectedClientId.None? && selectedServiceIds == {} && notes == "" && status == Scheduled
      ensures !isSaving && clients == [] && services == [] && isLoadingData
    {
      this.viewModel := viewModel;
      this.appointment := appointment;
      this.preselectedClientId := preselectedClientId;
      this.preselectedDate := preselectedDate;
      date := today;
      startTime := now;
      selectedClientId := None;
      selectedServiceIds := {};
      notes := "";
      status := Scheduled;
      isSaving := false;
      clients := [];
      services := [];
      isLoadingData := true;
    }

    /** The rows of the services section: the active services, in list order. */
    function Rows(): (r: seq<Service>)
      reads this
      ensures forall i :: 0 <= i < |r| ==> r[i].active && r[i] in services
    {
      Filter(services, ServiceViewModels.IsActive())
    }

    /** The button of row `k`: its service's id is toggled in the selection; nothing else changes. */
    method TapRow(k: nat)
      requires k < |Rows()|
      modifies this
      ensures selectedServiceIds == Toggled(old(selectedServiceIds), old(Rows())[k].id)
      ensures selectedClientId == old(selectedClientId) && services == old(services) && clients == old(clients)
      ensures notes == old(notes) && status == old(status) && date == old(date) && startTime == old(startTime)
      ensures isSaving == old(isSaving) && isLoadingData == old(isLoadingData)
    {
      var service := Rows()[k];
      if service.id.Some? {
        var id := service.id.value;
        if id in selectedServiceIds {
          selectedServiceIds := selectedServiceIds - {id};
        } else {
          selectedServiceIds := selectedServiceIds + {id};
        }
      }
    }

    /** The two awaited fetches of `loadFormData()`: both requests start together, and a throw from the clients call discards the services result. */
    method LoadLists(clientsOutcome: Result<seq<Client>, Thrown>, servicesOutcome: Result<seq<Service>, Thrown>)
      modifies this
      ensures clients == if clientsOutcome.Success? then clientsOutcome.value else old(clients)
      ensures services == if clientsOutcome.Success? && servicesOutcome.Success? then servicesOutcome.value else old(services)
      ensures date == old(date) && startTime == old(startTime) && selectedClientId == old(selectedClientId)
      ensures selectedServiceIds == old(selectedServiceIds) && notes == old(notes) && status == old(status)
      ensures isSaving == old(isSaving) && isLoadingData == old(isLoadingData)
    {
      if clientsOutcome.Success? {
        clients := clientsOutcome.value;
        if servicesOutcome.Success? {
          services := servicesOutcome.value;
        }
      }
    }

    /**
      The edit half of `loadFormData()`: the form takes the appointment's
      client, non-nil service ids, notes and status (scheduled when nil), and
      its day and time when the formatters read them (`dateRead`, `timeRead`).
    */
    method Fill(a: Appointment, dateRead: Option<string>, timeRead: Option<string>)
      modifies this
      ensures date == dateRead.GetOr(old(date)) && startTime == timeRead.GetOr(old(startTime))
      ensures selectedClientId == Some(a.clientId)
      ensures selectedServiceIds == if a.services.Some? then SelectionOf(a.services.value) else old(selectedServiceIds)
      ensures notes == a.notes.GetOr("") && status == a.status.GetOr(Scheduled)
      ensures clients == old(clients) && services == old(services)
      ensures isSaving == old(isSaving) && isLoadingData == old(isLoadingData)
    {
      if dateRead.Some? {
        date := dateRead.value;
      }
      if timeRead.Some? {
        startTime := timeRead.value;
      }
      selectedClientId := Some(a.clientId);
      if a.services.Some? {
        selectedServiceIds := SelectionOf(a.services.value);
      }
      notes := a.notes.GetOr("");
      status := a.status.GetOr(Scheduled);
    }

    /** The new-appointment half of `loadFormData()`: a preselected client and day replace the defaults. */
    method ApplyPreselections()
      modifies this
      ensures date == preselectedDate.GetOr(old(date))
      ensures selectedClientId == if preselectedClientId.Some? then preselectedClientId else old(selectedClientId)
      ensures startTime == old(startTime) && selectedServiceIds == old(selectedServiceIds)
      ensures notes == old(notes) && status == old(status)
      ensures clients == old(clients) && services == old(services)
      ensures isSaving == old(isSaving) && isLoadingData == old(isLoadingData)
    {
      if preselectedClientId.Some? {
        selectedClientId := preselectedClientId;
      }
      if preselectedDate.Some? {
        date := preselectedDate.value;
      }
    }

    /** `loadFormData()`: the lists, then the edited appointment or the preselections; loading ends. */
    method LoadFormData(
      clientsOutcome: Result<seq<Client>, Thrown>, servicesOutcome: Result<seq<Service>, Thrown>,
      dateRead: Option<string>, timeRead: Option<string>)
      modifies this
      ensures !isLoadingData && isSaving == old(isSaving)
      ensures clients == if clientsOutcome.Success? then clientsOutcome.value else old(clients)
      ensures services == if clientsOutcome.Success? && servicesOutcome.Success? then servicesOutcome.value else old(services)
      ensures appointment.Some? ==>
        var a := appointment.value;
        && date == dateRead.GetOr(old(date)) && startTime == timeRead.GetOr(old(startTime))
        && selectedClientId == Some(a.clientId)
        && selectedServiceIds == (if a.services.Some? then SelectionOf(a.services.value) else old(selectedServiceIds))
        && notes == a.notes.GetOr("") && status == a.status.GetOr(Scheduled)
      ensures appointment.None? ==>
        && date == preselectedDate.GetOr(old(date)) && startTime == old(startTime)
        && selectedClientId == (if preselectedClientId.Some? then preselectedClientId else old(selectedClientId))
        && selectedServiceIds == old(selectedServiceIds) && notes == old(notes) && status == old(status)
    {
      isLoadingData := true;
      LoadLists(clientsOutcome, servicesOutcome);
      if appointment.Some? {
        Fill(appointment.value, dateRead, timeRead);
      } else {
        ApplyPreselections();
      }
      isLoadingData := false;
    }

    /**
      `save()`. Without a picked client nothing happens. Otherwise the
      request is built from the form, `order` being the order in which
      `Array(selectedServiceIds)` lists the set, and handed to the view
      model, with `outcome` the server's answer (and `clientLookup` the
      client fetch a creation makes); saving ends, and the form closes when
      the view model reports success.
    */
    method Save(order: seq<Uuid>, outcome: Result<Appointment, Thrown>, clientLookup: Result<Client, Thrown>)
      returns (sent: Option<SaveRequest>, dismissed: bool)
      requires Enumerates(order, selectedServiceIds)
      modifies this, viewModel
      ensures sent == RequestFor(appointment, old(selectedClientId), old(date), old(startTime), order, old(notes), old(status))
      ensures dismissed <==> sent.Some? && outcome.Success?
      ensures !isSaving || (sent.None? && isSaving == old(isSaving))
      ensures sent.None? ==> unchanged(viewModel)
      ensures sent.Some? && sent.value.Create? ==>
        viewModel.appointments == if outcome.Failure? then old(viewModel.appointments)
          else Sorting.SortBy(old(viewModel.appointments) + [outcome.value.(client := clientLookup.ToOption())],
            AppointmentViewModels.ByStartTime())
      ensures sent.Some? && sent.value.Update? ==>
        var k := FirstIndex(old(viewModel.appointments), AppointmentViewModels.HasId(sent.value.id));
        viewModel.appointments == if outcome.Failure? || k.None? then old(viewModel.appointments)
          else old(viewModel.appointments)[k.value := outcome.value.(client := old(viewModel.appointments)[k.value].client)]
      ensures selectedClientId == old(selectedClientId) && selectedServiceIds == old(selectedServiceIds)
      ensures notes == old(notes) && status == old(status) && date == old(date) && startTime == old(startTime)
      ensures clients == old(clients) && services == old(services) && isLoadingData == old(isLoadingData)
    {
      sent := RequestFor(appointment, selectedClientId, date, startTime, order, notes, status);
      if selectedClientId.None? {
        return None, false;
      }
      isSaving := true;
      var success: bool;
      if sent.value.Update? {
        success := viewModel.UpdateAppointment(sent.value.id, outcome);
      } else {
        success := viewModel.CreateAppointment(outcome, clientLookup);
      }
      isSaving := false;
      dismissed := success;
    }
  }
}
