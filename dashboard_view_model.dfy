/**
  `DashboardViewModel`: the last dashboard payload and the figures the
  dashboard shows, each defaulting when no payload has arrived.
*/
module DashboardViewModels {
  import opened Wrappers
  import opened Formatting
  import opened AppointmentModel
  import opened DashboardModel
  import opened ApiClient

  class DashboardViewModel {
    var data: Option<DashboardData>
    var isLoading: bool
    var errorMessage: Option<string>
    var showError: bool

    constructor ()
      ensures data.None? && !isLoading && errorMessage.None? && !showError
    {
      data := None;
      isLoading := false;
      errorMessage := None;
      showError := false;
    }

    /** `nextAppointments`: the payload's list, or none without a payload or without a list. */
    function NextAppointments(): (r: seq<Appointment>)
      reads this
      ensures data.None? ==> r == []
      ensures data.Some? && data.value.nextAppointments.Some? ==> r == data.value.nextAppointments.value
      ensures data.Some? && data.value.nextAppointments.None? ==> r == []
    {
      if data.Some? then data.value.nextAppointments.GetOr([]) else []
    }

    /** `totalClients`: the payload's figure, or 0 without a payload. */
    function TotalClients(): (r: int)
      reads this
    {
      match data
      case None => 0
      case Some(d) => d.totalClients
    }

    /** `newClients`: the payload's figure, or 0 without a payload. */
    function NewClients(): (r: int)
      reads this
    {
      match data
      case None => 0
      case Some(d) => d.newClientsThisMonth
    }

    /** `monthlyEarnings`: the payload's cents in euros, "€0.00" without a payload. */
    function MonthlyEarnings(): (r: string)
      reads this
      ensures ParseEuros(r) == Some(if data.Some? then data.value.monthlyEarnings else 0)
      ensures data.None? ==> r == "€0.00"
    {
      var cents := if data.Some? then data.value.monthlyEarnings else 0;
      ParseEurosOfEuros(cents);
      assert Text.Pad2(0) == "00";
      Euros(cents)
    }

    /** `loadData()`: the payload is replaced on success and kept on failure; loading ends either way. */
    method LoadData(outcome: Result<DashboardData, Thrown>)
      modifies this
      ensures !isLoading
      ensures outcome.Success? ==> data == Some(outcome.value) && errorMessage.None? && showError == old(showError)
      ensures outcome.Failure? ==>
        && data == old(data)
        && errorMessage == Some(LocalizedDescription(outcome.error)) && showError
    {
      isLoading := true;
      errorMessage := None;
      if outcome.Success? {
        data := Some(outcome.value);
      } else {
        errorMessage := Some(LocalizedDescription(outcome.error));
        showError := true;
      }
      isLoading := false;
    }
  }

  /** A decoded payload never leaves the dashboard's appointment list to its fallback: it is the decoded list. */
  lemma DecodedPayloadShown(
    vm: DashboardViewModel, next: Field<seq<Appointment>>, total: Field<int>, newClients: Field<int>, earnings: Field<int>)
    requires DecodeDashboard(next, total, newClients, earnings).Success?
    requires vm.data == Some(DecodeDashboard(next, total, newClients, earnings).value)
    ensures vm.NextAppointments() == Or(next, [])
    ensures vm.TotalClients() == Or(total, 0) && vm.NewClients() == Or(newClients, 0)
  {
  }

  /**
    The client count the dashboard shows is the decoded `totalClients`: 0
    without a payload, and 0 also when the server left the field out or sent
    null.
  */
  lemma TotalClientsShown(
    vm: DashboardViewModel, next: Field<seq<Appointment>>, total: Field<int>, newClients: Field<int>, earnings: Field<int>)
    requires vm.data.None? || (DecodeDashboard(next, total, newClients, earnings).Success?
      && vm.data == Some(DecodeDashboard(next, total, newClients, earnings).value))
    ensures vm.data.None? ==> vm.TotalClients() == 0
    ensures vm.data.Some? && total.Value? ==> vm.TotalClients() == total.value
    ensures vm.data.Some? && (total.Absent? || total.Null?) ==> vm.TotalClients() == 0
  {
  }

  /**
    The new-clients count the dashboard shows is the decoded
    `newClientsThisMonth`: 0 without a payload, and 0 also when the server
    left the field out or sent null.
  */
  lemma NewClientsShown(
    vm: DashboardViewModel, next: Field<seq<Appointment>>, total: Field<int>, newClients: Field<int>, earnings: Field<int>)
    requires vm.data.None? || (DecodeDashboard(next, total, newClients, earnings).Success?
      && vm.data == Some(DecodeDashboard(next, total, newClients, earnings).value))
    ensures vm.data.None? ==> vm.NewClients() == 0
    ensures vm.data.Some? && newClients.Value? ==> vm.NewClients() == newClients.value
    ensures vm.data.Some? && (newClients.Absent? || newClients.Null?) ==> vm.NewClients() == 0
  {
  }
}
