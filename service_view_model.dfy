/**
  `ServiceViewModel`: the cached service list and its error flags. Every API
  call is a parameter carrying the outcome the call produced.
*/
module ServiceViewModels {
  import opened Wrappers
  import opened Uuids
  import opened ServiceModel
  import opened ApiClient
  import opened ListOps

  /** `{ $0.id == id }` */
  function HasId(id: Uuid): Service -> bool {
    (s: Service) => s.id == Some(id)
  }

  /** `{ $0.active }` */
  function IsActive(): Service -> bool {
    (s: Service) => s.active
  }

  /** `updated.active.toggle()` on a copy: only the active flag changes. */
  function Toggled(s: Service): (r: Service)
    ensures r.active == !s.active
    ensures r.(active := s.active) == s
  {
    s.(active := !s.active)
  }

  /** Toggling twice gives the service back. */
  lemma ToggledTwice(s: Service)
    ensures Toggled(Toggled(s)) == s
  {
  }

  class ServiceViewModel {
    var services: seq<Service>
    var isLoading: bool
    var errorMessage: Option<string>
    var showError: bool

    constructor ()
      ensures services == [] && !isLoading && errorMessage.None? && !showError
    {
      services := [];
      isLoading := false;
      errorMessage := None;
      showError := false;
    }

    /**
      `activeServices`: the active services in their order in the list; each
      active service occurs as often as in the list, an inactive one not at all.
    */
    function ActiveServices(): (r: seq<Service>)
      reads this
      ensures forall i :: 0 <= i < |r| ==> r[i].active
      ensures forall s :: multiset(r)[s] == if s.active then multiset(services)[s] else 0
    {
      var r := Filter(services, IsActive());
      forall s | true
        ensures multiset(r)[s] == if s.active then multiset(services)[s] else 0
      {
        FilterCounts(services, IsActive(), s);
      }
      r
    }

    /** `loadServices()`: the list is replaced on success and kept on failure; loading ends either way. */
    method LoadServices(outcome: Result<seq<Service>, Thrown>)
      modifies this
      ensures !isLoading
      ensures outcome.Success? ==> services == outcome.value && errorMessage.None? && showError == old(showError)
      ensures outcome.Failure? ==>
        && services == old(services)
        && errorMessage == Some(LocalizedDescription(outcome.error)) && showError
    {
      isLoading := true;
      errorMessage := None;
      if outcome.Success? {
        services := outcome.value;
      } else {
        errorMessage := Some(LocalizedDescription(outcome.error));
        showError := true;
      }
      isLoading := false;
    }

    /** Records a failed call the way every method does. */
    method Fail(error: Thrown)
      modifies this
      ensures services == old(services) && isLoading == old(isLoading)
      ensures errorMessage == Some(LocalizedDescription(error)) && showError
    {
      errorMessage := Some(LocalizedDescription(error));
      showError := true;
    }

    /** `createService(_:)`: the service the server returned goes at the end. */
    method CreateService(outcome: Result<Service, Thrown>) returns (ok: bool)
      modifies this
      ensures ok <==> outcome.Success?
      ensures isLoading == old(isLoading)
      ensures ok ==> (services == old(services) + [outcome.value]
        && errorMessage == old(errorMessage) && showError == old(showError))
      ensures !ok ==> (services == old(services)
        && errorMessage == Some(LocalizedDescription(outcome.error)) && showError)
    {
      if outcome.Failure? {
        Fail(outcome.error);
        return false;
      }
      services := services + [outcome.value];
      return true;
    }

    /** `updateService(id:_:)`: the first row with the id takes the server's copy; no row, no change, still true. */
    method UpdateService(id: Uuid, outcome: Result<Service, Thrown>) returns (ok: bool)
      modifies this
      ensures ok <==> outcome.Success?
      ensures isLoading == old(isLoading)
      ensures ok ==> (services == ReplaceFirst(old(services), HasId(id), outcome.value)
        && errorMessage == old(errorMessage) && showError == old(showError))
      ensures !ok ==> (services == old(services)
        && errorMessage == Some(LocalizedDescription(outcome.error)) && showError)
    {
      if outcome.Failure? {
        Fail(outcome.error);
        return false;
      }
      var index := FirstIndex(services, HasId(id));
      if index.Some? {
        services := services[index.value := outcome.value];
      }
      return true;
    }

    /**
      `toggleActive(service:)`: a service without id is left alone and nothing
      is sent; otherwise the copy with the flag flipped is sent as an update,
      and the row takes what the server returned, not the local copy.
    */
    method ToggleActive(service: Service, outcome: Result<Service, Thrown>) returns (sent: Option<Service>)
      modifies this
      ensures service.id.None? ==>
        sent.None? && services == old(services) && errorMessage == old(errorMessage) && showError == old(showError)
      ensures service.id.Some? ==> sent == Some(Toggled(service))
      ensures service.id.Some? && outcome.Success? ==>
        && services == ReplaceFirst(old(services), HasId(service.id.value), outcome.value)
        && errorMessage == old(errorMessage) && showError == old(showError)
      ensures service.id.Some? && outcome.Failure? ==>
        services == old(services) && errorMessage == Some(LocalizedDescription(outcome.error)) && showError
      ensures isLoading == old(isLoading)
    {
      if service.id.None? {
        return None;
      }
      var updated := Toggled(service);
      sent := Some(updated);
      var _ := UpdateService(service.id.value, outcome);
    }

    /** `deleteService(id:)`: every row with the id goes, the others stay in order. */
    method DeleteService(id: Uuid, outcome: Result<(), Thrown>) returns (ok: bool)
      modifies this
      ensures ok <==> outcome.Success?
      ensures isLoading == old(isLoading)
      ensures ok ==> (services == RemoveAll(old(services), HasId(id))
        && errorMessage == old(errorMessage) && showError == old(showError))
      ensures !ok ==> (services == old(services)
        && errorMessage == Some(LocalizedDescription(outcome.error)) && showError)
    {
      if outcome.Failure? {
        Fail(outcome.error);
        return false;
      }
      services := RemoveAll(services, HasId(id));
      return true;
    }
  }
}
