/**
  `PromotionViewModel`: the cached promotion list, newest first, and its
  flags. Every API call is a parameter carrying the outcome it produced.
*/
module PromotionViewModels {
  import opened Wrappers
  import opened Uuids
  import opened PromotionModel
  import opened ApiClient
  import opened ListOps

  /** `{ $0.id == id }` */
  function HasId(id: Uuid): Promotion -> bool {
    (p: Promotion) => p.id == id
  }

  class PromotionViewModel {
    var promotions: seq<Promotion>
    var isLoading: bool
    var errorMessage: Option<string>
    var showError: bool

    constructor ()
      ensures promotions == [] && !isLoading && errorMessage.None? && !showError
    {
      promotions := [];
      isLoading := false;
      errorMessage := None;
      showError := false;
    }

    /** `loadPromotions()`: the list is replaced on success and kept on failure; loading ends either way. */
    method LoadPromotions(outcome: Result<seq<Promotion>, Thrown>)
      modifies this
      ensures !isLoading
      ensures outcome.Success? ==> promotions == outcome.value && errorMessage.None? && showError == old(showError)
      ensures outcome.Failure? ==>
        && promotions == old(promotions)
        && errorMessage == Some(LocalizedDescription(outcome.error)) && showError
    {
      isLoading := true;
      errorMessage := None;
      if outcome.Success? {
        promotions := outcome.value;
      } else {
        errorMessage := Some(LocalizedDescription(outcome.error));
        showError := true;
      }
      isLoading := false;
    }

    /** Records a failed call the way every method does. */
    method Fail(error: Thrown)
      modifies this
      ensures promotions == old(promotions) && isLoading == old(isLoading)
      ensures errorMessage == Some(LocalizedDescription(error)) && showError
    {
      errorMessage := Some(LocalizedDescription(error));
      showError := true;
    }

    /** `createPromotion(_:)`: the promotion the server returned goes first; loading ends either way. */
    method CreatePromotion(outcome: Result<Promotion, Thrown>) returns (ok: bool)
      modifies this
      ensures ok <==> outcome.Success?
      ensures !isLoading
      ensures ok ==> (promotions == [outcome.value] + old(promotions)
        && errorMessage == old(errorMessage) && showError == old(showError))
      ensures !ok ==> (promotions == old(promotions)
        && errorMessage == Some(LocalizedDescription(outcome.error)) && showError)
    {
      isLoading := true;
      if outcome.Failure? {
        Fail(outcome.error);
        isLoading := false;
        return false;
      }
      promotions := [outcome.value] + promotions;
      isLoading := false;
      return true;
    }

    /**
      `updatePromotion(id:_:)`: the first row with the id takes the server's
      copy; no row, no change, still true. Loading ends either way.
    */
    method UpdatePromotion(id: Uuid, outcome: Result<Promotion, Thrown>) returns (ok: bool)
      modifies this
      ensures ok <==> outcome.Success?
      ensures !isLoading
      ensures ok ==> (promotions == ReplaceFirst(old(promotions), HasId(id), outcome.value)
        && errorMessage == old(errorMessage) && showError == old(showError))
      ensures !ok ==> (promotions == old(promotions)
        && errorMessage == Some(LocalizedDescription(outcome.error)) && showError)
    {
      isLoading := true;
      if outcome.Failure? {
        Fail(outcome.error);
        isLoading := false;
        return false;
      }
      var index := FirstIndex(promotions, HasId(id));
      if index.Some? {
        promotions := promotions[index.value := outcome.value];
      }
      isLoading := false;
      return true;
    }

    /** `deletePromotion(id:)`: every row with the id goes; the loading flag is not touched. */
    method DeletePromotion(id: Uuid, outcome: Result<(), Thrown>) returns (ok: bool)
      modifies this
      ensures ok <==> outcome.Success?
      ensures isLoading == old(isLoading)
      ensures ok ==> (promotions == RemoveAll(old(promotions), HasId(id))
        && errorMessage == old(errorMessage) && showError == old(showError))
      ensures !ok ==> (promotions == old(promotions)
        && errorMessage == Some(LocalizedDescription(outcome.error)) && showError)
    {
      if outcome.Failure? {
        Fail(outcome.error);
        return false;
      }
      promotions := RemoveAll(promotions, HasId(id));
      return true;
    }
  }
}
