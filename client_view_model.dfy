/**
  `ClientViewModel`: the cached client list and its error flags. Every API
  call is a parameter carrying the outcome the call produced.
*/
module ClientViewModels {
  import opened Wrappers
  import opened Uuids
  import opened ClientModel
  import opened ApiClient
  import opened ListOps

  /** `{ $0.id == id }` */
  function HasId(id: Uuid): Client -> bool {
    (c: Client) => c.id == Some(id)
  }

  /** The offsets an `IndexSet` delivers for a list of `n` rows: ascending, distinct and in range. */
  predicate ValidOffsets(offsets: seq<int>, n: nat) {
    (forall i :: 0 <= i < |offsets| ==> 0 <= offsets[i] < n)
    && (forall i, j :: 0 <= i < j < |offsets| ==> offsets[i] < offsets[j])
  }

  // ---------------------------------------------------------------- deleteClient(at:) as written

  /** What the loop of `deleteClient(at:)` has done so far; `requested` lists the ids sent to the server. */
  datatype DeleteRun = DeleteRun(
    clients: seq<Client>,
    errorMessage: Option<string>,
    showError: bool,
    requested: seq<Uuid>,
    trapped: bool)

  /**
    One iteration as written: the offset indexes the list as it is NOW, after
    the earlier removals; an offset past its end traps, which ends the run.
  */
  function AsWrittenStep(r: DeleteRun, index: int, outcome: Result<(), Thrown>): DeleteRun {
    if r.trapped then r
    else if !(0 <= index < |r.clients|) then r.(trapped := true)
    else
      match r.clients[index].id
      case None => r
      case Some(id) =>
        if outcome.Success? then r.(clients := RemoveAt(r.clients, index), requested := r.requested + [id])
        else r.(errorMessage := Some(LocalizedDescription(outcome.error)), showError := true,
                requested := r.requested + [id])
  }

  /** The iterations over the offsets, in ascending order, one outcome each. */
  function AsWrittenRun(start: DeleteRun, offsets: seq<int>, outcomes: seq<Result<(), Thrown>>): DeleteRun
    requires |offsets| == |outcomes|
  {
    if offsets == [] then start
    else
      AsWrittenStep(
        AsWrittenRun(start, offsets[..|offsets| - 1], outcomes[..|outcomes| - 1]),
        offsets[|offsets| - 1], outcomes[|outcomes| - 1])
  }

  /** One more iteration of the loop is one more step. */
  lemma AsWrittenRunSnoc(start: DeleteRun, offsets: seq<int>, outcomes: seq<Result<(), Thrown>>, i: nat)
    requires |offsets| == |outcomes| && i < |offsets|
    ensures AsWrittenRun(start, offsets[..i + 1], outcomes[..i + 1])
      == AsWrittenStep(AsWrittenRun(start, offsets[..i], outcomes[..i]), offsets[i], outcomes[i])
  {
    assert offsets[..i + 1][..i] == offsets[..i] && outcomes[..i + 1][..i] == outcomes[..i];
  }

  /** After a trap nothing else happens. */
  lemma {:induction false} TrappedRunStops(start: DeleteRun, offsets: seq<int>, outcomes: seq<Result<(), Thrown>>, i: nat)
    requires |offsets| == |outcomes| && i <= |offsets|
    requires AsWrittenRun(start, offsets[..i], outcomes[..i]).trapped
    ensures AsWrittenRun(start, offsets, outcomes) == AsWrittenRun(start, offsets[..i], outcomes[..i])
    decreases |offsets| - i
  {
    if i < |offsets| {
      var n := |offsets|;
      assert offsets[..n] == offsets && outcomes[..n] == outcomes;
      assert offsets[..n - 1][..i] == offsets[..i] && outcomes[..n - 1][..i] == outcomes[..i];
      TrappedRunStops(start, offsets[..n - 1], outcomes[..n - 1], i);
    } else {
      assert offsets[..i] == offsets && outcomes[..i] == outcomes;
    }
  }

  /** A row with the given id and nothing else filled in. */
  function Row(id: Uuid): (c: Client)
    ensures c.id == Some(id)
  {
    Client(Some(id), "", "", None, None, None)
  }

  /**
    Selecting the first two of three rows, with both deletions confirmed:
    as written, the second iteration reads offset 1 of the already shortened
    list, so it deletes the third client on the server and in the list, and
    the second client, which the user selected, stays.
  */
  lemma AsWrittenDeletesUnselectedRow()
    ensures var clients := [Row("a"), Row("b"), Row("c")];
      var run := AsWrittenRun(DeleteRun(clients, None, false, [], false), [0, 1], [Success(()), Success(())]);
      run.requested == ["a", "c"] && run.clients == [Row("b")] && !run.trapped
  {
    var clients := [Row("a"), Row("b"), Row("c")];
    var start := DeleteRun(clients, None, false, [], false);
    var ok: Result<(), Thrown> := Success(());
    assert [0, 1][..1] == [0] && [ok, ok][..1] == [ok];
    assert [0][..0] == [] && [ok][..0] == [];
    assert AsWrittenRun(start, [], []) == start;
    var first := AsWrittenRun(start, [0], [ok]);
    assert first == AsWrittenStep(start, 0, ok);
    assert RemoveAt(clients, 0) == [Row("b"), Row("c")];
    assert first.clients == [Row("b"), Row("c")] && first.requested == ["a"];
    assert RemoveAt(first.clients, 1) == [Row("b")];
  }

  /**
    Selecting the first and the last of three rows: as written, after the
    first removal offset 2 is past the end of the list, and the run traps.
  */
  lemma AsWrittenTrapsOnLastRow()
    ensures var clients := [Row("a"), Row("b"), Row("c")];
      var run := AsWrittenRun(DeleteRun(clients, None, false, [], false), [0, 2], [Success(()), Success(())]);
      run.requested == ["a"] && run.trapped
  {
    var clients := [Row("a"), Row("b"), Row("c")];
    var start := DeleteRun(clients, None, false, [], false);
    var ok: Result<(), Thrown> := Success(());
    assert [0, 2][..1] == [0] && [ok, ok][..1] == [ok];
    assert [0][..0] == [] && [ok][..0] == [];
    assert AsWrittenRun(start, [], []) == start;
    var first := AsWrittenRun(start, [0], [ok]);
    assert first == AsWrittenStep(start, 0, ok);
    assert first.clients == RemoveAt(clients, 0);
  }

  // ---------------------------------------------------------------- deleteClient(at:) corrected

  /** `offsets.map { clients[$0] }`: the rows the user selected. */
  function Selected(clients: seq<Client>, offsets: seq<int>): (r: seq<Client>)
    requires forall i :: 0 <= i < |offsets| ==> 0 <= offsets[i] < |clients|
    ensures |r| == |offsets| && forall i :: 0 <= i < |offsets| ==> r[i] == clients[offsets[i]]
  {
    if offsets == [] then [] else Selected(clients, offsets[..|offsets| - 1]) + [clients[offsets[|offsets| - 1]]]
  }

  /** The ids of the selected rows that have one, in order: the deletions to request. */
  function IdsToDelete(selected: seq<Client>): seq<Uuid> {
    if selected == [] then []
    else
      var last := selected[|selected| - 1];
      IdsToDelete(selected[..|selected| - 1]) + (if last.id.Some? then [last.id.value] else [])
  }

  /** The ids whose deletion the server confirmed. */
  function Confirmed(selected: seq<Client>, outcomes: seq<Result<(), Thrown>>): set<Uuid>
    requires |selected| == |outcomes|
  {
    if selected == [] then {}
    else
      var n := |selected|;
      Confirmed(selected[..n - 1], outcomes[..n - 1])
      + (if selected[n - 1].id.Some? && outcomes[n - 1].Success? then {selected[n - 1].id.value} else {})
  }

  /** The error message the last refused deletion leaves, or `previous` when none was refused. */
  function LastError(selected: seq<Client>, outcomes: seq<Result<(), Thrown>>, previous: Option<string>): Option<string>
    requires |selected| == |outcomes|
  {
    if selected == [] then previous
    else
      var n := |selected|;
      if selected[n - 1].id.Some? && outcomes[n - 1].Failure? then Some(LocalizedDescription(outcomes[n - 1].error))
      else LastError(selected[..n - 1], outcomes[..n - 1], previous)
  }

  predicate AnyRefused(selected: seq<Client>, outcomes: seq<Result<(), Thrown>>)
    requires |selected| == |outcomes|
  {
    exists i :: 0 <= i < |selected| && selected[i].id.Some? && outcomes[i].Failure?
  }

  function InSet(ids: set<Uuid>): Client -> bool {
    (c: Client) => c.id.Some? && c.id.value in ids
  }

  /** One more selected row adds its id, when it has one, to the deletions requested. */
  lemma IdsToDeleteStep(selected: seq<Client>, i: nat)
    requires i < |selected|
    ensures IdsToDelete(selected[..i + 1])
      == IdsToDelete(selected[..i]) + (if selected[i].id.Some? then [selected[i].id.value] else [])
  {
    assert selected[..i + 1][..i] == selected[..i];
  }

  /** One more row adds its id to the confirmed set exactly when it has one and its deletion succeeded. */
  lemma ConfirmedStep(selected: seq<Client>, outcomes: seq<Result<(), Thrown>>, i: nat)
    requires |selected| == |outcomes| && i < |selected|
    ensures Confirmed(selected[..i + 1], outcomes[..i + 1])
      == Confirmed(selected[..i], outcomes[..i])
         + (if selected[i].id.Some? && outcomes[i].Success? then {selected[i].id.value} else {})
  {
    assert selected[..i + 1][..i] == selected[..i] && outcomes[..i + 1][..i] == outcomes[..i];
  }

  /** One more row replaces the message exactly when it has an id and its deletion failed. */
  lemma LastErrorStep(selected: seq<Client>, outcomes: seq<Result<(), Thrown>>, i: nat, previous: Option<string>)
    requires |selected| == |outcomes| && i < |selected|
    ensures LastError(selected[..i + 1], outcomes[..i + 1], previous)
      == if selected[i].id.Some? && outcomes[i].Failure? then Some(LocalizedDescription(outcomes[i].error))
         else LastError(selected[..i], outcomes[..i], previous)
  {
    assert selected[..i + 1][..i] == selected[..i] && outcomes[..i + 1][..i] == outcomes[..i];
  }

  /** One more row is a refusal exactly when it has an id and its deletion failed. */
  lemma AnyRefusedStep(selected: seq<Client>, outcomes: seq<Result<(), Thrown>>, i: nat)
    requires |selected| == |outcomes| && i < |selected|
    ensures AnyRefused(selected[..i + 1], outcomes[..i + 1])
      == (AnyRefused(selected[..i], outcomes[..i]) || (selected[i].id.Some? && outcomes[i].Failure?))
  {
    if AnyRefused(selected[..i + 1], outcomes[..i + 1]) {
      var k :| 0 <= k < i + 1 && selected[..i + 1][k].id.Some? && outcomes[..i + 1][k].Failure?;
      if k < i {
        assert selected[..i][k] == selected[k] && outcomes[..i][k] == outcomes[k];
      }
    }
    if AnyRefused(selected[..i], outcomes[..i]) {
      var k :| 0 <= k < i && selected[..i][k].id.Some? && outcomes[..i][k].Failure?;
      assert selected[..i + 1][k] == selected[k] && outcomes[..i + 1][k] == outcomes[k];
    }
    if selected[i].id.Some? && outcomes[i].Failure? {
      assert selected[..i + 1][i] == selected[i] && outcomes[..i + 1][i] == outcomes[i];
    }
  }

  /** Removing the confirmed ids one more id at a time is removing the grown set. */
  lemma RemoveOneMore(xs: seq<Client>, ids: set<Uuid>, id: Uuid)
    ensures RemoveAll(RemoveAll(xs, InSet(ids)), HasId(id)) == RemoveAll(xs, InSet(ids + {id}))
  {
    RemoveAllTwice(xs, InSet(ids), HasId(id), InSet(ids + {id}));
  }

  /** One more row removes, on a confirmed deletion, every row with its id from what is left. */
  lemma RemainingStep(original: seq<Client>, selected: seq<Client>, outcomes: seq<Result<(), Thrown>>, i: nat)
    requires |selected| == |outcomes| && i < |selected|
    ensures RemoveAll(original, InSet(Confirmed(selected[..i + 1], outcomes[..i + 1])))
      == var before := RemoveAll(original, InSet(Confirmed(selected[..i], outcomes[..i])));
         if selected[i].id.Some? && outcomes[i].Success? then RemoveAll(before, HasId(selected[i].id.value)) else before
  {
    ConfirmedStep(selected, outcomes, i);
    var c := Confirmed(selected[..i], outcomes[..i]);
    if selected[i].id.Some? && outcomes[i].Success? {
      RemoveOneMore(original, c, selected[i].id.value);
    } else {
      assert Confirmed(selected[..i + 1], outcomes[..i + 1]) == c;
    }
  }

  lemma RemoveNone(xs: seq<Client>)
    ensures RemoveAll(xs, InSet({})) == xs
  {
    RemoveAllNothing(xs, InSet({}));
  }

  // ---------------------------------------------------------------- single-row agreement

  /** An id that occurs in exactly one row: removing that row is removing every row with the id. */
  lemma RemoveAtUniqueId(xs: seq<Client>, i: nat, id: Uuid)
    requires i < |xs| && xs[i].id == Some(id)
    requires forall j :: 0 <= j < |xs| && j != i ==> xs[j].id != Some(id)
    ensures RemoveAt(xs, i) == RemoveAll(xs, HasId(id))
  {
    RemoveAtOnlyMatch(xs, i, HasId(id));
  }

  /**
    The loop of `deleteClient(at:)` as evidently intended, over the rows
    picked beforehand: the deletions it requests, the rows left of
    `original`, and the error state it leaves behind.
  */
  method DeleteSelected(selected: seq<Client>, outcomes: seq<Result<(), Thrown>>,
                        original: seq<Client>, errorMessage: Option<string>, showError: bool)
    returns (requested: seq<Uuid>, remaining: seq<Client>, message: Option<string>, shown: bool)
    requires |selected| == |outcomes|
    ensures requested == IdsToDelete(selected)
    ensures remaining == RemoveAll(original, InSet(Confirmed(selected, outcomes)))
    ensures message == LastError(selected, outcomes, errorMessage)
    ensures shown == (showError || AnyRefused(selected, outcomes))
  {
    requested, remaining, message, shown := [], original, errorMessage, showError;
    RemoveNone(original);
    var i := 0;
    while i < |selected|
      invariant 0 <= i <= |selected|
      invariant requested == IdsToDelete(selected[..i])
      invariant remaining == RemoveAll(original, InSet(Confirmed(selected[..i], outcomes[..i])))
      invariant message == LastError(selected[..i], outcomes[..i], errorMessage)
      invariant shown == (showError || AnyRefused(selected[..i], outcomes[..i]))
    {
      IdsToDeleteStep(selected, i);
      RemainingStep(original, selected, outcomes, i);
      LastErrorStep(selected, outcomes, i, errorMessage);
      AnyRefusedStep(selected, outcomes, i);
      var client := selected[i];
      if client.id.Some? {
        var id := client.id.value;
        requested := requested + [id];
        if outcomes[i].Success? {
          remaining := RemoveAll(remaining, HasId(id));
        } else {
          message := Some(LocalizedDescription(outcomes[i].error));
          shown := true;
        }
      }
      i := i + 1;
    }
    assert selected[..i] == selected && outcomes[..i] == outcomes;
  }

  /** The same selection, corrected: the two selected clients are the ones deleted, and the third stays. */
  lemma CorrectedDeletesSelectedRows()
    ensures var clients := [Row("a"), Row("b"), Row("c")];
      var selected := Selected(clients, [0, 1]);
      IdsToDelete(selected) == ["a", "b"]
      && RemoveAll(clients, InSet(Confirmed(selected, [Success(()), Success(())]))) == [Row("c")]
  {
    var clients := [Row("a"), Row("b"), Row("c")];
    var ok: Result<(), Thrown> := Success(());
    var selected := Selected(clients, [0, 1]);
    assert selected == [Row("a"), Row("b")];
    assert selected[..1] == [Row("a")] && [ok, ok][..1] == [ok];
    assert [Row("a")][..0] == [] && [ok][..0] == [];
    assert IdsToDelete([Row("a")]) == ["a"];
    assert Confirmed([Row("a")], [ok]) == {"a"};
    assert Confirmed(selected, [ok, ok]) == {"a", "b"};
    var drop := InSet({"a", "b"});
    assert clients == [Row("a")] + [Row("b"), Row("c")];
    assert RemoveAll([Row("c")], drop) == [Row("c")] by {
      assert [Row("c")][1..] == [];
    }
    assert RemoveAll([Row("b"), Row("c")], drop) == [Row("c")] by {
      assert [Row("b"), Row("c")][1..] == [Row("c")];
    }
    assert clients[1..] == [Row("b"), Row("c")];
  }

  class ClientViewModel {
    var clients: seq<Client>
    var isLoading: bool
    var errorMessage: Option<string>
    var showError: bool

    constructor ()
      ensures clients == [] && !isLoading && errorMessage.None? && !showError
    {
      clients := [];
      isLoading := false;
      errorMessage := None;
      showError := false;
    }

    /** `loadClients()`: the list is replaced on success and kept on failure; loading ends either way. */
    method LoadClients(outcome: Result<seq<Client>, Thrown>)
      modifies this
      ensures !isLoading
      ensures outcome.Success? ==> clients == outcome.value && errorMessage.None? && showError == old(showError)
      ensures outcome.Failure? ==>
        && clients == old(clients)
        && errorMessage == Some(LocalizedDescription(outcome.error)) && showError
    {
      isLoading := true;
      errorMessage := None;
      if outcome.Success? {
        clients := outcome.value;
      } else {
        errorMessage := Some(LocalizedDescription(outcome.error));
        showError := true;
      }
      isLoading := false;
    }

    /** Records a failed call the way every method does. */
    method Fail(error: Thrown)
      modifies this
      ensures clients == old(clients) && isLoading == old(isLoading)
      ensures errorMessage == Some(LocalizedDescription(error)) && showError
    {
      errorMessage := Some(LocalizedDescription(error));
      showError := true;
    }

    /** `createClient(_:)`: the client the server returned goes at the end. */
    method CreateClient(outcome: Result<Client, Thrown>) returns (ok: bool)
      modifies this
      ensures ok <==> outcome.Success?
      ensures isLoading == old(isLoading)
      ensures ok ==> (clients == old(clients) + [outcome.value]
        && errorMessage == old(errorMessage) && showError == old(showError))
      ensures !ok ==> (clients == old(clients)
        && errorMessage == Some(LocalizedDescription(outcome.error)) && showError)
    {
      if outcome.Failure? {
        Fail(outcome.error);
        return false;
      }
      clients := clients + [outcome.value];
      return true;
    }

    /** `updateClient(id:_:)`: the first row with the id takes the server's copy; no row, no change, still true. */
    method UpdateClient(id: Uuid, outcome: Result<Client, Thrown>) returns (ok: bool)
      modifies this
      ensures ok <==> outcome.Success?
      ensures isLoading == old(isLoading)
      ensures ok ==> (clients == ReplaceFirst(old(clients), HasId(id), outcome.value)
        && errorMessage == old(errorMessage) && showError == old(showError))
      ensures !ok ==> (clients == old(clients)
        && errorMessage == Some(LocalizedDescription(outcome.error)) && showError)
    {
      if outcome.Failure? {
        Fail(outcome.error);
        return false;
      }
      var index := FirstIndex(clients, HasId(id));
      if index.Some? {
        clients := clients[index.value := outcome.value];
      }
      return true;
    }

    /** `deleteClient(id:)`: every row with the id goes, the others stay in order. */
    method DeleteClient(id: Uuid, outcome: Result<(), Thrown>) returns (ok: bool)
      modifies this
      ensures ok <==> outcome.Success?
      ensures isLoading == old(isLoading)
      ensures ok ==> (clients == RemoveAll(old(clients), HasId(id))
        && errorMessage == old(errorMessage) && showError == old(showError))
      ensures !ok ==> (clients == old(clients)
        && errorMessage == Some(LocalizedDescription(outcome.error)) && showError)
    {
      if outcome.Failure? {
        Fail(outcome.error);
        return false;
      }
      clients := RemoveAll(clients, HasId(id));
      return true;
    }

    /**
      `deleteClient(at:)` as written: each offset indexes the list as already
      shortened by the earlier removals. `outcomes[i]` is what the deletion
      requested in iteration i returns; `trapped` reports an index out of range.
    */
    method DeleteClientAtAsWritten(offsets: seq<int>, outcomes: seq<Result<(), Thrown>>)
      returns (requested: seq<Uuid>, trapped: bool)
      requires |offsets| == |outcomes| && ValidOffsets(offsets, |clients|)
      modifies this
      ensures isLoading == old(isLoading)
      ensures AsWrittenRun(DeleteRun(old(clients), old(errorMessage), old(showError), [], false), offsets, outcomes)
        == DeleteRun(clients, errorMessage, showError, requested, trapped)
    {
      ghost var start := DeleteRun(clients, errorMessage, showError, [], false);
      requested := [];
      trapped := false;
      var i := 0;
      while i < |offsets|
        invariant 0 <= i <= |offsets|
        invariant isLoading == old(isLoading)
        invariant !trapped
        invariant AsWrittenRun(start, offsets[..i], outcomes[..i])
          == DeleteRun(clients, errorMessage, showError, requested, trapped)
      {
        ghost var before := DeleteRun(clients, errorMessage, showError, requested, trapped);
        AsWrittenRunSnoc(start, offsets, outcomes, i);
        var index := offsets[i];
        if !(0 <= index < |clients|) {
          trapped := true;
          TrappedRunStops(start, offsets, outcomes, i + 1);
          return;
        }
        var client := clients[index];
        if client.id.Some? {
          var id := client.id.value;
          requested := requested + [id];
          if outcomes[i].Success? {
            clients := RemoveAt(clients, index);
          } else {
            errorMessage := Some(LocalizedDescription(outcomes[i].error));
            showError := true;
          }
        }
        assert DeleteRun(clients, errorMessage, showError, requested, trapped) == AsWrittenStep(before, index, outcomes[i]);
        i := i + 1;
      }
      assert offsets[..i] == offsets && outcomes[..i] == outcomes;
    }

    /**
      `deleteClient(at:)` as evidently intended: the rows are picked before
      any is removed, so each deletion targets the row the user selected, and
      a confirmed id is removed wherever that row now sits.
    */
    method DeleteClientAt(offsets: seq<int>, outcomes: seq<Result<(), Thrown>>) returns (requested: seq<Uuid>)
      requires |offsets| == |outcomes| && ValidOffsets(offsets, |clients|)
      modifies this
      ensures isLoading == old(isLoading)
      ensures requested == IdsToDelete(Selected(old(clients), offsets))
      ensures clients == RemoveAll(old(clients), InSet(Confirmed(Selected(old(clients), offsets), outcomes)))
      ensures errorMessage == LastError(Selected(old(clients), offsets), outcomes, old(errorMessage))
      ensures showError == (old(showError) || AnyRefused(Selected(old(clients), offsets), outcomes))
    {
      var selected := Selected(clients, offsets);
      var remaining, message, shown;
      requested, remaining, message, shown := DeleteSelected(selected, outcomes, clients, errorMessage, showError);
      clients, errorMessage, showError := remaining, message, shown;
    }
  }
}
