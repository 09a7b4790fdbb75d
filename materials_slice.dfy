/** The client-side store of raw materials: a list and a fetch status, changed in place
    by the reducer when the fetch and add requests dispatch their pending, fulfilled and
    rejected actions. */
module MaterialsSlice {
  import opened Optional

  datatype RawMaterial = RawMaterial(id: Option<int>, name: string, code: string, stockQuantity: int)

  datatype Status = Idle | Loading | Failed

  /** Every action the reducer can receive: the three lifecycle actions of each of the
      two requests, and any action that belongs to another part of the store. */
  datatype Action =
    | FetchPending
    | FetchFulfilled(materials: seq<RawMaterial>)
    | FetchRejected
    | AddPending(request: RawMaterial)
    | AddFulfilled(material: RawMaterial)
    | AddRejected
    | Unrelated

  datatype MaterialsState = MaterialsState(list: seq<RawMaterial>, status: Status)

  const Initial := MaterialsState([], Idle)

  /** The reducer as a function: the state after one action. */
  function Next(s: MaterialsState, a: Action): MaterialsState
  {
    match a
    case FetchPending => s.(status := Loading)
    case FetchFulfilled(materials) => MaterialsState(materials, Idle)
    case AddFulfilled(material) => s.(list := s.list + [material])
    case _ => s
  }

  /** The state after a history of actions, oldest first. */
  function Run(s: MaterialsState, actions: seq<Action>): MaterialsState
  {
    if |actions| == 0 then s else Next(Run(s, actions[..|actions| - 1]), actions[|actions| - 1])
  }

  /** The materials the fulfilled adds of a history carry, in order. */
  function Added(actions: seq<Action>): seq<RawMaterial>
  {
    if |actions| == 0 then []
    else if actions[0].AddFulfilled? then [actions[0].material] + Added(actions[1..])
    else Added(actions[1..])
  }

  class Slice {
    var list: seq<RawMaterial>
    var status: Status

    function State(): MaterialsState
      reads this
    {
      MaterialsState(list, status)
    }

    /** The initial state: no materials, status idle. */
    constructor ()
      ensures State() == Initial
    {
      list := [];
      status := Idle;
    }

    /** A pending fetch sets loading; a fulfilled fetch sets idle and replaces the list;
        a fulfilled add pushes the new material; everything else changes nothing. */
    method Reduce(action: Action)
      modifies this
      ensures State() == Next(old(State()), action)
    {
      match action
      case FetchPending =>
        status := Loading;
      case FetchFulfilled(materials) =>
        status := Idle;
        list := materials;
      case AddFulfilled(material) =>
        list := list + [material];
      case _ =>
    }
  }

  // ---------------------------------------------------------------------------
  // Histories

  lemma {:induction false} AddedAppend(a: seq<Action>, b: seq<Action>)
    ensures Added(a + b) == Added(a) + Added(b)
  {
    if |a| > 0 {
      assert (a + b)[1..] == a[1..] + b;
      AddedAppend(a[1..], b);
    } else {
      assert a + b == b;
    }
  }

  lemma {:induction false} RunAppend(s: MaterialsState, a: seq<Action>, b: seq<Action>)
    ensures Run(s, a + b) == Run(Run(s, a), b)
  {
    if |b| > 0 {
      assert (a + b)[..|a + b| - 1] == a + b[..|b| - 1];
      RunAppend(s, a, b[..|b| - 1]);
    } else {
      assert a + b == a;
    }
  }

  /** No action sets the status to failed: it is idle or loading after any history. */
  lemma {:induction false} NeverFailed(actions: seq<Action>)
    ensures Run(Initial, actions).status != Failed
  {
    if |actions| > 0 {
      NeverFailed(actions[..|actions| - 1]);
    }
  }

  /** Without a fulfilled fetch the list only grows, by the added materials in order, and
      the status becomes loading as soon as a fetch is pending and then stays there. */
  lemma {:induction false} RunWithoutFetch(s: MaterialsState, actions: seq<Action>)
    requires forall i :: 0 <= i < |actions| ==> !actions[i].FetchFulfilled?
    ensures Run(s, actions).list == s.list + Added(actions)
    ensures Run(s, actions).status == if FetchPending in actions then Loading else s.status
  {
    if |actions| > 0 {
      var init, a := actions[..|actions| - 1], actions[|actions| - 1];
      RunWithoutFetch(s, init);
      assert actions == init + [a];
      AddedAppend(init, [a]);
      assert [a][1..] == [];
      assert FetchPending in actions <==> FetchPending in init || a == FetchPending;
    } else {
      assert s.list + [] == s.list;
    }
  }

  /** The list is the payload of the last fulfilled fetch followed by every material added
      after it, and the status is loading exactly when a fetch was dispatched after it. */
  lemma ListAfterFetch(actions: seq<Action>, i: int)
    requires 0 <= i < |actions| && actions[i].FetchFulfilled?
    requires forall j :: i < j < |actions| ==> !actions[j].FetchFulfilled?
    ensures Run(Initial, actions).list == actions[i].materials + Added(actions[i + 1..])
    ensures Run(Initial, actions).status == if FetchPending in actions[i + 1..] then Loading else Idle
  {
    var head, rest := actions[..i + 1], actions[i + 1..];
    assert actions == head + rest;
    RunAppend(Initial, head, rest);
    assert head[..|head| - 1] == actions[..i];
    assert Run(Initial, head) == MaterialsState(actions[i].materials, Idle);
    RunWithoutFetch(Run(Initial, head), rest);
  }

  /** Before any fetch is fulfilled the list holds only the added materials. */
  lemma ListWithoutFetch(actions: seq<Action>)
    requires forall i :: 0 <= i < |actions| ==> !actions[i].FetchFulfilled?
    ensures Run(Initial, actions).list == Added(actions)
  {
    RunWithoutFetch(Initial, actions);
  }

  /** A pending fetch that is never fulfilled or rejected leaves the status loading for good,
      and a rejected one does too: the rejection is not handled. */
  lemma StuckLoading(actions: seq<Action>)
    requires FetchPending in actions
    requires forall i :: 0 <= i < |actions| ==> !actions[i].FetchFulfilled?
    ensures Run(Initial, actions + [FetchRejected]).status == Loading
  {
    RunWithoutFetch(Initial, actions + [FetchRejected]);
    assert FetchPending in actions + [FetchRejected];
  }
}
