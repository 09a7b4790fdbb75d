/** The client-side store of products: a product list and a status field, changed in
    place by the reducer when the fetch and add requests are fulfilled. No reducer
    writes the status. */
module ProductsSlice {
  import opened Optional

  datatype ProductMaterialItem = ProductMaterialItem(rawMaterialId: int, quantity: int)

  datatype Product = Product(id: Option<int>, name: string, code: string, value: int, materials: seq<ProductMaterialItem>)

  datatype Status = Idle | Loading | Failed

  /** Every action the reducer can receive: the three lifecycle actions of each of the
      two requests, and any action that belongs to another part of the store. */
  datatype Action =
    | FetchPending
    | FetchFulfilled(products: seq<Product>)
    | FetchRejected
    | AddPending(request: Product)
    | AddFulfilled(product: Product)
    | AddRejected
    | Unrelated

  datatype ProductsState = ProductsState(products: seq<Product>, status: Status)

  const Initial := ProductsState([], Idle)

  /** The reducer as a function: the state after one action. */
  function Next(s: ProductsState, a: Action): ProductsState
  {
    match a
    case FetchFulfilled(products) => s.(products := products)
    case AddFulfilled(product) => s.(products := s.products + [product])
    case _ => s
  }

  /** The state after a history of actions, oldest first. */
  function Run(s: ProductsState, actions: seq<Action>): ProductsState
  {
    if |actions| == 0 then s else Next(Run(s, actions[..|actions| - 1]), actions[|actions| - 1])
  }

  /** The products the fulfilled adds of a history carry, in order. */
  function Added(actions: seq<Action>): seq<Product>
  {
    if |actions| == 0 then []
    else if actions[0].AddFulfilled? then [actions[0].product] + Added(actions[1..])
    else Added(actions[1..])
  }

  class Slice {
    var products: seq<Product>
    var status: Status

    function State(): ProductsState
      reads this
    {
      ProductsState(products, status)
    }

    /** The initial state: no products, status idle. */
    constructor ()
      ensures State() == Initial
    {
      products := [];
      status := Idle;
    }

    /** A fulfilled fetch replaces the list; a fulfilled add pushes the new product;
        everything else changes nothing. */
    method Reduce(action: Action)
      modifies this
      ensures State() == Next(old(State()), action)
    {
      match action
      case FetchFulfilled(fetched) =>
        products := fetched;
      case AddFulfilled(product) =>
        products := products + [product];
      case _ =>
    }
  }

  // ---------------------------------------------------------------------------
  // Histories

  lemma {:induction false} AddedAppend(a: seq<Action>, b: seq<Action>)
    ensures Added(a + b) == Added(a) + Added(b)
  {
    if |a| > 0 {
      assert (a + b)[1..] == a[1..] + b;
      AddedAppend(a[1..], b);
    } else {
      assert a + b == b;
    }
  }

  lemma {:induction false} RunAppend(s: ProductsState, a: seq<Action>, b: seq<Action>)
    ensures Run(s, a + b) == Run(Run(s, a), b)
  {
    if |b| > 0 {
      assert (a + b)[..|a + b| - 1] == a + b[..|b| - 1];
      RunAppend(s, a, b[..|b| - 1]);
    } else {
      assert a + b == a;
    }
  }

  /** The status is never written: it is idle after any history. */
  lemma {:induction false} AlwaysIdle(actions: seq<Action>)
    ensures Run(Initial, actions).status == Idle
  {
    if |actions| > 0 {
      AlwaysIdle(actions[..|actions| - 1]);
    }
  }

  /** Without a fulfilled fetch the list only grows, by the added products in order. */
  lemma {:induction false} RunWithoutFetch(s: ProductsState, actions: seq<Action>)
    requires forall i :: 0 <= i < |actions| ==> !actions[i].FetchFulfilled?
    ensures Run(s, actions).products == s.products + Added(actions)
  {
    if |actions| > 0 {
      var init, a := actions[..|actions| - 1], actions[|actions| - 1];
      RunWithoutFetch(s, init);
      assert actions == init + [a];
      AddedAppend(init, [a]);
      assert [a][1..] == [];
    } else {
      assert s.products + [] == s.products;
    }
  }

  /** The list is the payload of the last fulfilled fetch followed by every product added
      after it. */
  lemma ListAfterFetch(actions: seq<Action>, i: int)
    requires 0 <= i < |actions| && actions[i].FetchFulfilled?
    requires forall j :: i < j < |actions| ==> !actions[j].FetchFulfilled?
    ensures Run(Initial, actions).products == actions[i].products + Added(actions[i + 1..])
  {
    var head, rest := actions[..i + 1], actions[i + 1..];
    assert actions == head + rest;
    RunAppend(Initial, head, rest);
    assert head[..|head| - 1] == actions[..i];
    assert Run(Initial, head).products == actions[i].products;
    RunWithoutFetch(Run(Initial, head), rest);
  }

  /** Before any fetch is fulfilled the list holds only the added products. */
  lemma ListWithoutFetch(actions: seq<Action>)
    requires forall i :: 0 <= i < |actions| ==> !actions[i].FetchFulfilled?
    ensures Run(Initial, actions).products == Added(actions)
  {
    RunWithoutFetch(Initial, actions);
  }
}
