/** The effects of the App component (src/App.js): the fetch dispatched on
    mount and the sync gate that decides, each time the cart effect runs,
    whether to dispatch `sendCartData`. */
module AppEffects {
  import opened CartTypes

  /** The thunks App dispatches: the action creators of cart-actions.js
      applied to their arguments. */
  datatype Thunk = FetchCartData | SendCartData(cart: Cart)

  /** One run of the cart effect: the new value of `isInitial` and the thunk
      dispatched, if any. */
  datatype Reaction = Reaction(isInitial: bool, sent: Option<Thunk>)

  /** The cart effect run with the flag `isInitial` on the current `cart`. */
  function React(isInitial: bool, cart: Cart): (r: Reaction)
    ensures !r.isInitial
    ensures r.sent.Some? <==> !isInitial && cart.changed
    ensures r.sent.Some? ==> r.sent.value == SendCartData(cart)
  {
    if isInitial then Reaction(false, None)
    else if cart.changed then Reaction(false, Some(SendCartData(cart)))
    else Reaction(false, None)
  }

  /** What a series of runs of the cart effect dispatches, one entry per run,
      starting from the flag `isInitial`. */
  function Reactions(isInitial: bool, carts: seq<Cart>): (r: seq<Option<Thunk>>)
    ensures |r| == |carts|
    decreases |carts|
  {
    if carts == [] then []
    else
      var step := React(isInitial, carts[0]);
      [step.sent] + Reactions(step.isInitial, carts[1..])
  }

  /** The flag `isInitial` after a series of runs of the cart effect. */
  function FlagAfter(isInitial: bool, carts: seq<Cart>): bool
    decreases |carts|
  {
    if carts == [] then isInitial
    else FlagAfter(React(isInitial, carts[0]).isInitial, carts[1..])
  }

  /** Run i dispatches `sendCartData` exactly when it is not the very first run
      and the cart it sees is changed; it then sends that very cart, and no run
      dispatches anything else. */
  lemma {:induction false} ReactionsAt(isInitial: bool, carts: seq<Cart>, i: nat)
    requires i < |carts|
    ensures Reactions(isInitial, carts)[i].Some? <==> (i > 0 || !isInitial) && carts[i].changed
    ensures Reactions(isInitial, carts)[i].Some? ==> Reactions(isInitial, carts)[i].value == SendCartData(carts[i])
    decreases i
  {
    if i > 0 {
      ReactionsAt(React(isInitial, carts[0]).isInitial, carts[1..], i - 1);
    }
  }

  /** The first run never dispatches, whatever the cart's `changed` flag; the
      runs after it behave as if the gate had started armed. */
  lemma FirstRunSuppressed(cart: Cart, later: seq<Cart>)
    ensures Reactions(true, [cart] + later) == [None] + Reactions(false, later)
  {
  }

  /** `isInitial` is false after any run and nothing sets it back to true. */
  lemma {:induction false} FlagNeverReset(isInitial: bool, carts: seq<Cart>)
    ensures FlagAfter(isInitial, carts) == (isInitial && carts == [])
    decreases |carts|
  {
    if carts != [] {
      FlagNeverReset(React(isInitial, carts[0]).isInitial, carts[1..]);
      if |carts| > 1 {
        assert carts[1..] != [];
      }
    }
  }

  /** The App module: its module-level `isInitial` flag and the thunks its
      effects have dispatched. */
  class App {
    var isInitial: bool
    var dispatched: seq<Thunk>

    constructor()
      ensures isInitial && dispatched == []
    {
      isInitial := true;
      dispatched := [];
    }

    /** The mount effect: dispatches `fetchCartData()` and leaves `isInitial` alone. */
    method Mount()
      modifies this`dispatched
      ensures dispatched == old(dispatched) + [FetchCartData]
      ensures isInitial == old(isInitial)
    {
      dispatched := dispatched + [FetchCartData];
    }

    /** The cart effect, run with the cart current at this render; `sent` says
        whether `sendCartData` was dispatched. */
    method OnCartChange(cart: Cart) returns (sent: bool)
      modifies this
      ensures sent <==> !old(isInitial) && cart.changed
      ensures Reaction(isInitial, if sent then Some(SendCartData(cart)) else None) == React(old(isInitial), cart)
      ensures dispatched == old(dispatched) + (if sent then [SendCartData(cart)] else [])
    {
      sent := false;
      if isInitial {
        isInitial := false;
        return;
      }
      if cart.changed {
        dispatched := dispatched + [SendCartData(cart)];
        sent := true;
      }
    }
  }
}
