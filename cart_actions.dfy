/** The two thunks of src/store/cart-actions.js. A thunk run is described by
    the trace of effects it produces, given the settled promise of its HTTP
    request; `ThunkRunner` runs a thunk by appending that trace to its own. */
module CartActions {
  import opened CartTypes

  const SendingNote := Notification(Pending, "Sending", "Sending cart data")
  const SentNote := Notification(Success, "Success!", "Sent cart data successfully!")
  const SendFailedNote := Notification(Error, "Error!", "Sending cart data failed!")
  const FetchFailedNote := Notification(Error, "Error!", "Fetching cart data failed!")

  /** The body of the PUT request: the cart without its `changed` flag. */
  function PayloadOf(cart: Cart): CartPayload {
    CartPayload(cart.items, cart.totalQuantity)
  }

  /** The action dispatched at the end of the try block of `fetchCartData`,
      or `None` when something in that block throws: a rejected fetch, a
      status that is not ok, a body that does not parse, or a null body
      (reading `items` of null throws). */
  function Hydration(response: GetResponse): Option<Action> {
    match response
    case GetRejected => None
    case GetResolved(status, body) =>
      if !IsOk(status) then None
      else match body
        case Malformed => None
        case Null => None
        case Object(items, totalQuantity) =>
          Some(ReplaceCart(if items.Some? then items.value else [], totalQuantity))
  }

  /** Effects of one run of `fetchCartData()`: the GET request, then the
      hydrating `replaceCart` or the error notification of the catch block. */
  function FetchCartDataEffects(response: GetResponse): (t: seq<Effect>)
    ensures Requests(t) == [Get]
    ensures |Dispatched(t)| == 1
    ensures t[0] == Issue(Get)
  {
    [Issue(Get),
     Dispatch(match Hydration(response)
              case Some(a) => a
              case None => ShowNotification(FetchFailedNote))]
  }

  /** The PUT request succeeded: its promise resolved with an ok status. */
  predicate PutSucceeded(response: PutResponse) {
    response.PutResolved? && IsOk(response.status)
  }

  /** Effects of one run of `sendCartData(cart)`: the pending notification,
      the PUT request, and the notification of the try or the catch block. */
  function SendCartDataEffects(cart: Cart, response: PutResponse): (t: seq<Effect>)
    ensures Requests(t) == [Put(PayloadOf(cart))]
    ensures |Dispatched(t)| == 2
    ensures t[0] == Dispatch(ShowNotification(SendingNote))
  {
    var t := [Dispatch(ShowNotification(SendingNote)),
              Issue(Put(PayloadOf(cart))),
              Dispatch(ShowNotification(if PutSucceeded(response) then SentNote else SendFailedNote))];
    assert t[1..][1..] == [t[2]] && t[1..][1..][1..] == [];
    assert Requests(t[1..]) == [t[1].request] + Requests(t[1..][1..]) == [t[1].request];
    assert Dispatched(t[1..]) == Dispatched(t[1..][1..]) == [t[2].action];
    t
  }

  /** The PUT body determines the persisted fields and nothing else: two carts
      give the same body exactly when their items and totals agree, whatever
      their `changed` flags. */
  lemma PayloadKeepsItemsAndTotal(c1: Cart, c2: Cart)
    ensures PayloadOf(c1) == PayloadOf(c2) <==> c1.items == c2.items && c1.totalQuantity == c2.totalQuantity
    ensures PayloadOf(c1).items == c1.items && PayloadOf(c1).totalQuantity == c1.totalQuantity
  {
  }

  /** The pending notification and the request come first, and neither depends
      on how the request settles. */
  lemma SendPendingBeforeOutcome(cart: Cart, r1: PutResponse, r2: PutResponse)
    ensures SendCartDataEffects(cart, r1)[..2] == SendCartDataEffects(cart, r2)[..2]
    ensures Dispatched(SendCartDataEffects(cart, r1)[..2]) == [ShowNotification(SendingNote)]
    ensures Requests(SendCartDataEffects(cart, r1)[..2]) == [Put(PayloadOf(cart))]
  {
  }

  /** A run of `sendCartData` dispatches exactly two notifications and no cart
      action: pending first, then success when the PUT settled ok and the
      sending-failed error otherwise (the error is reported, not rethrown). */
  lemma SendOutcome(cart: Cart, response: PutResponse)
    ensures Dispatched(SendCartDataEffects(cart, response))
         == [ShowNotification(SendingNote),
             ShowNotification(if PutSucceeded(response) then SentNote else SendFailedNote)]
    ensures forall a :: a in Dispatched(SendCartDataEffects(cart, response)) ==> a.ShowNotification?
    ensures Dispatched(SendCartDataEffects(cart, response))[1].notification.status == Success
        <==> response.PutResolved? && IsOk(response.status)
    ensures response.PutRejected? ==> Dispatched(SendCartDataEffects(cart, response))[1] == ShowNotification(SendFailedNote)
  {
    var t := SendCartDataEffects(cart, response);
    assert t[1..][1..] == [t[2]] && t[1..][1..][1..] == [];
    assert Dispatched(t[1..]) == Dispatched(t[1..][1..]) == [t[2].action];
  }

  /** `fetchCartData` hydrates exactly when the GET settled ok with a non-null
      JSON object; `items` defaults to the empty sequence and `totalQuantity`
      is copied unchanged (absent stays absent). */
  lemma FetchHydrates(response: GetResponse)
    ensures Dispatched(FetchCartDataEffects(response))[0].ReplaceCart?
        <==> response.GetResolved? && IsOk(response.status) && response.body.Object?
    ensures response.GetResolved? && IsOk(response.status) && response.body.Object? ==>
      Dispatched(FetchCartDataEffects(response))
        == [ReplaceCart(if response.body.items.None? then [] else response.body.items.value,
                        response.body.totalQuantity)]
  {
  }

  /** Every other outcome of the GET, including an ok response with a null
      body, dispatches only the fetching-failed notification; `fetchCartData`
      never dispatches a pending or a success notification. */
  lemma FetchFails(response: GetResponse)
    ensures !(response.GetResolved? && IsOk(response.status) && response.body.Object?) ==>
      Dispatched(FetchCartDataEffects(response)) == [ShowNotification(FetchFailedNote)]
    ensures forall a :: a in Dispatched(FetchCartDataEffects(response)) && a.ShowNotification? ==>
      a.notification.status == Error
  {
  }

  /** Runs the thunks one at a time. `trace` holds everything they have done
      so far, in order: the actions dispatched to the Redux store and the HTTP
      requests issued to the cart document. */
  class ThunkRunner {
    var trace: seq<Effect>

    constructor()
      ensures trace == []
    {
      trace := [];
    }

    /** Runs the thunk `fetchCartData()` whose GET request settles as `response`. */
    method FetchCartData(response: GetResponse) returns (settled: Settlement)
      modifies this
      ensures trace == old(trace) + FetchCartDataEffects(response)
      ensures settled == Fulfilled
    {
      trace := trace + [Issue(Get)];
      // fetchData() throws for a rejected fetch, a status that is not ok and
      // a body that does not parse; otherwise it returns the parsed body
      var threw := false;
      var cartData := Null;
      match response {
        case GetRejected =>
          threw := true;
        case GetResolved(status, body) =>
          if !IsOk(status) {
            threw := true;
          } else if body.Malformed? {
            threw := true;
          } else {
            cartData := body;
          }
      }
      // reading `cartData.items` throws when the body is null
      if !threw && cartData.Object? {
        var items := if cartData.items.Some? then cartData.items.value else [];
        trace := trace + [Dispatch(ReplaceCart(items, cartData.totalQuantity))];
      } else {
        trace := trace + [Dispatch(ShowNotification(FetchFailedNote))];
      }
      settled := Fulfilled;
    }

    /** Runs the thunk `sendCartData(cart)` whose PUT request settles as `response`. */
    method SendCartData(cart: Cart, response: PutResponse) returns (settled: Settlement)
      modifies this
      ensures trace == old(trace) + SendCartDataEffects(cart, response)
      ensures settled == Fulfilled
    {
      trace := trace + [Dispatch(ShowNotification(SendingNote))];
      trace := trace + [Issue(Put(CartPayload(cart.items, cart.totalQuantity)))];
      // sendRequest() throws for a rejected fetch and a status that is not ok
      var threw := match response
        case PutRejected => true
        case PutResolved(status) => !IsOk(status);
      if !threw {
        trace := trace + [Dispatch(ShowNotification(SentNote))];
      } else {
        trace := trace + [Dispatch(ShowNotification(SendFailedNote))];
      }
      settled := Fulfilled;
    }
  }
}
