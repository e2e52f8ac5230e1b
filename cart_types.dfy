/** Values exchanged between the cart UI, the Redux store and the remote cart
    document, and the observable effects of the cart thunks. */
module CartTypes {

  datatype Option<+T> = None | Some(value: T)

  /** One line of the cart. The synchronisation code passes items through
      without looking inside them. */
  datatype CartItem = CartItem(id: string, name: string, price: real, quantity: int, totalPrice: real)

  /** The `cart` slice of the store, as App reads it. */
  datatype Cart = Cart(items: seq<CartItem>, totalQuantity: int, changed: bool)

  /** The JSON document written by the PUT request. */
  datatype CartPayload = CartPayload(items: seq<CartItem>, totalQuantity: int)

  datatype Status = Pending | Success | Error

  /** The argument of `uiActions.showNotification`. */
  datatype Notification = Notification(status: Status, title: string, message: string)

  /** Plain actions handed to the store. Their reducers are not part of this
      model; an action is only a record of what was dispatched. `totalQuantity`
      is copied from the fetched document and is `None` when it is absent. */
  datatype Action =
    | ShowNotification(notification: Notification)
    | ReplaceCart(items: seq<CartItem>, totalQuantity: Option<int>)

  datatype Request = Get | Put(payload: CartPayload)

  /** One observable step of a thunk run: an action dispatched to the store,
      or an HTTP request issued to the cart document. */
  datatype Effect = Dispatch(action: Action) | Issue(request: Request)

  /** `response.ok` of the Fetch standard: a status in the range 200 to 299. */
  predicate IsOk(status: int) {
    200 <= status <= 299
  }

  /** What `response.json()` yields for the cart document. `Malformed` is a
      body that does not parse (the promise rejects); an array or a scalar
      has neither property, so it behaves as `Object(None, None)`. */
  datatype Json =
    | Malformed
    | Null
    | Object(items: Option<seq<CartItem>>, totalQuantity: Option<int>)

  /** The settled `fetch` promise of the GET request. */
  datatype GetResponse = GetRejected | GetResolved(status: int, body: Json)

  /** The settled `fetch` promise of the PUT request; its body is never read. */
  datatype PutResponse = PutRejected | PutResolved(status: int)

  /** The promise returned by a thunk. */
  datatype Settlement = Fulfilled | Rejected

  /** The actions of a trace, in order. */
  function Dispatched(t: seq<Effect>): (r: seq<Action>)
    ensures |r| <= |t|
    ensures forall a :: a in r ==> Dispatch(a) in t
    decreases |t|
  {
    if t == [] then []
    else (if t[0].Dispatch? then [t[0].action] else []) + Dispatched(t[1..])
  }

  /** The requests of a trace, in order. */
  function Requests(t: seq<Effect>): (r: seq<Request>)
    ensures |r| <= |t|
    ensures forall q :: q in r ==> Issue(q) in t
    decreases |t|
  {
    if t == [] then []
    else (if t[0].Issue? then [t[0].request] else []) + Requests(t[1..])
  }

  lemma {:induction false} DispatchedAppend(a: seq<Effect>, b: seq<Effect>)
    ensures Dispatched(a + b) == Dispatched(a) + Dispatched(b)
    decreases |a|
  {
    if a != [] {
      assert (a + b)[1..] == a[1..] + b;
      DispatchedAppend(a[1..], b);
    } else {
      assert a + b == b;
    }
  }

  lemma {:induction false} RequestsAppend(a: seq<Effect>, b: seq<Effect>)
    ensures Requests(a + b) == Requests(a) + Requests(b)
    decreases |a|
  {
    if a != [] {
      assert (a + b)[1..] == a[1..] + b;
      RequestsAppend(a[1..], b);
    } else {
      assert a + b == b;
    }
  }
}
