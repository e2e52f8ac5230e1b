# Cart synchronisation policy of react_redux_cart

A Dafny model of how the shopping-cart app keeps its Redux cart in step with
the remote cart document. It covers three things:

- the two thunks of `src/store/cart-actions.js`:
  - `fetchCartData` issues a GET. It then dispatches either `replaceCart` or
    the "Fetching cart data failed!" notification.
  - `sendCartData` dispatches the pending notification and issues a PUT of the
    cart's `items` and `totalQuantity`. It then dispatches the success or the
    error notification.
- the sync gate of `src/App.js`:
  - the mount effect dispatches `fetchCartData`.
  - the cart effect uses the module-level flag `isInitial` to skip its first
    run. After that it dispatches `sendCartData(cart)` exactly when
    `cart.changed` is true.
- a whole session, with one thunk run at a time.

## How the model is built

- **Network.** Each HTTP request is replaced by the way its `fetch` promise
  settles:
  - `GetRejected`, or `GetResolved(status, body)`. The body is `Malformed`,
    `Null` or an `Object` whose `items` and `totalQuantity` may be absent.
  - `PutRejected`, or `PutResolved(status)`.
  - `IsOk` is `response.ok` of the Fetch standard: a status from 200 to 299.
- **Thunk runs.** A thunk run is described by its trace of `Effect`s. An effect
  is either a dispatched `Action` or an issued `Request`.
  - `FetchCartDataEffects` and `SendCartDataEffects` give that trace for each
    thunk.
  - `CartActions.ThunkRunner` runs the thunks. Its methods `FetchCartData`
    and `SendCartData` run a thunk step by step, follow the source's
    try/catch, and append to `trace`, which records both the actions
    dispatched to the store and the HTTP requests issued. Their
    postconditions tie each run to the trace function.
- **Sync gate.** `AppEffects.App` is the App module. The field `isInitial` is
  the module-level flag, and `dispatched` logs the thunks App dispatched.
  - `React` is one run of the cart effect, as a function.
  - `Reactions` is a series of runs.
- **Session.** `Sync.SessionEffects` is the mount-time fetch followed by a
  series of cart-effect runs. Each dispatched `sendCartData` runs to the end
  before the next run starts.

Three behaviours of the code are easy to misread; the model follows the code:

- An ok GET whose body is JSON `null` leads to the error notification, not to
  an empty cart. `cartData.items` throws inside the try block
  (src/store/cart-actions.js:23-26). The cart document is missing until the
  first PUT, and then the GET returns `null`.
- `totalQuantity` is copied from the fetched document as it is. When the
  document has no `totalQuantity`, it stays absent (`None`) and is not
  defaulted.
- React runs the cart effect after the first render, and that is before the
  GET resolves. So the run that `isInitial` suppresses sees the initial cart,
  not the hydrated one. The hydrated cart reaches the second run, which sends
  it only if its `changed` flag is true. Its value after `replaceCart`
  depends on the reducers, which are not part of this model.

## Model

| member | source | states |
|---|---|---|
| CartActions.FetchCartDataEffects | src/store/cart-actions.js:6-40 | a fetch run issues exactly one request, the GET, first, and dispatches exactly one action |
| CartActions.SendCartDataEffects | src/store/cart-actions.js:44-90 | a send run issues exactly one request, a PUT of the cart's payload; it dispatches exactly two actions, and the first effect is the pending notification |
| CartActions.PayloadKeepsItemsAndTotal | src/store/cart-actions.js:61 | the PUT body holds the cart's items and totalQuantity; two carts give the same body iff those two fields agree, whatever `changed` is |
| CartActions.SendPendingBeforeOutcome | src/store/cart-actions.js:48-63 | the pending notification {pending, 'Sending', 'Sending cart data'} and then the PUT come first, and neither depends on how the PUT settles |
| CartActions.SendOutcome | src/store/cart-actions.js:65-88 | exactly two dispatches, both notifications: pending, then 'Success!'/'Sent cart data successfully!' iff the PUT resolved ok, else 'Error!'/'Sending cart data failed!' (also on a rejected fetch) |
| CartActions.FetchHydrates | src/store/cart-actions.js:13-29 | a replaceCart is dispatched iff the GET resolved ok with a JSON object; its items are the body's items or [] when absent, and totalQuantity is copied unchanged |
| CartActions.FetchFails | src/store/cart-actions.js:8-38 | every other outcome (rejected, not ok, unparsable, null body) dispatches only {error, 'Error!', 'Fetching cart data failed!'}; a fetch run never dispatches a pending or success notification |
| CartActions.ThunkRunner.FetchCartData | src/store/cart-actions.js:7-39 | running the fetch thunk appends exactly its effect trace to the runner's trace, and the thunk's promise always fulfils |
| CartActions.ThunkRunner.SendCartData | src/store/cart-actions.js:46-89 | running the send thunk appends exactly its effect trace, and the thunk's promise always fulfils, so errors are swallowed |
| AppEffects.React | src/App.js:30-41 | after a run of the cart effect `isInitial` is false; a run dispatches a thunk iff the flag was false and `cart.changed` holds, and that thunk is sendCartData of the cart it saw |
| AppEffects.ReactionsAt | src/App.js:31-40 | in a series of runs, run i dispatches iff it is not the very first run and its cart is changed, and it then sends that run's own cart |
| AppEffects.FirstRunSuppressed | src/App.js:31-34 | the first run dispatches nothing whatever the cart, and the later runs act as if the gate started armed |
| AppEffects.FlagNeverReset | src/App.js:9-34 | `isInitial` after a series of runs is true only if it was true and no run happened; nothing sets it back to true |
| AppEffects.App.constructor | src/App.js:9 | the flag starts true and nothing has been dispatched |
| AppEffects.App.Mount | src/App.js:24-26 | the mount effect appends fetchCartData to the dispatched thunks and leaves `isInitial` as it was |
| AppEffects.App.OnCartChange | src/App.js:30-41 | sent iff the flag was false and the cart is changed; the new flag and the sent thunk are those of React, and at most one sendCartData(cart) is appended |
| Sync.SyncEffectsAreSendRuns | src/App.js:30-41 | with one run at a time, the cart-effect runs produce only whole write cycles: pending notification, one PUT, then one success or sending-failed notification |
| Sync.SendRunsBalanced | src/store/cart-actions.js:46-89 | whole write cycles dispatch two notifications per PUT and never a cart action |
| Sync.SyncRequests | src/App.js:38-39 | the PUTs issued by the cart-effect runs are, in order, those of the sendCartData thunks the gate dispatched, each with its own run's cart |
| Sync.SessionShape | src/App.js:24-41 | in a session the GET is the first request, and the fetch's action is the first dispatch; the cart effect then dispatches only notifications, two per PUT |

## Left out

- HTTP, `fetch`, JSON parsing and the Firebase URL are I/O. Each request is
  an input value saying how its promise settles. The server applies the PUT
  as a full overwrite, so that part is not modelled.
- React rendering and JSX are UI and are left out. So are `useSelector`, the
  scheduling of `useEffect`, and the `Notification`, `Layout`, `Cart` and
  `Products` components. A series of cart-effect runs is given as a sequence
  of carts.
- `src/store/index.js` is store wiring over Redux Toolkit and is left out.
  The reducers of `cart-slice.js` and `ui-slice.js` are not part of this
  model. Actions are plain records, so the model does not say which cart a
  `replaceCart` produces or when `changed` is reset.
- Overlapping writes and responses that arrive out of order are concurrency
  and are left out. `Sync` runs each `sendCartData` to the end before the
  next cart-effect run.
- Sync.SessionEffects and Sync.SessionShape: a cart change made while the
  mount-time GET is still in flight is not modelled. The session runs the
  whole fetch before any cart-effect run. In the app, such a change
  dispatches its pending notification before `replaceCart`, and the late
  `replaceCart` then overwrites the change. So "the fetch's action is the
  first dispatch" holds only under the one-run-at-a-time schedule.
- A reducer that throws while `replaceCart` is dispatched would also reach
  the catch block of `fetchCartData`. The reducers are outside the model, so
  this path is not modelled.
- `JSON.stringify` failing on the cart, for example on cyclic items, is not
  modelled. Items are plain data.
- An `items` field that is present but neither an array nor a falsy value is
  not modelled. `items` is either a sequence or absent. An absent, `null` or
  falsy value becomes `[]`, as `|| []` does.
- A JSON array or a scalar body acts as an object with neither field. It is
  represented by `Object(None, None)`.
- Re-mounting App is left out. `isInitial` lives as long as the JS module, so
  one `App` object stands for the module's whole lifetime.
