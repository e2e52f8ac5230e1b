/** A whole session of the app with one thunk run at a time: the mount-time
    `fetchCartData`, then a series of runs of the cart effect, each of which
    runs the `sendCartData` it dispatches to completion before the next. */
module Sync {
  import opened CartTypes
  import opened CartActions
  import opened AppEffects

  /** One run of the cart effect: the cart it sees, and how the PUT request
      settles if that run sends the cart. */
  datatype Observation = Observation(cart: Cart, response: PutResponse)

  function Carts(obs: seq<Observation>): (cs: seq<Cart>)
    ensures |cs| == |obs|
  {
    seq(|obs|, i requires 0 <= i < |obs| => obs[i].cart)
  }

  /** Effects of a series of runs of the cart effect, starting from the flag
      `isInitial`: each run that dispatches `sendCartData` contributes that
      thunk's effects. */
  function SyncEffects(isInitial: bool, obs: seq<Observation>): seq<Effect>
    decreases |obs|
  {
    if obs == [] then []
    else
      var step := React(isInitial, obs[0].cart);
      (if step.sent.Some? then SendCartDataEffects(obs[0].cart, obs[0].response) else [])
      + SyncEffects(step.isInitial, obs[1..])
  }

  /** Effects of a session: the mount-time fetch, then the cart effect runs. */
  function SessionEffects(fetch: GetResponse, obs: seq<Observation>): seq<Effect> {
    FetchCartDataEffects(fetch) + SyncEffects(true, obs)
  }

  /** The PUT requests that the dispatched thunks issue, in order. */
  function SentRequests(rs: seq<Option<Thunk>>): seq<Request>
    decreases |rs|
  {
    if rs == [] then []
    else
      (match rs[0]
       case Some(SendCartData(cart)) => [Put(PayloadOf(cart))]
       case _ => [])
      + SentRequests(rs[1..])
  }

  /** A trace made of whole write cycles: each is the pending notification, one
      PUT, then one success or sending-failed notification. */
  predicate SendRuns(t: seq<Effect>)
    decreases |t|
  {
    t == [] ||
    (&& |t| >= 3
     && t[0] == Dispatch(ShowNotification(SendingNote))
     && t[1].Issue? && t[1].request.Put?
     && (t[2] == Dispatch(ShowNotification(SentNote)) || t[2] == Dispatch(ShowNotification(SendFailedNote)))
     && SendRuns(t[3..]))
  }

  /** Notification lifecycle: the cart effect runs produce nothing but whole
      write cycles, so every write has exactly one pending notification before
      it and exactly one outcome notification after it, and cycles never
      overlap. */
  lemma {:induction false} SyncEffectsAreSendRuns(isInitial: bool, obs: seq<Observation>)
    ensures SendRuns(SyncEffects(isInitial, obs))
    decreases |obs|
  {
    if obs != [] {
      var step := React(isInitial, obs[0].cart);
      var rest := SyncEffects(step.isInitial, obs[1..]);
      SyncEffectsAreSendRuns(step.isInitial, obs[1..]);
      if step.sent.Some? {
        var t := SendCartDataEffects(obs[0].cart, obs[0].response) + rest;
        assert t[3..] == rest;
      } else {
        assert SyncEffects(isInitial, obs) == rest;
      }
    }
  }

  /** The dispatches and requests of one write cycle. */
  lemma CycleSplit(a: Action, q: Request, b: Action)
    ensures Dispatched([Dispatch(a), Issue(q), Dispatch(b)]) == [a, b]
    ensures Requests([Dispatch(a), Issue(q), Dispatch(b)]) == [q]
  {
    var c := [Dispatch(a), Issue(q), Dispatch(b)];
    assert c[1..] == [Issue(q), Dispatch(b)] && c[1..][1..] == [Dispatch(b)] && c[1..][1..][1..] == [];
    assert Dispatched(c[1..]) == Dispatched(c[1..][1..]) == [b];
    assert Requests(c[1..]) == [q] + Requests(c[1..][1..]) == [q];
  }

  /** Whole write cycles dispatch two notifications per request and never a
      cart action. */
  lemma {:induction false} SendRunsBalanced(t: seq<Effect>)
    requires SendRuns(t)
    ensures |Dispatched(t)| == 2 * |Requests(t)|
    ensures forall a :: a in Dispatched(t) ==> a.ShowNotification?
    decreases |t|
  {
    if t != [] {
      SendRunsBalanced(t[3..]);
      var cycle := [t[0], t[1], t[2]];
      assert t == cycle + t[3..];
      CycleSplit(t[0].action, t[1].request, t[2].action);
      DispatchedAppend(cycle, t[3..]);
      RequestsAppend(cycle, t[3..]);
    }
  }

  /** The cart effect runs issue exactly the PUT requests of the thunks the
      gate dispatches, in order, each carrying the payload of the cart seen by
      the run that dispatched it. */
  lemma {:induction false} SyncRequests(isInitial: bool, obs: seq<Observation>)
    ensures Requests(SyncEffects(isInitial, obs)) == SentRequests(Reactions(isInitial, Carts(obs)))
    decreases |obs|
  {
    if obs != [] {
      var step := React(isInitial, obs[0].cart);
      var block := if step.sent.Some? then SendCartDataEffects(obs[0].cart, obs[0].response) else [];
      SyncRequests(step.isInitial, obs[1..]);
      RequestsAppend(block, SyncEffects(step.isInitial, obs[1..]));
      assert Carts(obs)[0] == obs[0].cart;
      assert Carts(obs)[1..] == Carts(obs[1..]);
      var rs := Reactions(isInitial, Carts(obs));
      assert rs == [step.sent] + Reactions(step.isInitial, Carts(obs[1..]));
      assert rs[1..] == Reactions(step.isInitial, Carts(obs[1..]));
    }
  }

  /** In a session the only hydration is the mount-time fetch: the first
      request is its GET and its action is dispatched first; everything the
      cart effect dispatches afterwards is a notification, two per PUT. */
  lemma SessionShape(fetch: GetResponse, obs: seq<Observation>)
    ensures Requests(SessionEffects(fetch, obs)) == [Get] + Requests(SyncEffects(true, obs))
    ensures Dispatched(SessionEffects(fetch, obs)) == Dispatched(FetchCartDataEffects(fetch)) + Dispatched(SyncEffects(true, obs))
    ensures forall a :: a in Dispatched(SessionEffects(fetch, obs))[1..] ==> a.ShowNotification?
    ensures |Dispatched(SyncEffects(true, obs))| == 2 * |Requests(SyncEffects(true, obs))|
  {
    var f := FetchCartDataEffects(fetch);
    var s := SyncEffects(true, obs);
    RequestsAppend(f, s);
    DispatchedAppend(f, s);
    SyncEffectsAreSendRuns(true, obs);
    SendRunsBalanced(s);
    assert Dispatched(f + s)[1..] == Dispatched(s);
  }
}
