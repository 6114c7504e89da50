/**
 * The correlation table of the service worker, as pure state: the
 * `pendingRequests` map, every call of `broadcastAndWaitResponse` with its
 * two promises, the envelopes posted on the request channel and the host's
 * clock. The worker classes (valor_web/sw.js, valor-web/sw.js) are proved
 * to move this state exactly as the functions here say; the lemmas here are
 * what the protocol promises.
 */
module Correlation {
  import opened Wrappers
  import opened Envelope

  /** One call of `broadcastAndWaitResponse`. */
  datatype Call = Call(
    rid: string,                  // the value sent as x-request-id
    key: Option<string>,          // the pendingRequests key, once `set` has run
    startedAt: nat,               // the clock when its timer was started
    response: Option<JsResponse>, // the `response` promise, settled by `resolve`
    outcome: Option<JsResponse>,  // the `Promise.race` result the caller gets
    timerFired: bool)

  datatype Table = Table(clock: nat, pending: map<string, nat>, calls: seq<Call>, sent: seq<Envelope>)

  const Initial := Table(0, map[], [], [])

  /** Every registry entry names a call that was registered under that key. */
  ghost predicate Wf(t: Table) {
    forall k :: k in t.pending ==> t.pending[k] < |t.calls| && t.calls[t.pending[k]].key == Some(k)
  }

  /** No registered call uses `k` yet: what a fresh uuid (or its hash) guarantees. */
  ghost predicate FreshKey(t: Table, k: string) {
    forall j :: 0 <= j < |t.calls| ==> t.calls[j].key != Some(k)
  }

  /**
   * The protocol invariant: keys are distinct, a registered call is in the
   * registry exactly until its timer fires, a timer fires only for a
   * registered call and leaves it settled.
   */
  ghost predicate Live(t: Table) {
    && Wf(t)
    && (forall i, j :: 0 <= i < |t.calls| && 0 <= j < |t.calls| && t.calls[i].key.Some? && t.calls[i].key == t.calls[j].key ==> i == j)
    && (forall i :: 0 <= i < |t.calls| && t.calls[i].key.Some? ==> (t.calls[i].key.value in t.pending <==> !t.calls[i].timerFired))
    && (forall i :: 0 <= i < |t.calls| && t.calls[i].timerFired ==> t.calls[i].key.Some? && t.calls[i].outcome.Some?)
  }

  /** `req.headers.push(...)`, `reqChan.postMessage(req)` and `new Promise(...)`. */
  function Post(t: Table, env: Envelope, rid: string): (r: Table)
    ensures r.pending == t.pending && r.clock == t.clock
    ensures r.calls == t.calls + [Call(rid, None, 0, None, None, false)]
    ensures r.sent == t.sent + [WithRequestId(env, rid)]
  {
    t.(calls := t.calls + [Call(rid, None, 0, None, None, false)], sent := t.sent + [WithRequestId(env, rid)])
  }

  /** `pendingRequests.set(key, resolve)` and the start of `timeoutResponse(key)`. */
  function Register(t: Table, i: nat, key: string): (r: Table)
    requires i < |t.calls| && t.calls[i].key.None?
    ensures r.pending == t.pending[key := i] && r.sent == t.sent && r.clock == t.clock
    ensures r.calls == t.calls[i := t.calls[i].(key := Some(key), startedAt := t.clock)]
  {
    t.(pending := t.pending[key := i], calls := t.calls[i := t.calls[i].(key := Some(key), startedAt := t.clock)])
  }

  /** valor_web/sw.js: the call is registered under the raw id straight after posting. */
  function Dispatch(t: Table, env: Envelope, rid: string): (r: Table)
    ensures r.clock == t.clock && r.pending == t.pending[rid := |t.calls|]
    ensures |r.calls| == |t.calls| + 1 && r.calls[..|t.calls|] == t.calls
    ensures r.calls[|t.calls|].key == Some(rid) && r.calls[|t.calls|].outcome.None? && r.calls[|t.calls|].startedAt == t.clock
    ensures r.sent == t.sent + [WithRequestId(env, rid)]
  {
    Register(Post(t, env, rid), |t.calls|, rid)
  }

  /** A dispatch appends one call, already registered under `rid` with its timer started now. */
  lemma DispatchShape(t: Table, env: Envelope, rid: string)
    ensures Dispatch(t, env, rid) == Table(t.clock, t.pending[rid := |t.calls|],
      t.calls + [Call(rid, Some(rid), t.clock, None, None, false)], t.sent + [WithRequestId(env, rid)])
  {
    var p := Post(t, env, rid);
    assert p.calls[|t.calls| := p.calls[|t.calls|].(key := Some(rid), startedAt := t.clock)]
      == t.calls + [Call(rid, Some(rid), t.clock, None, None, false)];
  }

  /** `resolve(response)`: the promise and the race take the first value only. */
  function Resolve(c: Call, resp: JsResponse): (r: Call)
    ensures r.rid == c.rid && r.key == c.key && r.startedAt == c.startedAt && r.timerFired == c.timerFired
    ensures r.response == (if c.response.Some? then c.response else Some(resp))
    ensures r.outcome == (if c.outcome.Some? then c.outcome else Some(resp))
  {
    c.(response := if c.response.None? then Some(resp) else c.response,
       outcome := if c.outcome.None? then Some(resp) else c.outcome)
  }

  /** `resChan.onmessage` once the lookup key is known; the entry is NOT removed. */
  function Deliver(t: Table, id: Option<string>, resp: JsResponse): (r: Table)
    requires Wf(t)
    ensures r.pending == t.pending && r.sent == t.sent && r.clock == t.clock && |r.calls| == |t.calls|
  {
    if id.None? || id.value !in t.pending then t
    else
      var i := t.pending[id.value];
      t.(calls := t.calls[i := Resolve(t.calls[i], resp)])
  }

  /** The timer of call `i` may fire once, and not before `TimeoutMs` have passed since it started. */
  predicate CanFire(t: Table, i: nat) {
    i < |t.calls| && t.calls[i].key.Some? && !t.calls[i].timerFired && t.clock >= t.calls[i].startedAt + TimeoutMs
  }

  /** `timeoutResponse`: delete the key and offer the 504 to the race. */
  function Fire(t: Table, i: nat): (r: Table)
    requires CanFire(t, i)
    ensures r.pending == t.pending - {t.calls[i].key.value} && r.sent == t.sent && r.clock == t.clock
  {
    var c := t.calls[i];
    t.(pending := t.pending - {c.key.value},
       calls := t.calls[i := c.(timerFired := true, outcome := if c.outcome.None? then Some(TimeoutResponse) else c.outcome)])
  }

  /** Time passes: the clock moves forward and nothing else changes. */
  function Advance(t: Table, ms: nat): (r: Table)
    ensures r.clock == t.clock + ms && r.clock >= t.clock
    ensures r.pending == t.pending && r.calls == t.calls && r.sent == t.sent
  {
    t.(clock := t.clock + ms)
  }

  /** What can happen to the worker, one event at a time. */
  datatype Event =
    | Dispatched(env: Envelope, rid: string)     // valor_web: post and register at once
    | Posted(env: Envelope, rid: string)         // valor-web: post, then `await hash(rid)`
    | Registered(index: nat, key: string)        // valor-web: the hash resolved, `set` runs
    | Delivered(id: Option<string>, resp: JsResponse)
    | Elapsed(ms: nat)
    | Fired(index: nat)

  /** An event that cannot happen in this state (a second `set`, an early timer) changes nothing. */
  function Step(t: Table, e: Event): (r: Table)
    requires Wf(t)
    ensures |t.calls| <= |r.calls| && t.clock <= r.clock
    ensures |t.sent| <= |r.sent| && r.sent[..|t.sent|] == t.sent
  {
    match e
    case Dispatched(env, rid) => Dispatch(t, env, rid)
    case Posted(env, rid) => Post(t, env, rid)
    case Registered(i, key) => if i < |t.calls| && t.calls[i].key.None? then Register(t, i, key) else t
    case Delivered(id, resp) => Deliver(t, id, resp)
    case Elapsed(ms) => Advance(t, ms)
    case Fired(i) => if CanFire(t, i) then Fire(t, i) else t
  }

  lemma StepWf(t: Table, e: Event)
    requires Wf(t)
    ensures Wf(Step(t, e))
  {
    match e
    case Registered(i, key) =>
      if i < |t.calls| && t.calls[i].key.None? {
        var r := Register(t, i, key);
        forall k | k in r.pending ensures r.pending[k] < |r.calls| && r.calls[r.pending[k]].key == Some(k) {
          if k != key { assert t.pending[k] != i; }
        }
      }
    case Dispatched(env, rid) =>
      var p := Post(t, env, rid);
      assert Wf(p);
      var r := Register(p, |t.calls|, rid);
      forall k | k in r.pending ensures r.pending[k] < |r.calls| && r.calls[r.pending[k]].key == Some(k) {
        if k != rid { assert p.pending[k] != |t.calls|; }
      }
    case _ =>
  }

  /** Run a sequence of events from `t`. */
  function Run(t: Table, evs: seq<Event>): (r: Table)
    requires Wf(t)
    ensures Wf(r)
    ensures |t.calls| <= |r.calls| && t.clock <= r.clock
    ensures |t.sent| <= |r.sent| && r.sent[..|t.sent|] == t.sent
    decreases |evs|
  {
    if evs == [] then t
    else
      StepWf(t, evs[0]);
      Run(Step(t, evs[0]), evs[1..])
  }

  /** The environment's promise: every id it registers is fresh. */
  ghost predicate Allowed(t: Table, e: Event) {
    match e
    case Dispatched(_, rid) => FreshKey(t, rid)
    case Registered(_, key) => FreshKey(t, key)
    case _ => true
  }

  ghost predicate AllAllowed(t: Table, evs: seq<Event>)
    requires Wf(t)
    decreases |evs|
  {
    evs == [] || (Allowed(t, evs[0]) && (StepWf(t, evs[0]); AllAllowed(Step(t, evs[0]), evs[1..])))
  }

  /** Calls are only ever added, and what was settled stays as it was. */
  ghost predicate Extends(t0: Table, t1: Table) {
    && |t0.calls| <= |t1.calls|
    && |t0.sent| <= |t1.sent| && t1.sent[..|t0.sent|] == t0.sent
    && (forall i :: 0 <= i < |t0.calls| ==> t1.calls[i].rid == t0.calls[i].rid)
    && (forall i :: 0 <= i < |t0.calls| && t0.calls[i].outcome.Some? ==> t1.calls[i].outcome == t0.calls[i].outcome)
    && (forall i :: 0 <= i < |t0.calls| && t0.calls[i].response.Some? ==> t1.calls[i].response == t0.calls[i].response)
  }

  /** One event never unsettles or changes a settled promise, nor unsends an envelope. */
  lemma StepExtends(t: Table, e: Event)
    requires Wf(t)
    ensures Extends(t, Step(t, e))
  {
    match e
    case Dispatched(env, rid) =>
      assert Post(t, env, rid).sent[..|t.sent|] == t.sent;
    case Posted(env, rid) =>
      assert Post(t, env, rid).sent[..|t.sent|] == t.sent;
    case _ =>
  }

  /** A promise settles once: no run of events changes a settled outcome. */
  lemma {:induction false} RunExtends(t: Table, evs: seq<Event>)
    requires Wf(t)
    ensures Extends(t, Run(t, evs))
    decreases |evs|
  {
    if evs != [] {
      StepWf(t, evs[0]);
      var t1 := Step(t, evs[0]);
      StepExtends(t, evs[0]);
      RunExtends(t1, evs[1..]);
      var t2 := Run(t1, evs[1..]);
      assert t2.sent[..|t1.sent|][..|t.sent|] == t2.sent[..|t.sent|];
    }
  }

  lemma StepLive(t: Table, e: Event)
    requires Live(t) && Allowed(t, e)
    ensures Live(Step(t, e))
  {
    match e
    case Dispatched(env, rid) =>
      PostLive(t, env, rid);
      RegisterLive(Post(t, env, rid), |t.calls|, rid);
    case Posted(env, rid) =>
      PostLive(t, env, rid);
    case Registered(i, key) =>
      if i < |t.calls| && t.calls[i].key.None? { RegisterLive(t, i, key); }
    case Delivered(id, resp) =>
      DeliverLive(t, id, resp);
    case Elapsed(ms) =>
    case Fired(i) =>
      if CanFire(t, i) { FireLive(t, i); }
  }

  /** Posting adds an unregistered call, which keeps the invariant and every id fresh. */
  lemma PostLive(t: Table, env: Envelope, rid: string)
    requires Live(t)
    ensures Live(Post(t, env, rid))
    ensures forall k :: FreshKey(t, k) ==> FreshKey(Post(t, env, rid), k)
  {
    var r := Post(t, env, rid);
    assert forall j :: 0 <= j < |t.calls| ==> r.calls[j] == t.calls[j];
  }

  /** Delivery only settles promises: keys, registry and timers stay as they were. */
  lemma DeliverLive(t: Table, id: Option<string>, resp: JsResponse)
    requires Live(t)
    ensures Live(Deliver(t, id, resp))
  {
    var r := Deliver(t, id, resp);
    assert forall j :: 0 <= j < |r.calls| ==> r.calls[j].key == t.calls[j].key && r.calls[j].timerFired == t.calls[j].timerFired;
    assert forall j :: 0 <= j < |r.calls| && t.calls[j].outcome.Some? ==> r.calls[j].outcome.Some?;
  }

  /** A timer removes exactly its own key, and marks only its own call as fired and settled. */
  lemma FireLive(t: Table, i: nat)
    requires Live(t) && CanFire(t, i)
    ensures Live(Fire(t, i))
  {
    var r := Fire(t, i);
    forall j | 0 <= j < |r.calls| && r.calls[j].key.Some?
      ensures r.calls[j].key.value in r.pending <==> !r.calls[j].timerFired
    {
      if j != i { assert r.calls[j].key != t.calls[i].key; }
    }
  }

  lemma RegisterLive(t: Table, i: nat, key: string)
    requires Live(t) && i < |t.calls| && t.calls[i].key.None? && FreshKey(t, key)
    ensures Live(Register(t, i, key))
  {
    var r := Register(t, i, key);
    assert !t.calls[i].timerFired;
    forall j | 0 <= j < |r.calls| && r.calls[j].key.Some?
      ensures r.calls[j].key.value in r.pending <==> !r.calls[j].timerFired
    {
      if j != i {
        assert r.calls[j] == t.calls[j];
        assert r.calls[j].key.value != key;
      }
    }
  }

  /** The invariant holds along every run whose ids are fresh. */
  lemma {:induction false} RunLive(t: Table, evs: seq<Event>)
    requires Live(t) && AllAllowed(t, evs)
    ensures Live(Run(t, evs))
    decreases |evs|
  {
    if evs != [] {
      StepLive(t, evs[0]);
      RunLive(Step(t, evs[0]), evs[1..]);
    }
  }

  /**
   * A reply is routed to its own call and to no other: a delivery keyed by
   * the key of a call whose timer has not fired settles that call (if it was
   * still pending) and changes nothing else.
   */
  lemma DeliverTargetsOwner(t: Table, i: nat, resp: JsResponse)
    requires Live(t) && i < |t.calls| && t.calls[i].key.Some? && !t.calls[i].timerFired
    ensures Deliver(t, t.calls[i].key, resp).calls == t.calls[i := Resolve(t.calls[i], resp)]
  {
    var k := t.calls[i].key.value;
    assert k in t.pending;
    assert t.calls[t.pending[k]].key == Some(k);
  }

  /** A reply without a usable id, or for an unknown id, has no effect at all. */
  lemma DeliverUnknownIsNoOp(t: Table, id: Option<string>, resp: JsResponse)
    requires Wf(t) && (id.None? || id.value !in t.pending)
    ensures Deliver(t, id, resp) == t
  {
  }

  /** A reply that arrives after its call timed out is dropped without effect. */
  lemma LateReplyDropped(t: Table, i: nat, resp: JsResponse)
    requires Live(t) && i < |t.calls| && t.calls[i].timerFired
    ensures Deliver(t, t.calls[i].key, resp) == t
  {
    assert t.calls[i].key.value !in t.pending;
  }

  /** Delivery leaves the registry as it was: only the timer removes an entry. */
  lemma DeliveryKeepsEntry(t: Table, id: Option<string>, resp: JsResponse)
    requires Live(t) && id.Some? && id.value in t.pending
    ensures id.value in Deliver(t, id, resp).pending
    ensures Deliver(t, id, resp).calls[t.pending[id.value]].outcome.Some?
  {
  }

  /** When the timer fires the entry is gone and the caller holds a settled outcome: 504 "Timeout!" unless the reply won. */
  lemma FireSettles(t: Table, i: nat)
    requires Live(t) && CanFire(t, i)
    ensures var r := Fire(t, i);
      && t.calls[i].key.value !in r.pending
      && r.calls[i].outcome == (if t.calls[i].outcome.Some? then t.calls[i].outcome else Some(TimeoutResponse))
      && (t.calls[i].outcome.None? ==> r.calls[i].outcome.value.status == 504 && r.calls[i].outcome.value.body == Some("Timeout!"))
      && Live(r)
  {
    StepLive(t, Fired(i));
  }

  /**
   * The first of reply and timer to settle wins: a reply first gives the
   * caller that reply even after the timer fires; the timer first gives 504
   * and the later reply is dropped.
   */
  lemma FirstSettlementWins(t: Table, i: nat, resp: JsResponse)
    requires Live(t) && CanFire(t, i) && t.calls[i].outcome.None?
    ensures var replied := Deliver(t, t.calls[i].key, resp);
      CanFire(replied, i) && Fire(replied, i).calls[i].outcome == Some(resp)
    ensures var fired := Fire(t, i);
      Live(fired) && fired.calls[i].outcome == Some(TimeoutResponse)
      && Deliver(fired, t.calls[i].key, resp) == fired
  {
    DeliverTargetsOwner(t, i, resp);
    StepLive(t, Fired(i));
    LateReplyDropped(Fire(t, i), i, resp);
  }

  /**
   * Two calls, replies delivered in the opposite order: each caller gets its
   * own reply, never the other's.
   */
  lemma OutOfOrderReplies(t: Table, env1: Envelope, rid1: string, env2: Envelope, rid2: string, r1: JsResponse, r2: JsResponse)
    requires Live(t) && rid1 != rid2 && FreshKey(t, rid1) && FreshKey(t, rid2)
    ensures var n := |t.calls|;
      var t2 := Dispatch(Dispatch(t, env1, rid1), env2, rid2);
      var done := Run(t2, [Delivered(Some(rid2), r2), Delivered(Some(rid1), r1)]);
      |done.calls| == n + 2 && done.calls[n].outcome == Some(r1) && done.calls[n + 1].outcome == Some(r2)
  {
    TwoDispatched(t, env1, rid1, env2, rid2);
    TwoDeliveries(Dispatch(Dispatch(t, env1, rid1), env2, rid2), |t.calls|, rid1, rid2, r1, r2);
  }

  /** Two dispatches with distinct fresh ids: two open calls, keyed by those ids. */
  lemma TwoDispatched(t: Table, env1: Envelope, rid1: string, env2: Envelope, rid2: string)
    requires Live(t) && rid1 != rid2 && FreshKey(t, rid1) && FreshKey(t, rid2)
    ensures var n, t2 := |t.calls|, Dispatch(Dispatch(t, env1, rid1), env2, rid2);
      && Live(t2) && |t2.calls| == n + 2
      && t2.calls[n].key == Some(rid1) && !t2.calls[n].timerFired && t2.calls[n].outcome.None?
      && t2.calls[n + 1].key == Some(rid2) && !t2.calls[n + 1].timerFired && t2.calls[n + 1].outcome.None?
  {
    var n := |t.calls|;
    StepLive(t, Dispatched(env1, rid1));
    var t1 := Dispatch(t, env1, rid1);
    assert FreshKey(t1, rid2) by {
      forall j | 0 <= j < |t1.calls| ensures t1.calls[j].key != Some(rid2) {
        if j < n { assert t1.calls[j] == t.calls[j]; }
      }
    }
    StepLive(t1, Dispatched(env2, rid2));
  }

  /** Replies to two open calls, answered in reverse order, each settle their own call. */
  lemma TwoDeliveries(t2: Table, n: nat, rid1: string, rid2: string, r1: JsResponse, r2: JsResponse)
    requires Live(t2) && n + 1 < |t2.calls|
    requires t2.calls[n].key == Some(rid1) && !t2.calls[n].timerFired && t2.calls[n].outcome.None?
    requires t2.calls[n + 1].key == Some(rid2) && !t2.calls[n + 1].timerFired && t2.calls[n + 1].outcome.None?
    ensures var done := Run(t2, [Delivered(Some(rid2), r2), Delivered(Some(rid1), r1)]);
      |done.calls| == |t2.calls| && done.calls[n].outcome == Some(r1) && done.calls[n + 1].outcome == Some(r2)
  {
    DeliverTargetsOwner(t2, n + 1, r2);
    var t3 := Deliver(t2, Some(rid2), r2);
    StepLive(t2, Delivered(Some(rid2), r2));
    DeliverTargetsOwner(t3, n, r1);
    var t4 := Deliver(t3, Some(rid1), r1);
    RunPair(t2, Delivered(Some(rid2), r2), Delivered(Some(rid1), r1));
    assert Step(t2, Delivered(Some(rid2), r2)) == t3;
    assert Step(t3, Delivered(Some(rid1), r1)) == t4;
  }

  /** Two events run one after the other. */
  lemma RunPair(t: Table, e1: Event, e2: Event)
    requires Wf(t)
    ensures Wf(Step(t, e1)) && Run(t, [e1, e2]) == Step(Step(t, e1), e2)
  {
    StepWf(t, e1);
    StepWf(Step(t, e1), e2);
    assert [e1, e2][1..] == [e2];
    assert Run(Step(t, e1), [e2]) == Run(Step(Step(t, e1), e2), []);
  }


  /**
   * No responder: a request dispatched on an empty table, once 3000 ms have
   * passed and its timer fired, ends with 504 "Timeout!" and an empty registry.
   */
  lemma NoResponderTimesOut(env: Envelope, rid: string)
    ensures var t := Run(Initial, [Dispatched(env, rid), Elapsed(TimeoutMs), Fired(0)]);
      |t.calls| == 1 && t.calls[0].outcome == Some(TimeoutResponse) && t.pending == map[]
  {
    var t1 := Dispatch(Initial, env, rid);
    var t2 := Advance(t1, TimeoutMs);
    assert CanFire(t2, 0);
    var t3 := Fire(t2, 0);
    assert t3.pending == map[];
    assert Run(Initial, [Dispatched(env, rid), Elapsed(TimeoutMs), Fired(0)]) == t3 by {
      assert Run(t2, [Fired(0)]) == Run(t3, []);
      assert Run(t1, [Elapsed(TimeoutMs), Fired(0)]) == Run(t2, [Fired(0)]);
    }
  }
}
