/**
 * valor-web/sw.js: the same protocol, except that the resolver is stored
 * under `hash(rid)` (SHA-256, base64), computed after the envelope has been
 * posted, while replies are still looked up by the raw `x-correlation-id`.
 */
module HashedWorker {
  import opened Wrappers
  import opened Envelope
  import opened Correlation

  /** Base64 of a 32-byte SHA-256 digest is 44 characters long. */
  const DigestWidth := 44

  ghost predicate IsDigest(hash: string -> string) {
    forall s :: |hash(s)| == DigestWidth
  }

  /** Every registered call is stored under the hash of its id, and every id is a uuid. */
  ghost predicate HashedKeys(t: Table, hash: string -> string) {
    forall j :: 0 <= j < |t.calls| ==> IsUuidV4(t.calls[j].rid) && (t.calls[j].key.Some? ==> t.calls[j].key.value == hash(t.calls[j].rid))
  }

  datatype Route =
    | BodyError          // `reqToTransferable` rejected
    | Fetched            // allow-listed: `fetch(request)`
    | Awaiting(index: nat) // broadcast; `await hash(rid)` still to resolve

  class Worker {
    const origin: string
    const hash: string -> string
    var clock: nat
    var pendingRequests: map<string, nat>
    var calls: seq<Call>
    var sent: seq<Envelope>

    function State(): Table
      reads this
    {
      Table(clock, pendingRequests, calls, sent)
    }

    ghost predicate Valid()
      reads this
    {
      Live(State()) && IsDigest(hash) && HashedKeys(State(), hash)
    }

    constructor (origin: string, hash: string -> string)
      requires IsDigest(hash)
      ensures Valid() && State() == Initial && this.origin == origin && this.hash == hash
    {
      this.origin := origin;
      this.hash := hash;
      clock := 0;
      pendingRequests := map[];
      calls := [];
      sent := [];
    }

    function Outcome(i: nat): Option<JsResponse>
      reads this
      requires i < |calls|
    {
      calls[i].outcome
    }

    /** `handleRequest` up to the `await hash(rid)` inside `broadcastAndWaitResponse`. */
    method HandleRequest(request: LiveRequest, rid: string) returns (route: Route)
      requires Valid() && IsUuidV4(rid)
      modifies this
      ensures Valid()
      ensures request.body.None? ==> route == BodyError && State() == old(State())
      ensures request.body.Some? && request.url in Files(origin) ==> route == Fetched && State() == old(State())
      ensures request.body.Some? && request.url !in Files(origin) ==>
        && route == Awaiting(|old(calls)|)
        && State() == Post(old(State()), ToTransferable(request).value, rid)
    {
      var req := ToTransferable(request);
      if req.None? {
        return BodyError;
      }
      if req.value.url in Files(origin) {
        return Fetched;
      }
      var i := Broadcast(req.value, rid);
      return Awaiting(i);
    }

    /** Tag with the raw `rid` and post; the resolver is not stored yet. */
    method Broadcast(req: Envelope, rid: string) returns (index: nat)
      requires Valid() && IsUuidV4(rid)
      modifies this
      ensures Valid() && index == |old(calls)| && State() == Post(old(State()), req, rid)
      ensures sent[|sent| - 1].headers[|req.headers|] == (RequestIdHeader, rid)
    {
      StepLive(State(), Correlation.Posted(req, rid));
      PostHashed(State(), req, rid, hash);
      ghost var next := Post(State(), req, rid);
      sent := sent + [WithRequestId(req, rid)];
      index := |calls|;
      calls := calls + [Call(rid, None, 0, None, None, false)];
      assert State() == next;
    }

    /** `await hash(rid)` resolved: `pendingRequests.set(hash(rid), resolve)` and the timer starts. */
    method HashResolved(i: nat)
      requires Valid() && i < |calls| && calls[i].key.None? && FreshKey(State(), hash(calls[i].rid))
      modifies this
      ensures Valid() && State() == Register(old(State()), i, hash(old(calls[i].rid)))
      ensures pendingRequests == old(pendingRequests)[hash(old(calls[i].rid)) := i]
    {
      var key := hash(calls[i].rid);
      StepLive(State(), Registered(i, key));
      RegisterHashed(State(), i, hash);
      ghost var next := Register(State(), i, key);
      pendingRequests := pendingRequests[key := i];
      calls := calls[i := calls[i].(key := Some(key), startedAt := clock)];
      assert State() == next;
    }

    /** `resChan.onmessage` as written: the raw header value is the lookup key. */
    method OnMessage(data: Inbound)
      requires Valid()
      modifies this
      ensures Valid() && State() == Deliver(old(State()), CorrelationKey(data), ToResponse(data))
    {
      var id := CorrelationKey(data);
      StepLive(State(), Delivered(id, ToResponse(data)));
      DeliverHashed(State(), id, ToResponse(data), hash);
      ghost var next := Deliver(State(), id, ToResponse(data));
      if id.None? || id.value !in pendingRequests {
        return;
      }
      var i := pendingRequests[id.value];
      calls := calls[i := Resolve(calls[i], ToResponse(data))];
      assert State() == next;
    }

    /** `resChan.onmessage` looking up `hash(id)`, the key the resolver was stored under. */
    method OnMessageHashed(data: Inbound)
      requires Valid()
      modifies this
      ensures Valid() && State() == Deliver(old(State()), HashedKey(hash, CorrelationKey(data)), ToResponse(data))
    {
      var id := HashedKey(hash, CorrelationKey(data));
      StepLive(State(), Delivered(id, ToResponse(data)));
      DeliverHashed(State(), id, ToResponse(data), hash);
      ghost var next := Deliver(State(), id, ToResponse(data));
      if id.None? || id.value !in pendingRequests {
        return;
      }
      var i := pendingRequests[id.value];
      calls := calls[i := Resolve(calls[i], ToResponse(data))];
      assert State() == next;
    }

    /** `timeoutResponse(id)` fires: the hashed key is deleted and 504 joins the race. */
    method TimerFired(i: nat)
      requires Valid() && CanFire(State(), i)
      modifies this
      ensures Valid() && State() == Fire(old(State()), i)
      ensures hash(calls[i].rid) !in pendingRequests
    {
      StepLive(State(), Fired(i));
      FireHashed(State(), i, hash);
      ghost var next := Fire(State(), i);
      var c := calls[i];
      pendingRequests := pendingRequests - {c.key.value};
      calls := calls[i := c.(timerFired := true, outcome := if c.outcome.None? then Some(TimeoutResponse) else c.outcome)];
      assert State() == next;
    }

    method Elapse(ms: nat)
      requires Valid()
      modifies this
      ensures Valid() && State() == Advance(old(State()), ms)
    {
      StepLive(State(), Elapsed(ms));
      clock := clock + ms;
    }
  }

  /** Posting adds a call for a uuid that is not yet registered. */
  lemma PostHashed(t: Table, env: Envelope, rid: string, hash: string -> string)
    requires HashedKeys(t, hash) && IsUuidV4(rid)
    ensures HashedKeys(Post(t, env, rid), hash)
  {
    var r := Post(t, env, rid);
    assert forall j :: 0 <= j < |t.calls| ==> r.calls[j] == t.calls[j];
  }

  /** Registering call `i` under the hash of its own id. */
  lemma RegisterHashed(t: Table, i: nat, hash: string -> string)
    requires HashedKeys(t, hash) && i < |t.calls| && t.calls[i].key.None?
    ensures HashedKeys(Register(t, i, hash(t.calls[i].rid)), hash)
  {
  }

  /** Delivery changes no id and no key. */
  lemma DeliverHashed(t: Table, id: Option<string>, resp: JsResponse, hash: string -> string)
    requires Wf(t) && HashedKeys(t, hash)
    ensures HashedKeys(Deliver(t, id, resp), hash)
  {
    var r := Deliver(t, id, resp);
    assert forall j :: 0 <= j < |r.calls| ==> r.calls[j].rid == t.calls[j].rid && r.calls[j].key == t.calls[j].key;
  }

  /** A timer changes no id and no key. */
  lemma FireHashed(t: Table, i: nat, hash: string -> string)
    requires CanFire(t, i) && HashedKeys(t, hash)
    ensures HashedKeys(Fire(t, i), hash)
  {
    var r := Fire(t, i);
    assert forall j :: 0 <= j < |r.calls| ==> r.calls[j].rid == t.calls[j].rid && r.calls[j].key == t.calls[j].key;
  }

  function HashedKey(hash: string -> string, id: Option<string>): (r: Option<string>)
    ensures r.Some? <==> id.Some?
    ensures r.Some? ==> r.value == hash(id.value)
  {
    match id
    case None => None
    case Some(v) => Some(hash(v))
  }

  /**
   * As written, no raw id can ever match: every stored key is a 44-character
   * digest and a reply that echoes a request id carries a 36-character uuid.
   */
  lemma {:induction false} RawLookupMisses(t: Table, hash: string -> string, id: string, resp: JsResponse)
    requires Wf(t) && IsDigest(hash) && HashedKeys(t, hash) && |id| == 36
    ensures Deliver(t, Some(id), resp) == t
  {
    forall k | k in t.pending
      ensures |k| == DigestWidth
    {
      assert k == hash(t.calls[t.pending[k]].rid);
    }
  }

  /**
   * The consequence: a responder that echoes the request id, as every
   * responder must, never reaches its caller; the call still ends in 504
   * "Timeout!" once its timer fires.
   */
  lemma EchoedReplyTimesOut(t: Table, hash: string -> string, i: nat, resp: JsResponse)
    requires Live(t) && IsDigest(hash) && HashedKeys(t, hash)
    requires CanFire(t, i) && t.calls[i].outcome.None?
    ensures Deliver(t, Some(t.calls[i].rid), resp) == t
    ensures Fire(Deliver(t, Some(t.calls[i].rid), resp), i).calls[i].outcome == Some(TimeoutResponse)
  {
    RawLookupMisses(t, hash, t.calls[i].rid, resp);
  }

  /** With the lookup key hashed as the stored key is, the echoed reply settles its own call. */
  lemma EchoedReplyResolvesWhenHashed(t: Table, hash: string -> string, i: nat, resp: JsResponse)
    requires Live(t) && HashedKeys(t, hash)
    requires CanFire(t, i) && t.calls[i].outcome.None?
    ensures var d := Deliver(t, HashedKey(hash, Some(t.calls[i].rid)), resp);
      d.calls == t.calls[i := Resolve(t.calls[i], resp)]
      && CanFire(d, i) && Fire(d, i).calls[i].outcome == Some(resp)
  {
    DeliverTargetsOwner(t, i, resp);
  }
}
