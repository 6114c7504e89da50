/**
 * valor_web/sw.js: the service worker that stores each pending request
 * under its raw request id and looks replies up by the raw correlation id.
 */
module ValorWebWorker {
  import opened Wrappers
  import opened Envelope
  import opened Correlation

  /** How `handleRequest` settles the fetch event. */
  datatype Route =
    | BodyError        // `reqToTransferable` rejected: nothing is dispatched
    | Fetched          // allow-listed: answered by `fetch(request)`
    | Raced(index: nat) // broadcast; the caller waits on call `index`

  class Worker {
    const origin: string
    var clock: nat
    var pendingRequests: map<string, nat>
    var calls: seq<Call>
    var sent: seq<Envelope>

    function State(): Table
      reads this
    {
      Table(clock, pendingRequests, calls, sent)
    }

    ghost predicate Valid()
      reads this
    {
      Live(State())
    }

    constructor (origin: string)
      ensures Valid() && State() == Initial && this.origin == origin
    {
      this.origin := origin;
      clock := 0;
      pendingRequests := map[];
      calls := [];
      sent := [];
    }

    /** The caller's result for call `i`: `None` while the race is open. */
    function Outcome(i: nat): Option<JsResponse>
      reads this
      requires i < |calls|
    {
      calls[i].outcome
    }

    /**
     * `handleRequest`, with `rid` the value `uuidv4()` returns for this
     * request. The body is drained first; an allow-listed URL then goes to
     * `fetch` and leaves the table alone.
     */
    method HandleRequest(request: LiveRequest, rid: string) returns (route: Route)
      requires Valid() && IsUuidV4(rid) && FreshKey(State(), rid)
      modifies this
      ensures Valid()
      ensures request.body.None? ==> route == BodyError && State() == old(State())
      ensures request.body.Some? && request.url in Files(origin) ==> route == Fetched && State() == old(State())
      ensures request.body.Some? && request.url !in Files(origin) ==>
        && route == Raced(|old(calls)|)
        && State() == Dispatch(old(State()), ToTransferable(request).value, rid)
    {
      var req := ToTransferable(request);
      if req.None? {
        return BodyError;
      }
      if req.value.url in Files(origin) {
        return Fetched;
      }
      var i := BroadcastAndWaitResponse(req.value, rid);
      return Raced(i);
    }

    /** Tag, post, store the resolver under `rid` and start the timer. */
    method BroadcastAndWaitResponse(req: Envelope, rid: string) returns (index: nat)
      requires Valid() && FreshKey(State(), rid)
      modifies this
      ensures Valid() && index == |old(calls)| && State() == Dispatch(old(State()), req, rid)
      ensures sent == old(sent) + [WithRequestId(req, rid)]
      ensures pendingRequests == old(pendingRequests)[rid := index]
      ensures calls[index].outcome.None?
    {
      StepLive(State(), Dispatched(req, rid));
      DispatchShape(State(), req, rid);
      ghost var next := Dispatch(State(), req, rid);
      sent := sent + [WithRequestId(req, rid)];
      index := |calls|;
      calls := calls + [Call(rid, Some(rid), clock, None, None, false)];
      pendingRequests := pendingRequests[rid := index];
      assert State() == next;
    }

    /**
     * `resChan.onmessage`: a reply without a usable id or with an unknown id
     * is ignored; otherwise its call is resolved and the entry stays.
     */
    method OnMessage(data: Inbound)
      requires Valid()
      modifies this
      ensures Valid() && State() == Deliver(old(State()), CorrelationKey(data), ToResponse(data))
      ensures pendingRequests == old(pendingRequests)
    {
      StepLive(State(), Delivered(CorrelationKey(data), ToResponse(data)));
      var resp := ToResponse(data);
      var id := CorrelationKey(data);
      if id.None? || id.value !in pendingRequests {
        return;
      }
      var i := pendingRequests[id.value];
      calls := calls[i := Resolve(calls[i], resp)];
    }

    /** The timer of call `i` fires: `pendingRequests.delete(id)` and the 504 joins the race. */
    method TimerFired(i: nat)
      requires Valid() && CanFire(State(), i)
      modifies this
      ensures Valid() && State() == Fire(old(State()), i)
      ensures old(calls[i].key.value) !in pendingRequests
      ensures Outcome(i) == if old(Outcome(i)).Some? then old(Outcome(i)) else Some(TimeoutResponse)
    {
      StepLive(State(), Fired(i));
      var c := calls[i];
      pendingRequests := pendingRequests - {c.key.value};
      calls := calls[i := c.(timerFired := true, outcome := if c.outcome.None? then Some(TimeoutResponse) else c.outcome)];
    }

    /** Time passes on the host. */
    method Elapse(ms: nat)
      requires Valid()
      modifies this
      ensures Valid() && State() == Advance(old(State()), ms)
    {
      StepLive(State(), Elapsed(ms));
      clock := clock + ms;
    }
  }

  /** Scenario: an allow-listed URL is fetched and the table is untouched. */
  method AllowListedIsFetched(w: Worker, body: Bytes, rid: string)
    requires w.Valid() && IsUuidV4(rid) && FreshKey(w.State(), rid)
    modifies w
    ensures w.State() == old(w.State())
  {
    assert Files(w.origin)[1] == w.origin + "/favicon.ico";
    var r := w.HandleRequest(LiveRequest(w.origin + "/favicon.ico", "GET", [], Some(body)), rid);
    assert r == Fetched;
  }

  /** Scenario: a reply echoing the id arrives before the timer: the caller gets it, status and body intact. */
  method ReplyBeforeTimeout(w: Worker, url: string, rid: string) returns (i: nat)
    requires w.Valid() && IsUuidV4(rid) && FreshKey(w.State(), rid) && url !in Files(w.origin)
    modifies w
    ensures w.Valid() && i == |old(w.calls)| < |w.calls|
    ensures w.Outcome(i) == Some(JsResponse(200, [(CorrelationIdHeader, rid)], Some("ok")))
    ensures rid !in w.pendingRequests
  {
    var route := w.HandleRequest(LiveRequest(url, "GET", [], Some([])), rid);
    assert route == Raced(|old(w.calls)|);
    i := route.index;
    var reply := Inbound(Some(200), Some([(CorrelationIdHeader, rid)]), Some("ok"));
    SingleHeaderGet(CorrelationIdHeader, rid);
    assert CorrelationKey(reply) == Some(rid);
    ghost var before := w.State();
    w.OnMessage(reply);
    DeliverTargetsOwner(before, i, ToResponse(reply));
    assert w.Outcome(i) == Some(JsResponse(200, [(CorrelationIdHeader, rid)], Some("ok")));
    w.Elapse(TimeoutMs);
    w.TimerFired(i);
  }
}
