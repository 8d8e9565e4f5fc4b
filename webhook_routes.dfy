/**
 * The HTTP handlers (src/webhook/routes.js) as functions from a request to
 * the response and the broadcasts made on the way. The relay is a parameter,
 * so the same handlers can be read with the relay as written and with the
 * corrected one.
 */
module WebhookRoutes {
  import opened Wrappers
  import opened Js
  import opened Rooms
  import SocketHandlers
  import opened WebhookVerify
  import opened WebhookHandlers

  /** One entry of a batch's `results`: the relay's value, or `{error, event}`. */
  datatype ItemResult = ItemRelayed(result: RelayResult) | ItemFailed(error: string, event: Json)

  /** The JSON bodies the handlers answer with. */
  datatype Body =
    | Failed(error: string)
    | EventAccepted(result: RelayResult)
    | BatchAccepted(processed: nat, results: seq<ItemResult>)
    | HealthOk(timestamp: int, connections: nat, uniqueUsers: nat)
    | HealthError(error: string)

  datatype Response = Response(status: int, body: Body)

  /** A handled request: the response, and the packets broadcast while handling it. */
  datatype Handled = Handled(response: Response, broadcasts: seq<Packet>)

  /** `handleWebhookEvent` as the handlers call it: a relayed event, or the message it threw. */
  type Relayer = (Json, Json, int) -> Result<Relayed, string>

  const EventRequired: string := "Event type is required"
  const ProcessingFailed: string := "Failed to process webhook"
  const EventsArrayRequired: string := "Events array is required"

  function Rejected(status: int, error: string): Handled
  {
    Handled(Response(status, Failed(error)), [])
  }

  /**
   * `POST /events` at clock reading `now`. Destructuring a `null` body
   * throws outside the handler's `try`, and the error handler answers.
   */
  function PostEvents(req: Request, cfg: SigningConfig, relay: Relayer, now: int): (h: Handled)
    ensures h.response.status in {200, 400, 401, 500}
    ensures h.response.status == 200 <==>
              VerifySignature(req, cfg) == Next && !Nullish(req.body) && Truthy(Get(req.body, "event"))
              && relay(Get(req.body, "event"), Or(Get(req.body, "data"), EmptyObject), now).Success?
    ensures h.broadcasts != [] <==> h.response.status == 200
    ensures |h.broadcasts| <= 1
  {
    match VerifySignature(req, cfg)
    case Reject(status, error) => Rejected(status, error)
    case Next =>
      if Nullish(req.body) then Rejected(500, InternalError)
      else
        var event := Get(req.body, "event");
        if !Truthy(event) then Rejected(400, EventRequired)
        else
          match relay(event, Or(Get(req.body, "data"), EmptyObject), now)
          case Failure(_) => Rejected(500, ProcessingFailed)
          case Success(r) => Handled(Response(200, EventAccepted(r.result)), [r.broadcast])
  }

  /**
   * One call of the `events.map` callback: `None` when destructuring the
   * item throws (it is `null` or `undefined`), which no `try` catches.
   */
  function RunItem(item: Json, relay: Relayer, now: int): (o: Option<(ItemResult, seq<Packet>)>)
    ensures o.None? <==> Nullish(item)
    ensures o.Some? ==> (o.value.0.ItemRelayed? <==> |o.value.1| == 1) && |o.value.1| <= 1
  {
    if Nullish(item) then None
    else
      var event := Get(item, "event");
      match relay(event, Or(Get(item, "data"), EmptyObject), now)
      case Success(r) => Some((ItemRelayed(r.result), [r.broadcast]))
      case Failure(message) => Some((ItemFailed(message, event), []))
  }

  /** The results and broadcasts of `events.map`, and whether it stopped on a throw. */
  datatype BatchRun = BatchRun(results: seq<ItemResult>, broadcasts: seq<Packet>, aborted: bool)

  /** `events.map(...)` over `items`, the item at index `i` stamped with `clock(start + i)`. */
  function RunBatch(items: seq<Json>, relay: Relayer, clock: nat -> int, start: nat): (run: BatchRun)
    ensures |run.results| <= |items|
    ensures !run.aborted ==> |run.results| == |items|
    ensures |run.broadcasts| <= |run.results|
    decreases |items|
  {
    if |items| == 0 then BatchRun([], [], false)
    else
      match RunItem(items[0], relay, clock(start))
      case None => BatchRun([], [], true)
      case Some((result, sent)) =>
        var rest := RunBatch(items[1..], relay, clock, start + 1);
        BatchRun([result] + rest.results, sent + rest.broadcasts, rest.aborted)
  }

  /** `POST /batch`, the item at index `i` relayed at clock reading `clock(i)`. */
  function PostBatch(req: Request, cfg: SigningConfig, relay: Relayer, clock: nat -> int): (h: Handled)
    ensures h.response.status in {200, 400, 401, 500}
    ensures h.broadcasts != [] ==> VerifySignature(req, cfg) == Next && Get(req.body, "events").Arr?
    ensures h.response.status == 200 ==>
              h.response.body.BatchAccepted? && Get(req.body, "events").Arr?
              && h.response.body.processed == |h.response.body.results| == |Get(req.body, "events").items|
              && |h.broadcasts| <= h.response.body.processed
  {
    match VerifySignature(req, cfg)
    case Reject(status, error) => Rejected(status, error)
    case Next =>
      if Nullish(req.body) then Rejected(500, InternalError)
      else
        var events := Get(req.body, "events");
        if !events.Arr? then Rejected(400, EventsArrayRequired)
        else
          var run := RunBatch(events.items, relay, clock, 0);
          if run.aborted then Handled(Response(500, Failed(InternalError)), run.broadcasts)
          else Handled(Response(200, BatchAccepted(|run.results|, run.results)), run.broadcasts)
  }

  /** `GET /health` over what `fetchSockets` produced, at clock reading `now`. */
  function GetHealth(fetched: Result<seq<SocketInfo>, string>, now: int): (r: Response)
    ensures r.status == 200 <==> fetched.Success?
    ensures r.status == 200 ==> r.body.HealthOk? && r.body.timestamp == now && r.body.uniqueUsers <= r.body.connections
    ensures r.status != 200 ==> r.status == 500 && r.body.HealthError?
  {
    match fetched
    case Failure(message) => Response(500, HealthError(message))
    case Success(sockets) =>
      var clients := SocketHandlers.GetConnectedClients(sockets);
      Response(200, HealthOk(now, clients.total, |clients.users|))
  }

  /** Both POST routes verify the signature first: a rejected request is answered as the gate says, and nothing is relayed. */
  lemma SignatureCheckedFirst(req: Request, cfg: SigningConfig, relay: Relayer, now: int, clock: nat -> int)
    requires VerifySignature(req, cfg).Reject?
    ensures var gate := VerifySignature(req, cfg);
            PostEvents(req, cfg, relay, now) == Rejected(gate.status, gate.error)
            && PostBatch(req, cfg, relay, clock) == Rejected(gate.status, gate.error)
  {
  }

  /** A verified `/events` request with a falsy `event` gets 400 and the relay is never consulted. */
  lemma EventTypeRequired(req: Request, cfg: SigningConfig, relay: Relayer, other: Relayer, now: int)
    requires VerifySignature(req, cfg) == Next
    requires !Nullish(req.body) && !Truthy(Get(req.body, "event"))
    ensures PostEvents(req, cfg, relay, now) == Rejected(400, EventRequired)
    ensures PostEvents(req, cfg, relay, now) == PostEvents(req, cfg, other, now)
  {
  }

  /**
   * A verified `/events` request with a truthy `event` relays `event` and
   * `data || {}`: a relay exception becomes 500, any other outcome a 200
   * carrying `success: true` and the relay's result.
   */
  lemma EventsRelayed(req: Request, cfg: SigningConfig, relay: Relayer, now: int)
    requires VerifySignature(req, cfg) == Next
    requires !Nullish(req.body) && Truthy(Get(req.body, "event"))
    ensures var out := relay(Get(req.body, "event"), Or(Get(req.body, "data"), EmptyObject), now);
            PostEvents(req, cfg, relay, now)
            == if out.Failure? then Rejected(500, ProcessingFailed)
               else Handled(Response(200, EventAccepted(out.value.result)), [out.value.broadcast])
  {
  }

  /**
   * With the corrected relay a verified event is accepted whatever its type:
   * one broadcast of the stamped data, and the answer carries the same stamp.
   */
  lemma EventsAcceptedAnyType(req: Request, cfg: SigningConfig, now: int)
    requires VerifySignature(req, cfg) == Next
    requires !Nullish(req.body) && Truthy(Get(req.body, "event"))
    ensures var h := PostEvents(req, cfg, RelayOutcome, now);
            var event := Get(req.body, "event");
            h.response.status == 200
            && h.response.body == EventAccepted(RelayResult(true, event, now))
            && h.broadcasts == [Packet(event, Enrich(Or(Get(req.body, "data"), EmptyObject), now))]
  {
  }

  /** The item result the map callback produces for a non-nullish item. */
  function ItemOutcome(item: Json, relay: Relayer, now: int): ItemResult
    requires !Nullish(item)
  {
    RunItem(item, relay, now).value.0
  }

  /**
   * The batch stops exactly when some item is `null` or `undefined`;
   * otherwise there is one result per item, in order, result `i` coming from
   * item `i` alone, so a failing item never affects the others.
   */
  lemma {:induction false} RunBatchPerItem(items: seq<Json>, relay: Relayer, clock: nat -> int, start: nat)
    ensures RunBatch(items, relay, clock, start).aborted <==> exists i :: 0 <= i < |items| && Nullish(items[i])
    ensures !RunBatch(items, relay, clock, start).aborted ==>
              |RunBatch(items, relay, clock, start).results| == |items|
              && forall i :: 0 <= i < |items| ==>
                   RunBatch(items, relay, clock, start).results[i] == ItemOutcome(items[i], relay, clock(start + i))
    decreases |items|
  {
    if |items| > 0 && !Nullish(items[0]) {
      RunBatchPerItem(items[1..], relay, clock, start + 1);
      var run := RunBatch(items, relay, clock, start);
      var rest := RunBatch(items[1..], relay, clock, start + 1);
      assert run.aborted == rest.aborted;
      if exists i :: 0 <= i < |items| && Nullish(items[i]) {
        var i :| 0 <= i < |items| && Nullish(items[i]);
        assert Nullish(items[1..][i - 1]);
      }
      if !run.aborted {
        forall i | 0 <= i < |items|
          ensures run.results[i] == ItemOutcome(items[i], relay, clock(start + i))
        {
          if i > 0 {
            assert items[1..][i - 1] == items[i];
          }
        }
      }
    }
  }

  /** A verified batch whose `events` ran without a throw gets 200 with that run's results and broadcasts. */
  lemma BatchAnswer(req: Request, cfg: SigningConfig, relay: Relayer, clock: nat -> int)
    requires VerifySignature(req, cfg) == Next
    requires !Nullish(req.body) && Get(req.body, "events").Arr?
    requires !RunBatch(Get(req.body, "events").items, relay, clock, 0).aborted
    ensures var run := RunBatch(Get(req.body, "events").items, relay, clock, 0);
            PostBatch(req, cfg, relay, clock)
            == Handled(Response(200, BatchAccepted(|run.results|, run.results)), run.broadcasts)
  {
  }

  /**
   * A verified batch with a `null` or `undefined` item anywhere gets 500
   * from the error handler, although the broadcasts of the items before it
   * have already been made.
   */
  lemma BatchAbortedByNullishItem(req: Request, cfg: SigningConfig, relay: Relayer, clock: nat -> int, i: nat)
    requires VerifySignature(req, cfg) == Next
    requires !Nullish(req.body) && Get(req.body, "events").Arr?
    requires i < |Get(req.body, "events").items| && Nullish(Get(req.body, "events").items[i])
    ensures var run := RunBatch(Get(req.body, "events").items, relay, clock, 0);
            run.aborted
            && PostBatch(req, cfg, relay, clock) == Handled(Response(500, Failed(InternalError)), run.broadcasts)
  {
    RunBatchPerItem(Get(req.body, "events").items, relay, clock, 0);
  }

  /**
   * A verified batch of non-nullish items gets 200 with `processed` equal to
   * the number of events and one result per event, in order; items need no
   * `event` field.
   */
  lemma BatchResults(req: Request, cfg: SigningConfig, relay: Relayer, clock: nat -> int)
    requires VerifySignature(req, cfg) == Next
    requires !Nullish(req.body) && Get(req.body, "events").Arr?
    requires forall i :: 0 <= i < |Get(req.body, "events").items| ==> !Nullish(Get(req.body, "events").items[i])
    ensures var items := Get(req.body, "events").items;
            var r := PostBatch(req, cfg, relay, clock).response;
            r.status == 200 && r.body.BatchAccepted?
            && r.body.processed == |r.body.results| == |items|
            && forall i :: 0 <= i < |items| ==> r.body.results[i] == ItemOutcome(items[i], relay, clock(i))
  {
    var items := Get(req.body, "events").items;
    var run := RunBatch(items, relay, clock, 0);
    RunBatchPerItem(items, relay, clock, 0);
    assert !run.aborted;
    BatchAnswer(req, cfg, relay, clock);
    assert forall i :: 0 <= i < |items| ==> run.results[i] == ItemOutcome(items[i], relay, clock(0 + i));
  }

  /** A batch item whose relay throws is reported as `{error, event}` with the thrown message. */
  lemma FailedItemReported(item: Json, relay: Relayer, now: int)
    requires !Nullish(item)
    requires relay(Get(item, "event"), Or(Get(item, "data"), EmptyObject), now).Failure?
    ensures ItemOutcome(item, relay, now)
            == ItemFailed(relay(Get(item, "event"), Or(Get(item, "data"), EmptyObject), now).error, Get(item, "event"))
  {
  }

  /** A verified `/batch` whose `events` is not an array gets 400. */
  lemma EventsArrayMissing(req: Request, cfg: SigningConfig, relay: Relayer, clock: nat -> int)
    requires VerifySignature(req, cfg) == Next
    requires !Nullish(req.body) && !Get(req.body, "events").Arr?
    ensures PostBatch(req, cfg, relay, clock) == Rejected(400, EventsArrayRequired)
  {
  }

  /**
   * `/health` reports one connection per connected socket and the number of
   * distinct user ids among them; a failing `fetchSockets` gives 500 with its message.
   */
  lemma HealthCounts(fetched: Result<seq<SocketInfo>, string>, now: int)
    ensures fetched.Failure? ==> GetHealth(fetched, now) == Response(500, HealthError(fetched.error))
    ensures fetched.Success? ==>
              var r := GetHealth(fetched, now);
              r.status == 200 && r.body.HealthOk? && r.body.timestamp == now
              && r.body.connections == |fetched.value|
              && r.body.uniqueUsers == |set s | s in fetched.value :: s.userId|
              && r.body.uniqueUsers <= r.body.connections
  {
    if fetched.Success? {
      SocketHandlers.UniqueUsersCount(fetched.value);
    }
  }

  /**
   * `GET /health` against the server itself: `io.fetchSockets()` yields the
   * sockets the registry holds, so the answer counts exactly its connections.
   */
  method Health(io: Registry, now: int) returns (r: Response)
    ensures r.status == 200 && r.body.HealthOk? && r.body.timestamp == now
    ensures r.body.connections == |io.connected|
    ensures r.body.uniqueUsers == |set s | s in io.connected :: s.userId|
  {
    HealthCounts(Success(io.connected), now);
    r := GetHealth(Success(io.connected), now);
  }

  /**
   * As written, a verified `/events` request for any known event type gets
   * 500 "Failed to process webhook" and nothing is broadcast.
   */
  lemma AsWrittenKnownEventFails(req: Request, cfg: SigningConfig, now: int)
    requires VerifySignature(req, cfg) == Next
    requires !Nullish(req.body) && IsKnownEvent(Get(req.body, "event"))
    ensures PostEvents(req, cfg, RelayAsWritten, now) == Rejected(500, ProcessingFailed)
  {
  }

  /**
   * As written, a batch item for a known event type, or one without `event`,
   * is reported as failed with the TypeError's message.
   */
  lemma AsWrittenBatchItemFails(item: Json, now: int)
    requires !Nullish(item)
    requires Get(item, "event") == Undefined || IsKnownEvent(Get(item, "event"))
    ensures ItemOutcome(item, RelayAsWritten, now) == ItemFailed(LogWithContextMissing, Get(item, "event"))
  {
  }
}
