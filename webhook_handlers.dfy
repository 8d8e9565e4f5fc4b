/**
 * The event relay (src/webhook/handlers.js): a log line is described for the
 * known event types, the payload is stamped with the server time, and the
 * event goes to room `broadcast` whatever its type once the relay completes;
 * as written, logging the described line throws before the broadcast. Logging is an effect the
 * model records but does not perform.
 */
module WebhookHandlers {
  import opened Wrappers
  import opened Js
  import opened Rooms
  import SocketHandlers

  /** What `formatEventLog` returns for a known event type. */
  datatype Formatted = Formatted(tag: string, message: string, context: map<string, Json>)

  /** `u(val)`: `val || 'unknown'`, rendered in a template literal. */
  function U(v: Json): string
  {
    Display(Or(v, Str("unknown")))
  }

  /** `${val ?? '?'}`. */
  function OrQuestion(v: Json): string
  {
    Display(Coalesce(v, Str("?")))
  }

  /**
   * `formatEventLog(event, data)`. The cases for `SYNC_EVENTS.USER_LOGIN`
   * and `SYNC_EVENTS.USER_LOGOUT` compare with `undefined`, since
   * SYNC_EVENTS has neither key: an undefined event takes the first of them,
   * and the second can never be reached.
   */
  function FormatEventLog(event: Json, data: Json): (r: Option<Formatted>)
    ensures r.None? <==> event != Undefined && !IsKnownEvent(event)
  {
    var userId := Get(data, "user_id");
    if event == Undefined then
      Some(Formatted("LOGIN",
        "User \"" + U(Get(data, "name")) + "\" (" + U(Get(data, "email")) + ") logged in [" + U(Get(data, "user_type")) + "]",
        map["userId" := userId, "email" := Get(data, "email"), "name" := Get(data, "name"), "role" := Get(data, "user_type")]))
    else if event == Undefined then
      Some(Formatted("LOGOUT",
        "User \"" + U(Get(data, "name")) + "\" (" + U(Get(data, "email")) + ") logged out",
        map["userId" := userId, "email" := Get(data, "email"), "name" := Get(data, "name")]))
    else if event == Str(SocketHandlers.ProductCreated) then
      Some(Formatted("PRODUCT",
        "Product created: \"" + U(Get(data, "name")) + "\" (ID: " + U(Get(data, "id")) + ")",
        map["productId" := Get(data, "id"), "userId" := userId]))
    else if event == Str(SocketHandlers.ProductUpdated) then
      Some(Formatted("PRODUCT",
        "Product updated: \"" + U(Get(data, "name")) + "\" (ID: " + U(Get(data, "id")) + ")",
        map["productId" := Get(data, "id"), "userId" := userId]))
    else if event == Str(SocketHandlers.ProductDeleted) then
      Some(Formatted("PRODUCT",
        "Product deleted: ID " + U(Get(data, "id")),
        map["productId" := Get(data, "id"), "userId" := userId]))
    else if event == Str(SocketHandlers.StockUpdated) then
      Some(Formatted("STOCK",
        "Stock updated for product ID " + U(Get(data, "product_id")) + ": " + OrQuestion(Get(data, "old_quantity"))
        + " -> " + OrQuestion(Coalesce(Get(data, "new_quantity"), Get(data, "quantity"))),
        map["productId" := Get(data, "product_id"), "userId" := userId]))
    else if event == Str(SocketHandlers.OrderCreated) then
      Some(Formatted("ORDER",
        "Order created: #" + U(Or(Get(data, "order_number"), Get(data, "id"))),
        map["orderId" := Get(data, "id"), "userId" := userId]))
    else if event == Str(SocketHandlers.OrderUpdated) then
      Some(Formatted("ORDER",
        "Order updated: #" + U(Or(Get(data, "order_number"), Get(data, "id"))) + " -> " + U(Get(data, "status")),
        map["orderId" := Get(data, "id"), "userId" := userId]))
    else if event == Str(SocketHandlers.CategoryCreated) then
      Some(Formatted("CATEGORY",
        "Category created: \"" + U(Get(data, "name")) + "\" (ID: " + U(Get(data, "id")) + ")",
        map["categoryId" := Get(data, "id"), "userId" := userId]))
    else if event == Str(SocketHandlers.CategoryUpdated) then
      Some(Formatted("CATEGORY",
        "Category updated: \"" + U(Get(data, "name")) + "\" (ID: " + U(Get(data, "id")) + ")",
        map["categoryId" := Get(data, "id"), "userId" := userId]))
    else if event == Str(SocketHandlers.CategoryDeleted) then
      Some(Formatted("CATEGORY",
        "Category deleted: ID " + U(Get(data, "id")),
        map["categoryId" := Get(data, "id"), "userId" := userId]))
    else None
  }

  /** `Object.values(SYNC_EVENTS).includes(event)`. */
  predicate IsKnownEvent(event: Json)
  {
    event.Str? && event.s in SocketHandlers.SyncEvents
  }

  /**
   * Every known tag is described, under the tag named by its namespace:
   * `product:*` as PRODUCT, `stock:updated` as STOCK, `order:*` as ORDER and
   * `category:*` as CATEGORY.
   */
  lemma FormatTagFollowsNamespace(s: string, data: Json)
    requires s in SocketHandlers.SyncEvents
    ensures FormatEventLog(Str(s), data).Some?
    ensures "product:" <= s ==> FormatEventLog(Str(s), data).value.tag == "PRODUCT"
    ensures "stock:" <= s ==> FormatEventLog(Str(s), data).value.tag == "STOCK"
    ensures "order:" <= s ==> FormatEventLog(Str(s), data).value.tag == "ORDER"
    ensures "category:" <= s ==> FormatEventLog(Str(s), data).value.tag == "CATEGORY"
  {
    var i :| 0 <= i < |SocketHandlers.SyncEvents| && SocketHandlers.SyncEvents[i] == s;
    if i < 3 {
      assert s[0] == 'p';
    } else if i == 3 {
      assert s[0] == 's';
    } else if i < 6 {
      assert s[0] == 'o';
    } else {
      assert s[0] == 'c';
    }
  }

  /** An undefined event (a batch item without `event`) is described as a LOGIN. */
  lemma UndefinedEventIsLogin(data: Json)
    ensures FormatEventLog(Undefined, data).Some?
    ensures FormatEventLog(Undefined, data).value.tag == "LOGIN"
  {
  }

  /** No event is ever described as a LOGOUT. */
  lemma LogoutUnreachable(event: Json, data: Json)
    ensures FormatEventLog(event, data).None? || FormatEventLog(event, data).value.tag != "LOGOUT"
  {
  }

  /** A falsy field renders as "unknown": a product id of 0 shows as `ID unknown`. */
  lemma FalsyFieldShowsUnknown(v: Json)
    requires !Truthy(v)
    ensures U(v) == "unknown"
    ensures FormatEventLog(Str(SocketHandlers.ProductDeleted), Obj(map["id" := v])).value.message
            == "Product deleted: ID unknown"
  {
  }

  /** The stock line of the example payload `{product_id: 7, old_quantity: 5, new_quantity: 3}`. */
  lemma StockMessageExample()
    ensures FormatEventLog(Str(SocketHandlers.StockUpdated),
              Obj(map["product_id" := Num(7), "old_quantity" := Num(5), "new_quantity" := Num(3)])).value.message
            == "Stock updated for product ID 7: 5 -> 3"
  {
    assert Display(Num(7)) == "7" && Display(Num(5)) == "5" && Display(Num(3)) == "3";
  }

  /** The stock line: the old quantity, and the new quantity or else `quantity`, both through `??`. */
  lemma StockLine(data: Json, product: string, before: string, after: string)
    requires U(Get(data, "product_id")) == product
    requires OrQuestion(Get(data, "old_quantity")) == before
    requires OrQuestion(Coalesce(Get(data, "new_quantity"), Get(data, "quantity"))) == after
    ensures FormatEventLog(Str(SocketHandlers.StockUpdated), data).value.message
            == "Stock updated for product ID " + product + ": " + before + " -> " + after
  {
  }

  /**
   * Quantities use `??`, not `||`: an old quantity of 0 shows as "0", and a
   * missing `new_quantity` falls back to `quantity`.
   */
  lemma StockZeroAndFallback(data: Json)
    requires Get(data, "old_quantity") == Num(0)
    requires Get(data, "new_quantity") == Undefined && !Nullish(Get(data, "quantity"))
    ensures FormatEventLog(Str(SocketHandlers.StockUpdated), data).value.message
            == "Stock updated for product ID " + U(Get(data, "product_id")) + ": 0 -> " + Display(Get(data, "quantity"))
  {
    assert IntToString(0) == "0";
    StockLine(data, U(Get(data, "product_id")), "0", Display(Get(data, "quantity")));
  }

  /** Missing quantities, and a `null` new quantity with no `quantity`, show as "?". */
  lemma StockMissingQuantities(data: Json)
    requires Get(data, "old_quantity") == Undefined
    requires Nullish(Get(data, "new_quantity")) && Get(data, "quantity") == Undefined
    ensures FormatEventLog(Str(SocketHandlers.StockUpdated), data).value.message
            == "Stock updated for product ID " + U(Get(data, "product_id")) + ": ? -> ?"
  {
    StockLine(data, U(Get(data, "product_id")), "?", "?");
  }

  /** Order lines show `order_number`, or `id` when the order number is falsy. */
  lemma OrderNumberFallsBackToId(data: Json)
    requires !Truthy(Get(data, "order_number"))
    ensures FormatEventLog(Str(SocketHandlers.OrderCreated), data).value.message == "Order created: #" + U(Get(data, "id"))
  {
  }

  /** The log calls `handleWebhookEvent` makes. */
  datatype LogEffect =
    | UnknownEventWarning(event: Json)
    | DescribedInfo(entry: Formatted)
    | GenericInfo(event: Json)

  /** The value `handleWebhookEvent` returns. */
  datatype RelayResult = RelayResult(broadcasted: bool, event: Json, timestamp: int)

  /** One relayed event: the returned value, the packet sent to `broadcast`, the log calls. */
  datatype Relayed = Relayed(result: RelayResult, broadcast: Packet, logs: seq<LogEffect>)

  const ServerTimestamp: string := "_serverTimestamp"

  /**
   * `{...data, _serverTimestamp: now}`: an object holding every field the
   * spread copies, with `_serverTimestamp` added or overwritten.
   */
  function Enrich(data: Json, now: int): (e: Json)
    ensures e.Obj? && ServerTimestamp in e.fields && e.fields[ServerTimestamp] == Num(now)
    ensures forall k :: k != ServerTimestamp ==>
              (k in e.fields <==> k in Spread(data))
              && (k in Spread(data) ==> e.fields[k] == Spread(data)[k])
  {
    Obj(Spread(data)[ServerTimestamp := Num(now)])
  }

  /**
   * `handleWebhookEvent(io, event, data)` at clock reading `now`, once it
   * runs to completion (`RelayOutcome` and `RelayAsWritten` say when it
   * does), the log calls recorded as effects: every event type is broadcast,
   * unknown ones after a warning; the payload is the data with
   * `_serverTimestamp` set, and the same time is returned.
   */
  function RelayEvent(event: Json, data: Json, now: int): (r: Relayed)
    ensures r.result.broadcasted && r.result.event == event && r.broadcast.event == event
    ensures r.broadcast.data.Obj? && ServerTimestamp in r.broadcast.data.fields
    ensures r.broadcast.data.fields[ServerTimestamp] == Num(r.result.timestamp) && r.result.timestamp == now
    ensures forall k :: k != ServerTimestamp ==>
              (k in r.broadcast.data.fields <==> k in Spread(data))
              && (k in Spread(data) ==> r.broadcast.data.fields[k] == Spread(data)[k])
    ensures UnknownEventWarning(event) in r.logs <==> !IsKnownEvent(event)
  {
    var warning := if IsKnownEvent(event) then [] else [UnknownEventWarning(event)];
    var described := match FormatEventLog(event, data)
      case Some(f) => DescribedInfo(f)
      case None => GenericInfo(event);
    Relayed(RelayResult(true, event, now), Packet(event, Enrich(data, now)), warning + [described])
  }

  /** Whether `formatEventLog` takes one of its cases, and so reads properties of `data`. */
  predicate Described(event: Json)
  {
    event == Undefined || IsKnownEvent(event)
  }

  /** V8's TypeError message for reading property `key` of `null` or `undefined`. */
  function ReadError(target: Json, key: string): string
  {
    "Cannot read properties of " + (if target.Null? then "null" else "undefined") + " (reading '" + key + "')"
  }

  /** The property of `data` that the case `formatEventLog` takes for `event` reads first. */
  function FirstRead(event: Json): string
  {
    if event == Str(SocketHandlers.ProductDeleted) || event == Str(SocketHandlers.CategoryDeleted) then "id"
    else if event == Str(SocketHandlers.StockUpdated) then "product_id"
    else if event == Str(SocketHandlers.OrderCreated) || event == Str(SocketHandlers.OrderUpdated) then "order_number"
    else "name"
  }

  /**
   * What the relay throws on the way to its logging call, whatever the
   * logger: a described case reading a property of nullish `data`, or, for
   * any other event, `JSON.stringify(undefined)` having no `substring`.
   */
  function DataError(event: Json, data: Json): (e: Option<string>)
    ensures e.Some? <==> data.Undefined? || (data.Null? && Described(event))
  {
    if Described(event) then
      if Nullish(data) then Some(ReadError(data, FirstRead(event))) else None
    else if data.Undefined? then Some(ReadError(Undefined, "substring"))
    else None
  }

  /**
   * The corrected relay as the routes see it: it throws only for `undefined`
   * data, or for `null` data of a described event, and otherwise completes
   * as `RelayEvent` says.
   */
  function RelayOutcome(event: Json, data: Json, now: int): (r: Result<Relayed, string>)
    ensures r.Failure? <==> data.Undefined? || (data.Null? && Described(event))
    ensures r.Success? ==> r.value == RelayEvent(event, data, now)
  {
    match DataError(event, data)
    case Some(e) => Failure(e)
    case None => Success(RelayEvent(event, data, now))
  }

  const LogWithContextMissing: string := "logger.logWithContext is not a function"

  /**
   * The relay as written: the logger has no `logWithContext`, so for the
   * nine known tags and for `undefined` the call throws a TypeError before
   * anything is broadcast. Every exception of the corrected relay is thrown
   * earlier, and is thrown here too.
   */
  function RelayAsWritten(event: Json, data: Json, now: int): (r: Result<Relayed, string>)
    ensures r.Failure? <==> Described(event) || data.Undefined?
    ensures r.Failure? && !Nullish(data) ==> r.error == LogWithContextMissing
    ensures RelayOutcome(event, data, now).Failure? || !Described(event) ==> r == RelayOutcome(event, data, now)
    ensures r.Success? ==> r.value == RelayEvent(event, data, now)
  {
    match DataError(event, data)
    case Some(e) => Failure(e)
    case None =>
      if FormatEventLog(event, data).Some? then Failure(LogWithContextMissing)
      else Success(RelayEvent(event, data, now))
  }

  /**
   * `handleWebhookEvent` as written, against the registry: a described event
   * throws (at the missing `logWithContext`, or earlier when `data` is
   * nullish), as does undefined `data`, and nothing is sent; any other event
   * reaches exactly the members of `broadcast`, stamped.
   */
  method HandleWebhookEvent(io: Registry, event: Json, data: Json, now: int) returns (result: Result<RelayResult, string>)
    requires io.Valid()
    modifies io
    ensures io.Valid()
    ensures result.Failure? <==> RelayAsWritten(event, data, now).Failure?
    ensures result.Failure? ==> result.error == RelayAsWritten(event, data, now).error && io.outbox == old(io.outbox)
    ensures result.Success? ==>
              result.value == RelayEvent(event, data, now).result
              && io.outbox == Deliver(old(io.outbox), Members(old(io.rooms), SocketHandlers.BroadcastRoom),
                                      RelayEvent(event, data, now).broadcast)
    ensures io.rooms == old(io.rooms) && io.connected == old(io.connected)
  {
    var thrown := DataError(event, data);
    if thrown.Some? {
      return Failure(thrown.value);
    }
    if FormatEventLog(event, data).Some? {
      return Failure(LogWithContextMissing);
    }
    var enriched := Enrich(data, now);
    var _ := SocketHandlers.BroadcastEvent(io, event, enriched);
    result := Success(RelayResult(true, event, now));
  }

  /**
   * The corrected `handleWebhookEvent` against the registry: unless `data`
   * makes it throw, every event, stamped, reaches exactly the members of
   * `broadcast`, and the result carries the stamp.
   */
  method HandleWebhookEventCorrected(io: Registry, event: Json, data: Json, now: int) returns (result: Result<RelayResult, string>)
    requires io.Valid()
    modifies io
    ensures io.Valid()
    ensures result.Failure? <==> RelayOutcome(event, data, now).Failure?
    ensures result.Failure? ==> result.error == RelayOutcome(event, data, now).error && io.outbox == old(io.outbox)
    ensures result.Success? ==>
              result.value == RelayEvent(event, data, now).result
              && io.outbox == Deliver(old(io.outbox), Members(old(io.rooms), SocketHandlers.BroadcastRoom),
                                      RelayEvent(event, data, now).broadcast)
    ensures io.rooms == old(io.rooms) && io.connected == old(io.connected)
  {
    var thrown := DataError(event, data);
    if thrown.Some? {
      return Failure(thrown.value);
    }
    var enriched := Enrich(data, now);
    var _ := SocketHandlers.BroadcastEvent(io, event, enriched);
    result := Success(RelayResult(true, event, now));
  }
}
