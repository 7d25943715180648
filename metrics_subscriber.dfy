/**
 * The ingestion side of the bridge (`MQTTMetricsSubscriber`): it subscribes once
 * to the three telemetry patterns and maps each incoming snake_case payload to
 * the record handed to the metrics store.
 */
module MetricsSubscriber {
  import opened Wrappers
  import opened JsonValue
  import opened Text
  import opened MqttTopics
  import opened MqttRegistry
  import Mqtt

  const MetricsPattern: string := "hbot/+/metrics"
  const OrdersPattern: string := "hbot/+/orders/+"
  const LogsPattern: string := "hbot/+/logs/+"

  /** The owner name of this service's callbacks in the broker client's registry. */
  const Owner: string := "metrics-subscriber"

  /** The second `/`-segment of a topic, if it has one. */
  function BotIdOf(topic: string): (r: Option<string>)
    ensures r.Some? <==> |Split(topic, '/')| >= 2
    ensures r.Some? ==> r.value == Split(topic, '/')[1]
  {
    var parts := Split(topic, '/');
    if |parts| >= 2 then Some(parts[1]) else None
  }

  /** Whatever follows the id, the bot id of `hbot/{id}/…` is `id`. */
  lemma {:induction false} BotIdOfTopic(botId: string, rest: string)
    requires '/' !in botId
    ensures BotIdOf(Root + "/" + botId + "/" + rest) == Some(botId)
  {
    assert '/' !in Root;
    SplitTwoHeads(Root, botId, rest, '/');
    assert Root + "/" + botId + "/" + rest == Root + ['/'] + botId + ['/'] + rest;
  }

  /** `new Date(x)` of a truthy field, or the current time. */
  datatype When = Now | Parsed(source: Json)

  /** `v?.a?.b`, which is undefined as soon as a step is missing. */
  function Field2(v: Json, a: string, b: string): (r: Option<Json>)
    ensures r.Some? <==> Get(v, a).Some? && Get(Get(v, a).value, b).Some?
  {
    match Get(v, a)
    case None => None
    case Some(inner) => Get(inner, b)
  }

  datatype MetricsRecord = MetricsRecord(
    botId: Option<string>, timestamp: When,
    balanceUsd: Option<Json>, totalPnl: Option<Json>, totalPnlPct: Option<Json>,
    activeOrdersCount: Option<Json>, filledOrdersCount: Option<Json>, volume24h: Option<Json>)

  datatype OrderRecord = OrderRecord(
    botId: Option<string>, exchangeOrderId: Option<Json>, tradingPair: Option<Json>,
    orderType: Option<Json>, orderSide: Option<Json>, price: Option<Json>, quantity: Option<Json>,
    filledQuantity: Option<Json>, status: Option<Json>, exchangeTimestamp: Option<When>)

  datatype LogRecord = LogRecord(
    botId: Option<string>, level: Option<Json>, message: Option<Json>, metadata: Option<Json>)

  /** Reading a field of a decoded `null` throws; every other value reads fine. */
  predicate Readable(decoded: Option<Json>) {
    decoded.Some? && !decoded.value.JNull?
  }

  /** `handleMetrics`: the record handed to `collectMetrics`, or nothing when the
      payload does not decode (the error is caught and logged). */
  function HandleMetrics(topic: string, message: string, parse: string -> Option<Json>): (r: Option<MetricsRecord>)
    ensures r.Some? <==> Readable(parse(message))
    ensures r.Some? ==> var p := parse(message).value;
      && r.value.botId == BotIdOf(topic)
      && r.value.timestamp == (if Get(p, "timestamp").Some? && Truthy(Get(p, "timestamp").value)
                               then Parsed(Get(p, "timestamp").value) else Now)
      && r.value.balanceUsd == Field2(p, "balance", "total")
      && r.value.totalPnl == Field2(p, "pnl", "total")
      && r.value.totalPnlPct == Field2(p, "pnl", "total_pct")
      && r.value.activeOrdersCount == Field2(p, "orders", "active")
      && r.value.filledOrdersCount == Field2(p, "orders", "filled_24h")
      && r.value.volume24h == Field2(p, "orders", "volume_24h")
  {
    var decoded := parse(message);
    if !Readable(decoded) then None
    else
      var p := decoded.value;
      var stamp := Get(p, "timestamp");
      Some(MetricsRecord(
        BotIdOf(topic),
        if stamp.Some? && Truthy(stamp.value) then Parsed(stamp.value) else Now,
        Field2(p, "balance", "total"), Field2(p, "pnl", "total"), Field2(p, "pnl", "total_pct"),
        Field2(p, "orders", "active"), Field2(p, "orders", "filled_24h"), Field2(p, "orders", "volume_24h")))
  }

  /** `handleOrder`: snake_case fields renamed one by one; the exchange timestamp is
      left undefined unless it is truthy. */
  function HandleOrder(topic: string, message: string, parse: string -> Option<Json>): (r: Option<OrderRecord>)
    ensures r.Some? <==> Readable(parse(message))
    ensures r.Some? ==> var p := parse(message).value;
      && r.value.botId == BotIdOf(topic)
      && r.value.exchangeOrderId == Get(p, "exchange_order_id")
      && r.value.tradingPair == Get(p, "trading_pair")
      && r.value.orderType == Get(p, "order_type")
      && r.value.orderSide == Get(p, "order_side")
      && r.value.price == Get(p, "price")
      && r.value.quantity == Get(p, "quantity")
      && r.value.filledQuantity == Get(p, "filled_quantity")
      && r.value.status == Get(p, "status")
      && (r.value.exchangeTimestamp.Some? <==> Get(p, "exchange_timestamp").Some? && Truthy(Get(p, "exchange_timestamp").value))
  {
    var decoded := parse(message);
    if !Readable(decoded) then None
    else
      var p := decoded.value;
      var stamp := Get(p, "exchange_timestamp");
      Some(OrderRecord(
        BotIdOf(topic), Get(p, "exchange_order_id"), Get(p, "trading_pair"), Get(p, "order_type"),
        Get(p, "order_side"), Get(p, "price"), Get(p, "quantity"), Get(p, "filled_quantity"),
        Get(p, "status"), if stamp.Some? && Truthy(stamp.value) then Some(Parsed(stamp.value)) else None))
  }

  /** `handleLog`: level, message and metadata passed through as they are. */
  function HandleLog(topic: string, message: string, parse: string -> Option<Json>): (r: Option<LogRecord>)
    ensures r.Some? <==> Readable(parse(message))
    ensures r.Some? ==> var p := parse(message).value;
      r.value == LogRecord(BotIdOf(topic), Get(p, "level"), Get(p, "message"), Get(p, "metadata"))
  {
    var decoded := parse(message);
    if !Readable(decoded) then None
    else
      var p := decoded.value;
      Some(LogRecord(BotIdOf(topic), Get(p, "level"), Get(p, "message"), Get(p, "metadata")))
  }

  /** On a telemetry topic the bridge publishes, every record carries the topic's bot id. */
  lemma RecordsCarryBotId(botId: string, rest: string, message: string, parse: string -> Option<Json>)
    requires '/' !in botId
    ensures var topic := Root + "/" + botId + "/" + rest;
      && (HandleMetrics(topic, message, parse).Some? ==> HandleMetrics(topic, message, parse).value.botId == Some(botId))
      && (HandleOrder(topic, message, parse).Some? ==> HandleOrder(topic, message, parse).value.botId == Some(botId))
      && (HandleLog(topic, message, parse).Some? ==> HandleLog(topic, message, parse).value.botId == Some(botId))
  {
    BotIdOfTopic(botId, rest);
  }

  class Subscriber {
    var isSubscribed: bool
    /** Serial of the next callback this service registers. */
    var nextSerial: nat
    const service: Mqtt.MqttService

    constructor(service: Mqtt.MqttService)
      ensures this.service == service && !isSubscribed && nextSerial == 0
    {
      this.service := service;
      isSubscribed := false;
      nextSerial := 0;
    }

    /** `start()`: a no-op once subscribed; otherwise the three telemetry patterns are
        subscribed in turn with fresh callbacks, and the flag is set only when all
        three subscriptions resolved. A connection failure stops it at the first. */
    method Start(answer: Mqtt.ConnectAnswer, subackOk: string -> bool) returns (r: Outcome)
      requires service.Valid()
      modifies this, service
      ensures service.Valid()
      ensures old(isSubscribed) ==>
        (r == Pass && isSubscribed && nextSerial == old(nextSerial)
         && service.subscribers == old(service.subscribers) && service.Connection() == old(service.Connection()))
      ensures !old(isSubscribed) ==> r == Mqtt.ConnectOutcome(old(service.Connection()), answer)
      ensures !old(isSubscribed) && r.Fail? ==>
        !isSubscribed && service.subscribers == old(service.subscribers)
      ensures !old(isSubscribed) && r.Pass? ==>
        (isSubscribed && nextSerial == old(nextSerial) + 3
         && service.subscribers == SubscribeStep(SubscribeStep(SubscribeStep(old(service.subscribers),
              MetricsPattern, CallbackId(Owner, old(nextSerial)), subackOk(MetricsPattern)),
              OrdersPattern, CallbackId(Owner, old(nextSerial) + 1), subackOk(OrdersPattern)),
              LogsPattern, CallbackId(Owner, old(nextSerial) + 2), subackOk(LogsPattern)))
    {
      if isSubscribed {
        return Pass;
      }
      var metricsCallback := CallbackId(Owner, nextSerial);
      var ordersCallback := CallbackId(Owner, nextSerial + 1);
      var logsCallback := CallbackId(Owner, nextSerial + 2);
      nextSerial := nextSerial + 3;
      ghost var subs0 := service.subscribers;
      r := service.Subscribe(MetricsPattern, metricsCallback, answer, subackOk(MetricsPattern));
      if r.Fail? {
        return;
      }
      ghost var subs1 := service.subscribers;
      assert Mqtt.IsConnected(service.Connection());
      var second := service.Subscribe(OrdersPattern, ordersCallback, answer, subackOk(OrdersPattern));
      assert second == Pass;
      ghost var subs2 := service.subscribers;
      var third := service.Subscribe(LogsPattern, logsCallback, answer, subackOk(LogsPattern));
      assert third == Pass;
      isSubscribed := true;
    }

    /** `stop()`: only the flag is cleared; the callbacks stay registered. */
    method Stop()
      modifies this
      ensures !isSubscribed && nextSerial == old(nextSerial)
    {
      isSubscribed := false;
    }
  }
}
