/**
 * Bot lifecycle commands (src/services/bot/BotService.ts): the bots table is a map
 * from id to row, and every command goes through the broker client of
 * MQTTService.ts. Each command first checks that the bot belongs to the caller's
 * organisation; the order of table updates and publishes is the source's.
 */
module Bots {
  import opened Wrappers
  import opened JsonValue
  import opened MqttTopics
  import opened MqttRegistry
  import opened MqttCommands
  import Mqtt

  /** One row of the bots table (timestamps are not modelled). */
  datatype Bot = Bot(id: string, organizationId: string, name: string, strategyType: string,
                     exchange: string, tradingPair: string, config: Obj, status: string)

  /** `BotCreateInput`. */
  datatype BotInput = BotInput(organizationId: string, name: string, strategyType: string,
                               exchange: string, tradingPair: string, config: Obj)

  /** `BotUpdateInput`: the id and organisation, and any subset of the editable fields. */
  datatype BotUpdate = BotUpdate(id: string, organizationId: string, name: Option<string>,
                                 strategyType: Option<string>, exchange: Option<string>,
                                 tradingPair: Option<string>, config: Option<Obj>)

  type Table = map<string, Bot>

  const NotFound: string := "Bot not found or access denied"

  /** Owner name of this service's status callbacks in the broker client's registry. */
  const Owner: string := "bot-service"

  /** The `where id = … and organization_id = …` of every query: the bot exists and
      belongs to the organisation. */
  predicate Owns(bots: Table, botId: string, org: string) {
    botId in bots && bots[botId].organizationId == org
  }

  /** Every row is stored under its own id. */
  predicate WellKeyed(bots: Table) {
    forall id :: id in bots ==> bots[id].id == id
  }

  /** The row `createBot` inserts: status `stopped`. */
  function NewBot(id: string, input: BotInput): (b: Bot)
    ensures b.id == id && b.status == "stopped" && b.organizationId == input.organizationId
    ensures b.config == input.config && b.strategyType == input.strategyType
  {
    Bot(id, input.organizationId, input.name, input.strategyType, input.exchange, input.tradingPair, input.config, "stopped")
  }

  /** `{ ...bot, ...updateData }` on the editable fields; id, organisation and status
      are never touched by an update. */
  function Patch(b: Bot, u: BotUpdate): (r: Bot)
    ensures r.id == b.id && r.organizationId == b.organizationId && r.status == b.status
    ensures r.name == u.name.GetOr(b.name) && r.strategyType == u.strategyType.GetOr(b.strategyType)
    ensures r.exchange == u.exchange.GetOr(b.exchange) && r.tradingPair == u.tradingPair.GetOr(b.tradingPair)
    ensures r.config == u.config.GetOr(b.config)
  {
    b.(name := u.name.GetOr(b.name), strategyType := u.strategyType.GetOr(b.strategyType),
       exchange := u.exchange.GetOr(b.exchange), tradingPair := u.tradingPair.GetOr(b.tradingPair),
       config := u.config.GetOr(b.config))
  }

  /** The payload of the start command: the stored config with the strategy type added. */
  function StartPayload(b: Bot): (p: Obj)
    ensures p.Keys == {"config"}
    ensures p["config"] == JObj(b.config[ "strategy_type" := JStr(b.strategyType)])
  {
    map["config" := JObj(b.config["strategy_type" := JStr(b.strategyType)])]
  }

  /** The payload of a configuration update: the new config, then the strategy type and
      whether the bot can reload it without a restart (only `v2` strategies can). */
  function ConfigPayload(config: Obj, strategyType: string): (p: Obj)
    ensures p.Keys == config.Keys + {"strategy_type", "remote_reload"}
    ensures p["strategy_type"] == JStr(strategyType)
    ensures p["remote_reload"] == JBool(strategyType == "v2")
    ensures forall k :: k in config && k != "strategy_type" && k != "remote_reload" ==> p[k] == config[k]
  {
    config + map["strategy_type" := JStr(strategyType), "remote_reload" := JBool(strategyType == "v2")]
  }

  /** The status a message on `hbot/{id}/+` reports: a truthy `status` string field of a
      decodable, non-null payload. */
  function ReportedStatus(message: string, parse: string -> Option<Json>): (r: Option<string>)
    ensures r.Some? ==> parse(message).Some? && Get(parse(message).value, "status") == Some(JStr(r.value)) && r.value != ""
    ensures parse(message).Some? && Get(parse(message).value, "status").Some?
            && Get(parse(message).value, "status").value.JStr? && Get(parse(message).value, "status").value.s != ""
            ==> r.Some?
  {
    match parse(message)
    case None => None
    case Some(p) =>
      match Get(p, "status")
      case Some(JStr(s)) => if s != "" then Some(s) else None
      case _ => None
  }

  /** The start message a bot receives carries its stored config, its strategy type and
      the start defaults. */
  lemma StartCarriesStrategy(b: Bot)
    ensures var m := Encode(b.id, "start", Some(StartPayload(b))).value[0];
      && m.topic == BotTopic(b.id, "start")
      && m.message["config"] == JObj(b.config["strategy_type" := JStr(b.strategyType)])
      && m.message["log_level"] == JStr("INFO") && m.message["is_quickstart"] == JBool(true)
      && m.message["script"] == JNull
  {
  }

  /** A config update reaches `hbot/{id}/config/update` with `remote_reload` set exactly
      for `v2` strategies. */
  lemma ConfigUpdateReload(b: Bot, config: Obj)
    ensures var m := Encode(b.id, "config/update", Some(ConfigPayload(config, b.strategyType))).value[0];
      && m.topic == BotTopic(b.id, "config/update")
      && (m.message["remote_reload"] == JBool(true) <==> b.strategyType == "v2")
  {
  }

  const DefaultGatewayUrl: string := "http://localhost:8000"

  /** `process.env.GATEWAY_URL || 'http://localhost:8000'`: an empty value counts as unset. */
  function GatewayUrl(env: Option<string>): (r: string)
    ensures env.Some? && env.value != "" ==> r == env.value
    ensures env.None? || env.value == "" ==> r == DefaultGatewayUrl
  {
    if env.Some? && env.value != "" then env.value else DefaultGatewayUrl
  }

  /** The body `runBacktest` posts: the override when one is given (an object is
      truthy), otherwise the stored config, with the two dates. */
  function BacktestBody(b: Bot, startDate: string, endDate: string, configOverride: Option<Obj>): (m: Obj)
    ensures m.Keys == {"config", "start_date", "end_date"}
    ensures m["config"] == JObj(if configOverride.Some? then configOverride.value else b.config)
    ensures m["start_date"] == JStr(startDate) && m["end_date"] == JStr(endDate)
  {
    map["config" := JObj(configOverride.GetOr(b.config)), "start_date" := JStr(startDate), "end_date" := JStr(endDate)]
  }

  /** What `runBacktest` resolves with when the request or its JSON decoding throws. */
  const BacktestUnreachable: Json :=
    JObj(map["success" := JBool(false), "error" := JStr("Failed to connect to gateway")])

  class BotService {
    var bots: Table
    var organizations: set<string>
    /** Serial of the next status callback this service registers. */
    var nextSerial: nat
    const mqtt: Mqtt.MqttService

    constructor(mqtt: Mqtt.MqttService)
      ensures this.mqtt == mqtt && bots == map[] && organizations == {} && nextSerial == 0
    {
      this.mqtt := mqtt;
      bots := map[];
      organizations := {};
      nextSerial := 0;
    }

    predicate Valid()
      reads this, mqtt
    {
      WellKeyed(bots) && mqtt.Valid()
    }

    /** `getBot`: the row, when it belongs to the organisation. */
    function GetBot(botId: string, org: string): (r: Option<Bot>)
      reads this
      ensures r.Some? <==> Owns(bots, botId, org)
      ensures r.Some? ==> r.value == bots[botId]
    {
      if Owns(bots, botId, org) then Some(bots[botId]) else None
    }

    /** `listBots`: every row of the organisation (the order of rows is not modelled). */
    function ListBots(org: string): (r: set<Bot>)
      reads this
      ensures forall b :: b in r <==> b in bots.Values && b.organizationId == org
    {
      set b | b in bots.Values && b.organizationId == org
    }

    /** `createBot`: the organisation row is ensured, the bot is inserted as `stopped`,
        then a status callback is subscribed on `hbot/{id}/+`; when that subscription
        cannot connect the error propagates, but the row stays. */
    method CreateBot(input: BotInput, id: string, answer: Mqtt.ConnectAnswer, subackOk: bool) returns (r: Result<Bot>)
      requires Valid()
      requires id !in bots
      modifies this, mqtt
      ensures Valid()
      ensures organizations == old(organizations) + {input.organizationId}
      ensures bots == old(bots)[id := NewBot(id, input)]
      ensures nextSerial == old(nextSerial) + 1
      ensures r.Ok? <==> Mqtt.ConnectOutcome(old(mqtt.Connection()), answer).Pass?
      ensures r.Ok? ==> r.value == NewBot(id, input)
      ensures r.Ok? ==> mqtt.subscribers == SubscribeStep(old(mqtt.subscribers), BotPattern(id), CallbackId(Owner, old(nextSerial)), subackOk)
      ensures r.Err? ==> mqtt.subscribers == old(mqtt.subscribers)
      ensures mqtt.published == old(mqtt.published)
    {
      organizations := organizations + {input.organizationId};
      var bot := NewBot(id, input);
      bots := bots[id := bot];
      var callback := CallbackId(Owner, nextSerial);
      nextSerial := nextSerial + 1;
      var s := mqtt.SubscribeToBot(id, callback, answer, subackOk);
      if s.Fail? {
        return Err(s.error);
      }
      r := Ok(bot);
    }

    /** The status callback of `createBot`: a reported status is written to the row
        (when it still exists); anything else is logged and ignored. */
    method OnStatusMessage(botId: string, org: string, message: string, parse: string -> Option<Json>)
      requires WellKeyed(bots)
      modifies this`bots
      ensures WellKeyed(bots)
      ensures ReportedStatus(message, parse).Some? && Owns(old(bots), botId, org) ==>
        bots == old(bots)[botId := old(bots)[botId].(status := ReportedStatus(message, parse).value)]
      ensures !(ReportedStatus(message, parse).Some? && Owns(old(bots), botId, org)) ==> bots == old(bots)
    {
      var status := ReportedStatus(message, parse);
      if status.Some? {
        UpdateBotStatus(botId, org, status.value);
      }
    }

    /** `updateBotStatus`: an update filtered on id and organisation. */
    method UpdateBotStatus(botId: string, org: string, status: string)
      requires WellKeyed(bots)
      modifies this`bots
      ensures WellKeyed(bots)
      ensures Owns(old(bots), botId, org) ==> bots == old(bots)[botId := old(bots)[botId].(status := status)]
      ensures !Owns(old(bots), botId, org) ==> bots == old(bots)
    {
      if Owns(bots, botId, org) {
        bots := bots[botId := bots[botId].(status := status)];
      }
    }

    /** `updateBot`: the editable fields are overwritten; no matching row is an error. */
    method UpdateBot(u: BotUpdate) returns (r: Result<Bot>)
      requires WellKeyed(bots)
      modifies this`bots
      ensures WellKeyed(bots)
      ensures r.Err? <==> !Owns(old(bots), u.id, u.organizationId)
      ensures r.Err? ==> r.error == NotFound && bots == old(bots)
      ensures r.Ok? ==> r.value == Patch(old(bots)[u.id], u) && bots == old(bots)[u.id := r.value]
    {
      if !Owns(bots, u.id, u.organizationId) {
        return Err(NotFound);
      }
      var updated := Patch(bots[u.id], u);
      bots := bots[u.id := updated];
      r := Ok(updated);
    }

    /** `deleteBot`: the row is deleted, then every callback on `hbot/{id}/+` is dropped
        (a no-op when the broker client does not exist). */
    method DeleteBot(botId: string, org: string) returns (r: Outcome)
      requires Valid()
      modifies this`bots, mqtt`subscribers, mqtt`requests
      ensures Valid()
      ensures r.Fail? <==> !Owns(old(bots), botId, org)
      ensures r.Fail? ==> r.error == NotFound && bots == old(bots) && mqtt.subscribers == old(mqtt.subscribers)
      ensures r.Pass? ==> bots == old(bots) - {botId}
      ensures r.Pass? && mqtt.client.Present? ==> mqtt.subscribers == Drop(old(mqtt.subscribers), BotPattern(botId))
      ensures mqtt.client.NoClient? ==> mqtt.subscribers == old(mqtt.subscribers)
    {
      if GetBot(botId, org).None? {
        return Fail(NotFound);
      }
      bots := bots - {botId};
      mqtt.UnsubscribeFromBot(botId, None);
      r := Pass;
    }

    /** `runBacktest`: ownership is checked, then the backtest request is posted to
        `{gateway}/bots/{id}/backtest`; `gateway` stands for the request and the
        decoding of its answer, `None` when either throws. Nothing is stored. */
    method RunBacktest(botId: string, org: string, startDate: string, endDate: string, configOverride: Option<Obj>,
                       env: Option<string>, gateway: (string, Obj) -> Option<Json>) returns (r: Result<Json>)
      ensures r.Err? <==> !Owns(bots, botId, org)
      ensures r.Err? ==> r.error == NotFound
      ensures r.Ok? ==>
        var reply := gateway(GatewayUrl(env) + "/bots/" + botId + "/backtest",
                             BacktestBody(bots[botId], startDate, endDate, configOverride));
        r.value == (if reply.Some? then reply.value else BacktestUnreachable)
    {
      var bot := GetBot(botId, org);
      if bot.None? {
        return Err(NotFound);
      }
      var url := GatewayUrl(env) + "/bots/" + botId + "/backtest";
      var reply := gateway(url, BacktestBody(bot.value, startDate, endDate, configOverride));
      if reply.None? {
        return Ok(BacktestUnreachable);
      }
      r := Ok(reply.value);
    }

    /** `startBot`: the row becomes `starting` first, then the start command is
        published, so a failed publish leaves the bot `starting`. */
    method StartBot(botId: string, org: string, answer: Mqtt.ConnectAnswer, ack: Publish -> Outcome) returns (r: Outcome)
      requires Valid()
      modifies this`bots, mqtt
      ensures Valid()
      ensures !Owns(old(bots), botId, org) ==>
        (r == Fail(NotFound) && bots == old(bots) && mqtt.published == old(mqtt.published)
         && mqtt.Connection() == old(mqtt.Connection()))
      ensures Owns(old(bots), botId, org) ==>
        (bots == old(bots)[botId := old(bots)[botId].(status := "starting")]
         && mqtt.Connection() == Mqtt.Settle(old(mqtt.Connection()), answer)
         && r == Mqtt.CommandResult(old(mqtt.Connection()), answer, botId, "start", Some(StartPayload(old(bots)[botId])), ack).0
         && mqtt.published == old(mqtt.published)
              + Mqtt.CommandResult(old(mqtt.Connection()), answer, botId, "start", Some(StartPayload(old(bots)[botId])), ack).1)
      ensures mqtt.subscribers == old(mqtt.subscribers)
    {
      var bot := GetBot(botId, org);
      if bot.None? {
        return Fail(NotFound);
      }
      UpdateBotStatus(botId, org, "starting");
      r := mqtt.PublishCommand(botId, "start", Some(StartPayload(bot.value)), answer, ack);
    }

    /** `stopBot`: the stop command is published first, and only a delivered stop marks
        the row `stopped`. */
    method StopBot(botId: string, org: string, answer: Mqtt.ConnectAnswer, ack: Publish -> Outcome) returns (r: Outcome)
      requires Valid()
      modifies this`bots, mqtt
      ensures Valid()
      ensures !Owns(old(bots), botId, org) ==>
        (r == Fail(NotFound) && bots == old(bots) && mqtt.published == old(mqtt.published)
         && mqtt.Connection() == old(mqtt.Connection()))
      ensures Owns(old(bots), botId, org) ==>
        (mqtt.Connection() == Mqtt.Settle(old(mqtt.Connection()), answer)
         && r == Mqtt.CommandResult(old(mqtt.Connection()), answer, botId, "stop", None, ack).0
         && mqtt.published == old(mqtt.published) + Mqtt.CommandResult(old(mqtt.Connection()), answer, botId, "stop", None, ack).1
         && bots == if r.Pass? then old(bots)[botId := old(bots)[botId].(status := "stopped")] else old(bots))
      ensures mqtt.subscribers == old(mqtt.subscribers)
    {
      var bot := GetBot(botId, org);
      if bot.None? {
        return Fail(NotFound);
      }
      r := mqtt.PublishCommand(botId, "stop", None, answer, ack);
      if r.Fail? {
        return;
      }
      UpdateBotStatus(botId, org, "stopped");
    }

    /** `updateBotConfig`: the stored config is replaced before the update is published. */
    method UpdateBotConfig(botId: string, org: string, config: Obj, answer: Mqtt.ConnectAnswer,
                           ack: Publish -> Outcome) returns (r: Outcome)
      requires Valid()
      modifies this`bots, mqtt
      ensures Valid()
      ensures !Owns(old(bots), botId, org) ==>
        (r == Fail(NotFound) && bots == old(bots) && mqtt.published == old(mqtt.published)
         && mqtt.Connection() == old(mqtt.Connection()))
      ensures Owns(old(bots), botId, org) ==>
        (bots == old(bots)[botId := old(bots)[botId].(config := config)]
         && mqtt.Connection() == Mqtt.Settle(old(mqtt.Connection()), answer)
         && r == Mqtt.CommandResult(old(mqtt.Connection()), answer, botId, "config/update",
                                    Some(ConfigPayload(config, old(bots)[botId].strategyType)), ack).0
         && mqtt.published == old(mqtt.published)
              + Mqtt.CommandResult(old(mqtt.Connection()), answer, botId, "config/update",
                                   Some(ConfigPayload(config, old(bots)[botId].strategyType)), ack).1)
      ensures mqtt.subscribers == old(mqtt.subscribers)
    {
      var bot := GetBot(botId, org);
      if bot.None? {
        return Fail(NotFound);
      }
      bots := bots[botId := bots[botId].(config := config)];
      r := mqtt.PublishCommand(botId, "config/update", Some(ConfigPayload(config, bot.value.strategyType)), answer, ack);
    }

    /** `restartBot`: `stopBot`, then `startBot`; a failing stop means no start. */
    method RestartBot(botId: string, org: string, answer: Mqtt.ConnectAnswer, ack: Publish -> Outcome) returns (r: Outcome)
      requires Valid()
      modifies this`bots, mqtt
      ensures Valid()
      ensures !Owns(old(bots), botId, org) ==> r == Fail(NotFound) && bots == old(bots)
      ensures Owns(old(bots), botId, org) ==>
        var stop := Mqtt.CommandResult(old(mqtt.Connection()), answer, botId, "stop", None, ack);
        && (stop.0.Fail? ==> r == stop.0 && bots == old(bots) && mqtt.published == old(mqtt.published) + stop.1)
        && (stop.0.Pass? ==>
              (bots == old(bots)[botId := old(bots)[botId].(status := "starting")]
               && mqtt.published == old(mqtt.published) + stop.1 + [Publish(BotTopic(botId, "start"), StartMessage(Some(StartPayload(old(bots)[botId]))))]
               && r == ack(Publish(BotTopic(botId, "start"), StartMessage(Some(StartPayload(old(bots)[botId])))))))
    {
      r := StopBot(botId, org, answer, ack);
      if r.Fail? {
        return;
      }
      r := StartBot(botId, org, answer, ack);
    }
  }
}
