/**
 * Command encoding of `publishCommand` in MQTTService.ts: which topic each bot
 * command goes to and which JSON object it carries. The payload types are those
 * of src/services/mqtt/types.ts; a payload is an optional JSON object and the
 * object spread `{...defaults, ...payload}` is the right-biased map union.
 */
module MqttCommands {
  import opened Wrappers
  import opened JsonValue
  import opened Text
  import opened MqttTopics

  /** One message handed to the broker: a topic and the object serialised into it. */
  datatype Publish = Publish(topic: string, message: Obj)

  /** Defaults of a start command; caller fields override them. */
  const StartDefaults: Obj :=
    map["log_level" := JStr("INFO"), "script" := JNull, "is_quickstart" := JBool(true)]

  /** Default of a stop command. */
  const StopDefaults: Obj := map["skip_order_cancellation" := JBool(false)]

  /** `{...defaults, ...payload}`, where spreading an absent payload adds nothing. */
  function Spread(defaults: Obj, payload: Option<Obj>): (m: Obj)
    ensures forall k :: k in m <==> k in defaults || (payload.Some? && k in payload.value)
    ensures forall k :: payload.Some? && k in payload.value ==> m[k] == payload.value[k]
    ensures forall k :: k in defaults && !(payload.Some? && k in payload.value) ==> m[k] == defaults[k]
  {
    match payload
    case None => defaults
    case Some(p) => defaults + p
  }

  function StartMessage(payload: Option<Obj>): (m: Obj)
    ensures StartDefaults.Keys <= m.Keys
    ensures payload.Some? ==> forall k :: k in payload.value ==> k in m && m[k] == payload.value[k]
  {
    Spread(StartDefaults, payload)
  }

  function StopMessage(payload: Option<Obj>): (m: Obj)
    ensures "skip_order_cancellation" in m
    ensures payload.Some? ==> forall k :: k in payload.value ==> k in m && m[k] == payload.value[k]
  {
    Spread(StopDefaults, payload)
  }

  /** `payload || {}`: a present payload is an object, and objects are truthy. */
  function ConfigMessage(payload: Option<Obj>): (m: Obj)
    ensures payload.None? ==> m == map[]
    ensures payload.Some? ==> m == payload.value
  {
    payload.GetOr(map[])
  }

  /** The messages one `publishCommand` call publishes, in order, or the error it
      throws for a command outside `start`, `stop`, `restart` and `config/update`. */
  function Encode(botId: string, command: string, payload: Option<Obj>): (r: Result<seq<Publish>>)
    ensures r.Err? <==> command !in {"start", "stop", "restart", "config/update"}
    ensures r.Err? ==> r.error == "Unknown command: " + command
    ensures r.Ok? ==> 1 <= |r.value| <= 2
    ensures r.Ok? ==> forall i :: 0 <= i < |r.value| ==> StartsWith(r.value[i].topic, Root + "/" + botId + "/")
    ensures command == "start" ==> r == Ok([Publish(BotTopic(botId, "start"), StartMessage(payload))])
    ensures command == "stop" ==> r == Ok([Publish(BotTopic(botId, "stop"), StopMessage(payload))])
    ensures command == "config/update" ==> r == Ok([Publish(BotTopic(botId, "config/update"), ConfigMessage(payload))])
    ensures command == "restart" ==>
      r == Ok([Publish(BotTopic(botId, "stop"), StopMessage(payload)), Publish(BotTopic(botId, "start"), StartMessage(payload))])
  {
    if command == "start" then Ok([Publish(BotTopic(botId, "start"), StartMessage(payload))])
    else if command == "stop" then Ok([Publish(BotTopic(botId, "stop"), StopMessage(payload))])
    else if command == "config/update" then Ok([Publish(BotTopic(botId, "config/update"), ConfigMessage(payload))])
    else if command == "restart" then
      Ok([Publish(BotTopic(botId, "stop"), StopMessage(payload)),
          Publish(BotTopic(botId, "start"), StartMessage(payload))])
    else Err("Unknown command: " + command)
  }

  /** The publishes actually attempted when each one waits for the broker's answer
      `ack` before the next: everything up to and including the first failure. */
  function Attempted(msgs: seq<Publish>, ack: Publish -> Outcome): (a: seq<Publish>)
    ensures |a| <= |msgs| && a == msgs[..|a|]
    ensures forall i :: 0 <= i < |a| - 1 ==> ack(a[i]).Pass?
    ensures |a| < |msgs| ==> |a| > 0 && ack(a[|a| - 1]).Fail?
  {
    if msgs == [] then []
    else if ack(msgs[0]).Fail? then [msgs[0]]
    else [msgs[0]] + Attempted(msgs[1..], ack)
  }

  /** The outcome of publishing `msgs` one after another: the first failure, if any. */
  function Delivered(msgs: seq<Publish>, ack: Publish -> Outcome): (o: Outcome)
    ensures o.Pass? <==> forall i :: 0 <= i < |msgs| ==> ack(msgs[i]).Pass?
    ensures o.Pass? ==> Attempted(msgs, ack) == msgs
  {
    if msgs == [] then Pass
    else if ack(msgs[0]).Fail? then ack(msgs[0])
    else Delivered(msgs[1..], ack)
  }

  /** Caller fields override the start defaults, and defaults fill in the rest. */
  lemma StartOverrides(botId: string, payload: Obj)
    ensures Encode(botId, "start", Some(payload)).Ok?
    ensures |Encode(botId, "start", Some(payload)).value| == 1
    ensures Encode(botId, "start", Some(payload)).value[0].topic == "hbot/" + botId + "/start"
    ensures var m := Encode(botId, "start", Some(payload)).value[0].message;
      && (forall k :: k in payload ==> m[k] == payload[k])
      && m["log_level"] == (if "log_level" in payload then payload["log_level"] else JStr("INFO"))
      && m["script"] == (if "script" in payload then payload["script"] else JNull)
      && m["is_quickstart"] == (if "is_quickstart" in payload then payload["is_quickstart"] else JBool(true))
      && m.Keys == StartDefaults.Keys + payload.Keys
  {
    assert BotTopic(botId, "start") == "hbot/" + botId + "/start";
  }

  /** Without a payload a start carries exactly the defaults. */
  lemma StartWithoutPayload(botId: string)
    ensures Encode(botId, "start", None)
         == Ok([Publish("hbot/" + botId + "/start",
                        map["log_level" := JStr("INFO"), "script" := JNull, "is_quickstart" := JBool(true)])])
  {
    assert BotTopic(botId, "start") == "hbot/" + botId + "/start";
  }

  /** A stop goes to `hbot/{id}/stop`; order cancellation is not skipped unless the
      caller says so, and every caller field is carried through. */
  lemma StopOverrides(botId: string, payload: Option<Obj>)
    ensures Encode(botId, "stop", payload).Ok?
    ensures |Encode(botId, "stop", payload).value| == 1
    ensures Encode(botId, "stop", payload).value[0].topic == "hbot/" + botId + "/stop"
    ensures var m := Encode(botId, "stop", payload).value[0].message;
      && (payload.Some? ==> forall k :: k in payload.value ==> m[k] == payload.value[k])
      && m["skip_order_cancellation"]
         == (if payload.Some? && "skip_order_cancellation" in payload.value
             then payload.value["skip_order_cancellation"] else JBool(false))
      && m.Keys == StopDefaults.Keys + (if payload.Some? then payload.value.Keys else {})
  {
    assert BotTopic(botId, "stop") == "hbot/" + botId + "/stop";
  }

  /** A configuration update carries the payload unchanged, or `{}` without one. */
  lemma ConfigCarriesPayload(botId: string, payload: Option<Obj>)
    ensures Encode(botId, "config/update", payload)
         == Ok([Publish("hbot/" + botId + "/config/update", if payload.Some? then payload.value else map[])])
  {
    assert BotTopic(botId, "config/update") == "hbot/" + botId + "/config/update";
  }

  /** A restart publishes the stop message, then the start message, both built from
      the same payload: the stop message therefore carries the start fields too. */
  lemma RestartIsStopThenStart(botId: string, payload: Option<Obj>)
    ensures Encode(botId, "restart", payload).Ok?
    ensures Encode(botId, "restart", payload).value
         == Encode(botId, "stop", payload).value + Encode(botId, "start", payload).value
  {
  }

  /** When the broker rejects the stop of a restart, the start is never attempted. */
  lemma {:induction false} RestartStopsAtFailedStop(botId: string, payload: Option<Obj>, ack: Publish -> Outcome)
    requires ack(Publish(BotTopic(botId, "stop"), StopMessage(payload))).Fail?
    ensures Attempted(Encode(botId, "restart", payload).value, ack)
         == [Publish(BotTopic(botId, "stop"), StopMessage(payload))]
    ensures Delivered(Encode(botId, "restart", payload).value, ack).Fail?
  {
  }

  /** Publishing a concatenation is publishing the first part, then — only if it
      all went through — the second. */
  lemma {:induction false} AttemptedAppend(a: seq<Publish>, b: seq<Publish>, ack: Publish -> Outcome)
    ensures Attempted(a + b, ack)
         == Attempted(a, ack) + (if Delivered(a, ack).Pass? then Attempted(b, ack) else [])
    ensures Delivered(a + b, ack) == (if Delivered(a, ack).Pass? then Delivered(b, ack) else Delivered(a, ack))
  {
    if a != [] {
      assert (a + b)[0] == a[0];
      assert (a + b)[1..] == a[1..] + b;
      AttemptedAppend(a[1..], b, ack);
    } else {
      assert a + b == b;
    }
  }
}
