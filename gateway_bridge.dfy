/**
 * The gateway's end of the wire protocol (`MQTTBridge` in mqtt_bridge.py): it
 * receives `start`, `stop` and `config/update` commands, drives the container
 * manager, and publishes status, metrics, orders and logs, all gated on its
 * connected flag.
 *
 * The container manager is not modelled: each of its calls is recorded in
 * `dockerCalls` and its result is a parameter (`Pass`, or `Fail` with the text
 * of the exception). The event-loop clock is a parameter too.
 */
module GatewayBridge {
  import opened Wrappers
  import opened JsonValue
  import opened Text
  import opened MqttTopics

  const MaxRetries: nat := 10

  /** The three command patterns subscribed on every successful CONNACK. */
  const CommandPatterns: seq<string> := ["hbot/+/start", "hbot/+/stop", "hbot/+/config/update"]

  /** One call into the container manager. */
  datatype DockerCall =
    | StartBot(botId: string, config: Obj)
    | StopBot(botId: string, skipOrderCancellation: bool)
    | UpdateConfig(botId: string, payload: Json)

  /** The decoded `StartCommand` model with its defaults. */
  datatype StartCommand = StartCommand(logLevel: string, script: Option<string>, isQuickstart: bool, config: Obj)

  /** The validation error text (the library's own wording is not modelled). */
  const InvalidCommand: string := "invalid command payload"

  /** The words a `bool` field accepts for false and for true, compared without
      regard to ASCII case. */
  const FalseWords: set<string> := {"0", "off", "f", "false", "n", "no"}
  const TrueWords: set<string> := {"1", "on", "t", "true", "y", "yes"}

  /** A `bool` field in the validation library's lax mode: a boolean, the numbers 0
      and 1, or one of the words above; anything else is a validation error. */
  function LaxBool(j: Json): (r: Option<bool>)
    ensures j.JBool? ==> r == Some(j.b)
    ensures j.JNum? ==> (r.Some? <==> j.n == 0.0 || j.n == 1.0) && (r.Some? ==> r.value == (j.n == 1.0))
    ensures j.JStr? ==> (r.Some? <==> ToLower(j.s) in FalseWords + TrueWords)
    ensures j.JStr? && r.Some? ==> r.value == (ToLower(j.s) in TrueWords)
    ensures j.JNull? || j.JArr? || j.JObj? ==> r.None?
  {
    match j
    case JBool(b) => Some(b)
    case JNum(n) => if n == 0.0 then Some(false) else if n == 1.0 then Some(true) else None
    case JStr(s) =>
      if ToLower(s) in FalseWords then Some(false)
      else if ToLower(s) in TrueWords then Some(true)
      else None
    case _ => None
  }

  /** Every known field of a start payload that is present validates. */
  predicate StartFieldsValid(f: Obj) {
    && ("log_level" in f ==> f["log_level"].JStr?)
    && ("script" in f ==> f["script"].JStr? || f["script"].JNull?)
    && ("is_quickstart" in f ==> LaxBool(f["is_quickstart"]).Some?)
    && ("config" in f ==> f["config"].JObj?)
  }

  /** `StartCommand(**payload)`: the payload must be a mapping whose known fields
      validate; missing fields take their defaults, unknown ones are ignored. */
  function DecodeStart(payload: Json): (r: Result<StartCommand>)
    ensures !payload.JObj? ==> r.Err?
    ensures payload.JObj? ==> (r.Ok? <==> StartFieldsValid(payload.fields))
    ensures payload == JObj(map[]) ==> r == Ok(StartCommand("INFO", None, true, map[]))
    ensures r.Ok? ==> ("config" in payload.fields ==> JObj(r.value.config) == payload.fields["config"])
    ensures r.Ok? ==> ("config" !in payload.fields ==> r.value.config == map[])
    ensures r.Ok? ==> ("log_level" in payload.fields ==> JStr(r.value.logLevel) == payload.fields["log_level"])
    ensures r.Ok? ==> ("log_level" !in payload.fields ==> r.value.logLevel == "INFO")
    ensures r.Ok? ==> ("script" in payload.fields && payload.fields["script"].JStr? ==>
                         r.value.script == Some(payload.fields["script"].s))
    ensures r.Ok? ==> (("script" !in payload.fields || payload.fields["script"].JNull?) ==> r.value.script.None?)
    ensures r.Ok? ==> ("is_quickstart" in payload.fields ==>
                         r.value.isQuickstart == LaxBool(payload.fields["is_quickstart"]).value)
    ensures r.Ok? ==> ("is_quickstart" !in payload.fields ==> r.value.isQuickstart)
  {
    if !payload.JObj? then Err(InvalidCommand)
    else
      var f := payload.fields;
      var logLevel := if "log_level" in f then f["log_level"] else JStr("INFO");
      var script := if "script" in f then f["script"] else JNull;
      var quick := if "is_quickstart" in f then LaxBool(f["is_quickstart"]) else Some(true);
      var config := if "config" in f then f["config"] else JObj(map[]);
      if !logLevel.JStr? || !(script.JStr? || script.JNull?) || quick.None? || !config.JObj? then
        Err(InvalidCommand)
      else
        Ok(StartCommand(logLevel.s, if script.JStr? then Some(script.s) else None, quick.value, config.fields))
  }

  /** `StopCommand(**payload)`. */
  function DecodeStop(payload: Json): (r: Result<bool>)
    ensures !payload.JObj? ==> r.Err?
    ensures payload.JObj? && "skip_order_cancellation" !in payload.fields ==> r == Ok(false)
    ensures payload.JObj? && "skip_order_cancellation" in payload.fields ==>
      && (r.Ok? <==> LaxBool(payload.fields["skip_order_cancellation"]).Some?)
      && (r.Ok? ==> r.value == LaxBool(payload.fields["skip_order_cancellation"]).value)
  {
    if !payload.JObj? then Err(InvalidCommand)
    else if "skip_order_cancellation" !in payload.fields then Ok(false)
    else
      match LaxBool(payload.fields["skip_order_cancellation"])
      case Some(skip) => Ok(skip)
      case None => Err(InvalidCommand)
  }

  /** The string `"true"` and the number 1 both ask to skip order cancellation. */
  lemma StopCoercesTrue()
    ensures DecodeStop(JObj(map["skip_order_cancellation" := JStr("true")])) == Ok(true)
    ensures DecodeStop(JObj(map["skip_order_cancellation" := JNum(1.0)])) == Ok(true)
  {
    LowerTrue();
  }

  /** `"False"` keeps order cancellation, and `"maybe"` is rejected. */
  lemma StopCoercesFalse()
    ensures DecodeStop(JObj(map["skip_order_cancellation" := JStr("False")])) == Ok(false)
    ensures DecodeStop(JObj(map["skip_order_cancellation" := JStr("maybe")])).Err?
  {
    LowerFalse();
    LowerMaybe();
  }

  lemma LowerTrue()
    ensures ToLower("true") == "true"
  {
    assert ToLower("true") == [LowerChar('t')] + ToLower("rue");
  }

  lemma LowerFalse()
    ensures ToLower("False") == "false"
  {
    assert ToLower("False") == [LowerChar('F')] + ToLower("alse");
  }

  lemma LowerMaybe()
    ensures ToLower("maybe") == "maybe"
  {
    assert ToLower("maybe") == [LowerChar('m')] + ToLower("aybe");
  }

  /** The (bot id, command) of an incoming topic: its second and third segments, or
      nothing when it has fewer than three. */
  function ParseCommandTopic(topic: string): (r: Option<(string, string)>)
    ensures r.Some? <==> |Split(topic, '/')| >= 3
    ensures r.Some? ==> r.value == (Split(topic, '/')[1], Split(topic, '/')[2])
  {
    var parts := Split(topic, '/');
    if |parts| < 3 then None else Some((parts[1], parts[2]))
  }

  /** The command is the third segment alone, whatever follows it. */
  lemma {:induction false} CommandIsThirdSegment(botId: string, command: string, rest: string)
    requires '/' !in botId && '/' !in command
    ensures ParseCommandTopic(Root + "/" + botId + "/" + command + "/" + rest) == Some((botId, command))
  {
    var tail := command + ['/'] + rest;
    assert '/' !in Root;
    SplitHead(command, rest, '/');
    SplitTwoHeads(Root, botId, tail, '/');
    assert Root + "/" + botId + "/" + command + "/" + rest == Root + ['/'] + botId + ['/'] + tail;
    var parts := Split(Root + ['/'] + botId + ['/'] + tail, '/');
    assert parts == [Root, botId] + ([command] + Split(rest, '/'));
    assert parts[1] == botId && parts[2] == command;
  }

  /** So a config update arrives as the command `config`. */
  lemma ConfigUpdateTopicIsConfig(botId: string)
    requires '/' !in botId
    ensures ParseCommandTopic(BotTopic(botId, "config/update")) == Some((botId, "config"))
  {
    CommandIsThirdSegment(botId, "config", "update");
    assert "config/update" == "config" + "/" + "update";
    assert BotTopic(botId, "config/update") == Root + "/" + botId + "/" + "config" + "/" + "update";
  }

  /** What `on_message` schedules: the bot id, the command and the decoded payload;
      nothing for a short topic or a payload that is not JSON. */
  datatype Dispatch = Dispatch(botId: string, command: string, payload: Json)

  function OnMessage(topic: string, payload: string, parse: string -> Option<Json>): (r: Option<Dispatch>)
    ensures r.Some? <==> ParseCommandTopic(topic).Some? && parse(payload).Some?
    ensures r.Some? ==> r.value == Dispatch(ParseCommandTopic(topic).value.0, ParseCommandTopic(topic).value.1,
                                            parse(payload).value)
  {
    match ParseCommandTopic(topic)
    case None => None
    case Some((botId, command)) =>
      match parse(payload)
      case None => None
      case Some(p) => Some(Dispatch(botId, command, p))
  }

  /** The status message: status and timestamp, then the metadata keys over them
      (`dict.update`) when the metadata is truthy. */
  function StatusMessage(status: string, now: real, metadata: Option<Obj>): (m: Obj)
    ensures metadata.None? || metadata.value == map[] ==> m == map["status" := JStr(status), "timestamp" := JNum(now)]
    ensures forall k :: metadata.Some? && k in metadata.value ==> k in m && m[k] == metadata.value[k]
    ensures "status" in m && "timestamp" in m
    ensures (metadata.None? || "status" !in metadata.value) ==> m["status"] == JStr(status)
  {
    var base := map["status" := JStr(status), "timestamp" := JNum(now)];
    if metadata.Some? && metadata.value != map[] then base + metadata.value else base
  }

  /** The log message: level and message, plus the metadata when it is truthy. */
  function LogMessage(level: string, message: string, metadata: Option<Obj>): (m: Obj)
    ensures "level" in m && m["level"] == JStr(level)
    ensures "message" in m && m["message"] == JStr(message)
    ensures "metadata" in m <==> metadata.Some? && metadata.value != map[]
  {
    var base := map["level" := JStr(level), "message" := JStr(message)];
    if metadata.Some? && metadata.value != map[] then base["metadata" := JObj(metadata.value)] else base
  }

  /** The first attempt in `from..MaxRetries` at which connecting succeeds. */
  function FirstSuccess(succeeds: nat -> bool, from: nat): (r: Option<nat>)
    requires from >= 1
    ensures r.Some? ==> from <= r.value <= MaxRetries && succeeds(r.value)
    ensures r.Some? ==> forall j :: from <= j < r.value ==> !succeeds(j)
    ensures r.None? ==> forall j :: from <= j <= MaxRetries ==> !succeeds(j)
    decreases MaxRetries + 1 - from
  {
    if from > MaxRetries then None
    else if succeeds(from) then Some(from)
    else FirstSuccess(succeeds, from + 1)
  }

  class Bridge {
    var hasClient: bool
    var isConnectedFlag: bool
    var loopStarted: bool
    /** Patterns handed to `client.subscribe`, in order. */
    var subscriptions: seq<string>
    /** Messages handed to `client.publish`, in order. */
    var outbox: seq<Outgoing>
    /** Calls into the container manager, in order. */
    var dockerCalls: seq<DockerCall>

    constructor()
      ensures !hasClient && !isConnectedFlag && !loopStarted
      ensures subscriptions == [] && outbox == [] && dockerCalls == []
    {
      hasClient := false;
      isConnectedFlag := false;
      loopStarted := false;
      subscriptions := [];
      outbox := [];
      dockerCalls := [];
    }

    /** `on_connect(rc)`: only a zero return code sets the flag and subscribes. */
    method OnConnect(rc: int)
      modifies this`isConnectedFlag, this`subscriptions
      ensures rc == 0 ==> isConnectedFlag && subscriptions == old(subscriptions) + CommandPatterns
      ensures rc != 0 ==> isConnectedFlag == old(isConnectedFlag) && subscriptions == old(subscriptions)
    {
      if rc == 0 {
        isConnectedFlag := true;
        subscriptions := subscriptions + CommandPatterns;
      }
    }

    /** `on_disconnect`. */
    method OnDisconnect()
      modifies this`isConnectedFlag
      ensures !isConnectedFlag
    {
      isConnectedFlag := false;
    }

    /** `is_connected()`. */
    function IsConnected(): (b: bool)
      reads this
      ensures b == isConnectedFlag
    {
      isConnectedFlag
    }

    /** Shared gate of every `publish_*`: a client and the connected flag. */
    method Emit(out: Outgoing)
      modifies this`outbox
      ensures hasClient && isConnectedFlag ==> outbox == old(outbox) + [out]
      ensures !(hasClient && isConnectedFlag) ==> outbox == old(outbox)
    {
      if !hasClient || !isConnectedFlag {
        return;
      }
      outbox := outbox + [out];
    }

    /** `publish_status`: retained, QoS 1, on `hbot/{id}/status`. */
    method PublishStatus(botId: string, status: string, metadata: Option<Obj>, now: real)
      modifies this`outbox
      ensures hasClient && isConnectedFlag ==>
        outbox == old(outbox) + [Outgoing(BotTopic(botId, "status"), JObj(StatusMessage(status, now, metadata)), 1, true)]
      ensures !(hasClient && isConnectedFlag) ==> outbox == old(outbox)
    {
      Emit(Outgoing(BotTopic(botId, "status"), JObj(StatusMessage(status, now, metadata)), 1, true));
    }

    /** `publish_metrics`: QoS 0 on `hbot/{id}/metrics`. */
    method PublishMetrics(botId: string, metrics: Json)
      modifies this`outbox
      ensures hasClient && isConnectedFlag ==>
        outbox == old(outbox) + [Outgoing(BotTopic(botId, "metrics"), metrics, 0, false)]
      ensures !(hasClient && isConnectedFlag) ==> outbox == old(outbox)
    {
      Emit(Outgoing(BotTopic(botId, "metrics"), metrics, 0, false));
    }

    /** `publish_order`: QoS 1 on `hbot/{id}/orders/{type}`. */
    method PublishOrder(botId: string, orderType: string, orderData: Json)
      modifies this`outbox
      ensures hasClient && isConnectedFlag ==>
        outbox == old(outbox) + [Outgoing(BotTopic(botId, "orders/" + orderType), orderData, 1, false)]
      ensures !(hasClient && isConnectedFlag) ==> outbox == old(outbox)
    {
      Emit(Outgoing(BotTopic(botId, "orders/" + orderType), orderData, 1, false));
    }

    /** `publish_log`: QoS 0 on `hbot/{id}/logs/{level}`. */
    method PublishLog(botId: string, level: string, message: string, metadata: Option<Obj>)
      modifies this`outbox
      ensures hasClient && isConnectedFlag ==>
        outbox == old(outbox) + [Outgoing(BotTopic(botId, "logs/" + level), JObj(LogMessage(level, message, metadata)), 0, false)]
      ensures !(hasClient && isConnectedFlag) ==> outbox == old(outbox)
    {
      Emit(Outgoing(BotTopic(botId, "logs/" + level), JObj(LogMessage(level, message, metadata)), 0, false));
    }

    /** `handle_start`: decode, start the container, report `running`; a failure at
        either step reports `error` with the exception text. */
    method HandleStart(botId: string, payload: Json, docker: Outcome, now: real)
      modifies this`outbox, this`dockerCalls
      ensures DecodeStart(payload).Err? ==> dockerCalls == old(dockerCalls)
      ensures DecodeStart(payload).Ok? ==> dockerCalls == old(dockerCalls) + [StartBot(botId, DecodeStart(payload).value.config)]
      ensures var status := if DecodeStart(payload).Err? then Some(DecodeStart(payload).error)
                            else if docker.Fail? then Some(docker.error) else None;
        hasClient && isConnectedFlag ==>
          outbox == old(outbox) + [Outgoing(BotTopic(botId, "status"),
            JObj(if status.None? then StatusMessage("running", now, None)
                 else StatusMessage("error", now, Some(map["error" := JStr(status.value)]))), 1, true)]
      ensures !(hasClient && isConnectedFlag) ==> outbox == old(outbox)
    {
      var decoded := DecodeStart(payload);
      if decoded.Err? {
        PublishStatus(botId, "error", Some(map["error" := JStr(decoded.error)]), now);
        return;
      }
      dockerCalls := dockerCalls + [StartBot(botId, decoded.value.config)];
      if docker.Fail? {
        PublishStatus(botId, "error", Some(map["error" := JStr(docker.error)]), now);
        return;
      }
      PublishStatus(botId, "running", None, now);
    }

    /** `handle_stop`: decode, stop the container, report `stopped` or `error`. */
    method HandleStop(botId: string, payload: Json, docker: Outcome, now: real)
      modifies this`outbox, this`dockerCalls
      ensures DecodeStop(payload).Err? ==> dockerCalls == old(dockerCalls)
      ensures DecodeStop(payload).Ok? ==> dockerCalls == old(dockerCalls) + [StopBot(botId, DecodeStop(payload).value)]
      ensures var status := if DecodeStop(payload).Err? then Some(DecodeStop(payload).error)
                            else if docker.Fail? then Some(docker.error) else None;
        hasClient && isConnectedFlag ==>
          outbox == old(outbox) + [Outgoing(BotTopic(botId, "status"),
            JObj(if status.None? then StatusMessage("stopped", now, None)
                 else StatusMessage("error", now, Some(map["error" := JStr(status.value)]))), 1, true)]
      ensures !(hasClient && isConnectedFlag) ==> outbox == old(outbox)
    {
      var decoded := DecodeStop(payload);
      if decoded.Err? {
        PublishStatus(botId, "error", Some(map["error" := JStr(decoded.error)]), now);
        return;
      }
      dockerCalls := dockerCalls + [StopBot(botId, decoded.value)];
      if docker.Fail? {
        PublishStatus(botId, "error", Some(map["error" := JStr(docker.error)]), now);
        return;
      }
      PublishStatus(botId, "stopped", None, now);
    }

    /** `handle_config_update`: pass the payload on and report `running`; a failure is
        only logged, no status goes out. */
    method HandleConfigUpdate(botId: string, payload: Json, docker: Outcome, now: real)
      modifies this`outbox, this`dockerCalls
      ensures dockerCalls == old(dockerCalls) + [UpdateConfig(botId, payload)]
      ensures docker.Pass? && hasClient && isConnectedFlag ==>
        outbox == old(outbox) + [Outgoing(BotTopic(botId, "status"), JObj(StatusMessage("running", now, None)), 1, true)]
      ensures docker.Fail? || !(hasClient && isConnectedFlag) ==> outbox == old(outbox)
    {
      dockerCalls := dockerCalls + [UpdateConfig(botId, payload)];
      if docker.Pass? {
        PublishStatus(botId, "running", None, now);
      }
    }

    /** `handle_command`: only `start`, `stop` and `config` reach a handler. */
    method HandleCommand(botId: string, command: string, payload: Json, docker: Outcome, now: real)
      modifies this`outbox, this`dockerCalls
      ensures command !in {"start", "stop", "config"} ==>
        outbox == old(outbox) && dockerCalls == old(dockerCalls)
      ensures command in {"start", "stop", "config"} && !(hasClient && isConnectedFlag) ==> outbox == old(outbox)
      ensures command == "start" && DecodeStart(payload).Err? ==> dockerCalls == old(dockerCalls)
      ensures command == "start" && DecodeStart(payload).Ok? ==>
        dockerCalls == old(dockerCalls) + [StartBot(botId, DecodeStart(payload).value.config)]
      ensures command == "start" ==>
        var status := if DecodeStart(payload).Err? then Some(DecodeStart(payload).error)
                      else if docker.Fail? then Some(docker.error) else None;
        hasClient && isConnectedFlag ==>
          outbox == old(outbox) + [Outgoing(BotTopic(botId, "status"),
            JObj(if status.None? then StatusMessage("running", now, None)
                 else StatusMessage("error", now, Some(map["error" := JStr(status.value)]))), 1, true)]
      ensures command == "stop" && DecodeStop(payload).Err? ==> dockerCalls == old(dockerCalls)
      ensures command == "stop" && DecodeStop(payload).Ok? ==>
        dockerCalls == old(dockerCalls) + [StopBot(botId, DecodeStop(payload).value)]
      ensures command == "stop" ==>
        var status := if DecodeStop(payload).Err? then Some(DecodeStop(payload).error)
                      else if docker.Fail? then Some(docker.error) else None;
        hasClient && isConnectedFlag ==>
          outbox == old(outbox) + [Outgoing(BotTopic(botId, "status"),
            JObj(if status.None? then StatusMessage("stopped", now, None)
                 else StatusMessage("error", now, Some(map["error" := JStr(status.value)]))), 1, true)]
      ensures command == "config" ==> dockerCalls == old(dockerCalls) + [UpdateConfig(botId, payload)]
      ensures command == "config" && docker.Pass? && hasClient && isConnectedFlag ==>
        outbox == old(outbox) + [Outgoing(BotTopic(botId, "status"), JObj(StatusMessage("running", now, None)), 1, true)]
      ensures command == "config" && docker.Fail? ==> outbox == old(outbox)
    {
      if command == "start" {
        HandleStart(botId, payload, docker, now);
      } else if command == "stop" {
        HandleStop(botId, payload, docker, now);
      } else if command == "config" {
        HandleConfigUpdate(botId, payload, docker, now);
      }
    }

    /** `start()`: a new client, then up to ten connect attempts; the loop starts at
        the first attempt that succeeds. */
    method Start(succeeds: nat -> bool) returns (attempts: nat)
      modifies this`hasClient, this`loopStarted
      ensures hasClient
      ensures loopStarted <==> old(loopStarted) || FirstSuccess(succeeds, 1).Some?
      ensures 1 <= attempts <= MaxRetries
      ensures FirstSuccess(succeeds, 1).Some? ==> attempts == FirstSuccess(succeeds, 1).value
      ensures FirstSuccess(succeeds, 1).None? ==> attempts == MaxRetries
    {
      hasClient := true;
      var attempt := 1;
      while attempt <= MaxRetries
        invariant 1 <= attempt <= MaxRetries + 1
        invariant FirstSuccess(succeeds, 1) == FirstSuccess(succeeds, attempt)
        invariant loopStarted == old(loopStarted)
        decreases MaxRetries + 1 - attempt
      {
        if succeeds(attempt) {
          loopStarted := true;
          return attempt;
        }
        attempt := attempt + 1;
      }
      return MaxRetries;
    }

    /** `stop()`: with a client, its network loop is stopped and it disconnects; the
        connected flag is left to the `on_disconnect` callback. */
    method Stop()
      modifies this`loopStarted
      ensures hasClient ==> !loopStarted
      ensures !hasClient ==> loopStarted == old(loopStarted)
    {
      if hasClient {
        loopStarted := false;
      }
    }
  }
}
