# Janym trading-bot dashboard: command, telemetry and service core in Dafny

Janym is a dashboard for Hummingbot trading bots. A web service sends bot
commands (`start`, `stop`, `restart`, `config/update`) over MQTT to a gateway
bridge, and a second bridge runs inside each bot container. Bots publish metrics,
orders, logs and status back on `hbot/{botId}/…` topics, and the dashboard
stores that telemetry and reports on it. Around this bridge sit the services this
model also covers:

- alert rules over the latest metrics;
- exchange credentials kept encrypted at rest with AES-256-GCM;
- the metrics history, PnL, risk and portfolio figures;
- the V2 strategy script that reloads its controllers when the remote
  configuration changes;
- a Redis cache;
- the bot log panel;
- a script that turns a markdown checklist into Jira issues.

There is one module per source file:

- `MqttTopics`, `MqttRegistry`, `MqttCommands`, `Mqtt`: the web-side broker client.
- `MetricsSubscriber`: the web-side telemetry subscriber.
- `GatewayBridge`: the command bridge of the gateway service.
- `ContainerBridge`: the bridge client inside a bot container.
- `Bots`: the bot service.
- `Alerts`: the alert service.
- `Credentials`: the credentials service.
- `Encryption`: the encryption service.
- `Metrics`: the metrics service.
- `V2Executor`: the V2 strategy script.
- `Redis`: the cache.
- `LogsViewer`: the log panel.
- `JiraTasks`: the task importer.

They share three modules: `Wrappers` (Option, Result, Outcome), `JsonValue` (JSON values and the JavaScript and Python truthiness rules) and `Text` (split, join, trim, case mapping, substring search).

How the model is built:

- Code that changes fields in place is a class whose methods are proved against specification functions on a snapshot of its state. Lemmas about those functions state what the source promises.
- Loops in the source are loops here, with invariants tying them to a reference function.
- Pure code is functions and lemmas.
- The broker, the database, the file system, the clock, randomness, the cipher and JSON text are parameters of the operations that use them.

## Model

| member | source | states |
|---|---|---|
| MqttTopics.MatchesIff | src/services/mqtt/MQTTService.ts:131-163 | the walk accepts exactly when every pattern segment before the first `#` is `+` or equal to the topic's, and then either a `#` sits at a position the topic still has, or there is no `#` and both have the same number of segments |
| MqttTopics.TopicMatches | src/services/mqtt/MQTTService.ts:131-163 | the index-walking loop over the `/`-split pattern and topic returns exactly the reference match |
| MqttTopics.PlusConsumesOne | src/services/mqtt/MQTTService.ts:147-152 | a `+` consumes exactly one topic segment, an empty one included |
| MqttTopics.NoHashSameLength | src/services/mqtt/MQTTService.ts:139-162 | without `#`, segment lists of different lengths never match |
| MqttTopics.TrailingHash | src/services/mqtt/MQTTService.ts:139-162 | `prefix/#` matches exactly the topics that agree with the prefix and have at least one more segment, so `a/#` does not match `a` |
| MqttTopics.FirstHash | src/services/mqtt/MQTTService.ts:143-145 | the position of the first `#` segment: no `#` before it, and a `#` at it when it is inside the pattern |
| MqttTopics.Examples | src/services/mqtt/MQTTService.ts:131-163 | `a/+/c` matches `a/b/c` and `a//c` but not `a/c` or `a/b/c/d`; `a/#` matches `a/b` but not `a` |
| MqttTopics.BotTopicMatchesWildcard | src/services/mqtt/MQTTService.ts:258-259 | `hbot/{id}/{leaf}` splits into its three pieces and matches `hbot/+/{leaf}` when the pieces hold no `/` |
| MqttRegistry.Add | src/services/mqtt/MQTTService.ts:275-279 | subscribing registers exactly the new (pattern, callback) pair in addition to the old ones and touches no other pattern's set |
| MqttRegistry.Remove | src/services/mqtt/MQTTService.ts:305-312 | unsubscribing a callback removes exactly that pair, and the pattern stays only while its set is non-empty |
| MqttRegistry.Drop | src/services/mqtt/MQTTService.ts:313-317 | unsubscribing without a callback removes the pattern and every pair under it |
| MqttRegistry.Prune | src/services/mqtt/MQTTService.ts:283-287 | a failed SUBACK deletes the callback but keeps the pattern's key |
| MqttRegistry.SubscribeStep | src/services/mqtt/MQTTService.ts:275-292 | after the SUBACK, the pattern is present and the callback is registered exactly when the SUBACK succeeded |
| MqttRegistry.AddIdempotent | src/services/mqtt/MQTTService.ts:279 | adding the same callback twice is the same as adding it once, because the store is a set |
| MqttRegistry.DistinctCallbacksAccumulate | src/services/mqtt/MQTTService.ts:279 | two different callbacks under one pattern are both kept |
| MqttRegistry.AddThenRemove | src/services/mqtt/MQTTService.ts:275-312 | subscribing a callback that was not registered and then unsubscribing it restores the registry |
| MqttRegistry.OperationsKeepNoEmpty | src/services/mqtt/MQTTService.ts:275-317 | subscribe and both forms of unsubscribe keep every pattern's set non-empty |
| MqttRegistry.PruneLeavesEmptySet | src/services/mqtt/MQTTService.ts:283-287 | a failed first SUBACK leaves a pattern with an empty set, which is then not resubscribed |
| MqttRegistry.Live | src/services/mqtt/MQTTService.ts:165-167 | the patterns asked for again on reconnection are exactly those with a callback |
| MqttRegistry.LiveIsKeys | src/services/mqtt/MQTTService.ts:165-167 | with no empty set, the live patterns are exactly the keys |
| MqttRegistry.Targets | src/services/mqtt/MQTTService.ts:116-129 | the pairs a message reaches are exactly the registered ones whose pattern matches the topic |
| MqttCommands.Spread | src/services/mqtt/MQTTService.ts:203-217 | `{...defaults, ...payload}`: every key of either, with the payload's value winning |
| MqttCommands.StartMessage | src/services/mqtt/MQTTService.ts:203-208 | the start message holds every default key and every caller field with the caller's value; which default survives is `StartOverrides` |
| MqttCommands.StopMessage | src/services/mqtt/MQTTService.ts:214-217 | the stop message always holds `skip_order_cancellation` and every caller field with the caller's value; its default is `StopOverrides` |
| MqttCommands.ConfigMessage | src/services/mqtt/MQTTService.ts:223 | `payload \|\| {}`: the payload, or the empty object |
| MqttCommands.Encode | src/services/mqtt/MQTTService.ts:200-237 | an unknown command fails with "Unknown command: …"; `start`, `stop` and `config/update` each give one message on `hbot/{botId}/{command}` with the start defaults, the stop default or the bare payload; `restart` gives the stop message, then the start message |
| MqttCommands.StartOverrides | src/services/mqtt/MQTTService.ts:201-210 | a start is one message on `hbot/{id}/start`; caller fields win, and `log_level:'INFO'`, `script:null`, `is_quickstart:true` fill in the rest |
| MqttCommands.StartWithoutPayload | src/services/mqtt/MQTTService.ts:201-210 | a start without a payload carries exactly `log_level:'INFO'`, `script:null`, `is_quickstart:true` |
| MqttCommands.StopOverrides | src/services/mqtt/MQTTService.ts:212-219 | a stop is one message on `hbot/{id}/stop`; `skip_order_cancellation` is false unless the caller sets it, and every caller field is carried |
| MqttCommands.ConfigCarriesPayload | src/services/mqtt/MQTTService.ts:221-224 | a configuration update is one message on `hbot/{id}/config/update` carrying the payload, or `{}` without one |
| MqttCommands.RestartIsStopThenStart | src/services/mqtt/MQTTService.ts:226-234 | a restart is the stop message followed by the start message, both built from the same payload |
| MqttCommands.Attempted | src/services/mqtt/MQTTService.ts:228-254 | awaited publishes: a prefix of the messages, every one before the last acknowledged, and the last one rejected when the prefix is short |
| MqttCommands.Delivered | src/services/mqtt/MQTTService.ts:245-254 | the publishes succeed exactly when every message is acknowledged, and then all of them were attempted |
| MqttCommands.RestartStopsAtFailedStop | src/services/mqtt/MQTTService.ts:228-232 | when the stop of a restart is rejected, only the stop is attempted and the restart fails |
| MqttCommands.AttemptedAppend | src/services/mqtt/MQTTService.ts:228-232 | publishing two runs of messages in turn attempts the second run only if the first one went through |
| Mqtt.Connected | src/services/mqtt/MQTTService.ts:68-80 | the `connect` handler: connected, no error, not connecting, private counter 0, reported counter unchanged |
| Mqtt.Errored | src/services/mqtt/MQTTService.ts:82-87 | the `error` handler records the error and ends the attempt, without touching the client or the connected flag |
| Mqtt.Closed | src/services/mqtt/MQTTService.ts:89-94 | the `close` handler leaves the service disconnected and not connecting |
| Mqtt.Reconnecting | src/services/mqtt/MQTTService.ts:96-108 | the `reconnect` handler counts one more attempt, reports it, and ends the client once the count reaches 10 |
| Mqtt.Disconnected | src/services/mqtt/MQTTService.ts:327-339 | `disconnect` drops the client and clears the connected flag |
| Mqtt.Reconnects | src/services/mqtt/MQTTService.ts:96-108 | repeated `reconnect` events keep a client |
| Mqtt.ConnectKeepsReportedAttempts | src/services/mqtt/MQTTService.ts:74-98 | a successful connect zeroes the private counter and leaves the reported counter as it was |
| Mqtt.ReconnectCap | src/services/mqtt/MQTTService.ts:96-108 | k reconnect events add k to the counter and report the new value; the client is ended once the cap is reached |
| Mqtt.TenthReconnectEnds | src/services/mqtt/MQTTService.ts:104-107 | from a fresh counter, nine reconnects leave the client running and the tenth ends it |
| Mqtt.HandlersKeepCoherent | src/services/mqtt/MQTTService.ts:62-108 | every handler keeps the stored connected flag in step with the client's |
| Mqtt.Settle | src/services/mqtt/MQTTService.ts:40-184 | after `ensureConnected`, no attempt is pending, and the service is connected exactly when it already was or the broker acknowledged |
| Mqtt.ConnectOutcome | src/services/mqtt/MQTTService.ts:40-184 | `ensureConnected` resolves exactly when already connected or acknowledged; a caller that joined a pending attempt fails with "Connection failed", any other with the broker's error |
| Mqtt.Status | src/services/mqtt/MQTTService.ts:320-325 | the reported status takes `connected` from the client and everything else from the stored status |
| Mqtt.StatusOfCoherent | src/services/mqtt/MQTTService.ts:320-325 | while the flags are in step, the reported status is the stored one |
| Mqtt.SubOps | src/services/mqtt/MQTTService.ts:165-178 | one SUBSCRIBE request per pattern, in order |
| Mqtt.MqttService.constructor | src/services/mqtt/MQTTService.ts:12-21 | no client, not connecting, counter 0, status disconnected, no subscribers |
| Mqtt.MqttService.ResubscribeAll | src/services/mqtt/MQTTService.ts:165-178 | on a connected client, one SUBSCRIBE for each live pattern exactly once; otherwise none |
| Mqtt.MqttService.OnConnect | src/services/mqtt/MQTTService.ts:68-80 | the connect handler's new state, then resubscription of every live pattern |
| Mqtt.MqttService.OnError | src/services/mqtt/MQTTService.ts:82-87 | the error handler's new state; subscribers and messages unchanged |
| Mqtt.MqttService.OnClose | src/services/mqtt/MQTTService.ts:89-94 | the close handler's new state; subscribers and messages unchanged |
| Mqtt.MqttService.OnReconnect | src/services/mqtt/MQTTService.ts:96-108 | the reconnect handler's new state; subscribers and messages unchanged |
| Mqtt.MqttService.EnsureConnected | src/services/mqtt/MQTTService.ts:40-184 | the outcome and state of `ensureConnected`, including resubscription when the broker acknowledges |
| Mqtt.MqttService.Subscribe | src/services/mqtt/MQTTService.ts:268-293 | connects first; on failure nothing is registered; on success the registry takes the subscribe step for the SUBACK's answer |
| Mqtt.MqttService.SubscribeToBot | src/services/mqtt/MQTTService.ts:258-261 | subscribes to `hbot/{botId}/+` |
| Mqtt.MqttService.SubscribeToAllBots | src/services/mqtt/MQTTService.ts:263-266 | subscribes to `hbot/{pattern}` |
| Mqtt.MqttService.Unsubscribe | src/services/mqtt/MQTTService.ts:300-318 | nothing without a client; otherwise removes the callback or drops the pattern, with an UNSUBSCRIBE when the pattern goes |
| Mqtt.MqttService.UnsubscribeFromBot | src/services/mqtt/MQTTService.ts:295-298 | unsubscribes from `hbot/{botId}/+` |
| Mqtt.MqttService.HandleMessage | src/services/mqtt/MQTTService.ts:116-129 | every callback of every matching pattern is invoked, and a throwing callback does not stop the others |
| Mqtt.MqttService.PublishCommand | src/services/mqtt/MQTTService.ts:186-256 | connects, then publishes what the command encodes, awaiting each acknowledgement; the outcome and the messages sent are those of the command's result |
| Mqtt.MqttService.Restart | src/services/mqtt/MQTTService.ts:226-234 | on a connected client, a restart publishes the stop and then, only if it was acknowledged, the start |
| Mqtt.MqttService.Send | src/services/mqtt/MQTTService.ts:245-254 | one publish is appended and resolves as the broker acknowledges it |
| Mqtt.MqttService.GetConnectionStatus | src/services/mqtt/MQTTService.ts:320-325 | `connected` is read from the live client |
| Mqtt.MqttService.Disconnect | src/services/mqtt/MQTTService.ts:327-339 | ends and drops an existing client; nothing without one |
| MetricsSubscriber.BotIdOf | src/services/mqtt/MQTTMetricsSubscriber.ts:73 | the bot id is the topic's second `/`-segment, and is undefined when the topic has fewer than two |
| MetricsSubscriber.BotIdOfTopic | src/services/mqtt/MQTTMetricsSubscriber.ts:73-116 | the bot id read back from `hbot/{id}/…` is `id`, whatever follows |
| MetricsSubscriber.Field2 | src/services/mqtt/MQTTMetricsSubscriber.ts:78-83 | `v?.a?.b` is defined exactly when both steps are |
| MetricsSubscriber.HandleMetrics | src/services/mqtt/MQTTMetricsSubscriber.ts:71-88 | a record exactly when the payload decodes to something other than `null`; it holds the topic's bot id, the parsed timestamp when truthy (otherwise the current time), and balance, PnL and order figures read from the nested fields |
| MetricsSubscriber.HandleOrder | src/services/mqtt/MQTTMetricsSubscriber.ts:90-112 | a record exactly when the payload decodes to something other than `null`; every snake_case field is renamed to its camelCase name unchanged, and the exchange timestamp is set exactly when it is truthy |
| MetricsSubscriber.HandleLog | src/services/mqtt/MQTTMetricsSubscriber.ts:114-128 | a record exactly when the payload decodes to something other than `null`; level, message and metadata are passed through |
| MetricsSubscriber.RecordsCarryBotId | src/services/mqtt/MQTTMetricsSubscriber.ts:71-128 | on a topic `hbot/{id}/…`, every record carries `id` |
| MetricsSubscriber.Subscriber.constructor | src/services/mqtt/MQTTMetricsSubscriber.ts:43-44 | not subscribed |
| MetricsSubscriber.Subscriber.Start | src/services/mqtt/MQTTMetricsSubscriber.ts:46-69 | a no-op once subscribed; otherwise it subscribes the metrics, orders and logs patterns in that order with three new callbacks, sets the flag only if they resolve, and stops at a connection failure with the registry unchanged |
| MetricsSubscriber.Subscriber.Stop | src/services/mqtt/MQTTMetricsSubscriber.ts:130-135 | only the flag is cleared |
| GatewayBridge.DecodeStart | services/hummingbot-gateway/mqtt_bridge.py:17-93 | a start payload decodes exactly when it is a mapping whose present known fields validate (text level, text or null script, a lax boolean quickstart, a mapping config); absent fields take `INFO`, no script, quickstart and an empty config, and present ones are passed on |
| GatewayBridge.LaxBool | services/hummingbot-gateway/mqtt_bridge.py:17-25 | a boolean field accepts a boolean, the numbers 0 and 1, and the words 0/off/f/false/n/no and 1/on/t/true/y/yes in any ASCII case; nothing else |
| GatewayBridge.DecodeStop | services/hummingbot-gateway/mqtt_bridge.py:24-103 | a stop payload must be a mapping; `skip_order_cancellation` defaults to false, and a present one decodes exactly when it is a lax boolean, to that boolean |
| GatewayBridge.StopCoercesTrue | services/hummingbot-gateway/mqtt_bridge.py:24-103 | `"true"` and `1` both ask to skip order cancellation |
| GatewayBridge.StopCoercesFalse | services/hummingbot-gateway/mqtt_bridge.py:24-103 | `"False"` keeps order cancellation and `"maybe"` is rejected |
| GatewayBridge.ParseCommandTopic | services/hummingbot-gateway/mqtt_bridge.py:60-66 | a topic with fewer than three segments is refused; otherwise the bot id and command are its second and third segments |
| GatewayBridge.CommandIsThirdSegment | services/hummingbot-gateway/mqtt_bridge.py:60-66 | for `hbot/{id}/{command}/…` the command is the third segment alone |
| GatewayBridge.ConfigUpdateTopicIsConfig | services/hummingbot-gateway/mqtt_bridge.py:47-85 | a message on `hbot/{id}/config/update` arrives as the command `config` |
| GatewayBridge.OnMessage | services/hummingbot-gateway/mqtt_bridge.py:57-75 | a command is dispatched exactly when the topic has three segments and the payload is JSON, with the bot id, command and decoded payload |
| GatewayBridge.StatusMessage | services/hummingbot-gateway/mqtt_bridge.py:123-125 | status and timestamp, with every key of a truthy metadata written over them |
| GatewayBridge.LogMessage | services/hummingbot-gateway/mqtt_bridge.py:158-160 | level and message always, and a `metadata` key exactly when the metadata is truthy |
| GatewayBridge.FirstSuccess | services/hummingbot-gateway/mqtt_bridge.py:173-188 | the first attempt in 1..10 at which connecting succeeds, every earlier one failing, or none when all ten fail |
| GatewayBridge.Bridge.constructor | services/hummingbot-gateway/mqtt_bridge.py:29-37 | no client, not connected, nothing subscribed, published or started |
| GatewayBridge.Bridge.OnConnect | services/hummingbot-gateway/mqtt_bridge.py:39-50 | return code 0 sets the flag and subscribes the three command patterns; any other changes nothing |
| GatewayBridge.Bridge.OnDisconnect | services/hummingbot-gateway/mqtt_bridge.py:52-55 | clears the connected flag |
| GatewayBridge.Bridge.IsConnected | services/hummingbot-gateway/mqtt_bridge.py:197-199 | the connected flag |
| GatewayBridge.Bridge.Emit | services/hummingbot-gateway/mqtt_bridge.py:120-156 | a publish goes out only with a client and the connected flag; otherwise nothing goes out |
| GatewayBridge.Bridge.PublishStatus | services/hummingbot-gateway/mqtt_bridge.py:118-132 | the status message, retained at QoS 1, on `hbot/{id}/status`, when connected |
| GatewayBridge.Bridge.PublishMetrics | services/hummingbot-gateway/mqtt_bridge.py:134-143 | the metrics, not retained, at QoS 0, on `hbot/{id}/metrics`, when connected |
| GatewayBridge.Bridge.PublishOrder | services/hummingbot-gateway/mqtt_bridge.py:145-151 | the order at QoS 1 on `hbot/{id}/orders/{type}`, when connected |
| GatewayBridge.Bridge.PublishLog | services/hummingbot-gateway/mqtt_bridge.py:153-163 | the log message at QoS 0 on `hbot/{id}/logs/{level}`, when connected |
| GatewayBridge.Bridge.HandleStart | services/hummingbot-gateway/mqtt_bridge.py:90-98 | the container is started with the decoded config only when decoding succeeds; status `running` on success, otherwise `error` carrying the decode or container error |
| GatewayBridge.Bridge.HandleStop | services/hummingbot-gateway/mqtt_bridge.py:100-108 | the container is stopped with the decoded flag only when decoding succeeds; status `stopped` on success, otherwise `error` carrying the error |
| GatewayBridge.Bridge.HandleConfigUpdate | services/hummingbot-gateway/mqtt_bridge.py:110-116 | the payload goes to the container manager; `running` is reported on success and nothing on failure |
| GatewayBridge.Bridge.HandleCommand | services/hummingbot-gateway/mqtt_bridge.py:77-145 | only `start`, `stop` and `config` reach a handler, and any other command changes nothing; `start` and `stop` call the container manager only once the payload decodes and then report `running` or `stopped`, or `error` with the failure text, while connected; `config` always passes the payload on and reports `running` only on success |
| GatewayBridge.Bridge.Start | services/hummingbot-gateway/mqtt_bridge.py:165-188 | creates the client and tries up to ten times; the loop starts exactly when some attempt succeeds, and the count of attempts is that of the first success, or ten |
| GatewayBridge.Bridge.Stop | services/hummingbot-gateway/mqtt_bridge.py:190-195 | with a client, its network loop is stopped; without one nothing happens |
| ContainerBridge.SkipWhile | services/hummingbot-gateway/mqtt_bridge_client.py:85 | the end of the longest run of characters of one class, as the greedy `*` of the escape pattern consumes it |
| ContainerBridge.EscapeLength | services/hummingbot-gateway/mqtt_bridge_client.py:85 | the length of the escape sequence matched at an escape character: two for a short escape, and for the CSI form at least three, with `[` second and a final byte last |
| ContainerBridge.StripAnsi | services/hummingbot-gateway/mqtt_bridge_client.py:85-86 | removing escape sequences never lengthens the text, and text without an escape character is unchanged |
| ContainerBridge.StripAnsiDropsSequence | services/hummingbot-gateway/mqtt_bridge_client.py:85-86 | text before an escape sequence is kept, and the sequence itself is removed |
| ContainerBridge.ColourCodeIsOneSequence | services/hummingbot-gateway/mqtt_bridge_client.py:85 | `ESC[<digits>m` is matched as one escape sequence |
| ContainerBridge.Noise | services/hummingbot-gateway/mqtt_bridge_client.py:88-98 | the four noise filters: empty text, a box-drawing character, "Broken pipe" together with "yes", and "/bin/bash:"; `BoxIsNoise`, `BracesAreClean` and `BannerLineDropped` exercise them |
| ContainerBridge.BracedObject | services/hummingbot-gateway/mqtt_bridge_client.py:101-104 | an object is found only on a line that starts with `{` and ends with `}`, and it is the object that line parses to |
| ContainerBridge.JsonOverride | services/hummingbot-gateway/mqtt_bridge_client.py:101-110 | a line not shaped like `{…}` or not parsing to an object is unchanged; in an object, a `message` that is not text changes nothing; a text `message` that is not blank once trimmed replaces the text, and an absent or blank one keeps it; a text `level`, lowercased, replaces the level when the message step did not fail, and otherwise the level is kept |
| ContainerBridge.CleanLog | services/hummingbot-gateway/mqtt_bridge_client.py:83-113 | a line whose cleaned text is noise gives nothing; otherwise the JSON override of the cleaned text is published exactly when its text has at least two characters |
| ContainerBridge.LogMessage | services/hummingbot-gateway/mqtt_bridge_client.py:115-119 | exactly the keys level, message and timestamp |
| ContainerBridge.LogOutput | services/hummingbot-gateway/mqtt_bridge_client.py:80-124 | at most one publish, made exactly when connected and the line survives cleaning, on `hbot/{id}/logs/{level}` at QoS 0 |
| ContainerBridge.PlainLine | services/hummingbot-gateway/mqtt_bridge_client.py:86-113 | a line not shaped like a JSON object keeps its level and is published as its stripped, trimmed text unless that is noise or shorter than two |
| ContainerBridge.JsonMessageWins | services/hummingbot-gateway/mqtt_bridge_client.py:88-113 | the noise filters run before the JSON override, so a JSON line's trimmed `message` is published whatever it holds |
| ContainerBridge.JsonLevelWins | services/hummingbot-gateway/mqtt_bridge_client.py:101-124 | a JSON line naming only a text `level` keeps its own text and is published at that level, lowercased |
| ContainerBridge.OverrideByLevel | services/hummingbot-gateway/mqtt_bridge_client.py:101-110 | an object holding only a text `level` keeps the line and lowercases the level |
| ContainerBridge.BracesAreClean | services/hummingbot-gateway/mqtt_bridge_client.py:88-98 | `{x}` passes every noise filter |
| ContainerBridge.BannerInsideJson | services/hummingbot-gateway/mqtt_bridge_client.py:90-107 | banner art inside a JSON `message` is published, while the same art on a line of its own is filtered |
| ContainerBridge.NotContains | services/hummingbot-gateway/mqtt_bridge_client.py:311-312 | a pattern holding a character the text lacks does not occur in it |
| ContainerBridge.ClassifyLine | services/hummingbot-gateway/mqtt_bridge_client.py:308-312 | `error` exactly when the lowercased line contains "error", else `warning` exactly when it contains "warning", else `info` |
| ContainerBridge.UpperCaseErrorIsError | services/hummingbot-gateway/mqtt_bridge_client.py:310-311 | a line containing `ERROR` is an error line |
| ContainerBridge.StatusMessage | services/hummingbot-gateway/mqtt_bridge_client.py:75 | exactly the keys status and timestamp |
| ContainerBridge.Collect | services/hummingbot-gateway/mqtt_bridge_client.py:305-314 | an empty run of lines contributes nothing |
| ContainerBridge.PumpLine | services/hummingbot-gateway/mqtt_bridge_client.py:305-314 | the output of one line: its level classified from the line, then the log output of that line, stamped with the clock at its position; `RelayLine` publishes exactly that output |
| ContainerBridge.Relayed | services/hummingbot-gateway/mqtt_bridge_client.py:305-314 | the log messages of relaying a run of lines, one line after another; `RelayedShape` bounds them and `RelayLines` is proved to publish exactly them |
| ContainerBridge.CollectStep | services/hummingbot-gateway/mqtt_bridge_client.py:305-314 | one more turn of the loop appends the next line's contribution |
| ContainerBridge.RelayedShape | services/hummingbot-gateway/mqtt_bridge_client.py:305-314 | relaying output lines yields at most one message per line, all on the bot's `logs/` topics at QoS 0, and nothing while disconnected |
| ContainerBridge.VerbatimLine | services/hummingbot-gateway/mqtt_bridge_client.py:80-124 | a clean line of two or more characters is published verbatim at its given level |
| ContainerBridge.Bridge.constructor | services/hummingbot-gateway/mqtt_bridge_client.py:23-29 | not connected, nothing subscribed or published |
| ContainerBridge.Bridge.PublishStatus | services/hummingbot-gateway/mqtt_bridge_client.py:71-78 | only while connected, the status message goes out retained at QoS 1 on `hbot/{id}/status` |
| ContainerBridge.Bridge.OnConnect | services/hummingbot-gateway/mqtt_bridge_client.py:31-40 | return code 0 connects, announces `running` and subscribes to `hbot/{id}/config/update`; any other code changes nothing |
| ContainerBridge.Bridge.PublishLog | services/hummingbot-gateway/mqtt_bridge_client.py:80-124 | the step-by-step filters publish exactly the log output the reference cleaning gives |
| ContainerBridge.Bridge.RelayOutput | services/hummingbot-gateway/mqtt_bridge_client.py:305-317 | every output line is relayed, followed by `stopped` when connected |
| ContainerBridge.Bridge.RelayLines | services/hummingbot-gateway/mqtt_bridge_client.py:305-314 | the loop publishes exactly what relaying the lines gives |
| ContainerBridge.Bridge.RelayLine | services/hummingbot-gateway/mqtt_bridge_client.py:308-314 | one line is classified and handed to the log publisher |
| ContainerBridge.Bridge.HandleRemoteConfig | services/hummingbot-gateway/mqtt_bridge_client.py:52-69 | an info log on a successful write, otherwise an error log carrying the exception text |
| ContainerBridge.Bridge.OnMessage | services/hummingbot-gateway/mqtt_bridge_client.py:42-50 | only a decodable payload on a topic ending in `/config/update` is applied; anything else publishes nothing |
| ContainerBridge.Bridge.Stop | services/hummingbot-gateway/mqtt_bridge_client.py:325-330 | announces `stopped` if connected; the connected flag stays as it was |
| Bots.NewBot | src/services/bot/BotService.ts:17-28 | the inserted row has the given id, organisation, strategy and config, with status `stopped` |
| Bots.Patch | src/services/bot/BotService.ts:54-61 | the fields of an update overwrite the editable ones; id, organisation and status never change |
| Bots.StartPayload | src/services/bot/BotService.ts:117-122 | the start payload is the stored config with `strategy_type` set to the bot's strategy |
| Bots.ConfigPayload | src/services/bot/BotService.ts:160-167 | the config's keys plus `strategy_type` and `remote_reload`, with `remote_reload` true exactly for `v2`, and the other keys unchanged |
| Bots.ReportedStatus | src/services/bot/BotService.ts:35-48 | a status is reported exactly when the message decodes and carries a non-empty `status` string |
| Bots.StartCarriesStrategy | src/services/bot/BotService.ts:117-122 | the start message on `hbot/{id}/start` carries the config with the strategy type, plus the start defaults |
| Bots.ConfigUpdateReload | src/services/bot/BotService.ts:159-167 | the update reaches `hbot/{id}/config/update` with `remote_reload` true exactly for `v2` strategies |
| Bots.GatewayUrl | src/services/bot/BotService.ts:204 | `GATEWAY_URL` when set and non-empty, else `http://localhost:8000` |
| Bots.BacktestBody | src/services/bot/BotService.ts:203-216 | exactly config, start date and end date, the config being the override when one is given |
| Bots.BotService.constructor | src/services/bot/BotService.ts:228 | no bots and no organisations |
| Bots.BotService.GetBot | src/services/bot/BotService.ts:87-95 | a row exactly when the bot exists and belongs to the organisation |
| Bots.BotService.ListBots | src/services/bot/BotService.ts:97-104 | exactly the rows of the organisation |
| Bots.BotService.CreateBot | src/services/bot/BotService.ts:10-51 | the organisation is ensured and the row inserted as `stopped`; the call succeeds exactly when the status subscription on `hbot/{id}/+` can connect, and a failure keeps the row |
| Bots.BotService.OnStatusMessage | src/services/bot/BotService.ts:35-48 | a reported status is written to the owned row; anything else leaves the table unchanged |
| Bots.BotService.UpdateBotStatus | src/services/bot/BotService.ts:177-189 | only the owned row's status changes |
| Bots.BotService.UpdateBot | src/services/bot/BotService.ts:53-70 | fails with "Bot not found or access denied" exactly when no owned row matches; otherwise the row is patched and returned |
| Bots.BotService.DeleteBot | src/services/bot/BotService.ts:72-85 | fails exactly without ownership and then changes nothing; otherwise deletes the row and drops every callback on `hbot/{id}/+` |
| Bots.BotService.RunBacktest | src/services/bot/BotService.ts:191-225 | fails exactly without ownership; otherwise posts the body to `{gateway}/bots/{id}/backtest` and resolves with its answer, or with the failure object when the request throws |
| Bots.BotService.StartBot | src/services/bot/BotService.ts:106-123 | without ownership it fails and nothing changes; otherwise the row becomes `starting` before the start command is published, so a failed publish leaves it `starting` |
| Bots.BotService.StopBot | src/services/bot/BotService.ts:125-137 | without ownership it fails; otherwise the stop is published first, and the row becomes `stopped` only when it was delivered |
| Bots.BotService.UpdateBotConfig | src/services/bot/BotService.ts:139-168 | without ownership it fails; otherwise the stored config is replaced before the update is published |
| Bots.BotService.RestartBot | src/services/bot/BotService.ts:170-175 | a failing stop is the result and nothing is started; otherwise the bot is marked `starting` and the start message is published after the stop |
| Alerts.Abs | src/services/alerts/AlertService.ts:104 | `Math.abs`: non-negative, and the value or its negation |
| Alerts.Evaluate | src/services/alerts/AlertService.ts:97-108 | an unknown operator never fires |
| Alerts.EvaluateOperators | src/services/alerts/AlertService.ts:97-108 | `gt` and `lt` are strict and never both hold; `eq` holds exactly within 0.01 either way, is symmetric, and holds at equality where `gt` and `lt` do not |
| Alerts.Keep | src/services/alerts/AlertService.ts:126-130 | `filter` keeps exactly the rules that pass, never more than there were |
| Alerts.KeepAppend | src/services/alerts/AlertService.ts:126-130 | filtering a concatenation is the concatenation of the filtered parts, so order is kept |
| Alerts.KeepAll | src/services/alerts/AlertService.ts:126 | a list whose every rule passes comes through unchanged |
| Alerts.Without | src/services/alerts/AlertService.ts:125-127 | exactly the rules with a different id survive `removeRule` |
| Alerts.OfOrg | src/services/alerts/AlertService.ts:129-131 | exactly the rules of the organisation |
| Alerts.BotRules | src/services/alerts/AlertService.ts:36-38 | exactly the enabled rules of the organisation aimed at this bot |
| Alerts.GeneralRules | src/services/alerts/AlertService.ts:28-30 | exactly the enabled rules of the organisation with no (or an empty) bot id |
| Alerts.BotAndGeneralDisjoint | src/services/alerts/AlertService.ts:28-38 | for a bot with a non-empty id, no rule is both its own and general |
| Alerts.Fires | src/services/alerts/AlertService.ts:52-81 | thresholds fire exactly when the metric is present and the condition holds; `error` never fires; `bot_stopped` fires exactly when the bot is found stopped |
| Alerts.AlertsFor | src/services/alerts/AlertService.ts:35-87 | the alerts sent for a bot are exactly its rules that fire, and none without a metrics row |
| Alerts.Fired | src/services/alerts/AlertService.ts:49-86 | exactly the rules that fire |
| Alerts.Sweep | src/services/alerts/AlertService.ts:20-33 | an alert is sent in a sweep for a bot exactly when the bot is one of the organisation's bots and the rule is an alert for that bot |
| Alerts.Tag | src/services/alerts/AlertService.ts:84 | each alert is paired with its bot, in order, and the pairs are exactly that bot with each alert |
| Alerts.AddThenRemove | src/services/alerts/AlertService.ts:121-127 | removing the id of a rule just added, when no older rule has that id, restores the rules |
| Alerts.AddThenGet | src/services/alerts/AlertService.ts:121-131 | after `addRule`, the rule's organisation sees its old rules followed by the new one, and other organisations see no change |
| Alerts.AlertService.constructor | src/services/alerts/AlertService.ts:18 | no rules |
| Alerts.AlertService.AddRule | src/services/alerts/AlertService.ts:121-123 | the rule is appended at the end |
| Alerts.AlertService.RemoveRule | src/services/alerts/AlertService.ts:125-127 | the rules become those without the id |
| Alerts.AlertService.GetRules | src/services/alerts/AlertService.ts:129-131 | exactly the rules of the organisation |
| Alerts.AlertService.ShouldAlert | src/services/alerts/AlertService.ts:50-81 | the switch sets `shouldAlert` exactly when the rule fires |
| Alerts.AlertService.CheckBotAlerts | src/services/alerts/AlertService.ts:35-87 | metrics are fetched exactly when the bot has a rule, and the loop sends exactly the reference alerts, in order |
| Alerts.AlertService.CheckAlerts | src/services/alerts/AlertService.ts:20-33 | the loop over the bots sends exactly the reference sweep |
| Credentials.Find | src/services/exchange/CredentialsService.ts:34-121 | nothing exactly when no row has the (organisation, exchange) key; otherwise a row of the table with that key |
| Credentials.UpdateWhere | src/services/exchange/CredentialsService.ts:47-61 | the rows with the key are replaced and all others kept in place |
| Credentials.DeleteWhere | src/services/exchange/CredentialsService.ts:127-134 | exactly the rows without the key remain |
| Credentials.StoredPassphrase | src/services/exchange/CredentialsService.ts:29-31 | a passphrase is kept exactly when it is given and non-empty |
| Credentials.Seal | src/services/exchange/CredentialsService.ts:27-31 | as intended (see ## Findings), with the corrected key rule: with well-behaved primitives, sealing succeeds exactly when the key can be derived, and a sealed passphrase is present exactly when it is kept |
| Credentials.Open | src/services/exchange/CredentialsService.ts:75-108 | as intended (see ## Findings), with the corrected key rule: no row gives `null`; a found row gives its exchange and testnet flag, and a passphrase exactly when a non-empty one is stored |
| Credentials.Listed | src/services/exchange/CredentialsService.ts:137-147 | exactly the (exchange, testnet) pairs of the organisation's rows |
| Credentials.Validate | src/services/exchange/CredentialsService.ts:149-173 | the exchange is asked exactly when key and secret are non-empty, and the result is true exactly when it was asked and answered yes |
| Credentials.FindUnique | src/services/exchange/CredentialsService.ts:34-43 | under the unique index, a lookup finds the row with that key wherever it sits |
| Credentials.UpdateKeepsRows | src/services/exchange/CredentialsService.ts:45-61 | an update keeps the index unique, is found under its key, and leaves every other key's lookup unchanged |
| Credentials.FindPointwise | src/services/exchange/CredentialsService.ts:34-43 | a lookup depends only on the rows carrying its key |
| Credentials.InsertKeepsRows | src/services/exchange/CredentialsService.ts:62-72 | an insert under a new key keeps the index unique, is found, and leaves every other key's lookup unchanged |
| Credentials.FindAppendOther | src/services/exchange/CredentialsService.ts:64-71 | appending a row under another key does not change a lookup |
| Credentials.DeleteKeepsRows | src/services/exchange/CredentialsService.ts:127-134 | a delete keeps the index unique, removes the key, and leaves every other key's lookup unchanged |
| Credentials.DeleteSub | src/services/exchange/CredentialsService.ts:127-134 | deleting keeps the index unique |
| Credentials.DeleteOther | src/services/exchange/CredentialsService.ts:127-134 | deleting one key does not change a lookup of another |
| Credentials.StoreThenGet | src/services/exchange/CredentialsService.ts:15-108 | reading back after a successful store gives the key, the secret, the passphrase unless it was empty, and the testnet flag, false when not given |
| Credentials.CredentialsService.constructor | src/services/exchange/CredentialsService.ts:14 | no rows and no organisations |
| Credentials.CredentialsService.StoreCredentials | src/services/exchange/CredentialsService.ts:15-73 | as intended (see ## Findings), with the corrected key rule: the organisation is ensured; the store fails exactly when sealing fails, changing no row; otherwise the sealed row is found under its key, every other lookup is unchanged, and a row is added only for a new key |
| Credentials.CredentialsService.GetCredentials | src/services/exchange/CredentialsService.ts:75-108 | `null` when no row has the key |
| Credentials.CredentialsService.DeleteCredentials | src/services/exchange/CredentialsService.ts:110-135 | fails with "Credentials not found" exactly when no row has the key; afterwards no row has it and every other lookup is unchanged |
| Credentials.CredentialsService.ListCredentials | src/services/exchange/CredentialsService.ts:137-147 | exactly the organisation's (exchange, testnet) pairs |
| Encryption.HexDigit | src/services/encryption/EncryptionService.ts:51 | each lower-case digit written reads back as its value |
| Encryption.HexValue | src/services/encryption/EncryptionService.ts:20-60 | a value below 16 exactly for the hex digits of either case |
| Encryption.ToHex | src/services/encryption/EncryptionService.ts:51-85 | two hex digits per byte |
| Encryption.FromHex | src/services/encryption/EncryptionService.ts:20-60 | decoding stops at the first pair that is not hex, so it never yields more than half the length, and exactly half for hex text |
| Encryption.FromHexToHex | src/services/encryption/EncryptionService.ts:51-60 | hex decoding inverts hex encoding |
| Encryption.NonHexDecodesShort | src/services/encryption/EncryptionService.ts:19-20 | a 64-character key whose first character is not hex decodes to no bytes |
| Encryption.KeyAsWritten | src/services/encryption/EncryptionService.ts:12-25 | an unset or empty key is refused; any 64-character key is hex-decoded, and any other length is derived |
| Encryption.Key | src/services/encryption/EncryptionService.ts:12-25 | an unset or empty key is refused; only 64 hex digits are decoded, everything else is derived, and with a well-behaved derivation the key always has 32 bytes |
| Encryption.KeyAgreesOnHex | src/services/encryption/EncryptionService.ts:12-25 | the corrected rule and the written one agree except on 64-character keys that are not hex |
| Encryption.Clamp | src/services/encryption/EncryptionService.ts:63-69 | a `subarray` index lies within the buffer and is the index itself when it already does |
| Encryption.Subarray | src/services/encryption/EncryptionService.ts:63-69 | with indices in range, the plain slice |
| Encryption.Frame | src/services/encryption/EncryptionService.ts:44-49 | the frame is as long as salt, iv, ciphertext and tag together |
| Encryption.Unframe | src/services/encryption/EncryptionService.ts:60-69 | on a buffer long enough, the slices [0,64), [64,80), [80,n−16) and [n−16,n) |
| Encryption.UnframeFrame | src/services/encryption/EncryptionService.ts:44-69 | cutting a framed buffer gives back salt, iv, ciphertext and tag |
| Encryption.EncryptWith | src/services/encryption/EncryptionService.ts:31-52 | a key error propagates, a key that is not 32 bytes fails with "Invalid key length", and a 32-byte key succeeds with the hex of salt, iv, ciphertext and tag in that order |
| Encryption.Encrypt | src/services/encryption/EncryptionService.ts:12-52 | as intended (see ## Findings), with the corrected key rule: with well-behaved primitives, encrypting succeeds exactly when the key can be obtained, and yields the hex of salt, iv, ciphertext and tag, of the frame length |
| Encryption.Decrypt | src/services/encryption/EncryptionService.ts:12-78 | as intended (see ## Findings), with the corrected key rule: a key error propagates, a key that is not 32 bytes fails with "Invalid key length", a frame that does not authenticate fails, and otherwise the opened bytes are decoded as text |
| Encryption.DecryptEncrypt | src/services/encryption/EncryptionService.ts:31-78 | decrypting what was encrypted under the same key gives the plaintext back, whatever salt and iv were drawn |
| Encryption.GenerateKey | src/services/encryption/EncryptionService.ts:84-86 | 64 hex digits |
| Encryption.GeneratedKeyIsUsedAsIs | src/services/encryption/EncryptionService.ts:19-86 | a generated key set as `ENCRYPTION_KEY` is used as exactly the bytes drawn |
| Encryption.NonHexKeyOfHexLength | src/services/encryption/EncryptionService.ts:19-36 | as written, a 64-character non-hex key becomes an empty key and every encryption fails with "Invalid key length"; the corrected rule encrypts |
| Metrics.WindowMs | src/services/metrics/MetricsService.ts:63-83 | a window length exists exactly for `1h`, `4h`, `1d`, `7d` and `30d`, and is positive |
| Metrics.WindowStart | src/services/metrics/MetricsService.ts:60-83 | `all` and every unknown name start at the epoch; a named window starts before now |
| Metrics.WindowsNest | src/services/metrics/MetricsService.ts:63-83 | the 30d window starts before the 7d one, which starts before the 1d one, and so on down to one hour before now; `all` and `2h` start at 0 |
| Metrics.Select | src/services/metrics/MetricsService.ts:85-93 | a row is selected exactly when it belongs to the bot and is not older than the window start; the order of the table is kept |
| Metrics.ToPoint | src/services/metrics/MetricsService.ts:97-102 | the timestamp is kept, each stored decimal is read as is, and a null decimal reads as 0 |
| Metrics.ToPoints | src/services/metrics/MetricsService.ts:97-102 | one point per row, in row order |
| Metrics.History | src/services/metrics/MetricsService.ts:56-103 | at most 1000 points, exactly min(selected, 1000) of them, each the point of the selected row at the same position, none older than the window start, newest first when the table is ordered so |
| Metrics.PnL | src/services/metrics/MetricsService.ts:143-207 | no rows gives all zeros over start to now; otherwise total is the sum of the balance steps, the percentage times the first balance is 100 times the total when that balance is positive and 0 otherwise, realized equals total, unrealized is 0, and the period runs from the first to the last row |
| Metrics.PnLStart | src/services/metrics/MetricsService.ts:144-145 | the period of a non-negative number of days starts no later than now |
| Metrics.Balances | src/services/metrics/MetricsService.ts:187-188 | each row's balance, a null one read as 0 |
| Metrics.StepSumTelescopes | src/services/metrics/MetricsService.ts:187-189 | the sum of the steps between consecutive balances is the last balance minus the first |
| Metrics.Returns | src/services/metrics/MetricsService.ts:429-436 | at most one return per consecutive pair, and none for fewer than two samples |
| Metrics.ReturnsCount | src/services/metrics/MetricsService.ts:430-436 | every pair after a positive balance gives a return; with no positive balance before the last there are none |
| Metrics.ComputeReturns | src/services/metrics/MetricsService.ts:429-436 | the loop collects exactly the returns of consecutive samples after a positive balance |
| Metrics.Peak | src/services/metrics/MetricsService.ts:454-461 | the running peak is one of the samples and no sample exceeds it |
| Metrics.MaxDrawdown | src/services/metrics/MetricsService.ts:455-467 | never negative |
| Metrics.MaxDrawdownPct | src/services/metrics/MetricsService.ts:456-470 | never negative |
| Metrics.DrawdownBounds | src/services/metrics/MetricsService.ts:458-471 | every sample's fall below the peak reached by then, in money and in percent, is bounded by the maxima |
| Metrics.Drawdown | src/services/metrics/MetricsService.ts:453-471 | the scan yields the largest fall below the running peak and the largest such fall in percent |
| Metrics.RisingHasNoDrawdown | src/services/metrics/MetricsService.ts:458-471 | a series that never falls has zero drawdown in money and in percent |
| Metrics.RiskOf | src/services/metrics/MetricsService.ts:417-483 | fewer than two samples gives all zeros; otherwise the trade count is passed through, the drawdowns are non-negative and the win rate is 50 exactly when there is a trade and 0 exactly when there is none |
| Metrics.PointBalances | src/services/metrics/MetricsService.ts:431-432 | the balance of each point, in order |
| Metrics.Chronological | src/services/metrics/MetricsService.ts:94 | the balances of a newest-first history in reverse, that is in time order |
| Metrics.RiskAsWritten | src/services/metrics/MetricsService.ts:414-425 | as written the scan reads the history in the newest-first order it is fetched in; fewer than two points gives all zeros |
| Metrics.GrowthReadAsDrawdown | src/services/metrics/MetricsService.ts:453-471 | as written, an account that grew from 100 to 200 reports a drawdown of 100, that is 50 percent of its peak |
| Metrics.CalculateRiskMetrics | src/services/metrics/MetricsService.ts:414-483 | as intended (see ## Findings), with the corrected order: the risk figures of the history taken in time order |
| Metrics.RisingHistoryHasNoDrawdown | src/services/metrics/MetricsService.ts:453-471 | a history whose balance only rose reports no drawdown once it is scanned in time order |
| Metrics.ValueOf | src/services/metrics/MetricsService.ts:252-273 | a balance that is not positive is skipped, a stablecoin counts at face value, and a coin without a price, or priced at 0, counts nothing |
| Metrics.Stablecoin | src/services/metrics/MetricsService.ts:258 | USDT, USDC, DAI and BUSD in any case are stablecoins; `StablecoinAccount` shows they count at face value |
| Metrics.StablecoinAccount | src/services/metrics/MetricsService.ts:252-260 | an account of stablecoins is worth the sum of its positive balances, whatever the prices |
| Metrics.ExchangeValue | src/services/metrics/MetricsService.ts:251-274 | the loop sums the USD value of every balance of one exchange |
| Metrics.ExchangeTotal | src/services/metrics/MetricsService.ts:251-274 | the reference sum of `ValueOf` over one exchange's balances, in order; `ExchangeValue` is proved equal to it |
| Metrics.AccountsTotal | src/services/metrics/MetricsService.ts:235-282 | the reference sum of the exchange totals of the reached accounts; `SumAccounts` is proved equal to it |
| Metrics.Reached | src/services/metrics/MetricsService.ts:239-276 | an exchange gets an entry exactly when its balances could be fetched |
| Metrics.RunningCount | src/services/metrics/MetricsService.ts:299-301 | the running bots never outnumber the bots |
| Metrics.Strategies | src/services/metrics/MetricsService.ts:305-306 | a strategy gets an entry exactly when some bot uses it |
| Metrics.SumAccounts | src/services/metrics/MetricsService.ts:235-282 | the total is the sum over the reachable exchanges, the per-exchange entries are exactly those exchanges, and each entry is the value of that exchange's balances at the given prices |
| Metrics.TallyBots | src/services/metrics/MetricsService.ts:285-308 | the profit sums the bots' latest profit, the active count is the number of running bots, the per-strategy entries are exactly the strategies in use, and each entry is the sum of the latest balances of the bots running that strategy |
| Metrics.PnlTotal | src/services/metrics/MetricsService.ts:291-297 | the reference sum of each bot's truthy latest profit; `TallyBots` is proved equal to it |
| Metrics.StrategyShare | src/services/metrics/MetricsService.ts:303-306 | the reference sum of the latest balances of the bots running one strategy; `TallyBots` is proved equal to it and `NoStrategyNoShare` gives 0 for an unused strategy |
| Metrics.GetPortfolioValue | src/services/metrics/MetricsService.ts:209-326 | the totals, counts and per-exchange and per-strategy values above, every bot counted, and a percentage that times the balance is 100 times the profit when the balance is positive and 0 otherwise |
| V2Executor.ControllerConfigs | services/hummingbot-gateway/v2_generic_executor.py:41 | the controller configs exist exactly when the document is a mapping, and a mapping without `controllers` gives the empty list |
| V2Executor.Build | services/hummingbot-gateway/v2_generic_executor.py:38-42 | a fresh, running controller set with no ticks is built from the configs; earlier sets are untouched |
| V2Executor.Initialize | services/hummingbot-gateway/v2_generic_executor.py:24-45 | the remote file wins over the local one and its mtime is recorded even when loading fails; a set is built exactly when the chosen file loads as a mapping, and otherwise the controllers stay as they were |
| V2Executor.Check | services/hummingbot-gateway/v2_generic_executor.py:58-85 | a check never touches the time of the last check |
| V2Executor.Halt | services/hummingbot-gateway/v2_generic_executor.py:87-89 | a running set is stopped, and no set stays none |
| V2Executor.CheckMonotone | services/hummingbot-gateway/v2_generic_executor.py:63-65 | the recorded mtime never moves back |
| V2Executor.ReloadOnlyWhenNewer | services/hummingbot-gateway/v2_generic_executor.py:59-65 | nothing changes unless the remote file exists and is newer than the recorded mtime; when it is, its mtime is recorded whatever happens next |
| V2Executor.CheckIdempotent | services/hummingbot-gateway/v2_generic_executor.py:58-85 | a second check on the same files changes nothing |
| V2Executor.ReloadReplacesStopped | services/hummingbot-gateway/v2_generic_executor.py:72-80 | on a reload with controllers, the old set is stopped and dropped and a new set is built from the remote configs |
| V2Executor.ReloadInitializes | services/hummingbot-gateway/v2_generic_executor.py:82-83 | on a reload without controllers, the script runs `initialize_v2` |
| V2Executor.TickKeepsInvariants | services/hummingbot-gateway/v2_generic_executor.py:47-89 | ticks, checks and stops keep every dropped set stopped and never move the recorded mtime back |
| V2Executor.Tick | services/hummingbot-gateway/v2_generic_executor.py:47-56 | the check time moves to this tick exactly when more than 10 seconds have passed, and no built controller set is forgotten; `TickThrottles` and `TickKeepsInvariants` state the rest and `OnTick` is proved equal to it |
| V2Executor.TickThrottles | services/hummingbot-gateway/v2_generic_executor.py:47-56 | a check runs exactly when more than 10 seconds passed since the last one, and records this tick's time; otherwise the clocks and dropped sets are unchanged; controllers see one more tick |
| V2Executor.FormatStatus | services/hummingbot-gateway/v2_generic_executor.py:91-94 | the controllers' own report, or "V2 Strategy not initialized." without controllers |
| V2Executor.Executor.constructor | services/hummingbot-gateway/v2_generic_executor.py:17-22 | both clocks at 0 and no controllers, then `initialize_v2` |
| V2Executor.Executor.NewControllers | services/hummingbot-gateway/v2_generic_executor.py:38-42 | the fields become those of a newly built set |
| V2Executor.Executor.InitializeV2 | services/hummingbot-gateway/v2_generic_executor.py:24-45 | the fields become `Initialize` of the old ones |
| V2Executor.Executor.CheckForConfigUpdates | services/hummingbot-gateway/v2_generic_executor.py:58-85 | the fields become `Check` of the old ones |
| V2Executor.Executor.OnTick | services/hummingbot-gateway/v2_generic_executor.py:47-56 | the fields become `Tick` of the old ones |
| V2Executor.Executor.OnStop | services/hummingbot-gateway/v2_generic_executor.py:87-89 | the fields become `Halt` of the old ones |
| Redis.RetryDelay | src/services/cache/RedisService.ts:19-24 | the client gives up exactly after the third attempt; before that it waits 50 ms per attempt, never more than 2000 |
| Redis.RetryTotalBound | src/services/cache/RedisService.ts:19-24 | the three attempts wait 300 ms in all |
| Redis.RedisUrl | src/services/cache/RedisService.ts:14 | the configured URL when set and non-empty, else `redis://localhost:6379` |
| Redis.Connected | src/services/cache/RedisService.ts:7-50 | nothing happens with a client; otherwise a client for the URL, available exactly when the first attempt reached the server, or no client and unavailable when building it throws; the stored keys never change |
| Redis.OnEvent | src/services/cache/RedisService.ts:29-40 | with a client, an error makes the cache unavailable and a connect makes it available; nothing else changes |
| Redis.Lookup | src/services/cache/RedisService.ts:52-68 | `null` when not ready or the key is missing; a value returned is the decoding of the stored text |
| Redis.Put | src/services/cache/RedisService.ts:70-85 | nothing when not ready; a missing or zero ttl stores without expiry, a positive one stores with it, a negative one stores nothing; the connection is unchanged |
| Redis.Remove | src/services/cache/RedisService.ts:87-97 | when ready the key is gone and every other key is kept; otherwise nothing changes |
| Redis.PutThenLookup | src/services/cache/RedisService.ts:52-85 | a value set while ready is what `get` returns |
| Redis.ZeroTtlNeverExpires | src/services/cache/RedisService.ts:77-81 | a ttl of 0 stores exactly as no ttl does |
| Redis.RemoveThenLookup | src/services/cache/RedisService.ts:52-97 | after `del` the key reads as `null` and other keys read as before |
| Redis.ErrorClosesGate | src/services/cache/RedisService.ts:29-40 | after an error `get` returns `null` and `set`/`del` change nothing; a connect event makes a client ready again |
| Redis.RedisService.constructor | src/services/cache/RedisService.ts:3-5 | no client and unavailable |
| Redis.RedisService.Connect | src/services/cache/RedisService.ts:7-50 | the fields become `Connected` of the old ones |
| Redis.RedisService.OnError | src/services/cache/RedisService.ts:29-34 | the fields become those after an error event |
| Redis.RedisService.OnConnect | src/services/cache/RedisService.ts:36-40 | the fields become those after a connect event |
| Redis.RedisService.Get | src/services/cache/RedisService.ts:52-68 | the result is `Lookup` of the state, and a reconnection starts exactly when a client exists, is unavailable and has ended |
| Redis.RedisService.Set | src/services/cache/RedisService.ts:70-85 | the fields become `Put` of the old ones with the encoded value |
| Redis.RedisService.Del | src/services/cache/RedisService.ts:87-97 | the fields become `Remove` of the old ones |
| Redis.RedisService.IsConnected | src/services/cache/RedisService.ts:99-101 | the availability flag |
| LogsViewer.ReceivedAsWritten | src/features/bots/BotLogsViewer.tsx:48-63 | a `null` payload is dropped; otherwise the log carries the bot id, a truthy level, a truthy or null metadata, and the raw text when the message field is missing or falsy |
| LogsViewer.Received | src/features/bots/BotLogsViewer.tsx:48-63 | as intended: the same drops, every message is text, and a text message is kept as written |
| LogsViewer.Prepend | src/features/bots/BotLogsViewer.tsx:60 | the new log is first, followed by the older ones, at most 1000 in all |
| LogsViewer.Receive | src/features/bots/BotLogsViewer.tsx:48-64 | as intended (see ## Findings), with the corrected message rule: text that does not decode, or decodes to `null`, leaves the buffer as it was; otherwise the new log is prepended |
| LogsViewer.ReceiveKeepsText | src/features/bots/BotLogsViewer.tsx:48-64 | receiving keeps every buffered message text |
| LogsViewer.Test | src/features/bots/BotLogsViewer.tsx:76-84 | a log of another level is hidden; an empty search shows every log of the level; the callback throws exactly when it reaches the search on a non-text message |
| LogsViewer.Filter | src/features/bots/BotLogsViewer.tsx:76-84 | the panel never shows more logs than the buffer holds |
| LogsViewer.FilterFails | src/features/bots/BotLogsViewer.tsx:76-84 | the panel fails exactly when the callback throws on some log |
| LogsViewer.FilterShows | src/features/bots/BotLogsViewer.tsx:76-84 | when it renders, a log is shown exactly when it is buffered and the callback keeps it |
| LogsViewer.FilterAppend | src/features/bots/BotLogsViewer.tsx:76 | filtering keeps buffer order |
| LogsViewer.ShowAll | src/features/bots/BotLogsViewer.tsx:77-83 | level `all` with an empty search shows the whole buffer |
| LogsViewer.TextNeverThrows | src/features/bots/BotLogsViewer.tsx:80 | with text messages the panel always renders |
| LogsViewer.LowerCharIdempotent | src/features/bots/BotLogsViewer.tsx:80 | lower-casing a character twice is lower-casing it once |
| LogsViewer.SearchIgnoresCase | src/features/bots/BotLogsViewer.tsx:80 | a query and its lower-case form filter alike |
| LogsViewer.NumericMessageBreaksSearch | src/features/bots/BotLogsViewer.tsx:55-80 | as written, a payload whose message is the number 5 is stored, and a search for "x" then throws |
| JiraTasks.Description | scripts/create-jira-tasks.js:29 | "Epoch: " followed by the epoch and a fixed 48-character tail |
| JiraTasks.CommentEnd | scripts/create-jira-tasks.js:24 | a position found ends a `-->` |
| JiraTasks.StripComments | scripts/create-jira-tasks.js:24 | stripping comments never lengthens the text |
| JiraTasks.NoCommentUnchanged | scripts/create-jira-tasks.js:24 | text without `<!--` is left as it is |
| JiraTasks.StripWholeComment | scripts/create-jira-tasks.js:24 | a one-line comment with no `-->` inside is removed entirely |
| JiraTasks.CommentEndFinds | scripts/create-jira-tasks.js:24 | the lazy match ends at the first `-->` |
| JiraTasks.TaskName | scripts/create-jira-tasks.js:23-24 | the summary is empty or starts and ends with a non-blank character |
| JiraTasks.Step | scripts/create-jira-tasks.js:19-33 | a heading sets the epoch to its text; an open or in-progress item with a kept name appends a task with the current epoch; every other line changes nothing |
| JiraTasks.Parsed | scripts/create-jira-tasks.js:16-33 | no more tasks than lines |
| JiraTasks.ParseTasks | scripts/create-jira-tasks.js:14-33 | the loop over the file's lines yields exactly the parsed tasks |
| JiraTasks.ParseLines | scripts/create-jira-tasks.js:19-33 | the loop over the lines yields exactly the parsed tasks |
| JiraTasks.TasksWellFormed | scripts/create-jira-tasks.js:23-26 | every task has a trimmed, non-empty summary that does not start with `**` |
| JiraTasks.ParsedPrefix | scripts/create-jira-tasks.js:19-33 | parsing more lines only adds tasks at the end |
| JiraTasks.NoHeadingNoEpoch | scripts/create-jira-tasks.js:17-29 | before any heading the epoch is empty and every description carries it |
| JiraTasks.DoneItemIgnored | scripts/create-jira-tasks.js:22 | a finished item never becomes a task |
| JiraTasks.IssueBody | scripts/create-jira-tasks.js:39-53 | the request body has only `fields`, holding the project, the task's summary, the description document and the issue type |
| JiraTasks.CreateIssue | scripts/create-jira-tasks.js:37-90 | a request error or a non-2xx answer resolves to `null`; the script crashes exactly on a 2xx answer whose body does not decode or is `null`; a created issue is the decoded body |
| JiraTasks.ProcessTasks | scripts/create-jira-tasks.js:92-96 | one request per task in order, each body built from its task and each result what its request resolved to; all tasks are sent unless the script crashed at the last request sent |

## Left out

Where the source and its design notes disagree, the model follows the source:

- `a/#` does not match `a`, which departs from section 4.7.1.2 of MQTT 3.1.1. The topic root is `hbot`.
- On connect only the private reconnect counter is reset. The `reconnectAttempts` the status reports keeps its value.
- A failed SUBACK removes the callback but may leave an empty callback set under the pattern.

What the core does that the model does not:

- Timestamps, clocks and randomness are not modelled as such. They are parameters where a result depends on them. The 100 ms polling, the 1 s and 5 s sleeps, the keepalive and the connect timeout are left out.
- Case mapping and trimming are ASCII only, and trimming removes space, tab, line feed, carriage return, vertical tab and form feed. Python `strip` also removes the separators `\x1c`-`\x1f`, which the model keeps on the container bridge's lines, and JavaScript `toLowerCase`/`trim` and Python `strip` also handle other Unicode characters.
- JSON text, YAML text, UTF-8, base64, PBKDF2, AES-256-GCM and random bytes are parameters of the operations that use them. The cipher and key derivation are assumed to satisfy `WellBehaved` (decryption inverts encryption, a 16-byte tag, a 32-byte key).
- The database is a sequence or map of rows. SQL ordering is an input. HTTP route handlers, logging and the Next.js pages around these services are not part of this model.
- Concurrency is not modelled: `Promise.all` is taken in sequence, and so are the MQTT network loop thread, `run_coroutine_threadsafe` and the container bridge's feeder and metrics threads.
- Mqtt: the channels that carry events out of the service are left out, and so is the close or disconnect of the underlying socket beyond its flag. Iteration order of JavaScript maps is not modelled. Resubscription and dispatch are stated over sets of (pattern, callback) pairs.
- MetricsSubscriber.Subscriber.Stop: it clears the subscriber's own flag only. The broker subscriptions it leaves in place are not modelled as removed.
- Bots: a status that is not text in the status callback is not modelled. The "Failed to create bot" branch cannot happen and is left out. Bot ids are fresh parameters. The order of `listBots` is not modelled.
- Metrics: the Sharpe ratio (square root and floating point) is left out, and all amounts are reals. The start of `calculatePnL` is a whole number of 24-hour days. An exception from `getTickerPrice` is not modelled. `getLatestMetrics` enters `getPortfolioValue` as the parameter `latestOf`. `collectMetrics`, `getOrders`, `saveOrder` and `saveLog` are not part of this model.
- Metrics.MaxDrawdown, Metrics.MaxDrawdownPct: their own contracts state only that they are never negative. That they bound every fall below the running peak is `DrawdownBounds`, and that a rising series has none is `RisingHasNoDrawdown`.
- Metrics.Returns: its own contract bounds the number of returns. Which steps produce one is `ReturnsCount`, and `ComputeReturns` ties the loop to it.
- Alerts: `sendAlert` only logs, so an alert is reported as the list of fired rules. `checkGeneralAlerts` does nothing in the source and is not modelled further.
- Credentials.CredentialsService.GetCredentials: its own contract states only the missing-row case. The decryption of a stored row is `Open`, and `StoreThenGet` states the round trip.
- V2Executor: building `V2WithControllers` is assumed not to raise. The strategy framework's own behaviour (`update_tick`, `stop`, `to_format_status`) is reduced to a tick counter, a stopped flag and the `render` parameter.
- V2Executor.Check: its own contract states only that the check time is untouched. The reload behaviour is stated by `ReloadOnlyWhenNewer`, `ReloadReplacesStopped`, `ReloadInitializes`, `CheckIdempotent` and `CheckMonotone`.
- Redis:
  - Key expiry is not modelled; a time to live is recorded but never fires.
  - Network errors of `get`, `set` and `del` are not modelled.
  - The client's `connect` and `error` events are the `reached` parameter of `Connect` plus `OnConnect` and `OnError`.
  - The background reconnection that `get` starts after the client has ended is reported as a flag.
- LogsViewer: the `id` and `createdAt` of a log, the MQTT connection of the panel and the rendering are left out.
- LogsViewer.Filter: its own contract bounds the number of logs shown. Which logs are shown, and when rendering fails, are `FilterShows` and `FilterFails`.
- JiraTasks: the environment variables, the base64 credentials, reading the file and the HTTPS transport are parameters. In the comment pattern `.` does not cross a line break, and the model treats the line-break characters of JavaScript alike.
- JiraTasks.StripComments, JiraTasks.Parsed: their own contracts are length bounds. What they keep and produce is stated by `NoCommentUnchanged`, `StripWholeComment`, `Step`, `TasksWellFormed` and `ParsedPrefix`.
- ContainerBridge:
  - `generate_config`, the command line of `run_bot`, the feeder and metrics threads, the sqlite trade scraping and the YAML and file writes are left out. The writes enter through the `written` outcome.
  - `run_bot` calls `get_config`, which is not defined (services/hummingbot-gateway/mqtt_bridge_client.py:209), and is not modelled.
  - `stop` terminates the bot process, which is not modelled. The connected flag is never cleared in the source, and the model keeps it so.
- GatewayBridge: the text of a pydantic validation error is not modelled; a rejected payload carries "invalid command payload". The docker manager is a parameter.
- GatewayBridge.DecodeStart, GatewayBridge.DecodeStop: the coercions are those of pydantic 2 in lax mode (`LaxBool`). Under pydantic 1 a number would also be accepted as the text `log_level` or `script`, and the model rejects it.
- Mqtt.ConnectOutcome: a close of the socket before any CONNACK or error is not an answer the model has. In the source it clears `isConnecting` without settling the first caller's promise, which then never settles (src/services/mqtt/MQTTService.ts:89-94).
- Mqtt.MqttService.EnsureConnected: after such a close, callers polling the attempt fail with "Connection failed", and the next call builds a second client while the first client's handlers stay attached and can still fire (src/services/mqtt/MQTTService.ts:47-66). Neither the second client nor the stale handlers are modelled.
- Mqtt.MqttService.Subscribe: a failed SUBACK's error is rethrown inside the broker's callback after the promise has resolved (src/services/mqtt/MQTTService.ts:287). It surfaces as an uncaught exception, which the model does not represent; only the removal of the callback is modelled.
- ContainerBridge.Bridge.PublishLog: a level taken from a JSON line that holds `+` or `#` makes the MQTT client's `publish` raise `ValueError` on the topic `hbot/{id}/logs/{level}` (services/hummingbot-gateway/mqtt_bridge_client.py:120-124). The model publishes on that topic instead.
- Metrics.GetPortfolioValue: the Redis cache is left out. The source reads `portfolio:{orgId}` without using it, and writes the result there with a 30-second time to live (src/services/metrics/MetricsService.ts:211-215, 323).
- Encryption.Encrypt: built on the corrected key rule `Key`. For a 64-character `ENCRYPTION_KEY` that is not hex, the source fails with "Invalid key length" instead (see ## Findings and `KeyAsWritten`).
- Encryption.Decrypt: built on the corrected key rule `Key`; the same non-hex 64-character key fails in the source with "Invalid key length".
- Credentials.Seal: built on the corrected key rule `Key`; with a non-hex 64-character key the source's encryption throws "Invalid key length".
- Credentials.Open: built on the corrected key rule `Key`; with a non-hex 64-character key the source's decryption throws "Invalid key length".
- Credentials.CredentialsService.StoreCredentials: built on the corrected key rule `Key`; with a non-hex 64-character key the source fails every store with "Invalid key length".
- Metrics.CalculateRiskMetrics: scans the history in time order, the corrected order. The source scans it newest first (see ## Findings and `GrowthReadAsDrawdown`).
- LogsViewer.Receive: uses the corrected `Received`, which keeps every message as text. The source stores a truthy message that is not text as it is (see ## Findings and `ReceivedAsWritten`).

## Findings

| source | as written | input that shows it | evidently intended | confidence | as-written member | corrected member |
|---|---|---|---|---|---|---|
| src/services/encryption/EncryptionService.ts:19-21 | a 64-character key is decoded as hex whether or not it is hex, and `Buffer.from(key, 'hex')` stops at the first non-hex pair | `ENCRYPTION_KEY` of 64 `z` characters: the key is empty and every encryption fails with "Invalid key length" | decode only a key of 64 hex digits, and derive the key from any other text | medium, not executed | Encryption.NonHexKeyOfHexLength | Encryption.KeyAgreesOnHex |
| src/services/metrics/MetricsService.ts:453-471 | the drawdown scan runs over the history in the newest-first order `getHistoricalMetrics` returns it in (line 94) | balances 100 then 200 in time order: the scan reports a maxDrawdown of 100 and a maxDrawdownPct of 50 | scan in time order, so a rising balance has no drawdown | medium, not executed | Metrics.GrowthReadAsDrawdown | Metrics.RisingHistoryHasNoDrawdown |
| src/features/bots/BotLogsViewer.tsx:55-80 | a truthy message that is not text is stored as it is, and `log.message.toLowerCase()` then throws while filtering | payload `{"message":5}` and the search "x": the panel fails to render | keep the message text, falling back to the raw payload | low, not executed | LogsViewer.NumericMessageBreaksSearch | LogsViewer.TextNeverThrows |
