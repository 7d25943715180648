/**
 * The backend's broker client (`MQTTService` in MQTTService.ts): connection
 * status, the subscription registry, fan-out of incoming messages and the
 * publishing of bot commands.
 *
 * The broker is not modelled. Its answers are parameters: how a connection
 * attempt settles (`ConnectAnswer`), how each publish is acknowledged (`ack`)
 * and whether a SUBACK succeeds (`subackOk`). What the service hands to the
 * broker is recorded in two logs, `published` and `requests`.
 */
module Mqtt {
  import opened Wrappers
  import opened JsonValue
  import opened MqttTopics
  import opened MqttRegistry
  import opened MqttCommands

  const MaxReconnectAttempts: nat := 10

  /** The client object: absent, or present with the library's `connected` flag and
      whether `end()` has been called on it. */
  datatype Client = NoClient | Present(connected: bool, ended: bool)

  /** `MQTTConnectionStatus`; the error is kept as its message. */
  datatype ConnectionStatus = ConnectionStatus(connected: bool, lastError: Option<string>, reconnectAttempts: Option<nat>)

  /** The connection part of the service's state, as one value. */
  datatype Link = Link(client: Client, isConnecting: bool, status: ConnectionStatus, reconnectAttempts: nat)

  /** How a connection attempt settles: a CONNACK, or an `error` event. */
  datatype ConnectAnswer = Connack | Refused(error: string)

  /** A request handed to the broker other than a publish. */
  datatype WireOp = Sub(pattern: string) | Unsub(pattern: string)

  predicate IsConnected(l: Link) {
    l.client.Present? && l.client.connected
  }

  /** The stored flag mirrors the client's, and an attempt in progress has a client
      that is not yet connected. */
  predicate Coherent(l: Link) {
    && (l.status.connected <==> IsConnected(l))
    && (l.isConnecting ==> l.client.Present? && !l.client.connected)
  }

  /** `connect()` starting an attempt: a fresh client that is not connected yet. */
  function Opened(l: Link): Link {
    l.(client := Present(false, false), isConnecting := true)
  }

  /** The `connect` handler. */
  function Connected(l: Link): (r: Link)
    requires l.client.Present?
    ensures IsConnected(r) && r.status.connected && !r.isConnecting
    ensures r.status.lastError.None? && r.reconnectAttempts == 0
    ensures r.status.reconnectAttempts == l.status.reconnectAttempts
  {
    l.(client := l.client.(connected := true), isConnecting := false,
       status := l.status.(connected := true, lastError := None), reconnectAttempts := 0)
  }

  /** The `error` handler. */
  function Errored(l: Link, e: string): (r: Link)
    ensures r.status.lastError == Some(e) && !r.isConnecting
    ensures r.client == l.client && r.status.connected == l.status.connected
  {
    l.(status := l.status.(lastError := Some(e)), isConnecting := false)
  }

  /** The `close` handler (the library's own flag drops as well). */
  function Closed(l: Link): (r: Link)
    ensures !IsConnected(r) && !r.status.connected && !r.isConnecting
    ensures r.client.Present? == l.client.Present?
  {
    l.(client := if l.client.Present? then l.client.(connected := false) else l.client,
       status := l.status.(connected := false), isConnecting := false)
  }

  /** The `reconnect` handler: count the attempt and end the client at the cap. */
  function Reconnecting(l: Link): (r: Link)
    requires l.client.Present?
    ensures r.reconnectAttempts == l.reconnectAttempts + 1
    ensures r.status.reconnectAttempts == Some(r.reconnectAttempts)
    ensures r.client.Present? && r.client.connected == l.client.connected
    ensures r.client.ended <==> l.client.ended || r.reconnectAttempts >= MaxReconnectAttempts
  {
    var n := l.reconnectAttempts + 1;
    l.(reconnectAttempts := n, status := l.status.(reconnectAttempts := Some(n)),
       client := l.client.(ended := l.client.ended || n >= MaxReconnectAttempts))
  }

  /** `disconnect()`: ending the client closes it, then the client is dropped. */
  function Disconnected(l: Link): (r: Link)
    ensures r.client.NoClient? && !r.status.connected && !r.isConnecting
    ensures r.status.lastError == l.status.lastError && r.reconnectAttempts == l.reconnectAttempts
  {
    Closed(l).(client := NoClient)
  }

  /** `k` consecutive `reconnect` events. */
  function Reconnects(l: Link, k: nat): (r: Link)
    requires l.client.Present?
    ensures r.client.Present?
    decreases k
  {
    if k == 0 then l else Reconnects(Reconnecting(l), k - 1)
  }

  /** A successful `connect` event resets only the private counter: the counter
      reported in the status keeps its last value. */
  lemma ConnectKeepsReportedAttempts(l: Link)
    requires l.client.Present? && l.reconnectAttempts > 0
    ensures Connected(l).reconnectAttempts == 0
    ensures Connected(l).status.reconnectAttempts == l.status.reconnectAttempts
  {
  }

  /** Reconnect events count up from where the counter stands, are reported in the
      status, and end the client exactly once the counter reaches the cap. */
  lemma {:induction false} ReconnectCap(l: Link, k: nat)
    requires l.client.Present?
    ensures Reconnects(l, k).reconnectAttempts == l.reconnectAttempts + k
    ensures k > 0 ==> Reconnects(l, k).status.reconnectAttempts == Some(l.reconnectAttempts + k)
    ensures Reconnects(l, k).client.ended
        <==> l.client.ended || (k > 0 && l.reconnectAttempts + k >= MaxReconnectAttempts)
    decreases k
  {
    if k > 0 {
      ReconnectCap(Reconnecting(l), k - 1);
    }
  }

  /** From a fresh counter, the tenth reconnect event is the one that ends the client. */
  lemma TenthReconnectEnds(l: Link)
    requires l.client.Present? && !l.client.ended && l.reconnectAttempts == 0
    ensures !Reconnects(l, 9).client.ended
    ensures Reconnects(l, 10).client.ended
  {
    ReconnectCap(l, 9);
    ReconnectCap(l, 10);
  }

  /** Every event handler keeps the link coherent. */
  lemma HandlersKeepCoherent(l: Link, e: string)
    requires Coherent(l)
    ensures !IsConnected(l) && !l.isConnecting ==> Coherent(Opened(l))
    ensures l.client.Present? ==> Coherent(Connected(l)) && Coherent(Reconnecting(l))
    ensures Coherent(Errored(l, e)) && Coherent(Closed(l)) && Coherent(Disconnected(l))
  {
  }

  /** What `ensureConnected` leaves behind: nothing changes when connected; otherwise
      a fresh attempt is opened unless one is already in progress, and the answer
      settles it. */
  function Settle(l: Link, answer: ConnectAnswer): (r: Link)
    requires Coherent(l)
    ensures Coherent(r) && !r.isConnecting
    ensures IsConnected(r) <==> IsConnected(l) || answer.Connack?
  {
    if IsConnected(l) then l
    else
      var attempt := if l.isConnecting then l else Opened(l);
      match answer
      case Connack => Connected(attempt)
      case Refused(e) => Errored(attempt, e)
  }

  /** What `ensureConnected` resolves or rejects with. A caller that joins an attempt
      already in progress only learns that it failed. */
  function ConnectOutcome(l: Link, answer: ConnectAnswer): (r: Outcome)
    ensures r.Pass? <==> IsConnected(l) || answer.Connack?
    ensures r.Fail? ==> r.error == (if l.isConnecting then "Connection failed" else answer.error)
  {
    if IsConnected(l) then Pass
    else
      match answer
      case Connack => Pass
      case Refused(e) => Fail(if l.isConnecting then "Connection failed" else e)
  }

  /** `getConnectionStatus()`: the stored status with `connected` read from the client. */
  function Status(l: Link): (s: ConnectionStatus)
    ensures s.connected <==> IsConnected(l)
    ensures s.lastError == l.status.lastError && s.reconnectAttempts == l.status.reconnectAttempts
  {
    l.status.(connected := IsConnected(l))
  }

  /** On a coherent link the override in `getConnectionStatus` changes nothing. */
  lemma StatusOfCoherent(l: Link)
    requires Coherent(l)
    ensures Status(l) == l.status
  {
  }

  function SubOps(ps: seq<string>): (ops: seq<WireOp>)
    ensures |ops| == |ps|
    ensures forall i :: 0 <= i < |ps| ==> ops[i] == Sub(ps[i])
  {
    seq(|ps|, i requires 0 <= i < |ps| => Sub(ps[i]))
  }

  /** `ps` asks for every live pattern exactly once, in some order. */
  ghost predicate Resubscription(ps: seq<string>, reg: Subscribers) {
    && (forall i, j :: 0 <= i < j < |ps| ==> ps[i] != ps[j])
    && (forall p :: p in ps <==> p in Live(reg))
  }

  /** The resubscriptions a settled connection produced: all live patterns when it
      connected just now, none otherwise. */
  ghost predicate Resubscribed(ps: seq<string>, l: Link, answer: ConnectAnswer, reg: Subscribers) {
    if !IsConnected(l) && answer.Connack? then Resubscription(ps, reg) else ps == []
  }

  /** What one `publishCommand` call resolves or rejects with, and the publishes it
      hands to the broker: nothing when the connection fails or the command is
      unknown, otherwise the encoded messages up to the first unacknowledged one. */
  function CommandResult(l: Link, answer: ConnectAnswer, botId: string, command: string,
                         payload: Option<Obj>, ack: Publish -> Outcome): (Outcome, seq<Publish>)
  {
    var c := ConnectOutcome(l, answer);
    if c.Fail? then (c, [])
    else
      match Encode(botId, command, payload)
      case Err(e) => (Fail(e), [])
      case Ok(msgs) => (Delivered(msgs, ack), Attempted(msgs, ack))
  }

  class MqttService {
    var client: Client
    var isConnecting: bool
    var connectionStatus: ConnectionStatus
    var reconnectAttempts: nat
    var subscribers: Subscribers
    /** Messages handed to the broker, in order. */
    var published: seq<Publish>
    /** Subscribe and unsubscribe requests handed to the broker, in order. */
    var requests: seq<WireOp>

    function Connection(): Link
      reads this
    {
      Link(client, isConnecting, connectionStatus, reconnectAttempts)
    }

    predicate Valid()
      reads this
    {
      Coherent(Connection())
    }

    constructor()
      ensures Valid()
      ensures client == NoClient && !isConnecting && reconnectAttempts == 0
      ensures connectionStatus == ConnectionStatus(false, None, None)
      ensures subscribers == map[] && published == [] && requests == []
    {
      client := NoClient;
      isConnecting := false;
      connectionStatus := ConnectionStatus(false, None, None);
      reconnectAttempts := 0;
      subscribers := map[];
      published := [];
      requests := [];
    }

    /** `resubscribeAll`: one SUBSCRIBE per pattern that still has a callback, and
        only while the client is connected. */
    method ResubscribeAll() returns (patterns: seq<string>)
      modifies this`requests
      ensures requests == old(requests) + SubOps(patterns)
      ensures client.Present? && client.connected ==> Resubscription(patterns, subscribers)
      ensures !(client.Present? && client.connected) ==> patterns == []
    {
      patterns := [];
      var pending := subscribers.Keys;
      while pending != {}
        invariant pending <= subscribers.Keys
        invariant requests == old(requests) + SubOps(patterns)
        invariant forall i, j :: 0 <= i < j < |patterns| ==> patterns[i] != patterns[j]
        invariant forall p :: p in patterns ==> p !in pending
        invariant client.Present? && client.connected ==>
          forall p :: p in patterns <==> p in Live(subscribers) && p !in pending
        invariant !(client.Present? && client.connected) ==> patterns == []
        decreases pending
      {
        var p :| p in pending;
        if subscribers[p] != {} && client.Present? && client.connected {
          assert SubOps(patterns + [p]) == SubOps(patterns) + [Sub(p)];
          requests := requests + [Sub(p)];
          patterns := patterns + [p];
        }
        pending := pending - {p};
      }
    }

    /** The `connect` event. */
    method OnConnect() returns (resubscribed: seq<string>)
      requires Valid() && client.Present?
      modifies this
      ensures Valid()
      ensures Connection() == Connected(old(Connection()))
      ensures subscribers == old(subscribers) && published == old(published)
      ensures Resubscription(resubscribed, subscribers)
      ensures requests == old(requests) + SubOps(resubscribed)
    {
      client := client.(connected := true);
      isConnecting := false;
      connectionStatus := connectionStatus.(connected := true, lastError := None);
      reconnectAttempts := 0;
      resubscribed := ResubscribeAll();
    }

    /** The `error` event. */
    method OnError(e: string)
      requires Valid()
      modifies this
      ensures Valid()
      ensures Connection() == Errored(old(Connection()), e)
      ensures subscribers == old(subscribers) && published == old(published) && requests == old(requests)
    {
      connectionStatus := connectionStatus.(lastError := Some(e));
      isConnecting := false;
    }

    /** The `close` event. */
    method OnClose()
      requires Valid()
      modifies this
      ensures Valid()
      ensures Connection() == Closed(old(Connection()))
      ensures subscribers == old(subscribers) && published == old(published) && requests == old(requests)
    {
      if client.Present? {
        client := client.(connected := false);
      }
      connectionStatus := connectionStatus.(connected := false);
      isConnecting := false;
    }

    /** The `reconnect` event. */
    method OnReconnect()
      requires Valid() && client.Present?
      modifies this
      ensures Valid()
      ensures Connection() == Reconnecting(old(Connection()))
      ensures subscribers == old(subscribers) && published == old(published) && requests == old(requests)
    {
      reconnectAttempts := reconnectAttempts + 1;
      connectionStatus := connectionStatus.(reconnectAttempts := Some(reconnectAttempts));
      if reconnectAttempts >= MaxReconnectAttempts {
        client := client.(ended := true);
      }
    }

    /** `ensureConnected()`, with the pending or fresh attempt settled by `answer`. */
    method EnsureConnected(answer: ConnectAnswer) returns (r: Outcome, resubscribed: seq<string>)
      requires Valid()
      modifies this
      ensures Valid()
      ensures r == ConnectOutcome(old(Connection()), answer)
      ensures Connection() == Settle(old(Connection()), answer)
      ensures subscribers == old(subscribers) && published == old(published)
      ensures Resubscribed(resubscribed, old(Connection()), answer, subscribers)
      ensures requests == old(requests) + SubOps(resubscribed)
    {
      resubscribed := [];
      if client.Present? && client.connected {
        return Pass, [];
      }
      var waiting := isConnecting;
      if !waiting {
        client := Present(false, false);
        isConnecting := true;
      }
      match answer
      case Connack =>
        resubscribed := OnConnect();
        r := Pass;
      case Refused(e) =>
        OnError(e);
        r := Fail(if waiting then "Connection failed" else e);
    }

    /** `subscribe(pattern, cb)`: connect first; then register the callback and send
        the SUBSCRIBE. A rejected SUBACK deletes the callback again, leaving the key. */
    method Subscribe(pattern: string, cb: CallbackId, answer: ConnectAnswer, subackOk: bool) returns (r: Outcome)
      requires Valid()
      modifies this
      ensures Valid()
      ensures r == ConnectOutcome(old(Connection()), answer)
      ensures Connection() == Settle(old(Connection()), answer)
      ensures published == old(published)
      ensures r.Fail? ==> subscribers == old(subscribers) && requests == old(requests)
      ensures r.Pass? ==> subscribers == SubscribeStep(old(subscribers), pattern, cb, subackOk)
      ensures r.Pass? ==> exists ps :: Resubscribed(ps, old(Connection()), answer, old(subscribers))
                                       && requests == old(requests) + SubOps(ps) + [Sub(pattern)]
    {
      var resubscribed;
      r, resubscribed := EnsureConnected(answer);
      if r.Fail? {
        return;
      }
      subscribers := Add(subscribers, pattern, cb);
      requests := requests + [Sub(pattern)];
      if !subackOk {
        subscribers := Prune(subscribers, pattern, cb);
      }
    }

    /** `subscribeToBot`: everything one bot publishes, `hbot/{botId}/+`. */
    method SubscribeToBot(botId: string, cb: CallbackId, answer: ConnectAnswer, subackOk: bool) returns (r: Outcome)
      requires Valid()
      modifies this
      ensures Valid()
      ensures r == ConnectOutcome(old(Connection()), answer)
      ensures published == old(published)
      ensures r.Pass? ==> subscribers == SubscribeStep(old(subscribers), BotPattern(botId), cb, subackOk)
      ensures r.Fail? ==> subscribers == old(subscribers)
    {
      r := Subscribe(BotPattern(botId), cb, answer, subackOk);
    }

    /** `subscribeToAllBots`: a pattern below the `hbot` root. */
    method SubscribeToAllBots(pattern: string, cb: CallbackId, answer: ConnectAnswer, subackOk: bool) returns (r: Outcome)
      requires Valid()
      modifies this
      ensures Valid()
      ensures r == ConnectOutcome(old(Connection()), answer)
      ensures published == old(published)
      ensures r.Pass? ==> subscribers == SubscribeStep(old(subscribers), Root + "/" + pattern, cb, subackOk)
      ensures r.Fail? ==> subscribers == old(subscribers)
    {
      r := Subscribe(Root + "/" + pattern, cb, answer, subackOk);
    }

    /** `unsubscribe(pattern, cb?)`: nothing without a client; with a callback, delete
        it and UNSUBSCRIBE once nothing is left under the pattern; without one, drop
        the pattern outright. */
    method Unsubscribe(pattern: string, cb: Option<CallbackId>)
      modifies this`subscribers, this`requests
      ensures client.NoClient? ==> subscribers == old(subscribers) && requests == old(requests)
      ensures client.Present? && cb.None? ==>
        subscribers == Drop(old(subscribers), pattern) && requests == old(requests) + [Unsub(pattern)]
      ensures client.Present? && cb.Some? ==> subscribers == Remove(old(subscribers), pattern, cb.value)
      ensures client.Present? && cb.Some? ==>
        requests == old(requests) + (if pattern in subscribers then [] else [Unsub(pattern)])
    {
      if client.NoClient? {
        return;
      }
      match cb
      case Some(c) =>
        subscribers := Remove(subscribers, pattern, c);
        if pattern !in subscribers {
          requests := requests + [Unsub(pattern)];
        }
      case None =>
        requests := requests + [Unsub(pattern)];
        subscribers := Drop(subscribers, pattern);
    }

    /** `unsubscribeFromBot`. */
    method UnsubscribeFromBot(botId: string, cb: Option<CallbackId>)
      modifies this`subscribers, this`requests
      ensures client.NoClient? ==> subscribers == old(subscribers)
      ensures client.Present? && cb.None? ==> subscribers == Drop(old(subscribers), BotPattern(botId))
      ensures client.Present? && cb.Some? ==> subscribers == Remove(old(subscribers), BotPattern(botId), cb.value)
    {
      Unsubscribe(BotPattern(botId), cb);
    }

    /** `handleMessage(topic, …)`: every callback of every matching pattern is invoked;
        the ones in `throws` throw, are caught, and the walk goes on. */
    method HandleMessage(topic: string, throws: set<CallbackId>)
      returns (invoked: set<(string, CallbackId)>, failed: set<(string, CallbackId)>)
      ensures invoked == Targets(subscribers, topic)
      ensures forall x :: x in failed <==> x in invoked && x.1 in throws
    {
      invoked, failed := {}, {};
      var pending := subscribers.Keys;
      while pending != {}
        invariant pending <= subscribers.Keys
        invariant forall x :: x in invoked <==>
          Registered(subscribers, x.0, x.1) && MatchesTopic(x.0, topic) && x.0 !in pending
        invariant forall x :: x in failed <==> x in invoked && x.1 in throws
        decreases pending
      {
        var p :| p in pending;
        var matches := TopicMatches(p, topic);
        if matches {
          var callbacks := subscribers[p];
          while callbacks != {}
            invariant callbacks <= subscribers[p]
            invariant forall x :: x in invoked <==>
              Registered(subscribers, x.0, x.1) && MatchesTopic(x.0, topic)
              && (x.0 !in pending || (x.0 == p && x.1 !in callbacks))
            invariant forall x :: x in failed <==> x in invoked && x.1 in throws
            decreases callbacks
          {
            var cb :| cb in callbacks;
            invoked := invoked + {(p, cb)};
            if cb in throws {
              failed := failed + {(p, cb)};
            }
            callbacks := callbacks - {cb};
          }
        }
        pending := pending - {p};
      }
    }

    /** `publishCommand(botId, command, payload)`: connect, then publish what `Encode`
        gives, each publish waiting for its acknowledgement; a restart is a stop and,
        only if that went through, a start. */
    method PublishCommand(botId: string, command: string, payload: Option<Obj>,
                          answer: ConnectAnswer, ack: Publish -> Outcome) returns (r: Outcome)
      requires Valid()
      modifies this
      decreases if command == "restart" then 2 else 0
      ensures Valid()
      ensures Connection() == Settle(old(Connection()), answer)
      ensures subscribers == old(subscribers)
      ensures exists ps :: Resubscribed(ps, old(Connection()), answer, subscribers)
                           && requests == old(requests) + SubOps(ps)
      ensures r == CommandResult(old(Connection()), answer, botId, command, payload, ack).0
      ensures published == old(published) + CommandResult(old(Connection()), answer, botId, command, payload, ack).1
    {
      var resubscribed;
      r, resubscribed := EnsureConnected(answer);
      if r.Fail? {
        return;
      }
      if command == "restart" {
        r := Restart(botId, payload, ack);
        return;
      }
      var encoded := Encode(botId, command, payload);
      if encoded.Err? {
        return Fail(encoded.error);
      }
      r := Send(encoded.value[0], ack);
    }

    /** The `restart` branch on a connected client: `stop`, then `start` with the same
        payload, the second only if the first was acknowledged. */
    method Restart(botId: string, payload: Option<Obj>, ack: Publish -> Outcome) returns (r: Outcome)
      requires Valid() && IsConnected(Connection())
      modifies this
      decreases 1
      ensures Connection() == old(Connection())
      ensures subscribers == old(subscribers) && requests == old(requests)
      ensures r == Delivered(Encode(botId, "restart", payload).value, ack)
      ensures published == old(published) + Attempted(Encode(botId, "restart", payload).value, ack)
    {
      var stop := Encode(botId, "stop", payload).value;
      var start := Encode(botId, "start", payload).value;
      AttemptedAppend(stop, start, ack);
      r := PublishCommand(botId, "stop", payload, Connack, ack);
      if r.Fail? {
        return;
      }
      r := PublishCommand(botId, "start", payload, Connack, ack);
    }

    /** One `client.publish` with its acknowledgement. */
    method Send(message: Publish, ack: Publish -> Outcome) returns (r: Outcome)
      modifies this`published
      ensures published == old(published) + [message]
      ensures r == ack(message)
    {
      published := published + [message];
      r := ack(message);
    }

    /** `getConnectionStatus()`. */
    function GetConnectionStatus(): (s: ConnectionStatus)
      reads this
      ensures s.connected <==> client.Present? && client.connected
      ensures Valid() ==> s == connectionStatus
    {
      Status(Connection())
    }

    /** `disconnect()`: ends and drops the client, if there is one. */
    method Disconnect()
      requires Valid()
      modifies this
      ensures Valid()
      ensures old(client.Present?) ==> Connection() == Disconnected(old(Connection()))
      ensures old(client.NoClient?) ==> Connection() == old(Connection())
      ensures subscribers == old(subscribers) && published == old(published) && requests == old(requests)
    {
      if client.Present? {
        client := NoClient;
        connectionStatus := connectionStatus.(connected := false);
        isConnecting := false;
      }
    }
  }
}
