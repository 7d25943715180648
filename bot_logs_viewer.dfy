/**
 * The log panel of a bot's page (src/features/bots/BotLogsViewer.tsx): log
 * messages arriving over MQTT are prepended to a buffer holding the 1000 newest,
 * and the panel shows the ones that pass a level filter and a case-insensitive
 * search.
 *
 * A log keeps its fields as the JSON payload gave them (`level` and `message` are
 * whatever value the sender put there); `id` and `createdAt` (clock and random
 * number) are not modelled.
 */
module LogsViewer {
  import opened Wrappers
  import opened JsonValue
  import opened Text

  const MaxLogs: nat := 1000
  const AllLevels: string := "all"

  datatype BotLog = BotLog(botId: string, level: Json, message: Json, metadata: Json)

  /** The log the message handler builds from a decoded payload, as written:
      `payload.level || 'info'`, `payload.message || <raw text>`,
      `payload.metadata || null`. Reading a field of `null` throws, and the handler
      then drops the message (`None`). */
  function ReceivedAsWritten(botId: string, payload: Json, raw: string): (r: Option<BotLog>)
    ensures r.None? <==> payload.JNull?
    ensures r.Some? ==> r.value.botId == botId
    ensures r.Some? ==> Truthy(r.value.level) && (Truthy(r.value.metadata) || r.value.metadata == JNull)
    ensures r.Some? && (Get(payload, "message").None? || !Truthy(Get(payload, "message").value)) ==>
      r.value.message == JStr(raw)
  {
    if payload.JNull? then None
    else Some(BotLog(botId, OrElse(Get(payload, "level"), JStr("info")),
                     OrElse(Get(payload, "message"), JStr(raw)), OrElse(Get(payload, "metadata"), JNull)))
  }

  /** A log whose message is text, as the `BotLog` type declares it. */
  predicate HasText(log: BotLog) {
    log.message.JStr?
  }

  /** The log as intended: a message field that is not non-empty text falls back to
      the raw payload, so every log's message is text; the other fields are as written. */
  function Received(botId: string, payload: Json, raw: string): (r: Option<BotLog>)
    ensures r.None? <==> payload.JNull?
    ensures r.Some? ==> HasText(r.value)
    ensures r.Some? && Get(payload, "message").Some? && Get(payload, "message").value.JStr? ==>
      r.value == ReceivedAsWritten(botId, payload, raw).value
  {
    match ReceivedAsWritten(botId, payload, raw)
    case None => None
    case Some(log) => Some(if HasText(log) then log else log.(message := JStr(raw)))
  }

  /** `[log, ...prev].slice(0, 1000)`. */
  function Prepend(logs: seq<BotLog>, log: BotLog): (r: seq<BotLog>)
    ensures |r| <= MaxLogs
    ensures |r| == if |logs| < MaxLogs then |logs| + 1 else MaxLogs
    ensures r[0] == log && r[1..] == logs[..|r| - 1]
  {
    ([log] + logs)[..if |logs| < MaxLogs then |logs| + 1 else MaxLogs]
  }

  /** The message handler: the buffer gains the new log at the front and keeps at
      most 1000, or stays as it was when the text does not decode. */
  function Receive(logs: seq<BotLog>, botId: string, raw: string, decode: string -> Option<Json>): (r: seq<BotLog>)
    ensures decode(raw).None? || decode(raw) == Some(JNull) ==> r == logs
    ensures decode(raw).Some? && decode(raw) != Some(JNull) ==>
      r == Prepend(logs, Received(botId, decode(raw).value, raw).value)
  {
    match decode(raw)
    case None => logs
    case Some(payload) =>
      match Received(botId, payload, raw)
      case None => logs
      case Some(log) => Prepend(logs, log)
  }

  /** Receiving keeps every message in the buffer text. */
  lemma ReceiveKeepsText(logs: seq<BotLog>, botId: string, raw: string, decode: string -> Option<Json>)
    requires forall i :: 0 <= i < |logs| ==> HasText(logs[i])
    ensures var r := Receive(logs, botId, raw, decode); forall i :: 0 <= i < |r| ==> HasText(r[i])
  {
    var r := Receive(logs, botId, raw, decode);
    forall i | 0 <= i < |r|
      ensures HasText(r[i])
    {
      if r != logs && i > 0 {
        assert r[i] == r[1..][i - 1] == logs[i - 1];
      }
    }
  }

  /** The filter callback for one log: `Some(shown)`, or `None` where
      `log.message.toLowerCase()` throws because the message is not text. The level
      test comes first and short-circuits. */
  function Test(levelFilter: string, query: string, log: BotLog): (r: Option<bool>)
    ensures levelFilter != AllLevels && log.level != JStr(levelFilter) ==> r == Some(false)
    ensures query == "" ==> r == Some(levelFilter == AllLevels || log.level == JStr(levelFilter))
    ensures r.None? <==> (levelFilter == AllLevels || log.level == JStr(levelFilter)) && query != "" && !HasText(log)
  {
    if levelFilter != AllLevels && log.level != JStr(levelFilter) then Some(false)
    else if query == "" then Some(true)
    else if !log.message.JStr? then None
    else Some(Contains(ToLower(log.message.s), ToLower(query)))
  }

  /** `filteredLogs`: the logs the callback keeps, in buffer order, or `None` when
      the callback throws on some log (the panel fails to render). */
  function Filter(logs: seq<BotLog>, levelFilter: string, query: string): (r: Option<seq<BotLog>>)
    ensures r.Some? ==> |r.value| <= |logs|
  {
    if logs == [] then Some([])
    else
      match Test(levelFilter, query, logs[0])
      case None => None
      case Some(keep) =>
        match Filter(logs[1..], levelFilter, query)
        case None => None
        case Some(rest) => Some(if keep then [logs[0]] + rest else rest)
  }

  /** The panel fails exactly when the callback throws on some log. */
  lemma {:induction false} FilterFails(logs: seq<BotLog>, levelFilter: string, query: string)
    ensures Filter(logs, levelFilter, query).None? <==>
      exists i :: 0 <= i < |logs| && Test(levelFilter, query, logs[i]).None?
  {
    if logs != [] {
      FilterFails(logs[1..], levelFilter, query);
      if Test(levelFilter, query, logs[0]).Some? {
        assert forall i :: 0 < i < |logs| ==> logs[i] == logs[1..][i - 1];
        assert forall i :: 0 <= i < |logs[1..]| ==> logs[1..][i] == logs[i + 1];
      }
    }
  }

  /** When it renders, the panel shows exactly the buffered logs the callback keeps. */
  lemma {:induction false} FilterShows(logs: seq<BotLog>, levelFilter: string, query: string, x: BotLog)
    requires Filter(logs, levelFilter, query).Some?
    ensures x in Filter(logs, levelFilter, query).value <==> x in logs && Test(levelFilter, query, x) == Some(true)
  {
    if logs != [] {
      FilterShows(logs[1..], levelFilter, query, x);
      assert x in logs <==> x == logs[0] || x in logs[1..];
    }
  }

  /** Filtering keeps buffer order: the result over two runs of logs is the result
      over the first followed by the result over the second. */
  lemma {:induction false} FilterAppend(a: seq<BotLog>, b: seq<BotLog>, levelFilter: string, query: string)
    requires Filter(a, levelFilter, query).Some? && Filter(b, levelFilter, query).Some?
    ensures Filter(a + b, levelFilter, query) == Some(Filter(a, levelFilter, query).value + Filter(b, levelFilter, query).value)
  {
    if a == [] {
      assert a + b == b;
      assert Filter(a, levelFilter, query) == Some([]);
      assert [] + Filter(b, levelFilter, query).value == Filter(b, levelFilter, query).value;
    } else {
      FilterAppend(a[1..], b, levelFilter, query);
      FilterAppendStep(a, b, levelFilter, query);
    }
  }

  /** The step of `FilterAppend` for a non-empty first run, given the result for its tail. */
  lemma FilterAppendStep(a: seq<BotLog>, b: seq<BotLog>, levelFilter: string, query: string)
    requires a != [] && Filter(a, levelFilter, query).Some? && Filter(b, levelFilter, query).Some?
    requires Filter(a[1..] + b, levelFilter, query) ==
      Some(Filter(a[1..], levelFilter, query).value + Filter(b, levelFilter, query).value)
    ensures Filter(a + b, levelFilter, query) == Some(Filter(a, levelFilter, query).value + Filter(b, levelFilter, query).value)
  {
    var x := a[0];
    var keep := Test(levelFilter, query, x).value;
    var rest := Filter(a[1..], levelFilter, query).value;
    var tail := Filter(b, levelFilter, query).value;
    FilterHead(a, levelFilter, query);
    FilterHeadAppend(a, b, levelFilter, query);
    ConsAppend(x, keep, rest, tail);
  }

  /** Keeping or dropping a head commutes with appending a tail. */
  lemma ConsAppend(x: BotLog, keep: bool, rest: seq<BotLog>, tail: seq<BotLog>)
    ensures (if keep then [x] + (rest + tail) else rest + tail) == (if keep then [x] + rest else rest) + tail
  {
    if keep {
      assert [x] + (rest + tail) == ([x] + rest) + tail;
    }
  }

  /** One step of the filter over a concatenation whose first run is non-empty. */
  lemma FilterHeadAppend(a: seq<BotLog>, b: seq<BotLog>, levelFilter: string, query: string)
    requires a != [] && Test(levelFilter, query, a[0]).Some?
    requires Filter(a[1..] + b, levelFilter, query).Some?
    ensures var rest := Filter(a[1..] + b, levelFilter, query).value;
      Filter(a + b, levelFilter, query) ==
      Some(if Test(levelFilter, query, a[0]).value then [a[0]] + rest else rest)
  {
    assert (a + b)[0] == a[0] && (a + b)[1..] == a[1..] + b;
    FilterHead(a + b, levelFilter, query);
  }

  /** One step of the filter over a non-empty buffer whose head the callback accepts. */
  lemma FilterHead(logs: seq<BotLog>, levelFilter: string, query: string)
    requires logs != [] && Test(levelFilter, query, logs[0]).Some?
    requires Filter(logs[1..], levelFilter, query).Some?
    ensures var rest := Filter(logs[1..], levelFilter, query).value;
      Filter(logs, levelFilter, query) ==
      Some(if Test(levelFilter, query, logs[0]).value then [logs[0]] + rest else rest)
  {
  }

  /** With level `'all'` and an empty search every log is shown. */
  lemma {:induction false} ShowAll(logs: seq<BotLog>)
    ensures Filter(logs, AllLevels, "") == Some(logs)
  {
    if logs != [] {
      ShowAll(logs[1..]);
      assert [logs[0]] + logs[1..] == logs;
    }
  }

  /** With text messages the panel always renders. */
  lemma TextNeverThrows(logs: seq<BotLog>, levelFilter: string, query: string)
    requires forall i :: 0 <= i < |logs| ==> HasText(logs[i])
    ensures Filter(logs, levelFilter, query).Some?
  {
    FilterFails(logs, levelFilter, query);
  }

  lemma LowerCharIdempotent(c: char)
    ensures LowerChar(LowerChar(c)) == LowerChar(c)
  {
  }

  /** Search ignores the case of the query. */
  lemma {:induction false} SearchIgnoresCase(levelFilter: string, query: string, log: BotLog)
    ensures Test(levelFilter, ToLower(query), log) == Test(levelFilter, query, log)
  {
    var q := ToLower(query);
    assert |q| == |query|;
    forall i | 0 <= i < |q|
      ensures ToLower(q)[i] == q[i]
    {
      LowerCharIdempotent(query[i]);
    }
    assert ToLower(q) == q;
  }

  /** The defect as written: a payload whose `message` is a number is stored as a
      number, and any non-empty search then throws while rendering. */
  lemma NumericMessageBreaksSearch()
    ensures var log := ReceivedAsWritten("b", JObj(map["message" := JNum(5.0)]), "{\"message\":5}");
      log.Some? && Filter([log.value], AllLevels, "x").None?
  {
    var log := ReceivedAsWritten("b", JObj(map["message" := JNum(5.0)]), "{\"message\":5}");
    assert Get(JObj(map["message" := JNum(5.0)]), "message") == Some(JNum(5.0));
    assert log.value.message == JNum(5.0);
    assert Test(AllLevels, "x", log.value).None?;
  }
}
