/**
 * The bridge client that runs inside each bot container
 * (services/hummingbot-gateway/mqtt_bridge_client.py). It relays the bot
 * process's output lines as log messages after cleaning and filtering them,
 * publishes the container status, and accepts remote configuration updates.
 * The bot id comes from the environment; clocks are parameters.
 */
module ContainerBridge {
  import opened Wrappers
  import opened JsonValue
  import opened Text
  import opened MqttTopics

  const Esc: char := '\U{001B}'

  /** Second byte of a two-byte escape: `[@-Z\\-_]`, i.e. `@`..`Z` and `\`..`_`. */
  predicate ShortFinal(c: char) { '@' <= c <= 'Z' || '\\' <= c <= '_' }

  /** Parameter bytes `[0-?]`, intermediate bytes `[ -/]`, final byte `[@-~]` of a CSI sequence. */
  predicate ParamByte(c: char) { '0' <= c <= '?' }
  predicate InterByte(c: char) { ' ' <= c <= '/' }
  predicate FinalByte(c: char) { '@' <= c <= '~' }

  /** The end of the longest run of characters satisfying `p` that starts at `k`. */
  function SkipWhile(s: string, k: nat, p: char -> bool): (j: nat)
    requires k <= |s|
    ensures k <= j <= |s|
    ensures forall i :: k <= i < j ==> p(s[i])
    ensures j < |s| ==> !p(s[j])
    decreases |s| - k
  {
    if k < |s| && p(s[k]) then SkipWhile(s, k + 1, p) else k
  }

  /**
   * The length of the escape sequence the pattern
   * `\x1B(?:[@-Z\\-_]|\[[0-?]*[ -/]*[@-~])` matches at the start of `s`, if any.
   * The three byte classes of the CSI form are disjoint, so backtracking out of
   * the greedy runs never yields a match the greedy runs miss.
   */
  function EscapeLength(s: string): (n: Option<nat>)
    requires |s| > 0 && s[0] == Esc
    ensures n.Some? ==> 2 <= n.value <= |s|
    ensures n.Some? && n.value > 2 ==> s[1] == '[' && FinalByte(s[n.value - 1])
  {
    if |s| >= 2 && ShortFinal(s[1]) then Some(2)
    else if |s| >= 2 && s[1] == '[' then
      var i := SkipWhile(s, 2, c => ParamByte(c));
      var j := SkipWhile(s, i, c => InterByte(c));
      if j < |s| && FinalByte(s[j]) then Some(j + 1) else None
    else None
  }

  /** `re.sub` of the escape pattern with `''`: matched sequences are removed, and an
      escape character that starts no match is kept and scanning moves on. */
  function StripAnsi(s: string): (r: string)
    ensures |r| <= |s|
    ensures Esc !in s ==> r == s
    decreases |s|
  {
    if s == [] then []
    else if s[0] == Esc && EscapeLength(s).Some? then StripAnsi(s[EscapeLength(s).value..])
    else [s[0]] + StripAnsi(s[1..])
  }

  /** One step of `StripAnsi` at a character that is not an escape. */
  lemma StripAnsiKeeps(s: string)
    requires s != [] && s[0] != Esc
    ensures StripAnsi(s) == [s[0]] + StripAnsi(s[1..])
  {
  }

  /** One step of `StripAnsi` at an escape sequence. */
  lemma StripAnsiSkips(s: string)
    requires s != [] && s[0] == Esc && EscapeLength(s).Some?
    ensures StripAnsi(s) == StripAnsi(s[EscapeLength(s).value..])
  {
  }

  /** Text without an escape character passes through unchanged, whatever follows. */
  lemma {:induction false} StripAnsiKeepsPlain(a: string, rest: string)
    requires Esc !in a
    ensures StripAnsi(a + rest) == a + StripAnsi(rest)
    decreases |a|
  {
    if a == [] {
      assert a + rest == rest;
      assert a + StripAnsi(rest) == StripAnsi(rest);
    } else {
      assert Esc !in a[1..] by {
        assert forall c :: c in a[1..] ==> c in a;
      }
      StripAnsiKeepsPlain(a[1..], rest);
      StripAnsiPlainStep(a, rest);
    }
  }

  /** The step of `StripAnsiKeepsPlain` for a non-empty prefix, given the result for its tail. */
  lemma StripAnsiPlainStep(a: string, rest: string)
    requires a != [] && a[0] != Esc
    requires StripAnsi(a[1..] + rest) == a[1..] + StripAnsi(rest)
    ensures StripAnsi(a + rest) == a + StripAnsi(rest)
  {
    StripAnsiHead(a, rest);
    ConsConcat(a, StripAnsi(rest));
  }

  /** `StripAnsi` keeps the first character of a concatenation that starts with text. */
  lemma StripAnsiHead(a: string, rest: string)
    requires a != [] && a[0] != Esc
    ensures StripAnsi(a + rest) == [a[0]] + StripAnsi(a[1..] + rest)
  {
    var s := a + rest;
    assert s[0] == a[0] && s[1..] == a[1..] + rest;
    StripAnsiKeeps(s);
  }

  /** Text before an escape sequence is kept and the sequence itself goes. */
  lemma StripAnsiDropsSequence(a: string, code: string, b: string)
    requires Esc !in a
    requires |code| > 0 && code[0] == Esc && EscapeLength(code + b) == Some(|code|)
    ensures StripAnsi(a + code + b) == a + StripAnsi(b)
  {
    assert a + code + b == a + (code + b);
    StripAnsiKeepsPlain(a, code + b);
    StripAnsiSkips(code + b);
    assert (code + b)[|code|..] == b;
  }

  /** A colour code such as `ESC[31m` is one escape sequence. */
  lemma ColourCodeIsOneSequence(digits: string, b: string)
    requires forall i :: 0 <= i < |digits| ==> '0' <= digits[i] <= '9'
    ensures EscapeLength([Esc, '['] + digits + "m" + b) == Some(|digits| + 3)
  {
    var s := [Esc, '['] + digits + "m" + b;
    var i := SkipWhile(s, 2, c => ParamByte(c));
    assert forall k :: 2 <= k < 2 + |digits| ==> s[k] == digits[k - 2];
    assert s[2 + |digits|] == 'm';
    assert i == 2 + |digits|;
  }

  /** Box-drawing characters of the bot's welcome banner: `█╗╝╚═║╔`. */
  predicate IsBoxChar(c: char) {
    c == '█' || c == '╗' || c == '╝' || c == '╚' || c == '═' || c == '║' || c == '╔'
  }

  predicate HasBoxChar(m: string) {
    exists i :: 0 <= i < |m| && IsBoxChar(m[i])
  }

  /** The noise filters of `publish_log`: empty text, banner art and the harmless
      shell errors of `yes | script`. */
  predicate Noise(m: string) {
    m == "" || HasBoxChar(m)
    || (Contains(m, "Broken pipe") && Contains(m, "yes"))
    || Contains(m, "/bin/bash:")
  }

  /** The object a line holds when it is shaped like `{...}` and parses to one. */
  function BracedObject(m: string, parse: string -> Option<Json>): (r: Option<Obj>)
    ensures r.Some? ==> StartsWith(m, "{") && EndsWith(m, "}") && parse(m) == Some(JObj(r.value))
    ensures !(StartsWith(m, "{") && EndsWith(m, "}")) ==> r.None?
  {
    if StartsWith(m, "{") && EndsWith(m, "}") && parse(m).Some? && parse(m).value.JObj?
    then Some(parse(m).value.fields) else None
  }

  /**
   * A line that looks like a JSON object may carry its own text and level. A
   * non-empty trimmed `message` string replaces the text, and a `level` string,
   * lowercased, replaces the level. Any exception inside the attempt is swallowed
   * with whatever was assigned before it: a non-string `message` changes nothing,
   * a non-string `level` keeps the replaced text.
   */
  function JsonOverride(m: string, level: string, parse: string -> Option<Json>): (r: (string, string))
    ensures BracedObject(m, parse).None? ==> r == (m, level)
    ensures BracedObject(m, parse).Some? ==> var d := BracedObject(m, parse).value;
      "message" in d && !d["message"].JStr? ==> r == (m, level)
    ensures BracedObject(m, parse).Some? ==> var d := BracedObject(m, parse).value;
      "message" in d && d["message"].JStr? && Trim(d["message"].s) != "" ==> r.0 == Trim(d["message"].s)
    ensures BracedObject(m, parse).Some? ==> var d := BracedObject(m, parse).value;
      ("message" !in d || (d["message"].JStr? && Trim(d["message"].s) == "")) ==> r.0 == m
    ensures BracedObject(m, parse).Some? ==> var d := BracedObject(m, parse).value;
      ("message" !in d || d["message"].JStr?) && "level" in d && d["level"].JStr? ==> r.1 == ToLower(d["level"].s)
    ensures BracedObject(m, parse).Some? ==> var d := BracedObject(m, parse).value;
      !("level" in d && d["level"].JStr?) ==> r.1 == level
  {
    match BracedObject(m, parse)
    case None => (m, level)
    case Some(d) =>
      var field := if "message" in d then d["message"] else JStr("");
      if !field.JStr? then (m, level)
      else
        var text := if Trim(field.s) != "" then Trim(field.s) else m;
        if "level" in d && d["level"].JStr? then (text, ToLower(d["level"].s)) else (text, level)
  }

  /** The (text, level) pair `publish_log` publishes for a raw line, or nothing. */
  function CleanLog(level: string, message: string, parse: string -> Option<Json>): (r: Option<(string, string)>)
    ensures r.Some? ==> |r.value.0| >= 2
    ensures r.Some? ==> !Noise(Trim(StripAnsi(message)))
    ensures r.Some? ==> r.value == JsonOverride(Trim(StripAnsi(message)), level, parse)
    ensures Noise(Trim(StripAnsi(message))) ==> r.None?
    ensures !Noise(Trim(StripAnsi(message))) && |JsonOverride(Trim(StripAnsi(message)), level, parse).0| >= 2
            ==> r == Some(JsonOverride(Trim(StripAnsi(message)), level, parse))
  {
    var clean := Trim(StripAnsi(message));
    if Noise(clean) then None
    else
      var (text, lvl) := JsonOverride(clean, level, parse);
      if |text| < 2 then None else Some((text, lvl))
  }

  /** The log message `publish_log` sends for a cleaned (level, text) pair. */
  function LogMessage(level: string, text: string, stamp: string): (m: Obj)
    ensures m.Keys == {"level", "message", "timestamp"}
    ensures m["level"] == JStr(level) && m["message"] == JStr(text) && m["timestamp"] == JStr(stamp)
  {
    map["level" := JStr(level), "message" := JStr(text), "timestamp" := JStr(stamp)]
  }

  /** Everything one `publish_log` call hands to the client. */
  function LogOutput(botId: string, connected: bool, level: string, message: string,
                     parse: string -> Option<Json>, stamp: string): (out: seq<Outgoing>)
    ensures |out| <= 1
    ensures |out| == 1 <==> connected && CleanLog(level, message, parse).Some?
    ensures |out| == 1 ==> var (text, lvl) := CleanLog(level, message, parse).value;
      out[0] == Outgoing(BotTopic(botId, "logs/" + lvl), JObj(LogMessage(lvl, text, stamp)), 0, false)
    ensures |out| == 1 ==> StartsWith(out[0].topic, BotTopic(botId, "logs/")) && out[0].qos == 0
  {
    if !connected then []
    else match CleanLog(level, message, parse)
      case None => []
      case Some((text, lvl)) =>
        assert BotTopic(botId, "logs/" + lvl) == BotTopic(botId, "logs/") + lvl;
        [Outgoing(BotTopic(botId, "logs/" + lvl), JObj(LogMessage(lvl, text, stamp)), 0, false)]
  }

  /** A plain line (not shaped like a JSON object) keeps its level and is published
      as its stripped, trimmed text, unless that text is noise or shorter than two. */
  lemma PlainLine(level: string, message: string, parse: string -> Option<Json>)
    requires var clean := Trim(StripAnsi(message)); !(StartsWith(clean, "{") && EndsWith(clean, "}"))
    ensures var clean := Trim(StripAnsi(message));
      CleanLog(level, message, parse) == if Noise(clean) || |clean| < 2 then None else Some((clean, level))
  {
  }

  /** The noise filters look at the line before the JSON override, so the `message`
      field of a JSON line is published whatever it holds once trimmed, and the
      level is kept when the object has none. */
  lemma JsonMessageWins(level: string, line: string, text: string, parse: string -> Option<Json>)
    requires Esc !in line && StartsWith(line, "{") && EndsWith(line, "}") && !Noise(line)
    requires parse(line) == Some(JObj(map["message" := JStr(text)]))
    requires |Trim(text)| >= 2
    ensures CleanLog(level, line, parse) == Some((Trim(text), level))
  {
    BracedIsClean(line);
    OverrideByMessage(line, level, text, parse);
  }

  /** A JSON line that names only a `level` keeps its own text and is published at
      that level, lowercased. */
  lemma JsonLevelWins(level: string, line: string, lv: string, parse: string -> Option<Json>)
    requires Esc !in line && StartsWith(line, "{") && EndsWith(line, "}") && !Noise(line)
    requires parse(line) == Some(JObj(map["level" := JStr(lv)]))
    ensures CleanLog(level, line, parse) == Some((line, ToLower(lv)))
  {
    BracedIsClean(line);
    OverrideByLevel(line, level, lv, parse);
    BracedLength(line);
  }

  /** `{` and `}` are two characters, so a braced line is never shorter. */
  lemma BracedLength(line: string)
    requires StartsWith(line, "{") && EndsWith(line, "}")
    ensures |line| >= 2
  {
    assert line[0] == '{' && line[|line| - 1] == '}';
  }

  /** A braced line whose object holds only a text `level` keeps its text. */
  lemma OverrideByLevel(line: string, level: string, lv: string, parse: string -> Option<Json>)
    requires StartsWith(line, "{") && EndsWith(line, "}")
    requires parse(line) == Some(JObj(map["level" := JStr(lv)]))
    ensures JsonOverride(line, level, parse) == (line, ToLower(lv))
  {
    var d := map["level" := JStr(lv)];
    assert "message" !in d && "level" in d && d["level"] == JStr(lv);
  }

  /** A braced line without escapes is its own cleaned form. */
  lemma BracedIsClean(line: string)
    requires Esc !in line && StartsWith(line, "{") && EndsWith(line, "}")
    ensures Trim(StripAnsi(line)) == line
  {
    assert line[0] == '{' && line[|line| - 1] == '}';
    assert StripAnsi(line) == line;
  }

  /** A braced line whose object holds only a non-blank text `message` is replaced
      by that text, trimmed, at the level given. */
  lemma OverrideByMessage(line: string, level: string, text: string, parse: string -> Option<Json>)
    requires StartsWith(line, "{") && EndsWith(line, "}")
    requires parse(line) == Some(JObj(map["message" := JStr(text)]))
    requires Trim(text) != ""
    ensures JsonOverride(line, level, parse) == (Trim(text), level)
  {
    var d := map["message" := JStr(text)];
    assert "message" in d && d["message"] == JStr(text);
    assert "level" !in d;
  }

  /** `{x}` passes every noise filter. */
  lemma BracesAreClean()
    ensures Esc !in "{x}" && !Noise("{x}")
  {
    var line := "{x}";
    assert line == ['{', 'x', '}'];
    assert !HasBoxChar(line);
    NotContains(line, "Broken pipe", 'B');
    NotContains(line, "/bin/bash:", '/');
  }

  /** Banner art inside a JSON line's `message` is published, though the same art
      on a line of its own is dropped. */
  lemma BannerInsideJson(parse: string -> Option<Json>)
    requires parse("{x}") == Some(JObj(map["message" := JStr("██")]))
    ensures CleanLog("info", "{x}", parse) == Some(("██", "info"))
    ensures CleanLog("info", "██", parse) == None
  {
    var box := "██";
    BoxIsClean(box);
    BracesAreClean();
    JsonMessageWins("info", "{x}", box, parse);
    BannerLineDropped(box, parse);
  }

  /** A line of banner art on its own is noise. */
  lemma BannerLineDropped(box: string, parse: string -> Option<Json>)
    requires box == "██"
    ensures CleanLog("info", box, parse) == None
  {
    BoxIsClean(box);
    BoxIsNoise(box);
  }

  lemma BoxIsNoise(box: string)
    requires box == "██"
    ensures Noise(box)
  {
    assert IsBoxChar(box[0]);
  }

  /** The banner's box characters are neither escapes nor spaces. */
  lemma BoxIsClean(box: string)
    requires box == "██"
    ensures Esc !in box && Trim(box) == box && Trim(StripAnsi(box)) == box
  {
    assert box[0] == '█' && box[1] == '█';
  }

  /** A pattern with a character the text lacks does not occur in it. */
  lemma NotContains(s: string, pat: string, c: char)
    requires c in pat && c !in s
    ensures !Contains(s, pat)
  {
    ContainsIff(s, pat);
  }

  /** Level of a process output line: `error` wins over `warning`, else `info`. */
  function ClassifyLine(line: string): (level: string)
    ensures level in {"error", "warning", "info"}
    ensures level == "error" <==> Contains(ToLower(line), "error")
    ensures level == "warning" <==> !Contains(ToLower(line), "error") && Contains(ToLower(line), "warning")
  {
    var lower := ToLower(line);
    if Contains(lower, "error") then "error"
    else if Contains(lower, "warning") then "warning"
    else "info"
  }

  /** Upper-case words are found too: a line containing `ERROR` is an error line. */
  lemma UpperCaseErrorIsError(a: string, b: string)
    ensures ClassifyLine(a + "ERROR" + b) == "error"
  {
    var line := a + "ERROR" + b;
    assert ToLower(line) == ToLower(a) + "error" + ToLower(b) by {
      ToLowerConcat(a + "ERROR", b);
      ToLowerConcat(a, "ERROR");
      LowerError();
    }
    ContainsInfix(ToLower(a), "error", ToLower(b));
  }

  lemma LowerError()
    ensures ToLower("ERROR") == "error"
  {
    var r := ToLower("ERROR");
    assert |r| == 5;
    assert r[0] == 'e' && r[1] == 'r' && r[2] == 'r' && r[3] == 'o' && r[4] == 'r';
  }

  /** The status message: the status and the publishing time in seconds. */
  function StatusMessage(status: string, now: real): (m: Obj)
    ensures m.Keys == {"status", "timestamp"}
    ensures m["status"] == JStr(status) && m["timestamp"] == JNum(now)
  {
    map["status" := JStr(status), "timestamp" := JNum(now)]
  }

  /** What a loop over `lines` appends when line `k` contributes `each(k, lines[k])`. */
  function Collect(lines: seq<string>, each: (nat, string) -> seq<Outgoing>): (out: seq<Outgoing>)
    ensures lines == [] ==> out == []
  {
    if lines == [] then []
    else Collect(lines[..|lines| - 1], each) + each(|lines| - 1, lines[|lines| - 1])
  }

  /** One more turn of the loop appends the next line's contribution. */
  lemma CollectStep(lines: seq<string>, i: nat, each: (nat, string) -> seq<Outgoing>,
                    start: seq<Outgoing>, before: seq<Outgoing>, after: seq<Outgoing>)
    requires i < |lines|
    requires before == start + Collect(lines[..i], each)
    requires after == before + each(i, lines[i])
    ensures after == start + Collect(lines[..i + 1], each)
  {
    assert lines[..i + 1][..i] == lines[..i];
  }

  /** What `publish_log` makes of output line `k`, classified and stamped `clock(k)`. */
  function PumpLine(botId: string, connected: bool, parse: string -> Option<Json>, clock: nat -> string)
    : (nat, string) -> seq<Outgoing>
  {
    (k: nat, line: string) => LogOutput(botId, connected, ClassifyLine(line), line, parse, clock(k))
  }

  /** The log messages relaying `lines` produces, the k-th line stamped `clock(k)`. */
  function Relayed(botId: string, connected: bool, lines: seq<string>, parse: string -> Option<Json>,
                   clock: nat -> string): seq<Outgoing>
  {
    Collect(lines, PumpLine(botId, connected, parse, clock))
  }

  /** At most one log message per line, all on the bot's `logs/` topics at QoS 0,
      and nothing at all while disconnected. */
  lemma {:induction false} RelayedShape(botId: string, connected: bool, lines: seq<string>,
                                        parse: string -> Option<Json>, clock: nat -> string)
    ensures var out := Relayed(botId, connected, lines, parse, clock);
      && |out| <= |lines|
      && (forall k :: 0 <= k < |out| ==> StartsWith(out[k].topic, BotTopic(botId, "logs/")) && out[k].qos == 0)
      && (!connected ==> out == [])
  {
    if lines != [] {
      var n := |lines| - 1;
      RelayedShape(botId, connected, lines[..n], parse, clock);
      var last := LogOutput(botId, connected, ClassifyLine(lines[n]), lines[n], parse, clock(n));
      assert Relayed(botId, connected, lines, parse, clock) == Relayed(botId, connected, lines[..n], parse, clock) + last;
    }
  }

  /** The text of the log line that reports a successful remote configuration. */
  const ConfigApplied: string := "Remote configuration updated successfully."

  class Bridge {
    const botId: string
    var isConnected: bool
    /** Patterns handed to `client.subscribe`, in order. */
    var subscriptions: seq<string>
    /** Every `client.publish`, in order. */
    var outbox: seq<Outgoing>

    constructor(botId: string)
      ensures this.botId == botId && !isConnected && subscriptions == [] && outbox == []
    {
      this.botId := botId;
      isConnected := false;
      subscriptions := [];
      outbox := [];
    }

    /** `publish_status`: retained at QoS 1, and only while connected. */
    method PublishStatus(status: string, now: real)
      modifies this`outbox
      ensures outbox == old(outbox) +
        (if isConnected then [Outgoing(BotTopic(botId, "status"), JObj(StatusMessage(status, now)), 1, true)] else [])
    {
      if !isConnected {
        return;
      }
      outbox := outbox + [Outgoing(BotTopic(botId, "status"), JObj(StatusMessage(status, now)), 1, true)];
    }

    /** `on_connect`: on return code 0 the bridge is connected, announces `running`
        and subscribes to its own configuration-update topic; otherwise nothing. */
    method OnConnect(rc: int, now: real)
      modifies this
      ensures rc == 0 ==>
        (isConnected && subscriptions == old(subscriptions) + [BotTopic(botId, "config/update")]
         && outbox == old(outbox) + [Outgoing(BotTopic(botId, "status"), JObj(StatusMessage("running", now)), 1, true)])
      ensures rc != 0 ==> isConnected == old(isConnected) && subscriptions == old(subscriptions) && outbox == old(outbox)
    {
      if rc == 0 {
        isConnected := true;
        PublishStatus("running", now);
        subscriptions := subscriptions + [BotTopic(botId, "config/update")];
      }
    }

    /** `publish_log`: the line is cleaned and filtered step by step and published
        to `hbot/{id}/logs/{level}` at QoS 0. */
    method PublishLog(level: string, message: string, parse: string -> Option<Json>, stamp: string)
      modifies this`outbox
      ensures outbox == old(outbox) + LogOutput(botId, isConnected, level, message, parse, stamp)
    {
      if !isConnected {
        return;
      }
      var clean := Trim(StripAnsi(message));
      if clean == "" {
        assert LogOutput(botId, isConnected, level, message, parse, stamp) == [];
        return;
      }
      if HasBoxChar(clean) {
        assert LogOutput(botId, isConnected, level, message, parse, stamp) == [];
        return;
      }
      if Contains(clean, "Broken pipe") && Contains(clean, "yes") {
        assert LogOutput(botId, isConnected, level, message, parse, stamp) == [];
        return;
      }
      if Contains(clean, "/bin/bash:") {
        assert LogOutput(botId, isConnected, level, message, parse, stamp) == [];
        return;
      }
      // the JSON attempt, whose exceptions are swallowed
      var (text, lvl) := JsonOverride(clean, level, parse);
      if text == "" || |text| < 2 {
        assert LogOutput(botId, isConnected, level, message, parse, stamp) == [];
        return;
      }
      assert CleanLog(level, message, parse) == Some((text, lvl));
      outbox := outbox + [Outgoing(BotTopic(botId, "logs/" + lvl), JObj(LogMessage(lvl, text, stamp)), 0, false)];
    }

    /** The output pump: every line of the bot process is classified and handed to
        `publish_log`, and the status becomes `stopped` when the process exits. */
    method RelayOutput(lines: seq<string>, parse: string -> Option<Json>, clock: nat -> string, now: real)
      modifies this`outbox
      ensures outbox == old(outbox) + Relayed(botId, isConnected, lines, parse, clock)
        + (if isConnected then [Outgoing(BotTopic(botId, "status"), JObj(StatusMessage("stopped", now)), 1, true)] else [])
    {
      RelayLines(lines, parse, clock);
      PublishStatus("stopped", now);
    }

    /** The line loop of the output pump. */
    method RelayLines(lines: seq<string>, parse: string -> Option<Json>, clock: nat -> string)
      modifies this`outbox
      ensures outbox == old(outbox) + Relayed(botId, isConnected, lines, parse, clock)
    {
      var connected := isConnected;
      var i := 0;
      while i < |lines|
        invariant 0 <= i <= |lines|
        invariant isConnected == connected
        invariant outbox == old(outbox) + Relayed(botId, connected, lines[..i], parse, clock)
      {
        ghost var before := outbox;
        RelayLine(lines[i], parse, clock(i));
        CollectStep(lines, i, PumpLine(botId, connected, parse, clock), old(outbox), before, outbox);
        i := i + 1;
      }
      assert lines[..i] == lines;
    }

    /** One line of the pump: classified, then handed to `publish_log`. */
    method RelayLine(line: string, parse: string -> Option<Json>, stamp: string)
      modifies this`outbox
      ensures outbox == old(outbox) + LogOutput(botId, isConnected, ClassifyLine(line), line, parse, stamp)
    {
      var level := ClassifyLine(line);
      PublishLog(level, line, parse, stamp);
    }

    /** `handle_remote_config`: the configuration files are written (their outcome is
        `written`) and the result is reported as an info or error log line. */
    method HandleRemoteConfig(written: Outcome, parse: string -> Option<Json>, stamp: string)
      modifies this`outbox
      ensures written.Pass? ==> outbox == old(outbox) + LogOutput(botId, isConnected, "info", ConfigApplied, parse, stamp)
      ensures written.Fail? ==>
        outbox == old(outbox) + LogOutput(botId, isConnected, "error", "Failed to apply remote config: " + written.error, parse, stamp)
    {
      match written
      case Pass => PublishLog("info", ConfigApplied, parse, stamp);
      case Fail(e) => PublishLog("error", "Failed to apply remote config: " + e, parse, stamp);
    }

    /** `on_message`: only topics ending in `/config/update` are handled, and only
        when the payload decodes; errors are printed and swallowed. */
    method OnMessage(topic: string, payload: string, parse: string -> Option<Json>, written: Outcome, stamp: string)
      modifies this`outbox
      ensures !(EndsWith(topic, "/config/update") && parse(payload).Some?) ==> outbox == old(outbox)
      ensures EndsWith(topic, "/config/update") && parse(payload).Some? && written.Pass? ==>
        outbox == old(outbox) + LogOutput(botId, isConnected, "info", ConfigApplied, parse, stamp)
      ensures EndsWith(topic, "/config/update") && parse(payload).Some? && written.Fail? ==>
        outbox == old(outbox) + LogOutput(botId, isConnected, "error", "Failed to apply remote config: " + written.error, parse, stamp)
    {
      if EndsWith(topic, "/config/update") {
        var config := parse(payload);
        if config.Some? {
          HandleRemoteConfig(written, parse, stamp);
        }
      }
    }

    /** `stop`: the process is terminated and `stopped` announced; the connected flag
        is never cleared, as the client has no disconnect handler. */
    method Stop(now: real)
      modifies this`outbox
      ensures outbox == old(outbox) +
        (if isConnected then [Outgoing(BotTopic(botId, "status"), JObj(StatusMessage("stopped", now)), 1, true)] else [])
    {
      PublishStatus("stopped", now);
    }
  }

  /** A clean line (no escape character, no surrounding whitespace, no noise, not
      shaped like a JSON object, at least two characters) is published verbatim at
      the level it was given. */
  lemma VerbatimLine(botId: string, level: string, m: string, parse: string -> Option<Json>, stamp: string)
    requires Esc !in m && |m| >= 2 && !IsSpace(m[0]) && !IsSpace(m[|m| - 1])
    requires !Noise(m) && !StartsWith(m, "{")
    ensures LogOutput(botId, true, level, m, parse, stamp)
         == [Outgoing(BotTopic(botId, "logs/" + level), JObj(LogMessage(level, m, stamp)), 0, false)]
  {
    assert Trim(StripAnsi(m)) == m;
  }
}
