/**
 * Topic matching of the backend's broker client (`topicMatches` in MQTTService.ts)
 * and the topic strings the bridge builds under the `hbot` root.
 *
 * The wildcards are those of section 4.7.1 of the MQTT 3.1.1 standard, with one
 * deliberate difference from its section 4.7.1.2: `#` needs at least one topic
 * segment left to match, so `a/#` matches `a/b` but not `a`.
 */
module MqttTopics {
  import opened Text
  import opened JsonValue

  const Root: string := "hbot"

  /** One publish as the Python bridges hand it to their client: topic, JSON body,
      QoS level and retain flag. */
  datatype Outgoing = Outgoing(topic: string, message: Json, qos: nat, retain: bool)

  /** `hbot/{botId}/{leaf}`, the topic shape of every command and telemetry message. */
  function BotTopic(botId: string, leaf: string): string {
    Root + "/" + botId + "/" + leaf
  }

  /** The pattern a service subscribes to for everything one bot publishes. */
  function BotPattern(botId: string): string {
    BotTopic(botId, "+")
  }

  /** Segment-wise matching, walking pattern and topic together: the reference
      definition of what the index-walking loop computes. */
  function Matches(pattern: seq<string>, topic: seq<string>): bool {
    if pattern == [] || topic == [] then pattern == [] && topic == []
    else if pattern[0] == "#" then true
    else if pattern[0] == "+" || pattern[0] == topic[0] then Matches(pattern[1..], topic[1..])
    else false
  }

  /** Matching on the strings, split on `/` as the source does. */
  predicate MatchesTopic(pattern: string, topic: string) {
    Matches(Split(pattern, '/'), Split(topic, '/'))
  }

  /** The first `n` pattern segments accept the first `n` topic segments. */
  predicate Agree(pattern: seq<string>, topic: seq<string>, n: nat) {
    forall i :: 0 <= i < n && i < |pattern| && i < |topic| ==> pattern[i] == "+" || pattern[i] == topic[i]
  }

  lemma AgreeStep(pattern: seq<string>, topic: seq<string>, n: nat)
    requires |pattern| > 0 && |topic| > 0 && n > 0
    ensures Agree(pattern, topic, n)
        <==> (pattern[0] == "+" || pattern[0] == topic[0]) && Agree(pattern[1..], topic[1..], n - 1)
  {
    if (pattern[0] == "+" || pattern[0] == topic[0]) && Agree(pattern[1..], topic[1..], n - 1) {
      forall i | 0 <= i < n && i < |pattern| && i < |topic|
        ensures pattern[i] == "+" || pattern[i] == topic[i]
      {
        if i > 0 {
          assert pattern[1..][i - 1] == pattern[i] && topic[1..][i - 1] == topic[i];
        }
      }
    }
  }

  /** Index of the first `#` segment, or the length when there is none. */
  function FirstHash(pattern: seq<string>): (h: nat)
    ensures h <= |pattern|
    ensures h < |pattern| ==> pattern[h] == "#"
    ensures forall i :: 0 <= i < h ==> pattern[i] != "#"
  {
    if pattern == [] then 0
    else if pattern[0] == "#" then 0
    else 1 + FirstHash(pattern[1..])
  }

  /** What matching means, stated without the walk: before the first `#` every
      segment is `+` or equal; a `#` needs a topic segment at its own position;
      without a `#` both sides have the same number of segments. */
  predicate MatchSpec(pattern: seq<string>, topic: seq<string>) {
    var h := FirstHash(pattern);
    if h < |pattern| then h < |topic| && Agree(pattern, topic, h)
    else |pattern| == |topic| && Agree(pattern, topic, |pattern|)
  }

  lemma {:induction false} MatchesIff(pattern: seq<string>, topic: seq<string>)
    ensures Matches(pattern, topic) <==> MatchSpec(pattern, topic)
  {
    if pattern == [] || topic == [] {
    } else if pattern[0] == "#" {
    } else {
      MatchesIff(pattern[1..], topic[1..]);
      var h := FirstHash(pattern);
      assert h == 1 + FirstHash(pattern[1..]);
      if h < |pattern| {
        AgreeStep(pattern, topic, h);
      } else {
        AgreeStep(pattern, topic, |pattern|);
      }
    }
  }

  /** `+` consumes exactly one topic segment, whatever it holds (even an empty one). */
  lemma {:induction false} PlusConsumesOne(rest: seq<string>, segment: string, topicRest: seq<string>)
    ensures Matches(["+"] + rest, [segment] + topicRest) == Matches(rest, topicRest)
  {
    assert (["+"] + rest)[1..] == rest;
    assert ([segment] + topicRest)[1..] == topicRest;
  }

  /** Without `#`, a match needs segment lists of the same length. */
  lemma NoHashSameLength(pattern: seq<string>, topic: seq<string>)
    requires forall i :: 0 <= i < |pattern| ==> pattern[i] != "#"
    requires |pattern| != |topic|
    ensures !Matches(pattern, topic)
  {
    MatchesIff(pattern, topic);
  }

  /** A trailing `#` matches exactly the topics that extend an agreeing prefix by
      at least one segment: `a/#` matches `a/b` and `a/b/c`, never `a`. */
  lemma {:induction false} TrailingHash(prefix: seq<string>, topic: seq<string>)
    requires forall i :: 0 <= i < |prefix| ==> prefix[i] != "#"
    ensures Matches(prefix + ["#"], topic)
        <==> |topic| > |prefix| && Agree(prefix, topic, |prefix|)
  {
    var p := prefix + ["#"];
    MatchesIff(p, topic);
    assert p[|prefix|] == "#";
    assert FirstHash(p) == |prefix| by {
      FirstHashAt(p, |prefix|);
    }
    if |topic| > |prefix| {
      assert Agree(p, topic, |prefix|) <==> Agree(prefix, topic, |prefix|) by {
        assert forall i :: 0 <= i < |prefix| ==> p[i] == prefix[i];
      }
    }
  }

  lemma {:induction false} FirstHashAt(p: seq<string>, k: nat)
    requires k < |p| && p[k] == "#"
    requires forall i :: 0 <= i < k ==> p[i] != "#"
    ensures FirstHash(p) == k
  {
    if k > 0 {
      FirstHashAt(p[1..], k - 1);
    }
  }

  /** The edge cases named by the design, on segment lists. */
  lemma Examples()
    ensures Matches(["a", "+", "c"], ["a", "b", "c"])
    ensures Matches(["a", "+", "c"], ["a", "", "c"])
    ensures !Matches(["a", "+", "c"], ["a", "c"])
    ensures !Matches(["a", "+", "c"], ["a", "b", "c", "d"])
    ensures Matches(["a", "#"], ["a", "b"])
    ensures !Matches(["a", "#"], ["a"])
  {
  }

  /** The index-walking loop of the source, proved to compute `Matches`. */
  method TopicMatches(pattern: string, topic: string) returns (b: bool)
    ensures b == MatchesTopic(pattern, topic)
  {
    var patternParts := Split(pattern, '/');
    var topicParts := Split(topic, '/');
    var patternIndex, topicIndex := 0, 0;
    while patternIndex < |patternParts| && topicIndex < |topicParts|
      invariant patternIndex == topicIndex
      invariant patternIndex <= |patternParts| && topicIndex <= |topicParts|
      invariant Matches(patternParts[patternIndex..], topicParts[topicIndex..])
                == Matches(patternParts, topicParts)
    {
      var patternPart := patternParts[patternIndex];
      var topicPart := topicParts[topicIndex];
      if patternPart == "#" {
        return true;
      }
      assert patternParts[patternIndex..][1..] == patternParts[patternIndex + 1..];
      assert topicParts[topicIndex..][1..] == topicParts[topicIndex + 1..];
      if patternPart == "+" {
        patternIndex, topicIndex := patternIndex + 1, topicIndex + 1;
        continue;
      }
      if patternPart != topicPart {
        return false;
      }
      patternIndex, topicIndex := patternIndex + 1, topicIndex + 1;
    }
    return patternIndex == |patternParts| && topicIndex == |topicParts|;
  }

  /** Every `hbot/{id}/{leaf}` topic with separator-free pieces matches
      `hbot/+/{leaf}`, and its second segment is the bot id. */
  lemma {:induction false} BotTopicMatchesWildcard(botId: string, leaf: string)
    requires '/' !in botId && '/' !in leaf
    ensures Split(BotTopic(botId, leaf), '/') == [Root, botId, leaf]
    ensures MatchesTopic(BotTopic("+", leaf), BotTopic(botId, leaf))
  {
    assert BotTopic(botId, leaf) == Root + ['/'] + botId + ['/'] + leaf;
    assert BotTopic("+", leaf) == Root + ['/'] + "+" + ['/'] + leaf;
    SplitThree(Root, botId, leaf, '/');
    SplitThree(Root, "+", leaf, '/');
    assert Matches([leaf], [leaf]);
    assert Matches(["+", leaf], [botId, leaf]) by { PlusConsumesOne([leaf], botId, [leaf]); }
    assert [Root, "+", leaf][1..] == ["+", leaf] && [Root, botId, leaf][1..] == [botId, leaf];
  }
}
