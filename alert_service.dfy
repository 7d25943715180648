/**
 * Alert rules (src/services/alerts/AlertService.ts): an in-memory list of rules,
 * and the check that evaluates a bot's enabled rules against its latest metrics.
 * The metrics row and the bot's status are answers of the database, so they are
 * parameters; notification channels are not modelled.
 */
module Alerts {
  import opened Wrappers
  import Metrics

  datatype RuleType = PnlThreshold | BalanceThreshold | ErrorLogs | BotStopped

  /** `AlertRule`; `botId` is `None` when the rule applies to every bot. */
  datatype AlertRule = AlertRule(id: string, botId: Option<string>, organizationId: string,
                                 ruleType: RuleType, operator: string, value: real, enabled: bool)

  function Abs(x: real): (r: real)
    ensures r >= 0.0 && (r == x || r == -x)
  {
    if x < 0.0 then -x else x
  }

  /** `evaluateCondition`: strict comparisons, and equality within 0.01. */
  function Evaluate(value: real, operator: string, threshold: real): (r: bool)
    ensures operator != "gt" && operator != "lt" && operator != "eq" ==> !r
  {
    match operator
    case "gt" => value > threshold
    case "lt" => value < threshold
    case "eq" => Abs(value - threshold) < 0.01
    case _ => false
  }

  /** The three operators relate to the ordinary comparisons as their names say:
      `gt` and `lt` are strict and exclusive, and `eq` is a symmetric tolerance. */
  lemma EvaluateOperators(v: real, t: real)
    ensures Evaluate(v, "gt", t) <==> v > t
    ensures Evaluate(v, "lt", t) <==> v < t
    ensures !(Evaluate(v, "gt", t) && Evaluate(v, "lt", t))
    ensures Evaluate(v, "eq", t) <==> -0.01 < v - t < 0.01
    ensures Evaluate(v, "eq", t) == Evaluate(t, "eq", v)
    ensures v == t ==> Evaluate(v, "eq", t) && !Evaluate(v, "gt", t) && !Evaluate(v, "lt", t)
  {
  }

  /** `Array.prototype.filter`: the rules satisfying `p`, in their original order. */
  function Keep(rs: seq<AlertRule>, p: AlertRule -> bool): (r: seq<AlertRule>)
    ensures |r| <= |rs|
    ensures forall x :: x in r <==> x in rs && p(x)
  {
    if rs == [] then []
    else (if p(rs[0]) then [rs[0]] else []) + Keep(rs[1..], p)
  }

  /** Filtering distributes over concatenation: `filter` keeps the order of the list. */
  lemma {:induction false} KeepAppend(a: seq<AlertRule>, b: seq<AlertRule>, p: AlertRule -> bool)
    ensures Keep(a + b, p) == Keep(a, p) + Keep(b, p)
  {
    if a == [] {
      assert a + b == b;
    } else {
      assert (a + b)[1..] == a[1..] + b;
      KeepAppend(a[1..], b, p);
    }
  }

  /** A list whose every element passes the filter comes through unchanged. */
  lemma {:induction false} KeepAll(rs: seq<AlertRule>, p: AlertRule -> bool)
    requires forall i :: 0 <= i < |rs| ==> p(rs[i])
    ensures Keep(rs, p) == rs
  {
    if rs != [] {
      KeepAll(rs[1..], p);
    }
  }

  /** The rules that survive `removeRule(id)`. */
  function Without(rs: seq<AlertRule>, id: string): (r: seq<AlertRule>)
    ensures forall x :: x in r <==> x in rs && x.id != id
  {
    Keep(rs, (x: AlertRule) => x.id != id)
  }

  /** The rules `getRules(org)` returns. */
  function OfOrg(rs: seq<AlertRule>, org: string): (r: seq<AlertRule>)
    ensures forall x :: x in r <==> x in rs && x.organizationId == org
  {
    Keep(rs, (x: AlertRule) => x.organizationId == org)
  }

  /** A rule checked by `checkBotAlerts(botId, org)`. */
  predicate ForBot(org: string, botId: string, x: AlertRule) {
    x.organizationId == org && x.botId == Some(botId) && x.enabled
  }

  /** A rule `checkAlerts` treats as general: `!r.botId` also holds for an empty id. */
  predicate General(org: string, x: AlertRule) {
    x.organizationId == org && (x.botId.None? || x.botId == Some("")) && x.enabled
  }

  function BotRules(rs: seq<AlertRule>, org: string, botId: string): (r: seq<AlertRule>)
    ensures forall x :: x in r <==> x in rs && ForBot(org, botId, x)
  {
    Keep(rs, (x: AlertRule) => ForBot(org, botId, x))
  }

  function GeneralRules(rs: seq<AlertRule>, org: string): (r: seq<AlertRule>)
    ensures forall x :: x in r <==> x in rs && General(org, x)
  {
    Keep(rs, (x: AlertRule) => General(org, x))
  }

  /** For a bot with a non-empty id, no rule is both one of its own rules and general. */
  lemma BotAndGeneralDisjoint(rs: seq<AlertRule>, org: string, botId: string, x: AlertRule)
    requires botId != ""
    ensures !(x in BotRules(rs, org, botId) && x in GeneralRules(rs, org))
  {
  }

  /** The switch of `checkBotAlerts` for one rule: thresholds only against a non-null
      metric, `bot_stopped` when the bot is found stopped, and never for `error`. */
  function Fires(rule: AlertRule, m: Metrics.LatestMetrics, status: Option<string>): (r: bool)
    ensures rule.ruleType == PnlThreshold ==>
      (r <==> m.totalPnl.Some? && Evaluate(m.totalPnl.value, rule.operator, rule.value))
    ensures rule.ruleType == BalanceThreshold ==>
      (r <==> m.balanceUsd.Some? && Evaluate(m.balanceUsd.value, rule.operator, rule.value))
    ensures rule.ruleType == ErrorLogs ==> !r
    ensures rule.ruleType == BotStopped ==> (r <==> status == Some("stopped"))
  {
    match rule.ruleType
    case PnlThreshold => m.totalPnl.Some? && Evaluate(m.totalPnl.value, rule.operator, rule.value)
    case BalanceThreshold => m.balanceUsd.Some? && Evaluate(m.balanceUsd.value, rule.operator, rule.value)
    case ErrorLogs => false
    case BotStopped => status == Some("stopped")
  }

  /** The rules `checkBotAlerts(botId, org)` sends an alert for, given the latest
      metrics row (`None` when there is none) and the bot's status (`None` when the
      bot is not found for the organisation). */
  function AlertsFor(rs: seq<AlertRule>, org: string, botId: string,
                     metrics: Option<Metrics.LatestMetrics>, status: Option<string>): (r: seq<AlertRule>)
    ensures metrics.None? ==> r == []
    ensures forall x :: x in r <==>
      x in rs && ForBot(org, botId, x) && metrics.Some? && Fires(x, metrics.value, status)
  {
    if BotRules(rs, org, botId) == [] || metrics.None? then []
    else Fired(BotRules(rs, org, botId), metrics.value, status)
  }

  /** The rules of `rs` that fire, in order. */
  function Fired(rs: seq<AlertRule>, m: Metrics.LatestMetrics, status: Option<string>): (r: seq<AlertRule>)
    ensures forall x :: x in r <==> x in rs && Fires(x, m, status)
  {
    if rs == [] then []
    else
      var last := rs[|rs| - 1];
      Fired(rs[..|rs| - 1], m, status) + (if Fires(last, m, status) then [last] else [])
  }

  /** One more rule adds itself to the fired ones exactly when it fires. */
  lemma FiredStep(rs: seq<AlertRule>, i: nat, m: Metrics.LatestMetrics, status: Option<string>)
    requires i < |rs|
    ensures Fired(rs[..i + 1], m, status) == Fired(rs[..i], m, status) + (if Fires(rs[i], m, status) then [rs[i]] else [])
  {
    assert rs[..i + 1][..i] == rs[..i];
  }

  /** Every alert sent during `checkAlerts(org)`, tagged with its bot, bot by bot. */
  function Sweep(rs: seq<AlertRule>, org: string, botIds: seq<string>,
                 metricsOf: string -> Option<Metrics.LatestMetrics>, statusOf: string -> Option<string>): (r: seq<(string, AlertRule)>)
    ensures forall b, x :: (b, x) in r <==> b in botIds && x in AlertsFor(rs, org, b, metricsOf(b), statusOf(b))
  {
    if botIds == [] then []
    else
      var b := botIds[|botIds| - 1];
      Sweep(rs, org, botIds[..|botIds| - 1], metricsOf, statusOf)
        + Tag(b, AlertsFor(rs, org, b, metricsOf(b), statusOf(b)))
  }

  function Tag(b: string, xs: seq<AlertRule>): (r: seq<(string, AlertRule)>)
    ensures |r| == |xs| && forall i :: 0 <= i < |xs| ==> r[i] == (b, xs[i])
    ensures forall c, x :: (c, x) in r <==> c == b && x in xs
  {
    if xs == [] then [] else [(b, xs[0])] + Tag(b, xs[1..])
  }

  class AlertService {
    var rules: seq<AlertRule>

    constructor()
      ensures rules == []
    {
      rules := [];
    }

    /** `addRule`: appended at the end. */
    method AddRule(rule: AlertRule)
      modifies this
      ensures rules == old(rules) + [rule]
    {
      rules := rules + [rule];
    }

    /** `removeRule`: every rule with this id goes, the others keep their order. */
    method RemoveRule(ruleId: string)
      modifies this
      ensures rules == Without(old(rules), ruleId)
    {
      rules := Without(rules, ruleId);
    }

    /** `getRules(org)`. */
    function GetRules(org: string): (r: seq<AlertRule>)
      reads this
      ensures forall x :: x in r <==> x in rules && x.organizationId == org
    {
      OfOrg(rules, org)
    }

    /** The `switch` on the rule type inside `checkBotAlerts`. */
    static method ShouldAlert(rule: AlertRule, m: Metrics.LatestMetrics, status: Option<string>) returns (shouldAlert: bool)
      ensures shouldAlert == Fires(rule, m, status)
    {
      shouldAlert := false;
      match rule.ruleType {
        case PnlThreshold =>
          if m.totalPnl.Some? {
            shouldAlert := Evaluate(m.totalPnl.value, rule.operator, rule.value);
          }
        case BalanceThreshold =>
          if m.balanceUsd.Some? {
            shouldAlert := Evaluate(m.balanceUsd.value, rule.operator, rule.value);
          }
        case ErrorLogs =>
        case BotStopped =>
          if status.Some? && status.value == "stopped" {
            shouldAlert := true;
          }
      }
    }

    /** `checkBotAlerts`: the bot's enabled rules are selected first, and the metrics
        are fetched only when there is one; then each rule is evaluated with a fresh
        `shouldAlert`, and the rules that fire are returned in order. */
    method CheckBotAlerts(botId: string, orgId: string, metrics: Option<Metrics.LatestMetrics>, status: Option<string>)
      returns (fetched: bool, sent: seq<AlertRule>)
      ensures fetched <==> BotRules(rules, orgId, botId) != []
      ensures sent == AlertsFor(rules, orgId, botId, metrics, status)
    {
      var botRules := BotRules(rules, orgId, botId);
      if |botRules| == 0 {
        return false, [];
      }
      fetched := true;
      if metrics.None? {
        return true, [];
      }
      var m := metrics.value;
      sent := [];
      var i := 0;
      while i < |botRules|
        invariant 0 <= i <= |botRules|
        invariant sent == Fired(botRules[..i], m, status)
      {
        var rule := botRules[i];
        var shouldAlert := ShouldAlert(rule, m, status);
        if shouldAlert {
          sent := sent + [rule];
        }
        FiredStep(botRules, i, m, status);
        i := i + 1;
      }
      assert botRules[..i] == botRules;
      assert AlertsFor(rules, orgId, botId, metrics, status) == Fired(botRules, m, status);
    }

    /** `checkAlerts(org)` over the organisation's bots: each bot's own rules are
        checked; the general rules are selected but checking them sends nothing. */
    method CheckAlerts(orgId: string, botIds: seq<string>,
                       metricsOf: string -> Option<Metrics.LatestMetrics>, statusOf: string -> Option<string>)
      returns (sent: seq<(string, AlertRule)>)
      ensures sent == Sweep(rules, orgId, botIds, metricsOf, statusOf)
    {
      sent := [];
      var i := 0;
      while i < |botIds|
        invariant 0 <= i <= |botIds|
        invariant sent == Sweep(rules, orgId, botIds[..i], metricsOf, statusOf)
      {
        var botId := botIds[i];
        var _, alerts := CheckBotAlerts(botId, orgId, metricsOf(botId), statusOf(botId));
        sent := sent + Tag(botId, alerts);
        assert botIds[..i + 1][..i] == botIds[..i];
        i := i + 1;
      }
      assert botIds[..i] == botIds;
    }
  }

  /** Removing the id of a rule just added, when no older rule has that id, gives
      back the rules as they were. */
  lemma {:induction false} AddThenRemove(rs: seq<AlertRule>, rule: AlertRule)
    requires forall i :: 0 <= i < |rs| ==> rs[i].id != rule.id
    ensures Without(rs + [rule], rule.id) == rs
  {
    KeepAppend(rs, [rule], (x: AlertRule) => x.id != rule.id);
    KeepAll(rs, (x: AlertRule) => x.id != rule.id);
  }

  /** After `addRule`, `getRules` of the rule's organisation ends with it and the
      others are unchanged and in order; other organisations see no change. */
  lemma {:induction false} AddThenGet(rs: seq<AlertRule>, rule: AlertRule, org: string)
    ensures OfOrg(rs + [rule], org) ==
      OfOrg(rs, org) + (if rule.organizationId == org then [rule] else [])
  {
    KeepAppend(rs, [rule], (x: AlertRule) => x.organizationId == org);
  }
}
