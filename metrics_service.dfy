/**
 * Metrics queries and the numbers derived from them (src/services/metrics/MetricsService.ts):
 * history windows, profit and loss over a period, drawdown, and the portfolio
 * totals. Database queries are inputs: a table in the order the query's
 * `ORDER BY` returns it, answers of the exchange as functions. Times are
 * milliseconds since the epoch and amounts are reals.
 */
module Metrics {
  import opened Wrappers
  import opened Text

  /** The two fields of `getLatestMetrics` that other services read; a null
      column is `None`. */
  datatype LatestMetrics = LatestMetrics(totalPnl: Option<real>, balanceUsd: Option<real>)

  /** A row of `bot_metrics`; a null decimal column is `None`. */
  datatype MetricRow = MetricRow(botId: string, timestamp: int, balanceUsd: Option<real>,
                                 totalPnl: Option<real>, totalPnlPct: Option<real>)

  /** `MetricPoint`. */
  datatype MetricPoint = MetricPoint(timestamp: int, balanceUsd: real, totalPnl: real, totalPnlPct: real)

  const HourMs: int := 60 * 60 * 1000
  const DayMs: int := 24 * HourMs
  const HistoryLimit: nat := 1000

  /** The length of a history window; `all` and unknown names have none. */
  function WindowMs(timeframe: string): (r: Option<int>)
    ensures r.Some? <==> timeframe in ["1h", "4h", "1d", "7d", "30d"]
    ensures r.Some? ==> r.value > 0
  {
    match timeframe
    case "1h" => Some(HourMs)
    case "4h" => Some(4 * HourMs)
    case "1d" => Some(DayMs)
    case "7d" => Some(7 * DayMs)
    case "30d" => Some(30 * DayMs)
    case _ => None
  }

  /** The `startDate` of `getHistoricalMetrics`: the epoch for `all` and anything unknown. */
  function WindowStart(timeframe: string, now: int): (r: int)
    ensures WindowMs(timeframe).None? ==> r == 0
    ensures WindowMs(timeframe).Some? ==> r < now
  {
    match WindowMs(timeframe)
    case None => 0
    case Some(ms) => now - ms
  }

  /** The named windows nest: each starts no later than the next shorter one. */
  lemma WindowsNest(now: int)
    ensures WindowStart("30d", now) < WindowStart("7d", now) < WindowStart("1d", now)
      < WindowStart("4h", now) < WindowStart("1h", now) < now
    ensures WindowStart("1h", now) == now - 3600000
    ensures WindowStart("all", now) == 0 && WindowStart("2h", now) == 0
  {
  }

  predicate Selected(row: MetricRow, botId: string, start: int) {
    row.botId == botId && row.timestamp >= start
  }

  predicate NewestFirst(rows: seq<MetricRow>) {
    forall i, j :: 0 <= i < j < |rows| ==> rows[i].timestamp >= rows[j].timestamp
  }

  predicate PointsNewestFirst(ps: seq<MetricPoint>) {
    forall i, j :: 0 <= i < j < |ps| ==> ps[i].timestamp >= ps[j].timestamp
  }

  /** The `where` of the history query, keeping the table's order. */
  function Select(rows: seq<MetricRow>, botId: string, start: int): (r: seq<MetricRow>)
    ensures |r| <= |rows|
    ensures forall x :: x in r <==> x in rows && Selected(x, botId, start)
    ensures NewestFirst(rows) ==> NewestFirst(r)
  {
    if rows == [] then []
    else
      var rest := Select(rows[1..], botId, start);
      SelectKeepsOrder(rows, rest, Selected(rows[0], botId, start));
      (if Selected(rows[0], botId, start) then [rows[0]] else []) + rest
  }

  /** One step of `Select` keeps newest-first order: the head, when kept, is at
      least as new as every row selected from the tail. */
  lemma SelectKeepsOrder(rows: seq<MetricRow>, rest: seq<MetricRow>, keep: bool)
    requires rows != []
    requires forall x :: x in rest ==> x in rows[1..]
    requires NewestFirst(rows[1..]) ==> NewestFirst(rest)
    ensures NewestFirst(rows) ==> NewestFirst((if keep then [rows[0]] else []) + rest)
  {
    if NewestFirst(rows) {
      NewestFirstTail(rows);
      if keep {
        NewestFirstCons(rows[0], rest);
      } else {
        assert [] + rest == rest;
      }
    }
  }

  /** The tail of a newest-first history is newest-first and no newer than its head. */
  lemma NewestFirstTail(rows: seq<MetricRow>)
    requires rows != [] && NewestFirst(rows)
    ensures NewestFirst(rows[1..])
    ensures forall x :: x in rows[1..] ==> rows[0].timestamp >= x.timestamp
  {
    forall i, j | 0 <= i < j < |rows[1..]|
      ensures rows[1..][i].timestamp >= rows[1..][j].timestamp
    {
      assert rows[1..][i] == rows[i + 1] && rows[1..][j] == rows[j + 1];
    }
    forall x | x in rows[1..]
      ensures rows[0].timestamp >= x.timestamp
    {
      var k :| 0 <= k < |rows[1..]| && rows[1..][k] == x;
      assert rows[k + 1] == x;
    }
  }

  /** A row at least as new as every row of a newest-first history can go in front. */
  lemma NewestFirstCons(x: MetricRow, rest: seq<MetricRow>)
    requires NewestFirst(rest)
    requires forall y :: y in rest ==> x.timestamp >= y.timestamp
    ensures NewestFirst([x] + rest)
  {
    var r := [x] + rest;
    forall i, j | 0 <= i < j < |r|
      ensures r[i].timestamp >= r[j].timestamp
    {
      assert r[j] == rest[j - 1] && rest[j - 1] in rest;
      if i > 0 {
        assert r[i] == rest[i - 1];
      }
    }
  }

  /** The mapping of `getHistoricalMetrics`: a null decimal reads as 0. */
  function ToPoint(row: MetricRow): (p: MetricPoint)
    ensures p.timestamp == row.timestamp
    ensures row.balanceUsd.None? ==> p.balanceUsd == 0.0
    ensures row.balanceUsd.Some? ==> p.balanceUsd == row.balanceUsd.value
    ensures row.totalPnl.None? ==> p.totalPnl == 0.0
    ensures row.totalPnl.Some? ==> p.totalPnl == row.totalPnl.value
    ensures row.totalPnlPct.None? ==> p.totalPnlPct == 0.0
    ensures row.totalPnlPct.Some? ==> p.totalPnlPct == row.totalPnlPct.value
  {
    MetricPoint(row.timestamp, row.balanceUsd.GetOr(0.0), row.totalPnl.GetOr(0.0), row.totalPnlPct.GetOr(0.0))
  }

  function ToPoints(rows: seq<MetricRow>): (ps: seq<MetricPoint>)
    ensures |ps| == |rows| && forall i :: 0 <= i < |rows| ==> ps[i] == ToPoint(rows[i])
  {
    if rows == [] then [] else [ToPoint(rows[0])] + ToPoints(rows[1..])
  }

  /** `getHistoricalMetrics(botId, timeframe)` over the table as ordered newest first. */
  function History(ordered: seq<MetricRow>, botId: string, timeframe: string, now: int): (r: seq<MetricPoint>)
    ensures |r| <= HistoryLimit
    ensures |r| == if |Select(ordered, botId, WindowStart(timeframe, now))| < HistoryLimit
                   then |Select(ordered, botId, WindowStart(timeframe, now))| else HistoryLimit
    ensures forall i :: 0 <= i < |r| ==> r[i].timestamp >= WindowStart(timeframe, now)
    ensures NewestFirst(ordered) ==> PointsNewestFirst(r)
    ensures forall i :: 0 <= i < |r| ==> r[i] == ToPoint(Select(ordered, botId, WindowStart(timeframe, now))[i])
  {
    var selected := Select(ordered, botId, WindowStart(timeframe, now));
    var kept := if |selected| <= HistoryLimit then selected else selected[..HistoryLimit];
    assert forall i :: 0 <= i < |kept| ==> kept[i] in selected;
    ToPoints(kept)
  }

  /** The `period` of `PnLData`, and the four amounts. */
  datatype PnLData = PnLData(total: real, totalPct: real, realized: real, unrealized: real, start: int, end: int)

  function RowBalance(row: MetricRow): real {
    row.balanceUsd.GetOr(0.0)
  }

  /** `calculatePnL` over the period's rows, oldest first; `start` is now minus the
      period. */
  function PnL(ascending: seq<MetricRow>, start: int, now: int): (r: PnLData)
    ensures ascending == [] ==> r == PnLData(0.0, 0.0, 0.0, 0.0, start, now)
    ensures r.realized == r.total && r.unrealized == 0.0
    ensures ascending != [] ==>
      var first := RowBalance(ascending[0]);
      && r.total == StepSum(Balances(ascending))
      && (first > 0.0 ==> r.totalPct * first == r.total * 100.0)
      && (first <= 0.0 ==> r.totalPct == 0.0)
      && r.start == ascending[0].timestamp && r.end == ascending[|ascending| - 1].timestamp
  {
    if ascending == [] then PnLData(0.0, 0.0, 0.0, 0.0, start, now)
    else
      var initial := RowBalance(ascending[0]);
      var final := RowBalance(ascending[|ascending| - 1]);
      var total := final - initial;
      var pct := if initial > 0.0 then total / initial * 100.0 else 0.0;
      StepSumTelescopes(Balances(ascending));
      PnLData(total, pct, total, 0.0, ascending[0].timestamp, ascending[|ascending| - 1].timestamp)
  }

  /** The `startDate` of `calculatePnL`: whole days before now. */
  function PnLStart(periodDays: int, now: int): (r: int)
    ensures periodDays >= 0 ==> r <= now
  {
    now - periodDays * DayMs
  }

  function Balances(rows: seq<MetricRow>): (bs: seq<real>)
    ensures |bs| == |rows| && forall i :: 0 <= i < |rows| ==> bs[i] == RowBalance(rows[i])
  {
    if rows == [] then [] else [RowBalance(rows[0])] + Balances(rows[1..])
  }

  /** The sum of the changes from each balance to the next. */
  function StepSum(bs: seq<real>): real {
    if |bs| < 2 then 0.0 else StepSum(bs[..|bs| - 1]) + (bs[|bs| - 1] - bs[|bs| - 2])
  }

  /** The change over a period is the sum of its steps: the total of `calculatePnL`
      is the sum of every change between consecutive samples. */
  lemma {:induction false} StepSumTelescopes(bs: seq<real>)
    requires bs != []
    ensures StepSum(bs) == bs[|bs| - 1] - bs[0]
  {
    if |bs| >= 2 {
      StepSumTelescopes(bs[..|bs| - 1]);
    }
  }

  /** The returns of consecutive samples, counted only after a positive balance. */
  function Returns(bs: seq<real>): (r: seq<real>)
    ensures |bs| >= 1 ==> |r| <= |bs| - 1
    ensures |bs| < 2 ==> r == []
  {
    if |bs| < 2 then []
    else
      var prev := bs[|bs| - 2];
      Returns(bs[..|bs| - 1]) + (if prev > 0.0 then [(bs[|bs| - 1] - prev) / prev] else [])
  }

  /** With every balance but the last positive, every step gives a return; with none
      positive, there are no returns. */
  lemma {:induction false} ReturnsCount(bs: seq<real>)
    requires |bs| >= 1
    ensures (forall i :: 0 <= i < |bs| - 1 ==> bs[i] > 0.0) ==> |Returns(bs)| == |bs| - 1
    ensures (forall i :: 0 <= i < |bs| - 1 ==> bs[i] <= 0.0) ==> Returns(bs) == []
  {
    if |bs| >= 2 {
      ReturnsCount(bs[..|bs| - 1]);
    }
  }

  /** The returns loop of `calculateRiskMetrics`. */
  method ComputeReturns(bs: seq<real>) returns (rs: seq<real>)
    ensures rs == Returns(bs)
  {
    rs := [];
    if |bs| < 2 {
      return;
    }
    var i := 1;
    while i < |bs|
      invariant 1 <= i <= |bs|
      invariant rs == Returns(bs[..i])
    {
      var prev := bs[i - 1];
      var curr := bs[i];
      if prev > 0.0 {
        rs := rs + [(curr - prev) / prev];
      }
      assert bs[..i + 1][..i] == bs[..i];
      i := i + 1;
    }
    assert bs[..i] == bs;
  }

  function Max(a: real, b: real): real {
    if a >= b then a else b
  }

  /** The running peak after the last sample. */
  function Peak(bs: seq<real>): (r: real)
    requires bs != []
    ensures forall i :: 0 <= i < |bs| ==> r >= bs[i]
    ensures r in bs
  {
    if |bs| == 1 then bs[0] else Max(Peak(bs[..|bs| - 1]), bs[|bs| - 1])
  }

  /** The drawdown in percent of the peak, 0 when the peak is not positive. */
  function DrawdownPct(peak: real, b: real): real {
    if peak > 0.0 then (peak - b) / peak * 100.0 else 0.0
  }

  /** The largest fall below the running peak, 0 when there is none. */
  function MaxDrawdown(bs: seq<real>): (r: real)
    ensures r >= 0.0
  {
    if bs == [] then 0.0
    else Max(MaxDrawdown(bs[..|bs| - 1]), Peak(bs) - bs[|bs| - 1])
  }

  /** The largest fall in percent of the running peak, 0 when there is none. */
  function MaxDrawdownPct(bs: seq<real>): (r: real)
    ensures r >= 0.0
  {
    if bs == [] then 0.0
    else Max(MaxDrawdownPct(bs[..|bs| - 1]), DrawdownPct(Peak(bs), bs[|bs| - 1]))
  }

  /** The maxima bound every sample's fall below the peak reached by then. */
  lemma {:induction false} DrawdownBounds(bs: seq<real>, k: nat)
    requires 1 <= k <= |bs|
    ensures MaxDrawdown(bs) >= Peak(bs[..k]) - bs[k - 1]
    ensures MaxDrawdownPct(bs) >= DrawdownPct(Peak(bs[..k]), bs[k - 1])
  {
    if k < |bs| {
      var prefix := bs[..|bs| - 1];
      assert prefix[..k] == bs[..k];
      DrawdownBounds(prefix, k);
    } else {
      assert bs[..k] == bs;
    }
  }

  /** The drawdown scan of `calculateRiskMetrics`: `peak` starts below every balance,
      and the two maxima start at 0. */
  method Drawdown(bs: seq<real>) returns (maxDrawdown: real, maxDrawdownPct: real)
    ensures maxDrawdown == MaxDrawdown(bs) && maxDrawdownPct == MaxDrawdownPct(bs)
  {
    var peak: Option<real> := None;
    maxDrawdown, maxDrawdownPct := 0.0, 0.0;
    var i := 0;
    while i < |bs|
      invariant 0 <= i <= |bs|
      invariant i == 0 <==> peak.None?
      invariant i > 0 ==> peak == Some(Peak(bs[..i]))
      invariant maxDrawdown == MaxDrawdown(bs[..i]) && maxDrawdownPct == MaxDrawdownPct(bs[..i])
    {
      var b := bs[i];
      ghost var seen := bs[..i + 1];
      assert seen[..i] == bs[..i] && seen[i] == b && |seen| == i + 1;
      if peak.None? || b > peak.value {
        peak := Some(b);
      }
      assert peak.value == Peak(seen);
      var dd := peak.value - b;
      var ddPct := if peak.value > 0.0 then dd / peak.value * 100.0 else 0.0;
      if dd > maxDrawdown {
        maxDrawdown := dd;
      }
      if ddPct > maxDrawdownPct {
        maxDrawdownPct := ddPct;
      }
      assert maxDrawdown == MaxDrawdown(seen);
      assert maxDrawdownPct == MaxDrawdownPct(seen);
      i := i + 1;
    }
    assert bs[..i] == bs;
  }

  /** A balance that never falls below its running peak, that is a series that only
      rises, has no drawdown. */
  lemma {:induction false} RisingHasNoDrawdown(bs: seq<real>)
    requires forall i, j :: 0 <= i < j < |bs| ==> bs[i] <= bs[j]
    ensures MaxDrawdown(bs) == 0.0 && MaxDrawdownPct(bs) == 0.0
  {
    if bs != [] {
      RisingHasNoDrawdown(bs[..|bs| - 1]);
      assert Peak(bs) == bs[|bs| - 1];
    }
  }

  /** `RiskMetrics` without the Sharpe ratio. */
  datatype Risk = Risk(maxDrawdown: real, maxDrawdownPct: real, winRate: real, totalTrades: nat, rs: seq<real>)

  /** The figures of `calculateRiskMetrics` for balances in the order given; with
      fewer than two samples everything is 0 and the trades are not counted. */
  function RiskOf(bs: seq<real>, totalTrades: nat): (r: Risk)
    ensures |bs| < 2 ==> r == Risk(0.0, 0.0, 0.0, 0, [])
    ensures |bs| >= 2 ==> r.totalTrades == totalTrades && r.maxDrawdown >= 0.0 && r.maxDrawdownPct >= 0.0
    ensures |bs| >= 2 ==> (r.winRate == 50.0 <==> totalTrades > 0) && (r.winRate == 0.0 <==> totalTrades == 0)
  {
    if |bs| < 2 then Risk(0.0, 0.0, 0.0, 0, [])
    else Risk(MaxDrawdown(bs), MaxDrawdownPct(bs), if totalTrades > 0 then 50.0 else 0.0, totalTrades, Returns(bs))
  }

  function PointBalances(ps: seq<MetricPoint>): (bs: seq<real>)
    ensures |bs| == |ps| && forall i :: 0 <= i < |ps| ==> bs[i] == ps[i].balanceUsd
  {
    if ps == [] then [] else [ps[0].balanceUsd] + PointBalances(ps[1..])
  }

  /** The balances of a newest-first history, put back in time order. */
  function Chronological(ps: seq<MetricPoint>): (bs: seq<real>)
    ensures |bs| == |ps| && forall i :: 0 <= i < |ps| ==> bs[i] == ps[|ps| - 1 - i].balanceUsd
  {
    if ps == [] then [] else Chronological(ps[1..]) + [ps[0].balanceUsd]
  }

  /** `calculateRiskMetrics` as written: the history comes newest first and is
      scanned in that order. */
  function RiskAsWritten(points: seq<MetricPoint>, totalTrades: nat): (r: Risk)
    ensures |points| < 2 ==> r == Risk(0.0, 0.0, 0.0, 0, [])
  {
    RiskOf(PointBalances(points), totalTrades)
  }

  /** Scanned newest first, an account that grew from 100 to 200 shows a drawdown of
      100, half of its peak. */
  lemma GrowthReadAsDrawdown()
    ensures var points := [MetricPoint(2, 200.0, 0.0, 0.0), MetricPoint(1, 100.0, 0.0, 0.0)];
      RiskAsWritten(points, 0).maxDrawdown == 100.0 && RiskAsWritten(points, 0).maxDrawdownPct == 50.0
  {
    var bs := [200.0, 100.0];
    assert PointBalances([MetricPoint(2, 200.0, 0.0, 0.0), MetricPoint(1, 100.0, 0.0, 0.0)]) == bs;
    assert bs[..1] == [200.0] && [200.0][..0] == [];
    assert Peak([200.0]) == 200.0;
    assert MaxDrawdown([200.0]) == 0.0 && MaxDrawdownPct([200.0]) == 0.0;
    assert Peak(bs) == 200.0;
    assert DrawdownPct(200.0, 100.0) == 50.0;
  }

  /** `calculateRiskMetrics` with the history put back in time order before the
      scans; `points` is the newest-first history, `totalTrades` the trades count. */
  method CalculateRiskMetrics(points: seq<MetricPoint>, totalTrades: nat) returns (r: Risk)
    ensures r == RiskOf(Chronological(points), totalTrades)
  {
    if |points| < 2 {
      return Risk(0.0, 0.0, 0.0, 0, []);
    }
    var chronological := Chronological(points);
    var rs := ComputeReturns(chronological);
    var maxDrawdown, maxDrawdownPct := Drawdown(chronological);
    var winRate := if totalTrades > 0 then 50.0 else 0.0;
    r := Risk(maxDrawdown, maxDrawdownPct, winRate, totalTrades, rs);
  }

  /** A newest-first history whose balance only rose, put in time order, never falls. */
  lemma ChronologicalRises(points: seq<MetricPoint>)
    requires forall i, j :: 0 <= i < j < |points| ==> points[i].balanceUsd >= points[j].balanceUsd
    ensures var bs := Chronological(points); forall i, j :: 0 <= i < j < |bs| ==> bs[i] <= bs[j]
  {
    var bs := Chronological(points);
    var n := |points|;
    forall i, j | 0 <= i < j < |bs| ensures bs[i] <= bs[j] {
      var a, b := n - 1 - j, n - 1 - i;
      assert 0 <= a < b < n;
      assert bs[i] == points[b].balanceUsd && bs[j] == points[a].balanceUsd;
    }
  }

  /** In time order, a history whose balance only rose has no drawdown. */
  lemma RisingHistoryHasNoDrawdown(points: seq<MetricPoint>, totalTrades: nat)
    requires |points| >= 2 && PointsNewestFirst(points)
    requires forall i, j :: 0 <= i < j < |points| ==> points[i].balanceUsd >= points[j].balanceUsd
    ensures RiskOf(Chronological(points), totalTrades).maxDrawdown == 0.0
    ensures RiskOf(Chronological(points), totalTrades).maxDrawdownPct == 0.0
  {
    var bs := Chronological(points);
    ChronologicalRises(points);
    RisingHasNoDrawdown(bs);
    assert RiskOf(bs, totalTrades).maxDrawdown == MaxDrawdown(bs);
    assert RiskOf(bs, totalTrades).maxDrawdownPct == MaxDrawdownPct(bs);
  }

  /** One entry of an exchange account. */
  datatype Balance = Balance(currency: string, total: real)

  /** A connected exchange and its balances; `None` when there are no stored
      credentials, no account info, or the fetch threw. */
  datatype Account = Account(exchange: string, balances: Option<seq<Balance>>)

  /** The three bot columns the portfolio reads. */
  datatype BotRow = BotRow(id: string, strategyType: string, status: string)

  datatype Portfolio = Portfolio(totalBalance: real, totalPnl: real, totalPnlPct: real,
                                 botsCount: nat, activeBotsCount: nat,
                                 byExchange: map<string, real>, byStrategy: map<string, real>)

  predicate Stablecoin(currency: string) {
    ToUpper(currency) in ["USDT", "USDC", "DAI", "BUSD"]
  }

  /** One balance in USD: skipped unless positive; stablecoins at 1; otherwise at the
      USDT ticker price, or not at all when there is no (non-zero) price. */
  function ValueOf(b: Balance, price: Option<real>): (r: real)
    ensures b.total <= 0.0 ==> r == 0.0
    ensures b.total > 0.0 && Stablecoin(b.currency) ==> r == b.total
    ensures b.total > 0.0 && !Stablecoin(b.currency) && (price.None? || price == Some(0.0)) ==> r == 0.0
  {
    if b.total <= 0.0 then 0.0
    else if Stablecoin(b.currency) then b.total
    else if price.Some? && price.value != 0.0 then b.total * price.value
    else 0.0
  }

  /** `{currency}-USDT`, the pair priced for a balance. */
  function Pair(currency: string): string {
    currency + "-USDT"
  }

  function ExchangeTotal(exchange: string, bs: seq<Balance>, priceOf: (string, string) -> Option<real>): real {
    if bs == [] then 0.0
    else
      var b := bs[|bs| - 1];
      ExchangeTotal(exchange, bs[..|bs| - 1], priceOf) + ValueOf(b, priceOf(exchange, Pair(b.currency)))
  }

  /** Only positive balances count: an account of stablecoins is worth the sum of
      its positive entries. */
  lemma {:induction false} StablecoinAccount(exchange: string, bs: seq<Balance>, priceOf: (string, string) -> Option<real>)
    requires forall i :: 0 <= i < |bs| ==> Stablecoin(bs[i].currency)
    ensures ExchangeTotal(exchange, bs, priceOf) == PositiveSum(bs)
  {
    if bs != [] {
      StablecoinAccount(exchange, bs[..|bs| - 1], priceOf);
    }
  }

  function PositiveSum(bs: seq<Balance>): real {
    if bs == [] then 0.0
    else PositiveSum(bs[..|bs| - 1]) + (if bs[|bs| - 1].total > 0.0 then bs[|bs| - 1].total else 0.0)
  }

  /** The balances loop for one exchange. */
  method ExchangeValue(exchange: string, bs: seq<Balance>, priceOf: (string, string) -> Option<real>)
    returns (exchangeTotalUsd: real)
    ensures exchangeTotalUsd == ExchangeTotal(exchange, bs, priceOf)
  {
    exchangeTotalUsd := 0.0;
    var i := 0;
    while i < |bs|
      invariant 0 <= i <= |bs|
      invariant exchangeTotalUsd == ExchangeTotal(exchange, bs[..i], priceOf)
    {
      var balance := bs[i];
      assert bs[..i + 1][..i] == bs[..i];
      if balance.total <= 0.0 {
        i := i + 1;
        continue;
      }
      if Stablecoin(balance.currency) {
        exchangeTotalUsd := exchangeTotalUsd + balance.total;
      } else {
        var price := priceOf(exchange, Pair(balance.currency));
        if price.Some? && price.value != 0.0 {
          exchangeTotalUsd := exchangeTotalUsd + balance.total * price.value;
        }
      }
      i := i + 1;
    }
    assert bs[..i] == bs;
  }

  function AccountsTotal(accounts: seq<Account>, priceOf: (string, string) -> Option<real>): real {
    if accounts == [] then 0.0
    else
      var a := accounts[|accounts| - 1];
      AccountsTotal(accounts[..|accounts| - 1], priceOf)
        + (if a.balances.Some? then ExchangeTotal(a.exchange, a.balances.value, priceOf) else 0.0)
  }

  function Reached(accounts: seq<Account>): (r: set<string>)
    ensures forall e :: e in r <==> exists i :: 0 <= i < |accounts| && accounts[i].exchange == e && accounts[i].balances.Some?
  {
    set i | 0 <= i < |accounts| && accounts[i].balances.Some? :: accounts[i].exchange
  }

  /** The value recorded under exchange `e`: that of the last reachable account of
      that name, if any. */
  function ExchangeEntry(accounts: seq<Account>, priceOf: (string, string) -> Option<real>, e: string): Option<real> {
    if accounts == [] then None
    else
      var a := accounts[|accounts| - 1];
      if a.exchange == e && a.balances.Some? then Some(ExchangeTotal(e, a.balances.value, priceOf))
      else ExchangeEntry(accounts[..|accounts| - 1], priceOf, e)
  }

  /** What one more account adds to the totals of step 1. */
  lemma AccountStep(accounts: seq<Account>, i: nat, priceOf: (string, string) -> Option<real>)
    requires i < |accounts|
    ensures var a := accounts[i];
      AccountsTotal(accounts[..i + 1], priceOf)
        == AccountsTotal(accounts[..i], priceOf) + (if a.balances.Some? then ExchangeTotal(a.exchange, a.balances.value, priceOf) else 0.0)
    ensures Reached(accounts[..i + 1]) == Reached(accounts[..i]) + (if accounts[i].balances.Some? then {accounts[i].exchange} else {})
    ensures forall e ::
      ExchangeEntry(accounts[..i + 1], priceOf, e)
        == if accounts[i].exchange == e && accounts[i].balances.Some?
           then Some(ExchangeTotal(e, accounts[i].balances.value, priceOf))
           else ExchangeEntry(accounts[..i], priceOf, e)
  {
    var seen := accounts[..i + 1];
    assert seen[..i] == accounts[..i] && seen[i] == accounts[i];
  }

  function RunningCount(bots: seq<BotRow>): (n: nat)
    ensures n <= |bots|
  {
    if bots == [] then 0
    else RunningCount(bots[..|bots| - 1]) + (if bots[|bots| - 1].status == "running" then 1 else 0)
  }

  /** A bot's latest profit, 0 when it has none. */
  function PnlOf(m: Option<LatestMetrics>): real {
    if m.Some? then m.value.totalPnl.GetOr(0.0) else 0.0
  }

  function PnlTotal(bots: seq<BotRow>, latestOf: string -> Option<LatestMetrics>): real {
    if bots == [] then 0.0
    else PnlTotal(bots[..|bots| - 1], latestOf) + PnlOf(latestOf(bots[|bots| - 1].id))
  }

  function Strategies(bots: seq<BotRow>): (r: set<string>)
    ensures forall s :: s in r <==> exists i :: 0 <= i < |bots| && bots[i].strategyType == s
  {
    set i | 0 <= i < |bots| :: bots[i].strategyType
  }

  /** What a bot adds to its strategy's entry: its latest balance, 0 when it has none. */
  function Share(m: Option<LatestMetrics>): real {
    if m.Some? then m.value.balanceUsd.GetOr(0.0) else 0.0
  }

  /** The latest balances of the bots that run strategy `s`, summed. */
  function StrategyShare(bots: seq<BotRow>, latestOf: string -> Option<LatestMetrics>, s: string): real {
    if bots == [] then 0.0
    else
      var b := bots[|bots| - 1];
      StrategyShare(bots[..|bots| - 1], latestOf, s) + (if b.strategyType == s then Share(latestOf(b.id)) else 0.0)
  }

  /** A strategy no bot runs has nothing to its name. */
  lemma {:induction false} NoStrategyNoShare(bots: seq<BotRow>, latestOf: string -> Option<LatestMetrics>, s: string)
    requires forall i :: 0 <= i < |bots| ==> bots[i].strategyType != s
    ensures StrategyShare(bots, latestOf, s) == 0.0
  {
    if bots != [] {
      var prefix := bots[..|bots| - 1];
      assert forall i :: 0 <= i < |prefix| ==> prefix[i] == bots[i];
      NoStrategyNoShare(prefix, latestOf, s);
    }
  }

  /** What one more bot adds to the tallies of step 2. */
  lemma BotStep(bots: seq<BotRow>, j: nat, latestOf: string -> Option<LatestMetrics>)
    requires j < |bots|
    ensures PnlTotal(bots[..j + 1], latestOf) == PnlTotal(bots[..j], latestOf) + PnlOf(latestOf(bots[j].id))
    ensures RunningCount(bots[..j + 1]) == RunningCount(bots[..j]) + (if bots[j].status == "running" then 1 else 0)
  {
    var seen := bots[..j + 1];
    assert seen[..j] == bots[..j] && seen[j] == bots[j];
  }

  /** What one more bot adds to the strategies and their shares. */
  lemma ShareStep(bots: seq<BotRow>, j: nat, latestOf: string -> Option<LatestMetrics>)
    requires j < |bots|
    ensures Strategies(bots[..j + 1]) == Strategies(bots[..j]) + {bots[j].strategyType}
    ensures forall s ::
      StrategyShare(bots[..j + 1], latestOf, s)
        == StrategyShare(bots[..j], latestOf, s) + (if bots[j].strategyType == s then Share(latestOf(bots[j].id)) else 0.0)
  {
    var seen := bots[..j + 1];
    assert seen[..j] == bots[..j] && seen[j] == bots[j];
  }

  /** Step 1 of `getPortfolioValue`: each connected exchange whose balances could be
      read is valued, recorded under its name and added to the total. */
  method SumAccounts(accounts: seq<Account>, priceOf: (string, string) -> Option<real>)
    returns (totalBalance: real, byExchange: map<string, real>)
    ensures totalBalance == AccountsTotal(accounts, priceOf)
    ensures byExchange.Keys == Reached(accounts)
    ensures forall e :: e in byExchange ==> ExchangeEntry(accounts, priceOf, e) == Some(byExchange[e])
  {
    totalBalance := 0.0;
    byExchange := map[];
    var i := 0;
    while i < |accounts|
      invariant 0 <= i <= |accounts|
      invariant totalBalance == AccountsTotal(accounts[..i], priceOf)
      invariant byExchange.Keys == Reached(accounts[..i])
      invariant forall e :: e in byExchange ==> ExchangeEntry(accounts[..i], priceOf, e) == Some(byExchange[e])
    {
      var a := accounts[i];
      AccountStep(accounts, i, priceOf);
      if a.balances.Some? {
        var v := ExchangeValue(a.exchange, a.balances.value, priceOf);
        byExchange := byExchange[a.exchange := v];
        totalBalance := totalBalance + v;
      }
      i := i + 1;
    }
    assert accounts[..i] == accounts;
  }

  /** One bot's step of the per-strategy tally: its strategy's entry gains its
      balance, and every entry stays the strategy's share of the bots seen. */
  lemma StrategyStep(bots: seq<BotRow>, j: nat, latestOf: string -> Option<LatestMetrics>,
                     byStrategy: map<string, real>, before: real, updated: map<string, real>)
    requires j < |bots|
    requires byStrategy.Keys == Strategies(bots[..j])
    requires forall s :: s in byStrategy ==> byStrategy[s] == StrategyShare(bots[..j], latestOf, s)
    requires before == StrategyShare(bots[..j], latestOf, bots[j].strategyType)
    requires updated == byStrategy[bots[j].strategyType := before + Share(latestOf(bots[j].id))]
    ensures updated.Keys == Strategies(bots[..j + 1])
    ensures forall s :: s in updated ==> updated[s] == StrategyShare(bots[..j + 1], latestOf, s)
  {
    ShareStep(bots, j, latestOf);
  }

  /** Step 2 of `getPortfolioValue`: the bots' profit, the running ones, and each
      strategy's share of the latest balances. */
  method TallyBots(bots: seq<BotRow>, latestOf: string -> Option<LatestMetrics>)
    returns (totalPnl: real, activeBotsCount: nat, byStrategy: map<string, real>)
    ensures totalPnl == PnlTotal(bots, latestOf)
    ensures activeBotsCount == RunningCount(bots)
    ensures byStrategy.Keys == Strategies(bots)
    ensures forall s :: s in byStrategy ==> byStrategy[s] == StrategyShare(bots, latestOf, s)
  {
    totalPnl, activeBotsCount, byStrategy := 0.0, 0, map[];
    var j := 0;
    while j < |bots|
      invariant 0 <= j <= |bots|
      invariant totalPnl == PnlTotal(bots[..j], latestOf)
      invariant activeBotsCount == RunningCount(bots[..j])
      invariant byStrategy.Keys == Strategies(bots[..j])
      invariant forall s :: s in byStrategy ==> byStrategy[s] == StrategyShare(bots[..j], latestOf, s)
    {
      var bot := bots[j];
      BotStep(bots, j, latestOf);
      var metrics := latestOf(bot.id);
      if metrics.Some? && metrics.value.totalPnl.Some? {
        totalPnl := totalPnl + metrics.value.totalPnl.value;
      }
      if bot.status == "running" {
        activeBotsCount := activeBotsCount + 1;
      }
      var share := if metrics.Some? then metrics.value.balanceUsd.GetOr(0.0) else 0.0;
      var before := 0.0;
      if bot.strategyType in byStrategy {
        before := byStrategy[bot.strategyType];
      } else {
        assert forall i :: 0 <= i < j ==> bots[..j][i].strategyType != bot.strategyType;
        NoStrategyNoShare(bots[..j], latestOf, bot.strategyType);
      }
      assert share == Share(latestOf(bot.id));
      ghost var seen := byStrategy;
      byStrategy := byStrategy[bot.strategyType := before + share];
      StrategyStep(bots, j, latestOf, seen, before, byStrategy);
      j := j + 1;
    }
    assert bots[..j] == bots;
  }

  /** `getPortfolioValue(org)`: `bots` are the organisation's bots, `accounts` its
      connected exchanges, `latestOf` the latest metrics of a bot and `priceOf` the
      ticker answer of an exchange for a pair. */
  method GetPortfolioValue(bots: seq<BotRow>, latestOf: string -> Option<LatestMetrics>,
                           accounts: seq<Account>, priceOf: (string, string) -> Option<real>)
    returns (r: Portfolio)
    ensures r.totalBalance == AccountsTotal(accounts, priceOf)
    ensures r.byExchange.Keys == Reached(accounts)
    ensures r.totalPnl == PnlTotal(bots, latestOf)
    ensures r.botsCount == |bots| && r.activeBotsCount == RunningCount(bots)
    ensures r.byStrategy.Keys == Strategies(bots)
    ensures forall e :: e in r.byExchange ==> ExchangeEntry(accounts, priceOf, e) == Some(r.byExchange[e])
    ensures forall s :: s in r.byStrategy ==> r.byStrategy[s] == StrategyShare(bots, latestOf, s)
    ensures r.totalBalance <= 0.0 ==> r.totalPnlPct == 0.0
    ensures r.totalBalance > 0.0 ==> r.totalPnlPct * r.totalBalance == r.totalPnl * 100.0
  {
    var totalBalance, byExchange := SumAccounts(accounts, priceOf);
    var totalPnl, activeBotsCount, byStrategy := TallyBots(bots, latestOf);
    var totalPnlPct := if totalBalance > 0.0 then totalPnl / totalBalance * 100.0 else 0.0;
    r := Portfolio(totalBalance, totalPnl, totalPnlPct, |bots|, activeBotsCount, byExchange, byStrategy);
  }
}
