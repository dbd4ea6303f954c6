/** Trade analytics of one user: totals and per-coin volumes, trade
    statistics, the daily profit/loss chart and the report on one coin.
    Every report reads the user's completed trades; dates are whole days
    counted from the epoch, and "today" is the parameter `today`. */
module Analytics {
  import opened Common
  import opened Ledger
  import opened Store
  import opened Grouping


  /** `Trade.find({ user, status: 'completed' })`, in store order. */
  function CompletedOf(ts: seq<Trade>, me: UserId): (r: seq<Trade>)
    ensures |r| <= |ts|
    ensures forall k :: 0 <= k < |r| ==> r[k] in ts && r[k].user == me && r[k].status == Completed
    ensures forall t {:trigger t in r} :: t in r <==> t in ts && t.user == me && t.status == Completed
  {
    if ts == [] then []
    else
      var t := ts[|ts| - 1];
      assert ts == ts[..|ts| - 1] + [t];
      CompletedOf(ts[..|ts| - 1], me) + (if t.user == me && t.status == Completed then [t] else [])
  }

  function TradeCoin(t: Trade): string {
    t.coinId
  }

  // ---------------------------------------------------------------------
  // Totals

  /** Number of trades on one side. */
  function Count(ts: seq<Trade>, side: Side): (n: nat)
    ensures n <= |ts|
  {
    if ts == [] then 0 else Count(ts[..|ts| - 1], side) + (if ts[|ts| - 1].side == side then 1 else 0)
  }

  /** The count is the number of positions holding a trade of that side. */
  lemma {:induction false} CountIndices(ts: seq<Trade>, side: Side)
    ensures Count(ts, side) == |set k | 0 <= k < |ts| && ts[k].side == side|
  {
    if ts != [] {
      var n := |ts| - 1;
      var init := ts[..n];
      CountIndices(init, side);
      var before := set k | 0 <= k < |init| && init[k].side == side;
      var after := set k | 0 <= k < |ts| && ts[k].side == side;
      if ts[n].side == side {
        assert after == before + {n};
        assert n !in before;
      } else {
        assert after == before;
      }
    }
  }

  /** Sum of the totals of the trades on one side. */
  function Volume(ts: seq<Trade>, side: Side): real {
    if ts == [] then 0.0 else Volume(ts[..|ts| - 1], side) + (if ts[|ts| - 1].side == side then ts[|ts| - 1].total else 0.0)
  }

  /** Sum of the quantities of the trades on one side. */
  function Quantity(ts: seq<Trade>, side: Side): real {
    if ts == [] then 0.0 else Quantity(ts[..|ts| - 1], side) + (if ts[|ts| - 1].side == side then ts[|ts| - 1].quantity else 0.0)
  }

  /** Sum of all totals. */
  function TotalValue(ts: seq<Trade>): real {
    if ts == [] then 0.0 else TotalValue(ts[..|ts| - 1]) + ts[|ts| - 1].total
  }

  /** Every trade is a buy or a sell, so the two counts add up to the
      number of trades and the two volumes to the total value. */
  lemma {:induction false} SidesSplit(ts: seq<Trade>)
    ensures Count(ts, Buy) + Count(ts, Sell) == |ts|
    ensures Volume(ts, Buy) + Volume(ts, Sell) == TotalValue(ts)
  {
    if ts != [] {
      SidesSplit(ts[..|ts| - 1]);
    }
  }

  /** `totalInvested > 0 ? profitLoss / totalInvested * 100 : 0`. */
  function Percent(profitLoss: real, invested: real): (r: real)
    ensures invested <= 0.0 ==> r == 0.0
    ensures invested > 0.0 ==> r * invested == profitLoss * 100.0
  {
    if invested > 0.0 then profitLoss / invested * 100.0 else 0.0
  }

  // ---------------------------------------------------------------------
  // Per-coin tallies

  /** What the per-coin dictionaries accumulate for one coin. */
  datatype CoinStats = CoinStats(coinSymbol: string, count: nat, buyVolume: real, sellVolume: real)

  /** The tally of the trades of one coin; the symbol is the first trade's. */
  function Tally(g: seq<Trade>): CoinStats {
    CoinStats(if g == [] then "" else g[0].coinSymbol, |g|, Volume(g, Buy), Volume(g, Sell))
  }

  /** `coins` lists the coins in order of first appearance and `stats`
      holds the tally of each. */
  ghost predicate Tallied(ts: seq<Trade>, coins: seq<CoinId>, stats: map<CoinId, CoinStats>) {
    && coins == FirstAppearance(Keys(ts, TradeCoin))
    && (forall c :: c in stats <==> c in coins)
    && (forall c :: c in stats ==> stats[c] == Tally(Having(ts, TradeCoin, c)))
  }

  /** The entry created the first time a coin is seen. */
  function Fresh(t: Trade): CoinStats {
    CoinStats(t.coinSymbol, 0, 0.0, 0.0)
  }

  /** What one trade adds to its coin's entry. */
  function Step(s: CoinStats, t: Trade): CoinStats {
    s.(count := s.count + 1,
       buyVolume := s.buyVolume + (if t.side == Buy then t.total else 0.0),
       sellVolume := s.sellVolume + (if t.side == Buy then 0.0 else t.total))
  }

  /** The `coinPerformance` / `coinCounts` loop: an entry is created the
      first time a coin is seen, then the trade is added to it. */
  method CoinTally(ts: seq<Trade>) returns (coins: seq<CoinId>, stats: map<CoinId, CoinStats>)
    ensures Tallied(ts, coins, stats)
  {
    coins, stats := [], map[];
    for i := 0 to |ts|
      invariant Tallied(ts[..i], coins, stats)
    {
      var t := ts[i];
      TakeOneMore(ts, i);
      TalliedSnoc(ts[..i], t, coins, stats);
      var entry := Fresh(t);
      if t.coinId in stats {
        entry := stats[t.coinId];
      } else {
        coins := coins + [t.coinId];
      }
      stats := stats[t.coinId := Step(entry, t)];
    }
    assert ts[..|ts|] == ts;
  }

  /** One more trade extends a coin's tally by one step. */
  lemma TallySnoc(g: seq<Trade>, t: Trade)
    ensures Tally(g + [t]) == Step(if g == [] then Fresh(t) else Tally(g), t)
  {
    var h := g + [t];
    assert h[..|g|] == g;
    assert h[0] == if g == [] then t else g[0];
    assert Volume(h, Buy) == Volume(g, Buy) + (if t.side == Buy then t.total else 0.0);
    assert Volume(h, Sell) == Volume(g, Sell) + (if t.side == Sell then t.total else 0.0);
  }

  /** One more trade extends the tallies as the loop body does. */
  lemma TalliedSnoc(ts: seq<Trade>, t: Trade, coins: seq<CoinId>, stats: map<CoinId, CoinStats>)
    requires Tallied(ts, coins, stats)
    ensures var c := t.coinId;
      Tallied(ts + [t], if c in stats then coins else coins + [c],
              stats[c := Step(if c in stats then stats[c] else Fresh(t), t)])
  {
    var c := t.coinId;
    OrderSnoc(ts, t, TradeCoin, coins);
    var coins' := if c in stats then coins else coins + [c];
    var stats' := stats[c := Step(if c in stats then stats[c] else Fresh(t), t)];
    forall d | d in stats' ensures stats'[d] == Tally(Having(ts + [t], TradeCoin, d)) {
      TalliedEntry(ts, t, coins, stats, d);
    }
    TalliedIntro(ts + [t], coins', stats');
  }

  lemma TalliedIntro(ts: seq<Trade>, coins: seq<CoinId>, stats: map<CoinId, CoinStats>)
    requires coins == FirstAppearance(Keys(ts, TradeCoin))
    requires forall c :: c in stats <==> c in coins
    requires forall c :: c in stats ==> stats[c] == Tally(Having(ts, TradeCoin, c))
    ensures Tallied(ts, coins, stats)
  {
  }

  /** The entry of one coin after one more trade. */
  lemma TalliedEntry(ts: seq<Trade>, t: Trade, coins: seq<CoinId>, stats: map<CoinId, CoinStats>, d: CoinId)
    requires Tallied(ts, coins, stats)
    requires d in stats || d == t.coinId
    ensures var c := t.coinId;
      stats[c := Step(if c in stats then stats[c] else Fresh(t), t)][d] == Tally(Having(ts + [t], TradeCoin, d))
  {
    HavingSnoc(ts, t, TradeCoin, d);
    if d == t.coinId {
      TalliedAt(ts, t, coins, stats);
    }
  }

  lemma TalliedAt(ts: seq<Trade>, t: Trade, coins: seq<CoinId>, stats: map<CoinId, CoinStats>)
    requires Tallied(ts, coins, stats)
    ensures Step(if t.coinId in stats then stats[t.coinId] else Fresh(t), t) == Tally(Having(ts, TradeCoin, t.coinId) + [t])
  {
    var c := t.coinId;
    var g := Having(ts, TradeCoin, c);
    FirstAppearanceMembers(Keys(ts, TradeCoin));
    if c !in stats {
      HavingAbsent(ts, TradeCoin, c);
    } else if g == [] {
      KeyHasItems(ts, TradeCoin, c);
    }
    TallySnoc(g, t);
  }

  /** Sum of a coin column over the given coins. */
  function CoinSum(ts: seq<Trade>, cs: seq<CoinId>, side: Side): real {
    if cs == [] then 0.0 else CoinSum(ts, cs[..|cs| - 1], side) + Volume(Having(ts, TradeCoin, cs[|cs| - 1]), side)
  }

  /** The per-coin volumes of a side add up to that side's total volume:
      each trade lands in exactly one coin's entry. */
  lemma {:induction false} CoinSumPartition(ts: seq<Trade>, side: Side)
    ensures CoinSum(ts, FirstAppearance(Keys(ts, TradeCoin)), side) == Volume(ts, side)
  {
    if ts != [] {
      CoinSumPartition(ts[..|ts| - 1], side);
      PartitionStep(ts, side);
    }
  }

  /** One more trade adds its volume both to the side's total and to the sum over the coins. */
  lemma PartitionStep(ts: seq<Trade>, side: Side)
    requires ts != []
    ensures var init, t := ts[..|ts| - 1], ts[|ts| - 1];
      var delta := if t.side == side then t.total else 0.0;
      && Volume(ts, side) == Volume(init, side) + delta
      && CoinSum(ts, FirstAppearance(Keys(ts, TradeCoin)), side) == CoinSum(init, FirstAppearance(Keys(init, TradeCoin)), side) + delta
  {
    var init := ts[..|ts| - 1];
    var t := ts[|ts| - 1];
    assert init + [t] == ts;
    var cs := FirstAppearance(Keys(init, TradeCoin));
    OrderSnoc(init, t, TradeCoin, cs);
    if t.coinId in cs {
      SumGrowsOld(ts, cs, side);
    } else {
      SumGrowsNew(ts, cs, side);
    }
  }

  /** A trade of a coin already seen adds its volume to the sum over the same coins. */
  lemma SumGrowsOld(ts: seq<Trade>, cs: seq<CoinId>, side: Side)
    requires ts != [] && cs == FirstAppearance(Keys(ts[..|ts| - 1], TradeCoin)) && ts[|ts| - 1].coinId in cs
    ensures var t := ts[|ts| - 1];
      CoinSum(ts, cs, side) == CoinSum(ts[..|ts| - 1], cs, side) + (if t.side == side then t.total else 0.0)
  {
    FirstAppearanceDistinct(Keys(ts[..|ts| - 1], TradeCoin));
    var p :| 0 <= p < |cs| && cs[p] == ts[|ts| - 1].coinId;
    CoinSumGrowAt(ts, cs, p, side);
  }

  /** A trade of a new coin adds that coin, whose only trade it is. */
  lemma SumGrowsNew(ts: seq<Trade>, cs: seq<CoinId>, side: Side)
    requires ts != [] && cs == FirstAppearance(Keys(ts[..|ts| - 1], TradeCoin)) && ts[|ts| - 1].coinId !in cs
    ensures var t := ts[|ts| - 1];
      CoinSum(ts, cs + [t.coinId], side) == CoinSum(ts[..|ts| - 1], cs, side) + (if t.side == side then t.total else 0.0)
  {
    var init := ts[..|ts| - 1];
    var t := ts[|ts| - 1];
    var k := t.coinId;
    assert (cs + [k])[..|cs|] == cs;
    CoinSumUnchanged(ts, cs, side);
    FirstAppearanceMembers(Keys(init, TradeCoin));
    HavingAbsent(init, TradeCoin, k);
    assert Having(ts, TradeCoin, k) == [t];
    assert [t][..0] == [];
    assert Volume([t], side) == if t.side == side then t.total else 0.0;
    assert CoinSum(ts, cs + [k], side) == CoinSum(ts, cs, side) + Volume([t], side);
  }

  /** Appending a trade of coin `cs[p]` adds its volume to that coin only. */
  lemma {:induction false} CoinSumGrowAt(ts: seq<Trade>, cs: seq<CoinId>, p: nat, side: Side)
    requires ts != [] && Distinct(cs) && p < |cs| && cs[p] == ts[|ts| - 1].coinId
    ensures var t := ts[|ts| - 1];
      CoinSum(ts, cs, side) == CoinSum(ts[..|ts| - 1], cs, side) + (if t.side == side then t.total else 0.0)
  {
    var init := cs[..|cs| - 1];
    var g := Having(ts[..|ts| - 1], TradeCoin, cs[p]);
    if p == |cs| - 1 {
      assert forall j :: 0 <= j < |init| ==> init[j] != cs[p];
      CoinSumUnchanged(ts, init, side);
      assert Having(ts, TradeCoin, cs[p]) == g + [ts[|ts| - 1]];
      assert (g + [ts[|ts| - 1]])[..|g|] == g;
    } else {
      assert Distinct(init) && init[p] == cs[p];
      CoinSumGrowAt(ts, init, p, side);
      assert cs[|cs| - 1] != cs[p];
    }
  }

  /** Appending a trade of a coin outside `cs` leaves their sum alone. */
  lemma {:induction false} CoinSumUnchanged(ts: seq<Trade>, cs: seq<CoinId>, side: Side)
    requires ts != [] && forall j :: 0 <= j < |cs| ==> cs[j] != ts[|ts| - 1].coinId
    ensures CoinSum(ts, cs, side) == CoinSum(ts[..|ts| - 1], cs, side)
  {
    if cs != [] {
      CoinSumUnchanged(ts, cs[..|cs| - 1], side);
    }
  }

  // ---------------------------------------------------------------------
  // Performance metrics

  /** One element of `coinPerformance`. */
  datatype CoinRow = CoinRow(coinId: CoinId, coinSymbol: string, buyVolume: real, sellVolume: real, profitLoss: real)

  datatype Metrics = Metrics(
    totalTrades: nat, buyTrades: nat, sellTrades: nat,
    totalInvested: real, totalReturned: real, profitLoss: real, profitLossPercentage: real,
    coinPerformance: seq<CoinRow>)

  function BuyColumn(rows: seq<CoinRow>): real {
    if rows == [] then 0.0 else BuyColumn(rows[..|rows| - 1]) + rows[|rows| - 1].buyVolume
  }

  /** `getPerformanceMetrics`. */
  method GetPerformanceMetrics(db: Database, me: UserId) returns (m: Metrics)
    ensures var ts := CompletedOf(db.trades, me);
      && m.totalTrades == |ts| && m.buyTrades == Count(ts, Buy) && m.sellTrades == Count(ts, Sell)
      && m.totalInvested == Volume(ts, Buy) && m.totalReturned == Volume(ts, Sell)
    ensures m.buyTrades + m.sellTrades == m.totalTrades
    ensures m.profitLoss == m.totalReturned - m.totalInvested
    ensures m.profitLossPercentage == Percent(m.profitLoss, m.totalInvested)
    ensures var ts := CompletedOf(db.trades, me);
      && |m.coinPerformance| == |FirstAppearance(Keys(ts, TradeCoin))|
      && forall k :: 0 <= k < |m.coinPerformance| ==>
           var c := FirstAppearance(Keys(ts, TradeCoin))[k];
           m.coinPerformance[k] == RowOf(c, Tally(Having(ts, TradeCoin, c)))
    ensures BuyColumn(m.coinPerformance) == m.totalInvested
  {
    var ts := CompletedOf(db.trades, me);
    var buys := 0;
    var sells := 0;
    var invested := 0.0;
    var returned := 0.0;
    for i := 0 to |ts|
      invariant buys == Count(ts[..i], Buy) && sells == Count(ts[..i], Sell)
      invariant invested == Volume(ts[..i], Buy) && returned == Volume(ts[..i], Sell)
    {
      assert ts[..i + 1][..i] == ts[..i];
      if ts[i].side == Buy {
        buys := buys + 1;
        invested := invested + ts[i].total;
      } else {
        sells := sells + 1;
        returned := returned + ts[i].total;
      }
    }
    assert ts[..|ts|] == ts;
    SidesSplit(ts);
    var coins, stats := CoinTally(ts);
    var rows := CoinRows(ts, coins, stats);
    CoinSumPartition(ts, Buy);
    var pl := returned - invested;
    m := Metrics(|ts|, buys, sells, invested, returned, pl, Percent(pl, invested), rows);
  }

  /** The `coinPerformance` element of a coin: its symbol, its buy and
      sell volumes and their difference. */
  function RowOf(c: CoinId, s: CoinStats): (r: CoinRow)
    ensures r.coinId == c && r.profitLoss == r.sellVolume - r.buyVolume
    ensures r.buyVolume == s.buyVolume && r.sellVolume == s.sellVolume && r.coinSymbol == s.coinSymbol
  {
    CoinRow(c, s.coinSymbol, s.buyVolume, s.sellVolume, s.sellVolume - s.buyVolume)
  }

  /** `Object.values(coinPerformance)`: the entries in order of first appearance. */
  method CoinRows(ts: seq<Trade>, coins: seq<CoinId>, stats: map<CoinId, CoinStats>) returns (rows: seq<CoinRow>)
    requires Tallied(ts, coins, stats)
    ensures |rows| == |coins|
    ensures forall j :: 0 <= j < |coins| ==> rows[j] == RowOf(coins[j], Tally(Having(ts, TradeCoin, coins[j])))
    ensures BuyColumn(rows) == CoinSum(ts, coins, Buy)
  {
    rows := [];
    for k := 0 to |coins|
      invariant RowsUpTo(rows, coins, stats, k)
    {
      assert coins[k] in stats;
      RowsStep(rows, coins, stats, k);
      rows := rows + [RowOf(coins[k], stats[coins[k]])];
    }
    RowsAreTallies(ts, coins, stats, rows);
  }

  /** The rows of the first `k` coins, read off their entries. */
  ghost predicate RowsUpTo(rows: seq<CoinRow>, coins: seq<CoinId>, stats: map<CoinId, CoinStats>, k: nat) {
    && k <= |coins| && |rows| == k
    && forall j :: 0 <= j < k ==> coins[j] in stats && rows[j] == RowOf(coins[j], stats[coins[j]])
  }

  lemma RowsStep(rows: seq<CoinRow>, coins: seq<CoinId>, stats: map<CoinId, CoinStats>, k: nat)
    requires RowsUpTo(rows, coins, stats, k) && k < |coins| && coins[k] in stats
    ensures RowsUpTo(rows + [RowOf(coins[k], stats[coins[k]])], coins, stats, k + 1)
  {
  }

  /** Rows read off the tallies are the rows of the coins' trades, and
      their buy column adds up to the coins' buy volume. */
  lemma {:induction false} RowsAreTallies(ts: seq<Trade>, coins: seq<CoinId>, stats: map<CoinId, CoinStats>, rows: seq<CoinRow>)
    requires forall c :: c in stats ==> stats[c] == Tally(Having(ts, TradeCoin, c))
    requires RowsUpTo(rows, coins, stats, |coins|)
    ensures forall j :: 0 <= j < |coins| ==> rows[j] == RowOf(coins[j], Tally(Having(ts, TradeCoin, coins[j])))
    ensures BuyColumn(rows) == CoinSum(ts, coins, Buy)
  {
    if coins != [] {
      var n := |coins| - 1;
      RowsAreTallies(ts, coins[..n], stats, rows[..n]);
      assert stats[coins[n]] == Tally(Having(ts, TradeCoin, coins[n]));
    }
  }

  // ---------------------------------------------------------------------
  // Trade statistics

  datatype Statistics = Statistics(
    tradeCount: nat, averageTradeSize: real,
    tradesPerDay: real, tradesPerWeek: real, tradesPerMonth: real,
    mostTradedCoin: Option<(CoinId, CoinStats)>)

  /** Earliest and latest creation stamps. */
  function FirstStamp(ts: seq<Trade>): (r: int)
    requires ts != []
    ensures forall k :: 0 <= k < |ts| ==> r <= ts[k].createdAt
    ensures exists k :: 0 <= k < |ts| && r == ts[k].createdAt
  {
    if |ts| == 1 then ts[0].createdAt
    else
      var init := FirstStamp(ts[..|ts| - 1]);
      if ts[|ts| - 1].createdAt < init then ts[|ts| - 1].createdAt else init
  }

  function LastStamp(ts: seq<Trade>): (r: int)
    requires ts != []
    ensures forall k :: 0 <= k < |ts| ==> ts[k].createdAt <= r
    ensures exists k :: 0 <= k < |ts| && r == ts[k].createdAt
  {
    if |ts| == 1 then ts[0].createdAt
    else
      var init := LastStamp(ts[..|ts| - 1]);
      if ts[|ts| - 1].createdAt > init then ts[|ts| - 1].createdAt else init
  }

  /** `(last - first) / (1000 * 60 * 60 * 24)` over the trades sorted by
      date, whose first and last are the earliest and latest. */
  function SpanDays(ts: seq<Trade>): (r: real)
    requires ts != []
    ensures r >= 0.0
  {
    (LastStamp(ts) - FirstStamp(ts)) as real / DayMs as real
  }

  /** `timeSpanDays > 0 ? tradeCount / timeSpanDays : tradeCount`. */
  function PerDay(count: nat, span: real): real {
    if span > 0.0 then count as real / span else count as real
  }

  /** `getTradeStatistics`. The first coin of `Object.values(coinCounts)`
      after a stable sort by count, descending, is the first coin in order
      of appearance whose count is the largest. */
  method GetTradeStatistics(db: Database, me: UserId) returns (s: Statistics)
    ensures var ts := CompletedOf(db.trades, me);
      && s.tradeCount == |ts|
      && s.averageTradeSize == (if |ts| > 0 then TotalValue(ts) / |ts| as real else 0.0)
    ensures s.tradeCount < 2 ==> s.tradesPerDay == 0.0 && s.tradesPerWeek == 0.0 && s.tradesPerMonth == 0.0 && s.mostTradedCoin.None?
    ensures s.tradesPerWeek == 7.0 * s.tradesPerDay && s.tradesPerMonth == 30.0 * s.tradesPerDay
    ensures var ts := CompletedOf(db.trades, me);
      s.tradeCount >= 2 ==> s.tradesPerDay == PerDay(|ts|, SpanDays(ts))
    ensures s.tradeCount >= 2 ==>
      s.mostTradedCoin.Some? && MostTradedOf(CompletedOf(db.trades, me), s.mostTradedCoin.value.0, s.mostTradedCoin.value.1)
  {
    var ts := CompletedOf(db.trades, me);
    var n := |ts|;
    var average := AverageSize(ts);
    if n < 2 {
      return Statistics(n, average, 0.0, 0.0, 0.0, None);
    }
    var perDay := Frequency(ts);
    var best, tally := Leader(ts);
    return Statistics(n, average, perDay, perDay * 7.0, perDay * 30.0, Some((best, tally)));
  }

  /** `tradesPerDay` of at least two trades. */
  method Frequency(ts: seq<Trade>) returns (perDay: real)
    requires ts != []
    ensures perDay == PerDay(|ts|, SpanDays(ts))
  {
    var first, last := StampRange(ts);
    var span := (last - first) as real / DayMs as real;
    perDay := PerDay(|ts|, span);
  }

  /** `mostTradedCoin` of a non-empty list of trades. */
  method Leader(ts: seq<Trade>) returns (best: CoinId, tally: CoinStats)
    requires ts != []
    ensures MostTradedOf(ts, best, tally)
  {
    var coins, stats := CoinTally(ts);
    assert coins != [] by {
      assert Keys(ts, TradeCoin)[0] == ts[0].coinId;
    }
    best := MostTraded(coins, stats);
    LeaderByGroups(ts, coins, stats, best);
    tally := stats[best];
  }

  /** `averageTradeSize`: the mean total, 0 without trades. */
  method AverageSize(ts: seq<Trade>) returns (average: real)
    ensures average == if |ts| > 0 then TotalValue(ts) / |ts| as real else 0.0
  {
    var totalValue := 0.0;
    for i := 0 to |ts|
      invariant totalValue == TotalValue(ts[..i])
    {
      assert ts[..i + 1][..i] == ts[..i];
      totalValue := totalValue + ts[i].total;
    }
    assert ts[..|ts|] == ts;
    average := if |ts| > 0 then totalValue / |ts| as real else 0.0;
  }

  /** The earliest and the latest stamp, as the first and last trade after
      sorting by date. */
  method StampRange(ts: seq<Trade>) returns (first: int, last: int)
    requires ts != []
    ensures first == FirstStamp(ts) && last == LastStamp(ts)
  {
    first, last := ts[0].createdAt, ts[0].createdAt;
    assert ts[..1] == [ts[0]];
    for i := 1 to |ts|
      invariant first == FirstStamp(ts[..i]) && last == LastStamp(ts[..i])
    {
      StampStep(ts, i);
      if ts[i].createdAt < first {
        first := ts[i].createdAt;
      }
      if ts[i].createdAt > last {
        last := ts[i].createdAt;
      }
    }
    assert ts[..|ts|] == ts;
  }

  lemma StampStep(ts: seq<Trade>, i: nat)
    requires 1 <= i < |ts|
    ensures var f, l, t := FirstStamp(ts[..i]), LastStamp(ts[..i]), ts[i].createdAt;
      && FirstStamp(ts[..i + 1]) == (if t < f then t else f)
      && LastStamp(ts[..i + 1]) == (if t > l then t else l)
  {
    assert ts[..i + 1][..i] == ts[..i];
  }

  /** `best` has the largest count, and no coin before it has as many. */
  predicate Leads(coins: seq<CoinId>, stats: map<CoinId, CoinStats>, best: CoinId)
    requires forall j :: 0 <= j < |coins| ==> coins[j] in stats
  {
    && best in coins
    && (forall j :: 0 <= j < |coins| ==> stats[coins[j]].count <= stats[best].count)
    && (forall j :: 0 <= j < |coins| && coins[j] != best && stats[coins[j]].count == stats[best].count ==>
          exists i :: 0 <= i < j && coins[i] == best)
  }

  /** `Object.values(coinCounts).sort((a, b) => b.count - a.count)[0]`: the
      sort is stable, so the first entry with the largest count comes first. */
  method MostTraded(coins: seq<CoinId>, stats: map<CoinId, CoinStats>) returns (best: CoinId)
    requires coins != [] && forall j :: 0 <= j < |coins| ==> coins[j] in stats
    ensures Leads(coins, stats, best)
  {
    best := coins[0];
    for k := 1 to |coins|
      invariant best in coins[..k]
      invariant forall j :: 0 <= j < k ==> stats[coins[j]].count <= stats[best].count
      invariant forall j :: 0 <= j < k && coins[j] != best && stats[coins[j]].count == stats[best].count ==>
        exists i :: 0 <= i < j && coins[i] == best
    {
      if stats[coins[k]].count > stats[best].count {
        best := coins[k];
        assert coins[k] == coins[..k + 1][k];
      } else {
        assert coins[..k] <= coins[..k + 1];
      }
    }
    assert coins[..|coins|] == coins;
  }

  /** `c` is, of the coins in order of first appearance, the first with
      the most trades, and `st` is its tally. */
  ghost predicate MostTradedOf(ts: seq<Trade>, c: CoinId, st: CoinStats) {
    var coins := FirstAppearance(Keys(ts, TradeCoin));
    && c in coins && st == Tally(Having(ts, TradeCoin, c))
    && (forall j :: 0 <= j < |coins| ==> |Having(ts, TradeCoin, coins[j])| <= st.count)
    && (forall j :: 0 <= j < |coins| && coins[j] != c && |Having(ts, TradeCoin, coins[j])| == st.count ==>
          exists i :: 0 <= i < j && coins[i] == c)
  }

  /** In terms of the trades: the leading coin has the most trades. */
  lemma LeaderByGroups(ts: seq<Trade>, coins: seq<CoinId>, stats: map<CoinId, CoinStats>, best: CoinId)
    requires Tallied(ts, coins, stats) && Leads(coins, stats, best)
    ensures best in stats && MostTradedOf(ts, best, stats[best])
  {
    forall j | 0 <= j < |coins| ensures |Having(ts, TradeCoin, coins[j])| == stats[coins[j]].count {
      assert coins[j] in stats;
    }
  }

  // ---------------------------------------------------------------------
  // Profit/loss chart

  /** `parseInt(req.query.days, 10) || 30`: a missing or zero value means 30. */
  function ChartDays(days: Option<int>): int {
    if days.None? || days.value == 0 then 30 else days.value
  }

  /** The day a stamp falls on. */
  function DayOf(t: Trade): int {
    t.createdAt / DayMs
  }

  /** What a trade adds to its day: a buy subtracts its total, anything else adds it. */
  function Signed(t: Trade): real {
    if t.side == Buy then -t.total else t.total
  }

  /** The net of the trades made on day `d`. */
  function DayNet(ts: seq<Trade>, d: int): real {
    if ts == [] then 0.0 else DayNet(ts[..|ts| - 1], d) + (if DayOf(ts[|ts| - 1]) == d then Signed(ts[|ts| - 1]) else 0.0)
  }

  /** The net of all trades. */
  function Net(ts: seq<Trade>): real {
    if ts == [] then 0.0 else Net(ts[..|ts| - 1]) + Signed(ts[|ts| - 1])
  }

  /** The trades made on days `lo` to `lo + n - 1`. */
  function Between(ts: seq<Trade>, lo: int, n: nat): (r: seq<Trade>)
    ensures |r| <= |ts|
  {
    if ts == [] then []
    else Between(ts[..|ts| - 1], lo, n) + (if lo <= DayOf(ts[|ts| - 1]) < lo + n then [ts[|ts| - 1]] else [])
  }

  /** The user's completed trades made on day `start` or later. */
  function Window(ts: seq<Trade>, me: UserId, start: int): (r: seq<Trade>)
    ensures |r| <= |ts|
    ensures forall k :: 0 <= k < |r| ==> r[k].user == me && r[k].status == Completed && DayOf(r[k]) >= start
    ensures forall t {:trigger t in r} :: t in r <==> t in ts && t.user == me && t.status == Completed && DayOf(t) >= start
  {
    if ts == [] then []
    else
      var t := ts[|ts| - 1];
      assert ts == ts[..|ts| - 1] + [t];
      Window(ts[..|ts| - 1], me, start) + (if t.user == me && t.status == Completed && DayOf(t) >= start then [t] else [])
  }

  datatype ChartPoint = ChartPoint(day: int, profitLoss: real, cumulativeProfitLoss: real)

  /** The sum of the points' own values. */
  function PlSum(points: seq<ChartPoint>): real {
    if points == [] then 0.0 else PlSum(points[..|points| - 1]) + points[|points| - 1].profitLoss
  }

  /** Each point's running total is the sum of the values up to and including it. */
  predicate Running(points: seq<ChartPoint>) {
    forall k :: 0 <= k < |points| ==> points[k].cumulativeProfitLoss == PlSum(points[..k + 1])
  }

  /** `count` points for the days from `start` on, in order, each with that
      day's net of `ts` and the running total; the last running total is
      the net of the trades made on those days. */
  ghost predicate Charted(points: seq<ChartPoint>, ts: seq<Trade>, start: int, count: nat) {
    && |points| == count && Running(points)
    && (forall k :: 0 <= k < count ==> points[k].day == start + k && points[k].profitLoss == DayNet(ts, start + k))
    && (count > 0 ==> points[count - 1].cumulativeProfitLoss == Net(Between(ts, start, count)))
  }

  /** `getProfitLossChart`: one point per day from `today - days` to
      `today`, in order, each with that day's net and the running total. */
  method GetProfitLossChart(db: Database, me: UserId, daysParam: Option<int>, today: int) returns (points: seq<ChartPoint>)
    ensures var start := today - ChartDays(daysParam);
      points == Chart(Window(db.trades, me, start), start, ChartLength(ChartDays(daysParam)))
  {
    var days := ChartDays(daysParam);
    var start := today - days;
    var ts := Window(db.trades, me, start);
    var count := ChartLength(days);
    var dateMap := DailyNets(ts, start, count);
    points := Cumulate(ts, start, count, dateMap);
  }

  /** The number of days from `today - days` to `today`, none when `days` is negative. */
  function ChartLength(days: int): nat {
    if days >= 0 then days + 1 else 0
  }

  /** `dateMap`: a zero for each of the `count` days from `start`, then each
      trade added to its day. */
  method DailyNets(ts: seq<Trade>, start: int, count: nat) returns (dateMap: map<int, real>)
    ensures forall d :: d in dateMap <==> start <= d < start + count
    ensures forall d :: d in dateMap ==> dateMap[d] == DayNet(ts, d)
  {
    dateMap := map[];
    for i := 0 to count
      invariant forall d :: d in dateMap <==> start <= d < start + i
      invariant forall d :: d in dateMap ==> dateMap[d] == 0.0
    {
      dateMap := dateMap[start + i := 0.0];
    }
    assert ts[..0] == [];
    for i := 0 to |ts|
      invariant forall d :: d in dateMap <==> start <= d < start + count
      invariant forall d :: d in dateMap ==> dateMap[d] == DayNet(ts[..i], d)
    {
      assert ts[..i + 1][..i] == ts[..i];
      var d := DayOf(ts[i]);
      if d in dateMap {
        dateMap := dateMap[d := dateMap[d] + Signed(ts[i])];
      }
    }
    assert ts[..|ts|] == ts;
  }

  /** `Object.entries(dateMap)` in insertion order, i.e. by day, each with
      the running total. */
  method Cumulate(ts: seq<Trade>, start: int, count: nat, dateMap: map<int, real>) returns (points: seq<ChartPoint>)
    requires forall d :: start <= d < start + count ==> d in dateMap && dateMap[d] == DayNet(ts, d)
    ensures points == Chart(ts, start, count)
  {
    points := [];
    var cumulative := 0.0;
    for k := 0 to count
      invariant points == Chart(ts, start, k) && cumulative == RangeNet(ts, start, k)
    {
      var pl := dateMap[start + k];
      cumulative := cumulative + pl;
      points := points + [ChartPoint(start + k, pl, cumulative)];
    }
  }

  /** The chart of the `count` days from `start`: each day with its net of
      `ts` and the sum of the nets up to and including it. */
  function Chart(ts: seq<Trade>, start: int, count: nat): (points: seq<ChartPoint>)
    ensures |points| == count
  {
    if count == 0 then []
    else Chart(ts, start, count - 1) + [ChartPoint(start + count - 1, DayNet(ts, start + count - 1), RangeNet(ts, start, count))]
  }

  /** The chart has one point per day in order, each with its day's net and
      the running total, and its last running total is the net of the
      trades made on the charted days. */
  lemma {:induction false} ChartShape(ts: seq<Trade>, start: int, count: nat)
    ensures Charted(Chart(ts, start, count), ts, start, count)
  {
    var points := Chart(ts, start, count);
    forall k | 0 <= k < count
      ensures points[k].day == start + k && points[k].profitLoss == DayNet(ts, start + k)
      ensures points[k].cumulativeProfitLoss == PlSum(points[..k + 1])
    {
      ChartAt(ts, start, count, k);
      ChartPrefix(ts, start, count, k + 1);
      ChartSum(ts, start, k + 1);
    }
    if count > 0 {
      ChartAt(ts, start, count, count - 1);
      RangeNetIsNet(ts, start, count);
    }
  }

  lemma {:induction false} ChartAt(ts: seq<Trade>, start: int, count: nat, k: nat)
    requires k < count
    ensures Chart(ts, start, count)[k].day == start + k
    ensures Chart(ts, start, count)[k].profitLoss == DayNet(ts, start + k)
    ensures Chart(ts, start, count)[k].cumulativeProfitLoss == RangeNet(ts, start, k + 1)
  {
    if k < count - 1 {
      ChartAt(ts, start, count - 1, k);
    }
  }

  lemma {:induction false} ChartPrefix(ts: seq<Trade>, start: int, count: nat, n: nat)
    requires n <= count
    ensures Chart(ts, start, count)[..n] == Chart(ts, start, n)
  {
    if n < count {
      ChartPrefix(ts, start, count - 1, n);
      var prev := Chart(ts, start, count - 1);
      assert Chart(ts, start, count)[..n] == prev[..n];
    }
  }

  lemma {:induction false} ChartSum(ts: seq<Trade>, start: int, n: nat)
    ensures PlSum(Chart(ts, start, n)) == RangeNet(ts, start, n)
  {
    if n > 0 {
      ChartSum(ts, start, n - 1);
      var prev := Chart(ts, start, n - 1);
      assert Chart(ts, start, n)[..n - 1] == prev;
    }
  }

  /** Sum of the daily nets of days `lo` to `lo + n - 1`. */
  function RangeNet(ts: seq<Trade>, lo: int, n: nat): real {
    if n == 0 then 0.0 else RangeNet(ts, lo, n - 1) + DayNet(ts, lo + n - 1)
  }

  /** One more trade changes the daily nets of a range by its own amount
      when its day is in the range, and not at all otherwise. */
  lemma {:induction false} RangeNetSnoc(ts: seq<Trade>, t: Trade, lo: int, n: nat)
    ensures RangeNet(ts + [t], lo, n) == RangeNet(ts, lo, n) + (if lo <= DayOf(t) < lo + n then Signed(t) else 0.0)
  {
    assert (ts + [t])[..|ts|] == ts;
    if n > 0 {
      RangeNetSnoc(ts, t, lo, n - 1);
    }
  }

  /** The running total of the last point is the net of the trades of the
      charted days: every such trade is counted on exactly one day. */
  lemma {:induction false} RangeNetIsNet(ts: seq<Trade>, lo: int, n: nat)
    ensures RangeNet(ts, lo, n) == Net(Between(ts, lo, n))
  {
    if ts == [] {
      RangeNetEmpty(lo, n);
    } else {
      var init := ts[..|ts| - 1];
      var t := ts[|ts| - 1];
      assert ts == init + [t];
      RangeNetIsNet(init, lo, n);
      RangeNetSnoc(init, t, lo, n);
      var b := Between(init, lo, n);
      if lo <= DayOf(t) < lo + n {
        assert Between(ts, lo, n) == b + [t];
        assert (b + [t])[..|b|] == b;
        assert Net(b + [t]) == Net(b) + Signed(t);
      } else {
        assert Between(ts, lo, n) == b;
      }
    }
  }

  lemma {:induction false} RangeNetEmpty(lo: int, n: nat)
    ensures RangeNet([], lo, n) == 0.0
  {
    if n > 0 {
      RangeNetEmpty(lo, n - 1);
    }
  }

  // ---------------------------------------------------------------------
  // Coin performance

  /** `NoTrades` is the 404 answer; `UserGone` is the error thrown when
      the requester's document is missing (`user.portfolio` of null). */
  datatype AnalyticsError = NoTrades | UserGone

  datatype CoinReport = CoinReport(
    coinId: CoinId, coinSymbol: string,
    totalTrades: nat, buyTrades: nat, sellTrades: nat,
    totalBought: real, totalBoughtValue: real, totalSold: real, totalSoldValue: real,
    avgBuyPrice: real, avgSellPrice: real, currentHolding: real, currentPrice: Option<real>,
    profitLoss: Option<real>, profitLossPercentage: real,
    unrealizedProfitLoss: Option<real>, unrealizedProfitLossPercentage: Option<real>,
    trades: seq<Trade>)

  /** `quantity > 0 ? value / quantity : 0`. */
  function AveragePrice(value: real, quantity: real): (r: real)
    ensures quantity <= 0.0 ==> r == 0.0
    ensures quantity > 0.0 ==> r * quantity == value
  {
    if quantity > 0.0 then value / quantity else 0.0
  }

  /** `avg > 0 ? (price - avg) / avg * 100 : 0`. */
  function Change(price: real, average: real): real {
    if average > 0.0 then (price - average) / average * 100.0 else 0.0
  }

  /** `totalSoldValue - (totalSold / totalBought) * totalBoughtValue`, which
      is not a number when nothing was bought. */
  function RealizedEstimate(sold: real, soldValue: real, bought: real, boughtValue: real): (r: Option<real>)
    ensures r.Some? <==> bought != 0.0
  {
    if bought != 0.0 then Some(soldValue - sold / bought * boughtValue) else None
  }

  /** The user's completed trades of one coin. */
  function CoinTrades(ts: seq<Trade>, me: UserId, coin: CoinId): (r: seq<Trade>)
    ensures |r| <= |ts|
    ensures forall k :: 0 <= k < |r| ==> r[k].user == me && r[k].status == Completed && r[k].coinId == coin
    ensures forall t {:trigger t in r} :: t in r <==> t in ts && t.user == me && t.status == Completed && t.coinId == coin
  {
    if ts == [] then []
    else
      var t := ts[|ts| - 1];
      assert ts == ts[..|ts| - 1] + [t];
      CoinTrades(ts[..|ts| - 1], me, coin) + (if t.user == me && t.status == Completed && t.coinId == coin then [t] else [])
  }

  /** The counts and the `forEach` sums over the buy and the sell trades, in one pass. */
  method SideTotals(ts: seq<Trade>) returns (buys: nat, sells: nat, bought: real, boughtValue: real, sold: real, soldValue: real)
    ensures buys == Count(ts, Buy) && sells == Count(ts, Sell)
    ensures bought == Quantity(ts, Buy) && boughtValue == Volume(ts, Buy)
    ensures sold == Quantity(ts, Sell) && soldValue == Volume(ts, Sell)
  {
    buys, sells := 0, 0;
    bought, boughtValue, sold, soldValue := 0.0, 0.0, 0.0, 0.0;
    for i := 0 to |ts|
      invariant buys == Count(ts[..i], Buy) && sells == Count(ts[..i], Sell)
      invariant bought == Quantity(ts[..i], Buy) && boughtValue == Volume(ts[..i], Buy)
      invariant sold == Quantity(ts[..i], Sell) && soldValue == Volume(ts[..i], Sell)
    {
      assert ts[..i + 1][..i] == ts[..i];
      var t := ts[i];
      if t.side == Buy {
        buys := buys + 1;
        bought := bought + t.quantity;
        boughtValue := boughtValue + t.total;
      } else {
        sells := sells + 1;
        sold := sold + t.quantity;
        soldValue := soldValue + t.total;
      }
    }
    assert ts[..|ts|] == ts;
  }

  /** `holding ? holding.currentPrice : 0`. The holding schema declares no
      `currentPrice`, so a stored holding has none: `None` stands for
      `undefined`. */
  function HoldingPrice(a: Account, coin: CoinId): (p: Option<real>)
    ensures p == Some(0.0) <==> Find(a.holdings, coin).None?
    ensures p.None? <==> Find(a.holdings, coin).Some?
  {
    if Find(a.holdings, coin).Some? then None else Some(0.0)
  }

  /** `holding * (price - avg)`; arithmetic on `undefined` gives NaN (`None`). */
  function Unrealized(holding: real, price: Option<real>, average: real): (r: Option<real>)
    ensures r.Some? <==> price.Some?
    ensures price == Some(average) ==> r == Some(0.0)
  {
    if price.Some? then
      var d := price.value - average;
      assert d == 0.0 ==> holding * d == 0.0;
      Some(holding * d)
    else None
  }

  /** `avg > 0 ? (price - avg) / avg * 100 : 0`, NaN (`None`) for an
      undefined price with a positive average. */
  function UnrealizedPercent(price: Option<real>, average: real): (r: Option<real>)
    ensures r.None? <==> price.None? && average > 0.0
    ensures average <= 0.0 ==> r == Some(0.0)
  {
    if price.Some? then Some(Change(price.value, average)) else if average > 0.0 then None else Some(0.0)
  }

  /** `getCoinPerformance`: the 404 comes before the requester's document
      is read for the holding's price. */
  method GetCoinPerformance(db: Database, me: UserId, coin: CoinId) returns (r: Result<CoinReport, AnalyticsError>)
    ensures var ts := CoinTrades(db.trades, me, coin);
      (r == Err(NoTrades) <==> ts == []) && (r == Err(UserGone) <==> ts != [] && me !in db.accounts)
    ensures r.Ok? <==> CoinTrades(db.trades, me, coin) != [] && me in db.accounts
    ensures r.Ok? ==>
      var ts := CoinTrades(db.trades, me, coin);
      var c := r.value;
      && c.coinId == coin && c.coinSymbol == ts[0].coinSymbol && c.trades == ts
      && c.totalTrades == |ts| && c.buyTrades == Count(ts, Buy) && c.sellTrades == Count(ts, Sell)
      && c.totalBought == Quantity(ts, Buy) && c.totalBoughtValue == Volume(ts, Buy)
      && c.totalSold == Quantity(ts, Sell) && c.totalSoldValue == Volume(ts, Sell)
      && c.avgBuyPrice == AveragePrice(c.totalBoughtValue, c.totalBought)
      && c.avgSellPrice == AveragePrice(c.totalSoldValue, c.totalSold)
      && c.currentHolding == c.totalBought - c.totalSold
      && c.profitLoss == RealizedEstimate(c.totalSold, c.totalSoldValue, c.totalBought, c.totalBoughtValue)
      && c.profitLossPercentage == Change(c.avgSellPrice, c.avgBuyPrice)
      && c.currentPrice == HoldingPrice(db.accounts[me], coin)
      && c.unrealizedProfitLoss == Unrealized(c.currentHolding, c.currentPrice, c.avgBuyPrice)
      && c.unrealizedProfitLossPercentage == UnrealizedPercent(c.currentPrice, c.avgBuyPrice)
  {
    var ts := CoinTrades(db.trades, me, coin);
    if ts == [] {
      return Err(NoTrades);
    }
    var buys, sells, bought, boughtValue, sold, soldValue := SideTotals(ts);
    var avgBuy := AveragePrice(boughtValue, bought);
    var avgSell := AveragePrice(soldValue, sold);
    var holding := bought - sold;
    if me !in db.accounts {
      return Err(UserGone);
    }
    var price := HoldingPrice(db.accounts[me], coin);
    return Ok(CoinReport(coin, ts[0].coinSymbol, |ts|, buys, sells, bought, boughtValue, sold, soldValue,
                         avgBuy, avgSell, holding, price,
                         RealizedEstimate(sold, soldValue, bought, boughtValue), Change(avgSell, avgBuy),
                         Unrealized(holding, price, avgBuy), UnrealizedPercent(price, avgBuy), ts));
  }

  /** When every buy of the coin was filled at price `p`, the reported
      average buy price is `p`. */
  lemma {:induction false} UniformBuysAverage(ts: seq<Trade>, p: real)
    requires forall k :: 0 <= k < |ts| && ts[k].side == Buy ==> ts[k].total == p * ts[k].quantity
    requires Quantity(ts, Buy) > 0.0
    ensures AveragePrice(Volume(ts, Buy), Quantity(ts, Buy)) == p
  {
    VolumeAtPrice(ts, p);
  }

  lemma {:induction false} VolumeAtPrice(ts: seq<Trade>, p: real)
    requires forall k :: 0 <= k < |ts| && ts[k].side == Buy ==> ts[k].total == p * ts[k].quantity
    ensures Volume(ts, Buy) == p * Quantity(ts, Buy)
  {
    if ts != [] {
      var init := ts[..|ts| - 1];
      var t := ts[|ts| - 1];
      assert forall k :: 0 <= k < |init| ==> init[k] == ts[k];
      VolumeAtPrice(init, p);
      if t.side == Buy {
        assert Quantity(ts, Buy) == Quantity(init, Buy) + t.quantity;
        assert p * Quantity(ts, Buy) == p * Quantity(init, Buy) + p * t.quantity;
      }
    }
  }
}
