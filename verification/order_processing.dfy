/** The background engine that fills pending limit and stop orders: every
    cycle it loads the pending orders, groups them by coin, looks up one
    price per coin and settles each triggered order against its owner's
    portfolio. Each order is settled on its own: the order document is
    marked completed or failed and, when filled, the portfolio and its
    history are updated and saved. */
module OrderProcessing {
  import opened Common
  import opened Ledger
  import opened Store
  import opened Grouping

  // ---------------------------------------------------------------------
  // One order

  /** What happens to one pending order at the current price. */
  datatype Outcome = Untouched | Rejected | Filled

  /** An order stays pending until its trigger fires; a triggered order
      fails when its owner is gone, or (a sell) when the owner no longer
      holds the quantity; otherwise it is filled. */
  function Decide(s: Records, o: Trade, p: real): (r: Outcome)
    ensures r.Untouched? <==> !Triggered(o.orderKind, o.side, p, o.limitPrice, o.stopPrice)
    ensures r.Filled? ==> o.user in s.accounts
    ensures r.Filled? && o.side == Sell ==> CanSell(s.accounts[o.user].holdings, o.coinId, o.quantity)
    ensures r.Rejected? <==>
      && Triggered(o.orderKind, o.side, p, o.limitPrice, o.stopPrice)
      && (o.user !in s.accounts || (o.side == Sell && !CanSell(s.accounts[o.user].holdings, o.coinId, o.quantity)))
  {
    if !Triggered(o.orderKind, o.side, p, o.limitPrice, o.stopPrice) then Untouched
    else if o.user !in s.accounts then Rejected
    else if o.side == Sell && !CanSell(s.accounts[o.user].holdings, o.coinId, o.quantity) then Rejected
    else Filled
  }

  /** The part of a limit buy's reservation given back at fill time: the
      reserved total minus the actual cost, when the cost is lower. Stop
      buys get nothing back (and pay nothing more). */
  function Refund(o: Trade, p: real): real {
    if o.orderKind == Limit && p * o.quantity < o.total then o.total - p * o.quantity else 0.0
  }

  /** The portfolio after filling the order at `p`: a sell is credited the
      proceeds as a market sell is; a buy, already paid for by its
      reservation, gets the refund and the coins at price `p`. */
  function OrderFill(a: Account, o: Trade, p: real): Account
    requires o.quantity > 0.0 && WellFormed(a.holdings)
    requires o.side == Sell ==> CanSell(a.holdings, o.coinId, o.quantity)
  {
    if o.side == Sell then MarketFill(a, o.coinId, o.coinSymbol, Sell, o.quantity, p)
    else a.(balance := a.balance + Refund(o, p), holdings := BuyInto(a.holdings, o.coinId, o.coinSymbol, o.quantity, p))
  }

  /** The order document once filled at `p`. */
  function Executed(o: Trade, p: real): Trade {
    o.(status := Completed, price := p, total := p * o.quantity)
  }

  /** The history entry of a fill; order fills carry no profit figures. */
  function FillEntry(o: Trade, p: real): (e: Entry)
    ensures e.tradeId == o.id && e.side == o.side && e.price == p && e.total == p * o.quantity
    ensures e.profitLoss.None? && e.profitLossPercentage.None?
  {
    Entry(o.id, o.coinId, o.coinSymbol, o.side, o.quantity, p, p * o.quantity, None, None)
  }

  /** The store after `processOrder(o, p)`. Processing rewrites documents
      in place: it never adds or removes a trade or a user, never hands out
      an id, touches no other document than the order's own and no other
      portfolio than its owner's, and keeps the store's invariants. */
  function ProcessedRecords(s: Records, o: Trade, p: real): (r: Records)
    requires ValidRecords(s) && o.quantity > 0.0
    ensures ValidRecords(r)
    ensures |r.trades| == |s.trades| && r.nextId == s.nextId
    ensures forall j :: 0 <= j < |s.trades| ==> r.trades[j].id == s.trades[j].id
    ensures forall j :: 0 <= j < |s.trades| && s.trades[j].id != o.id ==> r.trades[j] == s.trades[j]
    ensures r.accounts.Keys == s.accounts.Keys
    ensures forall u :: u in s.accounts && u != o.user ==> r.accounts[u] == s.accounts[u]
  {
    match Decide(s, o, p)
    case Untouched => s
    case Rejected =>
      ReplaceKeepsValid(s, o.(status := Status.Failed));
      s.(trades := ReplaceTrade(s.trades, o.(status := Status.Failed)))
    case Filled =>
      var a := s.accounts[o.user];
      FillValid(a, o, p);
      ReplaceKeepsValid(s, Executed(o, p));
      s.(accounts := s.accounts[o.user := Logged(OrderFill(a, o, p), FillEntry(o, p))],
         trades := ReplaceTrade(s.trades, Executed(o, p)))
  }

  lemma FillValid(a: Account, o: Trade, p: real)
    requires ValidAccount(a) && o.quantity > 0.0
    requires o.side == Sell ==> CanSell(a.holdings, o.coinId, o.quantity)
    ensures ValidAccount(OrderFill(a, o, p))
    ensures ValidAccount(Logged(OrderFill(a, o, p), FillEntry(o, p)))
  {
    if o.side == Sell {
      MarketSellEffect(a, o.coinId, o.coinSymbol, o.quantity, p);
    } else {
      MarketBuyEffect(a, o.coinId, o.coinSymbol, o.quantity, p);
    }
  }

  /** Saving a document that is not pending, or pending with a positive
      quantity, keeps the store valid. */
  lemma ReplaceKeepsValid(s: Records, t: Trade)
    requires ValidRecords(s) && (t.status == Pending ==> t.quantity > 0.0)
    ensures ValidRecords(s.(trades := ReplaceTrade(s.trades, t)))
  {
    ReplaceTradeKeepsIds(s.trades, t, s.nextId);
    ReplaceTradeKeepsPending(s.trades, t);
  }

  /** `processOrder`, for the order as loaded at the start of the cycle. */
  method ProcessOrder(db: Database, o: Trade, price: real)
    requires db.Valid() && o.quantity > 0.0
    modifies db
    ensures db.Valid()
    ensures db.Contents() == ProcessedRecords(old(db.Contents()), o, price)
  {
    if !Triggered(o.orderKind, o.side, price, o.limitPrice, o.stopPrice) {
      return;
    }
    if o.user !in db.accounts {
      db.Replace(o.(status := Status.Failed));
      return;
    }
    if o.side == Sell && !CanSell(db.accounts[o.user].holdings, o.coinId, o.quantity) {
      db.Replace(o.(status := Status.Failed));
      return;
    }
    Settle(db, o, price);
  }

  /** The filling part of `processOrder`: the owner's portfolio is loaded,
      updated and saved together with the completed order. */
  method Settle(db: Database, o: Trade, price: real)
    requires db.Valid() && o.quantity > 0.0 && o.user in db.accounts
    requires o.side == Sell ==> CanSell(db.accounts[o.user].holdings, o.coinId, o.quantity)
    modifies db
    ensures db.Valid()
    ensures db.accounts == old(db.accounts)[o.user := Logged(OrderFill(old(db.accounts)[o.user], o, price), FillEntry(o, price))]
    ensures db.trades == ReplaceTrade(old(db.trades), Executed(o, price)) && db.nextId == old(db.nextId)
  {
    var user := new Portfolio.Load(db.accounts[o.user]);
    ghost var a := user.State();
    FillOrder(user, o, price);
    var done := o.(status := Completed, price := price, total := price * o.quantity);
    assert done == Executed(o, price);
    FillValid(a, o, price);
    user.Log(FillEntry(o, price));
    db.Replace(done);
    db.Store(o.user, user);
  }

  /** The portfolio updates of a fill, in place on the loaded portfolio. */
  method FillOrder(user: Portfolio, o: Trade, price: real)
    requires ValidAccount(user.State()) && o.quantity > 0.0
    requires o.side == Sell ==> CanSell(user.holdings, o.coinId, o.quantity)
    modifies user
    ensures user.State() == OrderFill(old(user.State()), o, price)
    ensures ValidAccount(user.State())
  {
    if o.side == Sell {
      user.Fill(o.coinId, o.coinSymbol, Sell, o.quantity, price);
    } else {
      var actualCost := price * o.quantity;
      if o.orderKind == Limit && actualCost < o.total {
        user.balance := user.balance + (o.total - actualCost);
      }
      user.Acquire(o.coinId, o.coinSymbol, o.quantity, price);
    }
  }

  // ---------------------------------------------------------------------
  // One cycle

  /** `Trade.find({ status: 'pending' })`, in stored order. */
  function PendingList(ts: seq<Trade>): (r: seq<Trade>)
    ensures forall t :: t in r <==> t in ts && t.status == Pending
  {
    if ts == [] then []
    else (if ts[0].status == Pending then [ts[0]] else []) + PendingList(ts[1..])
  }

  function CoinOf(t: Trade): CoinId {
    t.coinId
  }

  predicate PositiveJobs(jobs: seq<Job<Trade>>) {
    forall j :: 0 <= j < |jobs| ==> jobs[j].item.quantity > 0.0
  }

  /** Settling the jobs one after the other. */
  function FoldOrders(s: Records, jobs: seq<Job<Trade>>): (r: Records)
    requires ValidRecords(s) && PositiveJobs(jobs)
    ensures ValidRecords(r)
    ensures |r.trades| == |s.trades| && r.nextId == s.nextId
    ensures forall j :: 0 <= j < |s.trades| ==> r.trades[j].id == s.trades[j].id
  {
    if jobs == [] then s
    else
      var last := jobs[|jobs| - 1];
      ProcessedRecords(FoldOrders(s, jobs[..|jobs| - 1]), last.item, last.price)
  }

  /** The pending orders of a store are for positive quantities. */
  lemma PendingPositiveList(s: Records)
    requires ValidRecords(s)
    ensures forall i :: 0 <= i < |PendingList(s.trades)| ==>
      var t := PendingList(s.trades)[i]; t in s.trades && t.status == Pending && t.quantity > 0.0
  {
    var P := PendingList(s.trades);
    forall i | 0 <= i < |P| ensures P[i] in s.trades && P[i].status == Pending && P[i].quantity > 0.0 {
      assert P[i] in P;
    }
  }

  /** The coins of the pending orders, each once, in order of first appearance. */
  function CycleCoins(s: Records): seq<CoinId> {
    FirstAppearance(Keys(PendingList(s.trades), CoinOf))
  }

  /** The settlements of a cycle over the store `s`. */
  function CycleJobs(s: Records, quotes: CoinId -> Quote): (r: seq<Job<Trade>>)
    requires ValidRecords(s)
    ensures PositiveJobs(r)
    ensures forall j :: 0 <= j < |r| ==> r[j].item in s.trades && r[j].item.status == Pending
  {
    PendingPositiveList(s);
    ScheduleKeeps(PendingList(s.trades), CoinOf, CycleCoins(s), quotes,
                  t => t in s.trades && t.status == Pending && t.quantity > 0.0);
    Schedule(PendingList(s.trades), CoinOf, CycleCoins(s), quotes)
  }

  /** The store after one cycle of `processOrders`. */
  function Cycle(s: Records, quotes: CoinId -> Quote): Records
    requires ValidRecords(s)
  {
    FoldOrders(s, CycleJobs(s, quotes))
  }

  /** `processOrders`. `quotes` gives the price lookup of each coin in this
      cycle; the result is the coins looked up, in order. */
  method ProcessOrders(db: Database, quotes: CoinId -> Quote) returns (fetched: seq<CoinId>)
    requires db.Valid()
    modifies db
    ensures db.Valid()
    ensures fetched == CycleCoins(old(db.Contents())) && Distinct(fetched)
    ensures db.Contents() == Cycle(old(db.Contents()), quotes)
  {
    ghost var s := db.Contents();
    var pending := PendingList(db.trades);
    if |pending| == 0 {
      return [];
    }
    PendingPositiveList(s);
    var coins, groups := GroupBy(pending, CoinOf);
    fetched := [];
    for k := 0 to |coins|
      invariant db.Valid()
      invariant fetched == coins[..k]
      invariant PositiveJobs(Schedule(pending, CoinOf, coins[..k], quotes))
      invariant db.Contents() == FoldOrders(s, Schedule(pending, CoinOf, coins[..k], quotes))
    {
      TakeOneMore(coins, k);
      fetched := fetched + [coins[k]];
      ProcessCoin(db, s, pending, coins, k, groups[coins[k]], quotes);
    }
    assert coins[..|coins|] == coins;
    FirstAppearanceDistinct(Keys(pending, CoinOf));
  }

  /** One pass of the loop of `processOrders`: the price of one coin is
      looked up and, when usable, that coin's pending orders are settled. */
  method ProcessCoin(db: Database, ghost s: Records, pending: seq<Trade>, coins: seq<CoinId>, k: nat,
                     group: seq<Trade>, quotes: CoinId -> Quote)
    requires ValidRecords(s) && k < |coins| && group == Having(pending, CoinOf, coins[k])
    requires forall i :: 0 <= i < |pending| ==> pending[i].quantity > 0.0
    requires db.Valid()
    requires PositiveJobs(Schedule(pending, CoinOf, coins[..k], quotes))
    requires db.Contents() == FoldOrders(s, Schedule(pending, CoinOf, coins[..k], quotes))
    modifies db
    ensures db.Valid()
    ensures PositiveJobs(Schedule(pending, CoinOf, coins[..k + 1], quotes))
    ensures db.Contents() == FoldOrders(s, Schedule(pending, CoinOf, coins[..k + 1], quotes))
  {
    var quote := quotes(coins[k]);
    ghost var before := Schedule(pending, CoinOf, coins[..k], quotes);
    ghost var positive := (t: Trade) => t.quantity > 0.0;
    ScheduleStep(pending, CoinOf, coins, k, quotes);
    ScheduleKeeps(pending, CoinOf, coins[..k + 1], quotes, positive);
    if Usable(quote) {
      assert Schedule(pending, CoinOf, coins[..k + 1], quotes) == before + Jobs(group, quote.value);
      HavingKeeps(pending, CoinOf, coins[k], positive);
      FoldAppend(s, before, Jobs(group, quote.value));
      ProcessBatch(db, group, quote.value);
    } else {
      assert Schedule(pending, CoinOf, coins[..k + 1], quotes) == before + [];
      assert before + [] == before;
    }
  }

  /** The inner loop of `processOrders`: the orders of one coin, in turn,
      at that coin's price. */
  method ProcessBatch(db: Database, orders: seq<Trade>, price: real)
    requires db.Valid()
    requires forall i :: 0 <= i < |orders| ==> orders[i].quantity > 0.0
    modifies db
    ensures db.Valid()
    ensures db.Contents() == FoldOrders(old(db.Contents()), Jobs(orders, price))
  {
    ghost var s := db.Contents();
    for j := 0 to |orders|
      invariant db.Valid()
      invariant db.Contents() == FoldOrders(s, Jobs(orders[..j], price))
    {
      FoldStep(s, orders, j, price);
      ProcessOrder(db, orders[j], price);
    }
    assert orders[..|orders|] == orders;
  }

  /** Settling two lists of jobs in turn is settling their concatenation. */
  lemma {:induction false} FoldAppend(s: Records, first: seq<Job<Trade>>, second: seq<Job<Trade>>)
    requires ValidRecords(s) && PositiveJobs(first) && PositiveJobs(second)
    ensures PositiveJobs(first + second)
    ensures FoldOrders(s, first + second) == FoldOrders(FoldOrders(s, first), second)
    decreases |second|
  {
    if second == [] {
      assert first + second == first;
    } else {
      var init := second[..|second| - 1];
      FoldAppend(s, first, init);
      AppendSnoc(first, second);
    }
  }

  /** Settling one more order of a batch. */
  lemma FoldStep(s: Records, orders: seq<Trade>, j: nat, p: real)
    requires ValidRecords(s) && j < |orders|
    requires forall i :: 0 <= i < |orders| ==> orders[i].quantity > 0.0
    ensures PositiveJobs(Jobs(orders[..j], p)) && PositiveJobs(Jobs(orders[..j + 1], p))
    ensures FoldOrders(s, Jobs(orders[..j + 1], p))
         == ProcessedRecords(FoldOrders(s, Jobs(orders[..j], p)), orders[j], p)
  {
    JobsSnoc(orders, j, p);
  }

  // ---------------------------------------------------------------------
  // Properties of the engine

  /** A pending limit buy ends up paying exactly the fill price: the
      reservation at the limit price, less the refund at fill time. */
  lemma LimitBuyPaysFillPrice(a: Account, o: Trade, p: real)
    requires ValidAccount(a) && o.side == Buy && o.orderKind == Limit && o.quantity > 0.0
    requires o.limitPrice.Some? && o.total == o.limitPrice.value * o.quantity
    requires Triggered(o.orderKind, o.side, p, o.limitPrice, o.stopPrice)
    ensures OrderFill(a.(balance := a.balance - o.total), o, p).balance == a.balance - p * o.quantity
  {
    ReserveCoversCost(o.limitPrice.value, p, o.quantity);
  }

  lemma ReserveCoversCost(limit: real, p: real, q: real)
    requires p <= limit && q > 0.0
    ensures p * q <= limit * q
  {
    assert (limit - p) * q >= 0.0;
  }

  /** A pending stop buy pays what was reserved at placement, at the price
      of that moment, whatever the fill price; its coins enter the cost
      basis at the fill price. */
  lemma StopBuyPaysPlacementPrice(a: Account, o: Trade, p: real)
    requires ValidAccount(a) && o.side == Buy && o.orderKind == Stop && o.quantity > 0.0
    ensures var r := OrderFill(a.(balance := a.balance - o.total), o, p);
      && r.balance == a.balance - o.total
      && Held(r.holdings, o.coinId) == Held(a.holdings, o.coinId) + o.quantity
      && CostBasis(r.holdings, o.coinId) == CostBasis(a.holdings, o.coinId) + p * o.quantity
  {
    MarketBuyEffect(a, o.coinId, o.coinSymbol, o.quantity, p);
  }

  /** Settling jobs that are not about the trade at `i` leaves it as it was. */
  lemma {:induction false} FoldKeepsTrade(s: Records, jobs: seq<Job<Trade>>, i: nat)
    requires ValidRecords(s) && PositiveJobs(jobs) && i < |s.trades|
    requires forall j :: 0 <= j < |jobs| ==> jobs[j].item.id != s.trades[i].id
    ensures FoldOrders(s, jobs).trades[i] == s.trades[i]
  {
    if jobs != [] {
      FoldKeepsTrade(s, jobs[..|jobs| - 1], i);
    }
  }

  /** Settling jobs whose orders belong to others leaves a user's portfolio as it was. */
  lemma {:induction false} FoldKeepsAccount(s: Records, jobs: seq<Job<Trade>>, u: UserId)
    requires ValidRecords(s) && PositiveJobs(jobs) && u in s.accounts
    requires forall j :: 0 <= j < |jobs| ==> jobs[j].item.user != u
    ensures u in FoldOrders(s, jobs).accounts && FoldOrders(s, jobs).accounts[u] == s.accounts[u]
  {
    if jobs != [] {
      FoldKeepsAccount(s, jobs[..|jobs| - 1], u);
    }
  }

  /** A cycle leaves alone every trade document that is not pending, and
      every pending order of a coin whose price lookup failed or gave no price. */
  lemma UnscheduledTradesStay(s: Records, quotes: CoinId -> Quote, i: nat)
    requires ValidRecords(s) && i < |s.trades|
    requires s.trades[i].status != Pending || !Usable(quotes(s.trades[i].coinId))
    ensures Cycle(s, quotes).trades[i] == s.trades[i]
  {
    var jobs := CycleJobs(s, quotes);
    forall j | 0 <= j < |jobs| ensures jobs[j].item.id != s.trades[i].id {
      var o := jobs[j].item;
      var k :| 0 <= k < |s.trades| && s.trades[k] == o;
      assert k != i;
    }
    FoldKeepsTrade(s, jobs, i);
  }

  /** A cycle does not touch the portfolio of a user with no pending order. */
  lemma IdleUsersStay(s: Records, quotes: CoinId -> Quote, u: UserId)
    requires ValidRecords(s) && u in s.accounts
    requires forall t :: t in s.trades && t.status == Pending ==> t.user != u
    ensures u in Cycle(s, quotes).accounts && Cycle(s, quotes).accounts[u] == s.accounts[u]
  {
    var jobs := CycleJobs(s, quotes);
    forall j | 0 <= j < |jobs| ensures jobs[j].item.user != u {
      assert jobs[j].item in s.trades;
    }
    FoldKeepsAccount(s, jobs, u);
  }

  /** A stop sell of a whole 5-coin position bought at 100, stop 90: at 91
      nothing happens; at 88 the holding is gone, the proceeds of 440 are
      credited and the order is completed at 88. */
  lemma StopSellScenario()
    ensures var o := Trade(0, "u", None, "eth", "ETH", Sell, 5.0, 95.0, 0.0, Pending, Stop, None, Some(90.0), None, None, None, 0);
      var s := Records(map["u" := Account(1000.0, [Holding("eth", "ETH", 5.0, 100.0)], [])], [o], 1);
      var r := ProcessedRecords(s, o, 88.0);
      && ProcessedRecords(s, o, 91.0) == s
      && r.accounts["u"].balance == 1440.0
      && r.accounts["u"].holdings == []
      && r.accounts["u"].history == [Entry(0, "eth", "ETH", Sell, 5.0, 88.0, 440.0, None, None)]
      && r.trades == [o.(status := Completed, price := 88.0, total := 440.0)]
  {
    var o := Trade(0, "u", None, "eth", "ETH", Sell, 5.0, 95.0, 0.0, Pending, Stop, None, Some(90.0), None, None, None, 0);
    var a := Account(1000.0, [Holding("eth", "ETH", 5.0, 100.0)], []);
    var s := Records(map["u" := a], [o], 1);
    assert ValidRecords(s);
    assert Find(a.holdings, "eth") == Some(0);
    assert RemoveCoin(a.holdings, "eth") == [] + RemoveCoin([], "eth");
    assert Decide(s, o, 88.0) == Filled;
    var filled := OrderFill(a, o, 88.0);
    assert filled == Account(1440.0, [], []);
    assert ReplaceTrade([o], Executed(o, 88.0)) == [Executed(o, 88.0)];
  }
}
