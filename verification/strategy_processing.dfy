/** The background engine that runs automated strategies: every cycle it
    loads the active strategies, groups them by coin, looks up one price
    per coin and, for each strategy whose conditions all hold at that
    price, runs its actions in order against its owner's portfolio. An
    action that lacks funds or coins is skipped and the next one runs. */
module StrategyProcessing {
  import opened Common
  import opened Ledger
  import opened Store
  import opened Strategies
  import opened Grouping

  // ---------------------------------------------------------------------
  // One action

  /** The checks of `executeStrategyAction`: a buy needs a balance of at
      least its cost, a sell a holding of at least its quantity. */
  predicate ActionRuns(a: Account, coin: CoinId, act: Action, p: real) {
    if act.side == Buy then !(a.balance < p * act.quantity) else CanSell(a.holdings, coin, act.quantity)
  }

  /** The profit recorded on a sell action: the proceeds less the quantity
      at the holding's average buy price. */
  function SellProfit(a: Account, coin: CoinId, q: real, p: real): real
    requires Find(a.holdings, coin).Some?
  {
    Realized(a.holdings[Find(a.holdings, coin).value].averageBuyPrice, q, p)
  }

  /** The counters after one more executed sell with the given profit. */
  function Credited(perf: Performance, profit: real): Performance {
    Performance(perf.executedTrades + 1, perf.successfulTrades + (if profit > 0.0 then 1 else 0), perf.totalProfit + profit)
  }

  /** The trade document of an action (its id is handed out on insertion). */
  function ActionTrade(st: Strategy, act: Action, p: real, profit: Option<real>, now: int): Trade {
    Trade(0, st.user, Some(st.id), st.coinId, st.coinSymbol, act.side, act.quantity, p, p * act.quantity,
          Completed, Market, None, None, profit, None, None, now)
  }

  /** The state an action works on: the store, the strategy collection and
      the strategy document as loaded and updated in memory. */
  datatype World = World(records: Records, book: Book, current: Strategy)

  predicate Ready(w: World) {
    && ValidRecords(w.records) && ValidBook(w.book)
    && ActionsPositive(w.current.actions) && w.current.user in w.records.accounts
  }

  /** The strategy collection changes only in the entry of the running
      strategy, and nothing but its counters changes in the loaded copy. */
  predicate SameShape(w: World, r: World) {
    && r.current == w.current.(performance := r.current.performance)
    && r.book.nextId == w.book.nextId
    && |r.book.strategies| == |w.book.strategies|
    && (forall j :: 0 <= j < |w.book.strategies| ==> r.book.strategies[j].id == w.book.strategies[j].id)
    && (forall j :: 0 <= j < |w.book.strategies| && w.book.strategies[j].id != w.current.id ==>
          r.book.strategies[j] == w.book.strategies[j])
    && r.records.accounts.Keys == w.records.accounts.Keys
  }

  /** The profit recorded with an action: set on sells only. */
  function ActionProfit(a: Account, coin: CoinId, act: Action, p: real): Option<real>
    requires act.side == Sell ==> Find(a.holdings, coin).Some?
  {
    if act.side == Sell then Some(SellProfit(a, coin, act.quantity, p)) else None
  }

  /** `executeStrategyAction`: skipped when its check fails, otherwise `Performed`. */
  function ActionStep(w: World, act: Action, p: real, now: int): (r: World)
    requires Ready(w) && act.quantity > 0.0
  {
    if ActionRuns(w.records.accounts[w.current.user], w.current.coinId, act, p) then Performed(w, act, p, now) else w
  }

  /** The trade document an action that passed its check stores. */
  function ActionRecord(w: World, act: Action, p: real, now: int): Trade
    requires Ready(w) && act.quantity > 0.0
    requires ActionRuns(w.records.accounts[w.current.user], w.current.coinId, act, p)
  {
    var a := w.records.accounts[w.current.user];
    ActionTrade(w.current, act, p, ActionProfit(a, w.current.coinId, act, p), now).(id := w.records.nextId)
  }

  /** An action that passed its check: a trade document tagged with the
      strategy is stored, the portfolio gets a market fill at the cycle's
      price and one history entry, and a sell also updates and saves the
      strategy's counters. */
  function Performed(w: World, act: Action, p: real, now: int): (r: World)
    requires Ready(w) && act.quantity > 0.0
    requires ActionRuns(w.records.accounts[w.current.user], w.current.coinId, act, p)
  {
    var st := w.current;
    var s := w.records;
    var a := s.accounts[st.user];
    var profit := ActionProfit(a, st.coinId, act, p);
    var t := ActionRecord(w, act, p, now);
    var filled := MarketFill(a, st.coinId, st.coinSymbol, act.side, act.quantity, p);
    var records := Records(s.accounts[st.user := Logged(filled, EntryOf(t))], s.trades + [t], s.nextId + 1);
    if act.side == Sell then
      var st' := st.(performance := Credited(st.performance, profit.value));
      World(records, Book(ReplaceStrategy(w.book.strategies, st'), w.book.nextId), st')
    else World(records, w.book, st)
  }

  /** An action keeps the store and the collection valid and changes only
      what `SameShape` allows. */
  lemma ActionStepReady(w: World, act: Action, p: real, now: int)
    requires Ready(w) && act.quantity > 0.0
    ensures Ready(ActionStep(w, act, p, now)) && SameShape(w, ActionStep(w, act, p, now))
  {
    var st := w.current;
    var a := w.records.accounts[st.user];
    if ActionRuns(a, st.coinId, act, p) {
      ActionValid(a, st.coinId, st.coinSymbol, act, p, EntryOf(ActionRecord(w, act, p, now)));
      if act.side == Sell {
        ReplaceStrategyKeepsBook(w.book, ActionStep(w, act, p, now).current);
      }
    }
  }

  lemma ActionValid(a: Account, coin: CoinId, sym: string, act: Action, p: real, e: Entry)
    requires ValidAccount(a) && act.quantity > 0.0 && ActionRuns(a, coin, act, p)
    ensures ValidAccount(Logged(MarketFill(a, coin, sym, act.side, act.quantity, p), e))
  {
    if act.side == Buy {
      MarketBuyEffect(a, coin, sym, act.quantity, p);
    } else {
      MarketSellEffect(a, coin, sym, act.quantity, p);
    }
  }

  /** The actions of a strategy, in order. */
  function RunActions(w: World, acts: seq<Action>, p: real, now: int): (r: World)
    requires Ready(w) && ActionsPositive(acts)
    ensures Ready(r) && SameShape(w, r)
  {
    if acts == [] then w
    else
      var m := RunActions(w, acts[..|acts| - 1], p, now);
      ActionStepReady(m, acts[|acts| - 1], p, now);
      ActionStep(m, acts[|acts| - 1], p, now)
  }

  method ExecuteStrategyAction(db: Database, store: StrategyStore, st: Strategy, act: Action,
                               user: Portfolio, price: real, now: int) returns (updated: Strategy)
    requires db.Valid() && store.Valid() && ActionsPositive(st.actions) && act.quantity > 0.0
    requires st.user in db.accounts && user.State() == db.accounts[st.user]
    modifies db, store, user
    ensures var r := ActionStep(World(old(db.Contents()), old(store.Contents()), st), act, price, now);
      && db.Contents() == r.records && store.Contents() == r.book && updated == r.current
    ensures db.Valid() && store.Valid() && st.user in db.accounts && user.State() == db.accounts[st.user]
  {
    if !ActionRuns(user.State(), st.coinId, act, price) {
      return st;
    }
    updated := Perform(db, store, st, act, user, price, now);
  }

  /** The part of `executeStrategyAction` after its check. */
  method Perform(db: Database, store: StrategyStore, st: Strategy, act: Action,
                 user: Portfolio, price: real, now: int) returns (updated: Strategy)
    requires db.Valid() && store.Valid() && ActionsPositive(st.actions) && act.quantity > 0.0
    requires st.user in db.accounts && user.State() == db.accounts[st.user]
    requires ActionRuns(user.State(), st.coinId, act, price)
    modifies db, store, user
    ensures var r := Performed(World(old(db.Contents()), old(store.Contents()), st), act, price, now);
      && db.Contents() == r.records && store.Contents() == r.book && updated == r.current
    ensures db.Valid() && store.Valid() && st.user in db.accounts && user.State() == db.accounts[st.user]
  {
    var profit: Option<real> := None;
    if act.side == Sell {
      var holding := user.holdings[Find(user.holdings, st.coinId).value];
      profit := Some(Realized(holding.averageBuyPrice, act.quantity, price));
    }
    assert profit == ActionProfit(user.State(), st.coinId, act, price);
    user.Fill(st.coinId, st.coinSymbol, act.side, act.quantity, price);
    var t := db.Commit(st.user, user, ActionTrade(st, act, price, profit, now));
    updated := st;
    if act.side == Sell {
      updated := Credit(store, st, profit.value);
    }
  }

  /** Updating the counters after a sell and saving the strategy. */
  method Credit(store: StrategyStore, st: Strategy, profit: real) returns (updated: Strategy)
    requires store.Valid() && ActionsPositive(st.actions)
    modifies store
    ensures updated == st.(performance := Credited(st.performance, profit))
    ensures store.Valid() && store.Contents() == Book(ReplaceStrategy(old(store.strategies), updated), old(store.nextId))
  {
    var perf := st.performance;
    var successful := perf.successfulTrades;
    if profit > 0.0 {
      successful := successful + 1;
    }
    updated := st.(performance := Performance(perf.executedTrades + 1, successful, perf.totalProfit + profit));
    store.Replace(updated);
  }

  // ---------------------------------------------------------------------
  // One strategy

  /** The store and the strategy collection together. */
  datatype Stores = Stores(records: Records, book: Book)

  predicate ValidStores(s: Stores) {
    ValidRecords(s.records) && ValidBook(s.book)
  }

  /** `processStrategy`: nothing happens unless every condition holds at
      the price and the owner exists; then the actions run in order. */
  function StrategyRun(s: Stores, st: Strategy, p: real, now: int): (r: Stores)
    requires ValidStores(s) && ActionsPositive(st.actions)
    ensures ValidStores(r)
    ensures |r.book.strategies| == |s.book.strategies| && r.book.nextId == s.book.nextId
    ensures forall j :: 0 <= j < |s.book.strategies| ==> r.book.strategies[j].id == s.book.strategies[j].id
    ensures forall j :: 0 <= j < |s.book.strategies| && s.book.strategies[j].id != st.id ==>
      r.book.strategies[j] == s.book.strategies[j]
  {
    if !ConditionsMet(st.conditions, PriceData(p)) || st.user !in s.records.accounts then s
    else
      var w := RunActions(World(s.records, s.book, st), st.actions, p, now);
      Stores(w.records, w.book)
  }

  method ProcessStrategy(db: Database, store: StrategyStore, st: Strategy, price: real, now: int)
    requires db.Valid() && store.Valid() && ActionsPositive(st.actions)
    modifies db, store
    ensures db.Valid() && store.Valid()
    ensures Stores(db.Contents(), store.Contents()) == StrategyRun(Stores(old(db.Contents()), old(store.Contents())), st, price, now)
  {
    if !ConditionsMet(st.conditions, PriceData(price)) {
      return;
    }
    if st.user !in db.accounts {
      return;
    }
    ghost var w0 := World(db.Contents(), store.Contents(), st);
    var user := new Portfolio.Load(db.accounts[st.user]);
    var current := st;
    for i := 0 to |st.actions|
      invariant db.Valid() && store.Valid() && ActionsPositive(current.actions)
      invariant st.user in db.accounts && user.State() == db.accounts[st.user]
      invariant World(db.Contents(), store.Contents(), current) == RunActions(w0, st.actions[..i], price, now)
    {
      RunStep(w0, st.actions, i, price, now);
      current := ExecuteStrategyAction(db, store, current, st.actions[i], user, price, now);
    }
    assert st.actions[..|st.actions|] == st.actions;
  }

  /** Running one more action of a strategy. */
  lemma RunStep(w: World, acts: seq<Action>, i: nat, p: real, now: int)
    requires Ready(w) && ActionsPositive(acts) && i < |acts|
    ensures ActionsPositive(acts[..i]) && ActionsPositive(acts[..i + 1])
    ensures RunActions(w, acts[..i + 1], p, now) == ActionStep(RunActions(w, acts[..i], p, now), acts[i], p, now)
  {
    assert acts[..i + 1][..i] == acts[..i];
  }

  // ---------------------------------------------------------------------
  // One cycle

  /** `Strategy.find({ active: true })`, in stored order. */
  function ActiveList(ss: seq<Strategy>): (r: seq<Strategy>)
    ensures forall st :: st in r <==> st in ss && st.active
  {
    if ss == [] then []
    else (if ss[0].active then [ss[0]] else []) + ActiveList(ss[1..])
  }

  function CoinOf(st: Strategy): CoinId {
    st.coinId
  }

  predicate Runnable(jobs: seq<Job<Strategy>>) {
    forall j :: 0 <= j < |jobs| ==> ActionsPositive(jobs[j].item.actions)
  }

  /** Running the strategies one after the other. */
  function FoldStrategies(s: Stores, jobs: seq<Job<Strategy>>, now: int): (r: Stores)
    requires ValidStores(s) && Runnable(jobs)
    ensures ValidStores(r)
    ensures |r.book.strategies| == |s.book.strategies| && r.book.nextId == s.book.nextId
    ensures forall j :: 0 <= j < |s.book.strategies| ==> r.book.strategies[j].id == s.book.strategies[j].id
  {
    if jobs == [] then s
    else
      var last := jobs[|jobs| - 1];
      StrategyRun(FoldStrategies(s, jobs[..|jobs| - 1], now), last.item, last.price, now)
  }

  /** The coins of the active strategies, each once, in order of first appearance. */
  function CycleCoins(b: Book): seq<CoinId> {
    FirstAppearance(Keys(ActiveList(b.strategies), CoinOf))
  }

  lemma ActiveRunnable(b: Book)
    requires ValidBook(b)
    ensures forall i :: 0 <= i < |ActiveList(b.strategies)| ==>
      var st := ActiveList(b.strategies)[i]; st in b.strategies && st.active && ActionsPositive(st.actions)
  {
    var A := ActiveList(b.strategies);
    forall i | 0 <= i < |A| ensures A[i] in b.strategies && A[i].active && ActionsPositive(A[i].actions) {
      assert A[i] in A;
    }
  }

  /** The strategy runs of a cycle over the collection `b`. */
  function CycleJobs(b: Book, quotes: CoinId -> Quote): (r: seq<Job<Strategy>>)
    requires ValidBook(b)
    ensures Runnable(r)
    ensures forall j :: 0 <= j < |r| ==> r[j].item in b.strategies && r[j].item.active
  {
    ActiveRunnable(b);
    ScheduleKeeps(ActiveList(b.strategies), CoinOf, CycleCoins(b), quotes,
                  st => st in b.strategies && st.active && ActionsPositive(st.actions));
    Schedule(ActiveList(b.strategies), CoinOf, CycleCoins(b), quotes)
  }

  /** The stores after one cycle of `processStrategies`. */
  function Cycle(s: Stores, quotes: CoinId -> Quote, now: int): Stores
    requires ValidStores(s)
  {
    FoldStrategies(s, CycleJobs(s.book, quotes), now)
  }

  /** `processStrategies`. `quotes` gives the price lookup of each coin in
      this cycle; the result is the coins looked up, in order, each once. */
  method ProcessStrategies(db: Database, store: StrategyStore, quotes: CoinId -> Quote, now: int)
    returns (fetched: seq<CoinId>)
    requires db.Valid() && store.Valid()
    modifies db, store
    ensures db.Valid() && store.Valid()
    ensures fetched == CycleCoins(old(store.Contents())) && Distinct(fetched)
    ensures Stores(db.Contents(), store.Contents()) == Cycle(Stores(old(db.Contents()), old(store.Contents())), quotes, now)
  {
    ghost var s := Stores(db.Contents(), store.Contents());
    var active := ActiveList(store.strategies);
    if |active| == 0 {
      return [];
    }
    ActiveRunnable(s.book);
    var coins: seq<CoinId>, groups: map<CoinId, seq<Strategy>> := GroupBy(active, CoinOf);
    fetched := [];
    for k := 0 to |coins|
      invariant db.Valid() && store.Valid()
      invariant fetched == coins[..k]
      invariant Runnable(Schedule(active, CoinOf, coins[..k], quotes))
      invariant Stores(db.Contents(), store.Contents()) == FoldStrategies(s, Schedule(active, CoinOf, coins[..k], quotes), now)
    {
      TakeOneMore(coins, k);
      fetched := fetched + [coins[k]];
      ProcessCoin(db, store, s, active, coins, k, groups[coins[k]], quotes, now);
    }
    assert coins[..|coins|] == coins;
    FirstAppearanceDistinct(Keys(active, CoinOf));
  }

  /** One coin of `processStrategies`: its price is looked up and, when
      there is one, the strategies of that coin run at it. */
  method ProcessCoin(db: Database, store: StrategyStore, ghost s: Stores, active: seq<Strategy>,
                     coins: seq<CoinId>, k: nat, group: seq<Strategy>, quotes: CoinId -> Quote, now: int)
    requires ValidStores(s) && k < |coins| && group == Having(active, CoinOf, coins[k])
    requires forall i :: 0 <= i < |active| ==> ActionsPositive(active[i].actions)
    requires db.Valid() && store.Valid()
    requires Runnable(Schedule(active, CoinOf, coins[..k], quotes))
    requires Stores(db.Contents(), store.Contents()) == FoldStrategies(s, Schedule(active, CoinOf, coins[..k], quotes), now)
    modifies db, store
    ensures db.Valid() && store.Valid()
    ensures Runnable(Schedule(active, CoinOf, coins[..k + 1], quotes))
    ensures Stores(db.Contents(), store.Contents()) == FoldStrategies(s, Schedule(active, CoinOf, coins[..k + 1], quotes), now)
  {
    var quote := quotes(coins[k]);
    ghost var before := Schedule(active, CoinOf, coins[..k], quotes);
    ScheduleStep(active, CoinOf, coins, k, quotes);
    ScheduleRunnable(active, coins[..k + 1], quotes);
    if Usable(quote) {
      assert Schedule(active, CoinOf, coins[..k + 1], quotes) == before + Jobs(group, quote.value);
      GroupRunnable(active, coins[k]);
      FoldAppend(s, before, Jobs(group, quote.value), now);
      ProcessGroup(db, store, group, quote.value, now);
    } else {
      assert Schedule(active, CoinOf, coins[..k + 1], quotes) == before + [];
      assert before + [] == before;
    }
  }

  lemma ScheduleRunnable(active: seq<Strategy>, coins: seq<CoinId>, quotes: CoinId -> Quote)
    requires forall i :: 0 <= i < |active| ==> ActionsPositive(active[i].actions)
    ensures Runnable(Schedule(active, CoinOf, coins, quotes))
  {
    ScheduleKeeps(active, CoinOf, coins, quotes, (st: Strategy) => ActionsPositive(st.actions));
  }

  lemma GroupRunnable(active: seq<Strategy>, c: CoinId)
    requires forall i :: 0 <= i < |active| ==> ActionsPositive(active[i].actions)
    ensures forall i :: 0 <= i < |Having(active, CoinOf, c)| ==> ActionsPositive(Having(active, CoinOf, c)[i].actions)
  {
    HavingKeeps(active, CoinOf, c, (st: Strategy) => ActionsPositive(st.actions));
  }

  /** The inner loop of `processStrategies`: the strategies of one coin, in
      turn, at that coin's price. */
  method ProcessGroup(db: Database, store: StrategyStore, sts: seq<Strategy>, price: real, now: int)
    requires db.Valid() && store.Valid()
    requires forall i :: 0 <= i < |sts| ==> ActionsPositive(sts[i].actions)
    modifies db, store
    ensures db.Valid() && store.Valid()
    ensures Stores(db.Contents(), store.Contents()) == FoldStrategies(Stores(old(db.Contents()), old(store.Contents())), Jobs(sts, price), now)
  {
    ghost var s := Stores(db.Contents(), store.Contents());
    for j := 0 to |sts|
      invariant db.Valid() && store.Valid()
      invariant Stores(db.Contents(), store.Contents()) == FoldStrategies(s, Jobs(sts[..j], price), now)
    {
      FoldStep(s, sts, j, price, now);
      ProcessStrategy(db, store, sts[j], price, now);
    }
    assert sts[..|sts|] == sts;
  }

  /** Running two lists of strategies in turn is running their concatenation. */
  lemma {:induction false} FoldAppend(s: Stores, first: seq<Job<Strategy>>, second: seq<Job<Strategy>>, now: int)
    requires ValidStores(s) && Runnable(first) && Runnable(second)
    ensures Runnable(first + second)
    ensures FoldStrategies(s, first + second, now) == FoldStrategies(FoldStrategies(s, first, now), second, now)
    decreases |second|
  {
    if second == [] {
      assert first + second == first;
    } else {
      var init := second[..|second| - 1];
      assert Runnable(init);
      FoldAppend(s, first, init, now);
      AppendSnoc(first, second);
    }
  }

  /** Running one more strategy of a group. */
  lemma FoldStep(s: Stores, sts: seq<Strategy>, j: nat, p: real, now: int)
    requires ValidStores(s) && j < |sts|
    requires forall i :: 0 <= i < |sts| ==> ActionsPositive(sts[i].actions)
    ensures Runnable(Jobs(sts[..j], p)) && Runnable(Jobs(sts[..j + 1], p))
    ensures FoldStrategies(s, Jobs(sts[..j + 1], p), now)
         == StrategyRun(FoldStrategies(s, Jobs(sts[..j], p), now), sts[j], p, now)
  {
    JobsSnoc(sts, j, p);
  }

  // ---------------------------------------------------------------------
  // Properties

  /** An action changes anything exactly when its check passes. */
  lemma ActionRunsIff(w: World, act: Action, p: real, now: int)
    requires Ready(w) && act.quantity > 0.0
    ensures ActionStep(w, act, p, now) != w <==> ActionRuns(w.records.accounts[w.current.user], w.current.coinId, act, p)
  {
    if ActionRuns(w.records.accounts[w.current.user], w.current.coinId, act, p) {
      assert |ActionStep(w, act, p, now).records.trades| == |w.records.trades| + 1;
    }
  }

  /** The portfolio of the strategy's owner. */
  function Owner(w: World): Account
    requires w.current.user in w.records.accounts
  {
    w.records.accounts[w.current.user]
  }

  /** Only a sell records a profit on its trade document: the proceeds
      less the quantity at the owner's average buy price. */
  lemma ActionRecordFacts(w: World, act: Action, p: real, now: int)
    requires Ready(w) && act.quantity > 0.0
    requires ActionRuns(Owner(w), w.current.coinId, act, p)
    ensures var t := ActionRecord(w, act, p, now);
      && (act.side == Buy ==> t.profit.None?)
      && (act.side == Sell ==> t.profit == Some(Realized(Average(w), act.quantity, p)))
  {
  }

  /** A buy action that runs debits its cost without overdrawing, adds its
      quantity to the coin, stores one completed trade tagged with the
      strategy and without profit, logs it first in the owner's history, and
      leaves the counters, the strategy collection and other users alone. */
  lemma BuyActionEffect(w: World, q: real, p: real, now: int)
    requires Ready(w) && q > 0.0 && Owner(w).balance >= 0.0
    requires ActionRuns(Owner(w), w.current.coinId, Action(Buy, q), p)
    ensures var r := ActionStep(w, Action(Buy, q), p, now);
      Owner(r).balance == Owner(w).balance - p * q && Owner(r).balance >= 0.0
    ensures var r := ActionStep(w, Action(Buy, q), p, now);
      Held(Owner(r).holdings, w.current.coinId) == Held(Owner(w).holdings, w.current.coinId) + q
    ensures var r := ActionStep(w, Action(Buy, q), p, now);
      var t := ActionRecord(w, Action(Buy, q), p, now);
      r.records.trades == w.records.trades + [t] && Owner(r).history == Record(Owner(w).history, EntryOf(t))
    ensures var r := ActionStep(w, Action(Buy, q), p, now);
      r.current == w.current && r.book == w.book
    ensures var r := ActionStep(w, Action(Buy, q), p, now);
      forall v :: v in w.records.accounts && v != w.current.user ==> r.records.accounts[v] == w.records.accounts[v]
  {
    var st := w.current;
    var a := Owner(w);
    var act := Action(Buy, q);
    var t := ActionRecord(w, act, p, now);
    var filled := MarketFill(a, st.coinId, st.coinSymbol, Buy, q, p);
    assert filled.balance == a.balance - p * q && filled.balance >= 0.0;
    var r := ActionStep(w, act, p, now);
    assert r == World(Records(w.records.accounts[st.user := Logged(filled, EntryOf(t))], w.records.trades + [t], w.records.nextId + 1),
                      w.book, st) by {
      assert r == Performed(w, act, p, now);
    }
    assert Held(filled.holdings, st.coinId) == Held(a.holdings, st.coinId) + q && filled.history == a.history by {
      MarketBuyEffect(a, st.coinId, st.coinSymbol, q, p);
    }
  }

  /** The average buy price of the strategy's coin in the owner's portfolio. */
  function Average(w: World): real
    requires w.current.user in w.records.accounts
    requires Find(Owner(w).holdings, w.current.coinId).Some?
  {
    Owner(w).holdings[Find(Owner(w).holdings, w.current.coinId).value].averageBuyPrice
  }

  /** A sell action that runs credits its proceeds, takes its quantity from
      the coin, stores one completed trade whose profit is the proceeds less
      the quantity at the average buy price, and credits the strategy's
      counters with that profit, saving it in the collection. */
  lemma SellActionEffect(w: World, q: real, p: real, now: int)
    requires Ready(w) && q > 0.0
    requires ActionRuns(Owner(w), w.current.coinId, Action(Sell, q), p)
    ensures var r := ActionStep(w, Action(Sell, q), p, now);
      Owner(r).balance == Owner(w).balance + p * q
    ensures var r := ActionStep(w, Action(Sell, q), p, now);
      Held(Owner(r).holdings, w.current.coinId) == Held(Owner(w).holdings, w.current.coinId) - q
    ensures var r := ActionStep(w, Action(Sell, q), p, now);
      var t := ActionRecord(w, Action(Sell, q), p, now);
      r.records.trades == w.records.trades + [t] && Owner(r).history == Record(Owner(w).history, EntryOf(t))
    ensures var r := ActionStep(w, Action(Sell, q), p, now);
      && r.current == w.current.(performance := Credited(w.current.performance, Realized(Average(w), q, p)))
      && r.book == Book(ReplaceStrategy(w.book.strategies, r.current), w.book.nextId)
    ensures var r := ActionStep(w, Action(Sell, q), p, now);
      forall v :: v in w.records.accounts && v != w.current.user ==> r.records.accounts[v] == w.records.accounts[v]
  {
    var st := w.current;
    var a := Owner(w);
    var act := Action(Sell, q);
    var t := ActionRecord(w, act, p, now);
    var filled := MarketFill(a, st.coinId, st.coinSymbol, Sell, q, p);
    var st' := st.(performance := Credited(st.performance, Realized(Average(w), q, p)));
    var r := ActionStep(w, act, p, now);
    assert r == World(Records(w.records.accounts[st.user := Logged(filled, EntryOf(t))], w.records.trades + [t], w.records.nextId + 1),
                      Book(ReplaceStrategy(w.book.strategies, st'), w.book.nextId), st') by {
      assert r == Performed(w, act, p, now);
    }
    assert Held(filled.holdings, st.coinId) == Held(a.holdings, st.coinId) - q && filled.history == a.history by {
      MarketSellEffect(a, st.coinId, st.coinSymbol, q, p);
    }
  }

  predicate CountersOrdered(perf: Performance) {
    perf.successfulTrades <= perf.executedTrades
  }

  /** Successful trades never outnumber executed ones. */
  lemma {:induction false} RunKeepsCountersOrdered(w: World, acts: seq<Action>, p: real, now: int)
    requires Ready(w) && ActionsPositive(acts) && CountersOrdered(w.current.performance)
    ensures CountersOrdered(RunActions(w, acts, p, now).current.performance)
  {
    if acts != [] {
      var m := RunActions(w, acts[..|acts| - 1], p, now);
      RunKeepsCountersOrdered(w, acts[..|acts| - 1], p, now);
      StepKeepsCountersOrdered(m, acts[|acts| - 1], p, now);
    }
  }

  lemma StepKeepsCountersOrdered(w: World, act: Action, p: real, now: int)
    requires Ready(w) && act.quantity > 0.0 && CountersOrdered(w.current.performance)
    ensures CountersOrdered(ActionStep(w, act, p, now).current.performance)
  {
  }

  /** A completed trade of the strategy's owner, tagged with the strategy. */
  predicate Tagged(t: Trade, st: Strategy) {
    t.user == st.user && t.strategy == Some(st.id) && t.status == Completed
  }

  /** The trades one action stores and what it adds to the counters. */
  lemma StepAccounting(m: World, act: Action, p: real, now: int)
    requires Ready(m) && act.quantity > 0.0
    ensures var r := ActionStep(m, act, p, now);
      Accounted(m, r) && |r.records.trades| <= |m.records.trades| + 1
  {
    var n := |m.records.trades|;
    var r := ActionStep(m, act, p, now);
    if ActionRuns(Owner(m), m.current.coinId, act, p) {
      var t := ActionRecord(m, act, p, now);
      ActionRecordFacts(m, act, p, now);
      assert r.records.trades == m.records.trades + [t];
      assert r.records.trades[n..] == [t];
      assert [t][..0] == [];
    } else {
      assert r.records.trades[n..] == [];
    }
    assert r.records.trades[..n] == m.records.trades;
  }

  /** The tallies of a list with one more trade. */
  lemma TalliesSnoc(ts: seq<Trade>, added: seq<Trade>)
    requires |added| <= 1
    ensures Sells(ts + added) == Sells(ts) + Sells(added)
    ensures Wins(ts + added) == Wins(ts) + Wins(added)
    ensures ProfitTotal(ts + added) == ProfitTotal(ts) + ProfitTotal(added)
  {
    if |added| == 1 {
      assert (ts + added)[..|ts|] == ts;
      assert added[..0] == [];
    } else {
      assert ts + added == ts;
    }
  }

  /** `r` extends the trades of `w` by completed trades of the strategy,
      and the counters of `r` exceed those of `w` by the tallies of these
      trades. */
  predicate Accounted(w: World, r: World) {
    var n := |w.records.trades|;
    && r.current.id == w.current.id && r.current.user == w.current.user
    && n <= |r.records.trades| && r.records.trades[..n] == w.records.trades
    && (forall k :: n <= k < |r.records.trades| ==> Tagged(r.records.trades[k], w.current))
    && r.current.performance.executedTrades == w.current.performance.executedTrades + Sells(r.records.trades[n..])
    && r.current.performance.successfulTrades == w.current.performance.successfulTrades + Wins(r.records.trades[n..])
    && r.current.performance.totalProfit == w.current.performance.totalProfit + ProfitTotal(r.records.trades[n..])
  }

  lemma AccountedTrans(w: World, m: World, r: World)
    requires Accounted(w, m) && Accounted(m, r) && |r.records.trades| <= |m.records.trades| + 1
    ensures Accounted(w, r)
  {
    var n := |w.records.trades|;
    var ms := m.records.trades;
    var rs := r.records.trades;
    var added := rs[|ms|..];
    assert rs == ms + added;
    assert rs[n..] == ms[n..] + added;
    assert rs[..n] == ms[..n];
    forall k | n <= k < |rs| ensures Tagged(rs[k], w.current) {
      if k < |ms| {
        assert rs[k] == ms[k];
      }
    }
    TalliesSnoc(ms[n..], added);
  }

  /** The counters account exactly for the trades a run stores: every new
      trade is a completed one of the strategy's owner tagged with the
      strategy, the executed count grows by the new trades with a profit
      (the sells), the successful count by those with a positive profit and
      the total profit by the sum of the profits. */
  lemma {:induction false} RunAccounting(w: World, acts: seq<Action>, p: real, now: int)
    requires Ready(w) && ActionsPositive(acts)
    ensures Accounted(w, RunActions(w, acts, p, now))
  {
    var n := |w.records.trades|;
    if acts == [] {
      assert w.records.trades[n..] == [];
      assert w.records.trades[..n] == w.records.trades;
    } else {
      var init := acts[..|acts| - 1];
      var act := acts[|acts| - 1];
      RunAccounting(w, init, p, now);
      var m := RunActions(w, init, p, now);
      var r := RunActions(w, acts, p, now);
      assert Accounted(m, r) && |r.records.trades| <= |m.records.trades| + 1 by {
        assert r == ActionStep(m, act, p, now);
        StepAccounting(m, act, p, now);
      }
      AccountedTrans(w, m, r);
    }
  }

  /** A strategy selling 1 coin while the price is above 200, owned by a
      user holding 3 coins bought at 100. */
  function ScenarioStrategy(perf: Performance): Strategy {
    Strategy(0, "u", "s", None, "eth", "ETH", "sell", [Condition("price", ">", 200.0)], [Action(Sell, 1.0)], true, perf)
  }

  function ScenarioStores(): Stores {
    Stores(Records(map["u" := Account(0.0, [Holding("eth", "ETH", 3.0, 100.0)], [])], [], 0),
           Book([ScenarioStrategy(Performance(0, 0, 0.0))], 1))
  }

  /** The stores after one sale: `held` coins left at an average of 100,
      `balance` in cash, `sold` trades stored, and the counters `perf`. */
  predicate ScenarioAfter(s: Stores, held: real, balance: real, sold: nat, perf: Performance) {
    && ValidStores(s)
    && s.book == Book([ScenarioStrategy(perf)], 1)
    && "u" in s.records.accounts
    && s.records.accounts["u"].balance == balance
    && s.records.accounts["u"].holdings == [Holding("eth", "ETH", held, 100.0)]
    && |s.records.trades| == sold
  }

  lemma ScenarioStart()
    ensures ScenarioAfter(ScenarioStores(), 3.0, 0.0, 0, Performance(0, 0, 0.0))
  {
    var a0 := ScenarioStores().records.accounts["u"];
    assert Find(a0.holdings, "eth") == Some(0);
  }

  /** While the price is at most 200 the strategy does nothing. */
  lemma ScenarioQuiet(p: real, now: int)
    requires p <= 200.0
    ensures ValidStores(ScenarioStores())
    ensures StrategyRun(ScenarioStores(), ScenarioStrategy(Performance(0, 0, 0.0)), p, now) == ScenarioStores()
  {
    ScenarioStart();
    assert !Holds(Condition("price", ">", 200.0), PriceData(p));
  }

  /** Above 200 one run sells one coin at a profit of 150 over the average
      of 100 and credits the counters; it does so on every cycle while
      coins remain, since nothing marks the strategy as done. */
  lemma ScenarioSale(s: Stores, held: real, balance: real, sold: nat, e: nat, t: real, now: int)
    requires held > 1.0 && e <= sold
    requires ScenarioAfter(s, held, balance, sold, Performance(e, e, t))
    ensures var r := StrategyRun(s, ScenarioStrategy(Performance(e, e, t)), 250.0, now);
      && ScenarioAfter(r, held - 1.0, balance + 250.0, sold + 1, Performance(e + 1, e + 1, t + 150.0))
      && r.records.trades[sold].profit == Some(150.0)
  {
    var st := ScenarioStrategy(Performance(e, e, t));
    var w := World(s.records, s.book, st);
    var act := Action(Sell, 1.0);
    ScenarioRunIsStep(s, Performance(e, e, t), now);
    ScenarioStep(w, held, balance, e, t, now);
    var m := ActionStep(w, act, 250.0, now);
    assert m.book.strategies == [ScenarioStrategy(Performance(e + 1, e + 1, t + 150.0))];
    assert m.records.trades[sold] == ActionRecord(w, act, 250.0, now);
  }

  /** With the condition met, a run of the scenario's strategy is its one sell. */
  lemma ScenarioRunIsStep(s: Stores, perf: Performance, now: int)
    requires ValidStores(s) && s.book == Book([ScenarioStrategy(perf)], 1) && "u" in s.records.accounts
    ensures var w := World(s.records, s.book, ScenarioStrategy(perf));
      && Ready(w)
      && var m := ActionStep(w, Action(Sell, 1.0), 250.0, now);
         StrategyRun(s, ScenarioStrategy(perf), 250.0, now) == Stores(m.records, m.book)
  {
    var st := ScenarioStrategy(perf);
    var w := World(s.records, s.book, st);
    assert ConditionsMet(st.conditions, PriceData(250.0));
    assert st.actions[..0] == [] && st.actions == [Action(Sell, 1.0)];
    assert RunActions(w, st.actions, 250.0, now) == ActionStep(w, Action(Sell, 1.0), 250.0, now);
  }

  /** The scenario's sell of one coin at 250 against an average of 100. */
  lemma ScenarioStep(w: World, held: real, balance: real, e: nat, t: real, now: int)
    requires held > 1.0
    requires Ready(w) && w.current == ScenarioStrategy(Performance(e, e, t)) && w.book == Book([w.current], 1)
    requires w.records.accounts["u"].balance == balance
    requires w.records.accounts["u"].holdings == [Holding("eth", "ETH", held, 100.0)]
    ensures var m := ActionStep(w, Action(Sell, 1.0), 250.0, now);
      && ActionRuns(Owner(w), "eth", Action(Sell, 1.0), 250.0)
      && ActionRecord(w, Action(Sell, 1.0), 250.0, now).profit == Some(150.0)
      && m.records == Records(w.records.accounts["u" := Logged(MarketFill(Owner(w), "eth", "ETH", Sell, 1.0, 250.0),
                                                            EntryOf(ActionRecord(w, Action(Sell, 1.0), 250.0, now)))],
                              w.records.trades + [ActionRecord(w, Action(Sell, 1.0), 250.0, now)], w.records.nextId + 1)
      && m.book == Book([ScenarioStrategy(Performance(e + 1, e + 1, t + 150.0))], 1)
      && m.records.accounts["u"].balance == balance + 250.0
      && m.records.accounts["u"].holdings == [Holding("eth", "ETH", held - 1.0, 100.0)]
  {
    var act := Action(Sell, 1.0);
    var a := Owner(w);
    assert Find(a.holdings, "eth") == Some(0);
    assert ActionRuns(a, "eth", act, 250.0);
    assert Average(w) == 100.0;
    var st' := ScenarioStrategy(Performance(e + 1, e + 1, t + 150.0));
    var filled := MarketFill(a, "eth", "ETH", Sell, 1.0, 250.0);
    assert filled.balance == balance + 250.0 && filled.holdings == [Holding("eth", "ETH", held - 1.0, 100.0)];
    assert ActionStep(w, act, 250.0, now) == Performed(w, act, 250.0, now);
    assert ReplaceStrategy(w.book.strategies, st') == [st'];
  }
}
