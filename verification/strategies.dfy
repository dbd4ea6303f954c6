/** Automated trading strategies: a coin, a list of conditions on market
    data that must all hold, a list of buy/sell actions run in order when
    they do, and performance counters. The condition evaluator, written
    twice in the source (once in the engine and once in the controller),
    is defined here once. */
module Strategies {
  import opened Common
  import opened Store

  /** One condition: `marketData[indicator] operator value`. */
  datatype Condition = Condition(indicator: string, operator: string, value: real)

  /** One action: buy or sell `quantity` of the strategy's coin. */
  datatype Action = Action(side: Side, quantity: real)

  /** The counters the engine keeps on the strategy document. */
  datatype Performance = Performance(executedTrades: nat, successfulTrades: nat, totalProfit: real)

  /** A strategy document. `kind` is the schema's `type` ("buy", "sell" or
      "both"), which nothing in the core reads. */
  datatype Strategy = Strategy(
    id: nat, user: UserId, name: string, description: Option<string>,
    coinId: CoinId, coinSymbol: string, kind: string,
    conditions: seq<Condition>, actions: seq<Action>,
    active: bool, performance: Performance)

  /** Market data by indicator name; an indicator without an entry is `undefined`. */
  type MarketData = map<string, real>

  /** The schema enums. */
  predicate IsIndicator(s: string) {
    s == "price" || s == "volume" || s == "market_cap" || s == "price_change_24h"
  }

  predicate IsOperator(s: string) {
    s == ">" || s == "<" || s == ">=" || s == "<=" || s == "=="
  }

  predicate IsKind(s: string) {
    s == "buy" || s == "sell" || s == "both"
  }

  // ---------------------------------------------------------------------
  // The condition evaluator

  /** One condition: false when the indicator has no market value or the
      operator is not one of the five; otherwise the comparison. */
  predicate Holds(c: Condition, md: MarketData) {
    && c.indicator in md
    && var x := md[c.indicator];
       if c.operator == ">" then x > c.value
       else if c.operator == "<" then x < c.value
       else if c.operator == ">=" then x >= c.value
       else if c.operator == "<=" then x <= c.value
       else if c.operator == "==" then x == c.value
       else false
  }

  /** `evaluateStrategyConditions`: `conditions.every(...)`, the conjunction
      of all conditions, true for an empty list. */
  function ConditionsMet(cs: seq<Condition>, md: MarketData): (r: bool)
    ensures r <==> forall i :: 0 <= i < |cs| ==> Holds(cs[i], md)
  {
    if cs == [] then true else Holds(cs[0], md) && ConditionsMet(cs[1..], md)
  }

  /** The market data both callers build: the price alone. */
  function PriceData(p: real): (md: MarketData)
    ensures md.Keys == {"price"} && md["price"] == p
  {
    map["price" := p]
  }

  /** A condition holds only for a known operator on an indicator with a value. */
  lemma HoldsNeedsData(c: Condition, md: MarketData)
    requires Holds(c, md)
    ensures c.indicator in md && IsOperator(c.operator)
  {
  }

  /** With the price as the only market data, a strategy fires only when all
      its conditions are on the price: a condition on volume, market cap or
      the 24-hour change keeps it from ever firing. */
  lemma {:induction false} OnlyPriceConditionsFire(cs: seq<Condition>, p: real)
    requires ConditionsMet(cs, PriceData(p))
    ensures forall i :: 0 <= i < |cs| ==> cs[i].indicator == "price" && IsOperator(cs[i].operator)
  {
    forall i | 0 <= i < |cs| ensures cs[i].indicator == "price" && IsOperator(cs[i].operator) {
      HoldsNeedsData(cs[i], PriceData(p));
    }
  }

  /** On an indicator with a value, `>` and `<=` are complementary, as are
      `<` and `>=`, and `==` holds exactly when both `<=` and `>=` do. */
  lemma ComplementaryOperators(indicator: string, v: real, md: MarketData)
    requires indicator in md
    ensures Holds(Condition(indicator, ">", v), md) <==> !Holds(Condition(indicator, "<=", v), md)
    ensures Holds(Condition(indicator, "<", v), md) <==> !Holds(Condition(indicator, ">=", v), md)
    ensures Holds(Condition(indicator, "==", v), md)
        <==> Holds(Condition(indicator, "<=", v), md) && Holds(Condition(indicator, ">=", v), md)
  {
  }

  /** Adding a condition can only make a strategy fire less often. */
  lemma {:induction false} MoreConditionsFireLess(cs: seq<Condition>, extra: seq<Condition>, md: MarketData)
    requires ConditionsMet(cs + extra, md)
    ensures ConditionsMet(cs, md) && ConditionsMet(extra, md)
  {
    forall i | 0 <= i < |cs| ensures Holds(cs[i], md) {
      assert (cs + extra)[i] == cs[i];
    }
    forall i | 0 <= i < |extra| ensures Holds(extra[i], md) {
      assert (cs + extra)[|cs| + i] == extra[i];
    }
  }

  // ---------------------------------------------------------------------
  // Trade tallies

  /** Trades carrying a profit, which only the engine's sells record. */
  function Sells(ts: seq<Trade>): (n: nat)
    ensures n <= |ts|
  {
    if ts == [] then 0 else Sells(ts[..|ts| - 1]) + (if ts[|ts| - 1].profit.Some? then 1 else 0)
  }

  /** Trades whose profit is positive. */
  function Wins(ts: seq<Trade>): (n: nat)
    ensures n <= Sells(ts)
  {
    if ts == [] then 0
    else Wins(ts[..|ts| - 1]) + (if ts[|ts| - 1].profit.Some? && ts[|ts| - 1].profit.value > 0.0 then 1 else 0)
  }

  /** The sum of the recorded profits. */
  function ProfitTotal(ts: seq<Trade>): real {
    if ts == [] then 0.0
    else ProfitTotal(ts[..|ts| - 1]) + (if ts[|ts| - 1].profit.Some? then ts[|ts| - 1].profit.value else 0.0)
  }

  // ---------------------------------------------------------------------
  // The strategy collection

  /** Every action of a strategy is for a positive quantity. */
  predicate ActionsPositive(acts: seq<Action>) {
    forall i :: 0 <= i < |acts| ==> acts[i].quantity > 0.0
  }

  /** The strategy collection at one moment. */
  datatype Book = Book(strategies: seq<Strategy>, nextId: nat)

  /** Ids are unique and below the next id; every stored action is positive. */
  predicate ValidBook(b: Book) {
    && (forall i :: 0 <= i < |b.strategies| ==> b.strategies[i].id < b.nextId)
    && (forall i, j :: 0 <= i < j < |b.strategies| ==> b.strategies[i].id != b.strategies[j].id)
    && (forall i :: 0 <= i < |b.strategies| ==> ActionsPositive(b.strategies[i].actions))
  }

  /** Position of the strategy with the given id. */
  function FindStrategy(ss: seq<Strategy>, id: nat): (r: Option<nat>)
    ensures r.Some? ==> r.value < |ss| && ss[r.value].id == id
    ensures r.None? ==> forall j :: 0 <= j < |ss| ==> ss[j].id != id
  {
    if ss == [] then None
    else if ss[0].id == id then Some(0)
    else match FindStrategy(ss[1..], id)
      case None => None
      case Some(i) => Some(i + 1)
  }

  /** `strategy.save()` on a loaded document: the stored strategy with the same id is replaced. */
  function ReplaceStrategy(ss: seq<Strategy>, st: Strategy): (r: seq<Strategy>)
    ensures |r| == |ss|
    ensures forall j :: 0 <= j < |ss| ==> r[j] == if ss[j].id == st.id then st else ss[j]
  {
    if ss == [] then []
    else [if ss[0].id == st.id then st else ss[0]] + ReplaceStrategy(ss[1..], st)
  }

  /** `strategy.remove()`. */
  function DeleteStrategy(ss: seq<Strategy>, id: nat): (r: seq<Strategy>)
    ensures forall st :: st in r <==> st in ss && st.id != id
  {
    if ss == [] then []
    else (if ss[0].id == id then [] else [ss[0]]) + DeleteStrategy(ss[1..], id)
  }

  lemma {:induction false} DeleteStrategyKeepsBook(b: Book, id: nat)
    requires ValidBook(b)
    ensures ValidBook(Book(DeleteStrategy(b.strategies, id), b.nextId))
    decreases |b.strategies|
  {
    var ss := b.strategies;
    if ss != [] {
      BookTail(ss, b.nextId);
      DeleteStrategyKeepsBook(Book(ss[1..], b.nextId), id);
      var tail := DeleteStrategy(ss[1..], id);
      if ss[0].id != id {
        forall j | 0 <= j < |tail| ensures tail[j].id != ss[0].id {
          assert tail[j] in ss[1..];
        }
        assert DeleteStrategy(ss, id) == [ss[0]] + tail;
        BookCons(ss[0], tail, b.nextId);
      } else {
        assert DeleteStrategy(ss, id) == tail;
      }
    }
  }

  /** Dropping the first strategy keeps a book valid. */
  lemma BookTail(ss: seq<Strategy>, next: nat)
    requires ss != [] && ValidBook(Book(ss, next))
    ensures ValidBook(Book(ss[1..], next))
  {
    var b := Book(ss[1..], next);
    forall i, j | 0 <= i < j < |b.strategies| ensures b.strategies[i].id != b.strategies[j].id {
      assert b.strategies[i] == ss[i + 1] && b.strategies[j] == ss[j + 1];
    }
  }

  /** A strategy whose id is fresh among the rest and below the counter can
      be put in front of a valid book. */
  lemma BookCons(s0: Strategy, tail: seq<Strategy>, next: nat)
    requires ValidBook(Book(tail, next)) && s0.id < next && ActionsPositive(s0.actions)
    requires forall j :: 0 <= j < |tail| ==> tail[j].id != s0.id
    ensures ValidBook(Book([s0] + tail, next))
  {
    var ss := [s0] + tail;
    forall i, j | 0 <= i < j < |ss| ensures ss[i].id != ss[j].id {
      assert ss[j] == tail[j - 1];
      if i > 0 {
        assert ss[i] == tail[i - 1];
      }
    }
  }

  lemma ReplaceStrategyKeepsBook(b: Book, st: Strategy)
    requires ValidBook(b) && ActionsPositive(st.actions)
    ensures ValidBook(Book(ReplaceStrategy(b.strategies, st), b.nextId))
  {
    var r := ReplaceStrategy(b.strategies, st);
    forall j | 0 <= j < |r| ensures r[j].id == b.strategies[j].id && ActionsPositive(r[j].actions) {
    }
    forall i, j | 0 <= i < j < |r| ensures r[i].id != r[j].id {
      assert r[i].id == b.strategies[i].id && r[j].id == b.strategies[j].id;
    }
  }

  /** The strategy collection of the store. */
  class StrategyStore {
    var strategies: seq<Strategy>
    var nextId: nat

    function Contents(): Book
      reads this
    {
      Book(strategies, nextId)
    }

    predicate Valid()
      reads this
    {
      ValidBook(Contents())
    }

    constructor ()
      ensures Valid() && strategies == [] && nextId == 0
    {
      strategies, nextId := [], 0;
    }

    /** `Strategy.create(...)`: stores the document under a fresh id. */
    method Insert(st: Strategy) returns (stored: Strategy)
      requires Valid() && ActionsPositive(st.actions)
      modifies this
      ensures Valid()
      ensures stored == st.(id := old(nextId))
      ensures Contents() == Book(old(strategies) + [stored], old(nextId) + 1)
    {
      stored := st.(id := nextId);
      strategies := strategies + [stored];
      nextId := nextId + 1;
    }

    /** `strategy.save()`. */
    method Replace(st: Strategy)
      requires Valid() && ActionsPositive(st.actions)
      modifies this
      ensures Valid()
      ensures Contents() == Book(ReplaceStrategy(old(strategies), st), old(nextId))
    {
      ReplaceStrategyKeepsBook(Contents(), st);
      strategies := ReplaceStrategy(strategies, st);
    }

    /** `strategy.remove()`. */
    method Delete(id: nat)
      requires Valid()
      modifies this
      ensures Valid()
      ensures Contents() == Book(DeleteStrategy(old(strategies), id), old(nextId))
    {
      DeleteStrategyKeepsBook(Contents(), id);
      strategies := DeleteStrategy(strategies, id);
    }
  }
}
