/** The persistent store the controllers and the two background engines
    share: user portfolios by user id and the trade collection, whose
    documents are both filled trades and pending limit/stop orders. */
module Store {
  import opened Common
  import opened Ledger

  datatype OrderKind = Market | Limit | Stop
  datatype Status = Completed | Pending | Failed

  /** Parses `orderType`; anything outside the schema enum is `None`. */
  function KindOf(s: string): (r: Option<OrderKind>)
    ensures r.None? <==> s != "market" && s != "limit" && s != "stop"
  {
    if s == "market" then Some(Market)
    else if s == "limit" then Some(Limit)
    else if s == "stop" then Some(Stop)
    else None
  }

  /** A document of the trade collection. `strategy` names the strategy that
      produced it; `profit` is set on strategy sells and `profitLoss` /
      `profitLossPercentage` on position closes. */
  datatype Trade = Trade(
    id: TradeId, user: UserId, strategy: Option<nat>,
    coinId: CoinId, coinSymbol: string, side: Side,
    quantity: real, price: real, total: real,
    status: Status, orderKind: OrderKind,
    limitPrice: Option<real>, stopPrice: Option<real>,
    profit: Option<real>, profitLoss: Option<real>, profitLossPercentage: Option<real>,
    createdAt: int)

  /** The history entry written for a trade. */
  function EntryOf(t: Trade): (e: Entry)
    ensures e.tradeId == t.id && e.coinId == t.coinId && e.side == t.side
    ensures e.quantity == t.quantity && e.price == t.price && e.total == t.total
  {
    Entry(t.id, t.coinId, t.coinSymbol, t.side, t.quantity, t.price, t.total, t.profitLoss, t.profitLossPercentage)
  }

  /** Position of the trade document with the given id. */
  function FindTrade(ts: seq<Trade>, id: TradeId): (r: Option<nat>)
    ensures r.Some? ==> r.value < |ts| && ts[r.value].id == id
    ensures r.None? ==> forall j :: 0 <= j < |ts| ==> ts[j].id != id
  {
    if ts == [] then None
    else if ts[0].id == id then Some(0)
    else match FindTrade(ts[1..], id)
      case None => None
      case Some(i) => Some(i + 1)
  }

  /** Trade ids are unique and below the next id to hand out. */
  predicate IdsBelow(ts: seq<Trade>, next: TradeId) {
    && (forall i :: 0 <= i < |ts| ==> ts[i].id < next)
    && (forall i, j :: 0 <= i < j < |ts| ==> ts[i].id != ts[j].id)
  }

  /** `order.remove()`: deletes the document with the id. */
  function DeleteTrade(ts: seq<Trade>, id: TradeId): (r: seq<Trade>)
    ensures forall t :: t in r <==> t in ts && t.id != id
    ensures |r| <= |ts|
  {
    if ts == [] then []
    else (if ts[0].id == id then [] else [ts[0]]) + DeleteTrade(ts[1..], id)
  }

  lemma {:induction false} DeleteTradeKeepsIds(ts: seq<Trade>, id: TradeId, next: TradeId)
    requires IdsBelow(ts, next)
    ensures IdsBelow(DeleteTrade(ts, id), next)
  {
    if ts != [] {
      IdsTail(ts, next);
      DeleteTradeKeepsIds(ts[1..], id, next);
      var tail := DeleteTrade(ts[1..], id);
      if ts[0].id != id {
        forall j | 0 <= j < |tail| ensures tail[j].id != ts[0].id {
          assert tail[j] in ts[1..];
        }
        assert DeleteTrade(ts, id) == [ts[0]] + tail;
        IdsCons(ts[0], tail, next);
      } else {
        assert DeleteTrade(ts, id) == tail;
      }
    }
  }

  /** Dropping the first document keeps the ids unique and below the counter. */
  lemma IdsTail(ts: seq<Trade>, next: TradeId)
    requires ts != [] && IdsBelow(ts, next)
    ensures IdsBelow(ts[1..], next)
  {
    var tail := ts[1..];
    forall i, j | 0 <= i < j < |tail| ensures tail[i].id != tail[j].id {
      assert tail[i] == ts[i + 1] && tail[j] == ts[j + 1];
    }
  }

  /** A document with a fresh id below the counter can be put in front. */
  lemma IdsCons(t: Trade, tail: seq<Trade>, next: TradeId)
    requires IdsBelow(tail, next) && t.id < next
    requires forall j :: 0 <= j < |tail| ==> tail[j].id != t.id
    ensures IdsBelow([t] + tail, next)
  {
    var ts := [t] + tail;
    forall i, j | 0 <= i < j < |ts| ensures ts[i].id != ts[j].id {
      assert ts[j] == tail[j - 1];
      if i > 0 {
        assert ts[i] == tail[i - 1];
      }
    }
  }

  /** `order.save()` on a loaded document: the stored document with the
      same id is replaced. */
  function ReplaceTrade(ts: seq<Trade>, t: Trade): (r: seq<Trade>)
    ensures |r| == |ts|
    ensures forall j :: 0 <= j < |ts| ==> r[j] == if ts[j].id == t.id then t else ts[j]
  {
    if ts == [] then []
    else [if ts[0].id == t.id then t else ts[0]] + ReplaceTrade(ts[1..], t)
  }

  /** Replacing a document keeps every position's id. */
  lemma ReplaceTradeKeepsIds(ts: seq<Trade>, t: Trade, next: TradeId)
    requires IdsBelow(ts, next)
    ensures IdsBelow(ReplaceTrade(ts, t), next)
  {
    var r := ReplaceTrade(ts, t);
    assert forall i :: 0 <= i < |r| ==> r[i].id == ts[i].id;
  }

  /** Saving a document that is not pending, or pending with a positive
      quantity, keeps pending documents positive. */
  lemma ReplaceTradeKeepsPending(ts: seq<Trade>, t: Trade)
    requires PendingPositive(ts) && (t.status == Pending ==> t.quantity > 0.0)
    ensures PendingPositive(ReplaceTrade(ts, t))
  {
    var r := ReplaceTrade(ts, t);
    forall x | x in r && x.status == Pending ensures x.quantity > 0.0 {
      var j :| 0 <= j < |r| && r[j] == x;
      if ts[j].id != t.id {
        assert ts[j] in ts;
      }
    }
  }

  /** `.sort({ createdAt: -1 })`: newest first, as documents are stored
      in the order they are created. */
  function Newest<T>(xs: seq<T>): (r: seq<T>)
    ensures |r| == |xs|
    ensures forall k :: 0 <= k < |xs| ==> r[k] == xs[|xs| - 1 - k]
  {
    if xs == [] then [] else [xs[|xs| - 1]] + Newest(xs[..|xs| - 1])
  }

  /** Records of the store at one moment. */
  datatype Records = Records(accounts: map<UserId, Account>, trades: seq<Trade>, nextId: TradeId)

  /** Every pending order is for a positive quantity (the placement checks
      it), so filling one never divides by zero. */
  predicate PendingPositive(ts: seq<Trade>) {
    forall t :: t in ts && t.status == Pending ==> t.quantity > 0.0
  }

  predicate ValidRecords(s: Records) {
    && (forall u :: u in s.accounts ==> ValidAccount(s.accounts[u]))
    && IdsBelow(s.trades, s.nextId)
    && PendingPositive(s.trades)
  }

  /** The trigger rule of limit and stop orders at price `p`: a limit buy at
      or below its limit, a limit sell at or above it, a stop buy at or above
      its stop, a stop sell at or below it. A missing bound never triggers,
      and a market order kept pending never does. */
  predicate Triggered(kind: OrderKind, side: Side, p: real, limitPrice: Option<real>, stopPrice: Option<real>) {
    match kind
    case Limit => limitPrice.Some? && (if side == Buy then p <= limitPrice.value else p >= limitPrice.value)
    case Stop => stopPrice.Some? && (if side == Buy then p >= stopPrice.value else p <= stopPrice.value)
    case Market => false
  }

  class Database {
    var accounts: map<UserId, Account>
    var trades: seq<Trade>
    var nextId: TradeId

    function Contents(): Records
      reads this
    {
      Records(accounts, trades, nextId)
    }

    predicate Valid()
      reads this
    {
      ValidRecords(Contents())
    }

    constructor ()
      ensures Valid() && accounts == map[] && trades == [] && nextId == 0
    {
      accounts, trades, nextId := map[], [], 0;
    }

    /** `Trade.create(...)`: stores the document under a fresh id. */
    method Insert(t: Trade) returns (stored: Trade)
      requires Valid() && (t.status == Pending ==> t.quantity > 0.0)
      modifies this
      ensures Valid()
      ensures stored == t.(id := old(nextId))
      ensures trades == old(trades) + [stored] && nextId == old(nextId) + 1
      ensures accounts == old(accounts)
    {
      stored := t.(id := nextId);
      trades := trades + [stored];
      nextId := nextId + 1;
    }

    /** `order.save()`: writes back a loaded trade document. */
    method Replace(t: Trade)
      requires Valid() && (t.status == Pending ==> t.quantity > 0.0)
      modifies this
      ensures Valid()
      ensures trades == ReplaceTrade(old(trades), t)
      ensures accounts == old(accounts) && nextId == old(nextId)
    {
      ReplaceTradeKeepsIds(trades, t, nextId);
      ReplaceTradeKeepsPending(trades, t);
      trades := ReplaceTrade(trades, t);
    }

    /** `order.remove()`. */
    method Delete(id: TradeId)
      requires Valid()
      modifies this
      ensures Valid()
      ensures trades == DeleteTrade(old(trades), id)
      ensures accounts == old(accounts) && nextId == old(nextId)
    {
      DeleteTradeKeepsIds(trades, id, nextId);
      trades := DeleteTrade(trades, id);
    }

    /** Stores the trade document, prepends its entry to the loaded
        portfolio's history and saves the portfolio: the closing steps of
        every fill. */
    method Commit(u: UserId, p: Portfolio, t: Trade) returns (stored: Trade)
      requires Valid() && ValidAccount(p.State()) && t.status != Pending
      modifies this, p
      ensures Valid()
      ensures stored == t.(id := old(nextId))
      ensures p.State() == Logged(old(p.State()), EntryOf(stored))
      ensures Contents() == Records(old(accounts)[u := Logged(old(p.State()), EntryOf(stored))],
                                    old(trades) + [stored], old(nextId) + 1)
    {
      stored := Insert(t);
      LoggedValid(p.State(), EntryOf(stored));
      p.Log(EntryOf(stored));
      Store(u, p);
    }

    /** `user.save()`: writes back a loaded portfolio. */
    method Store(u: UserId, p: Portfolio)
      requires Valid() && ValidAccount(p.State())
      modifies this
      ensures Valid()
      ensures accounts == old(accounts)[u := p.State()]
      ensures trades == old(trades) && nextId == old(nextId)
    {
      accounts := accounts[u := p.State()];
    }
  }
}
