/** The portfolio ledger of one user: cash balance, coin holdings with a
    weighted-average buy price, and a most-recent-first history capped at
    50 entries. The functions here are the arithmetic that the market
    trade, position closing, order filling and strategy actions each
    repeat inline; the divergences between those copies (when a holding is
    dropped) are kept as two separate functions. */
module Ledger {
  import opened Common

  datatype Holding = Holding(coinId: CoinId, coinSymbol: string, quantity: real, averageBuyPrice: real)

  /** One history entry; the entry date is left out. */
  datatype Entry = Entry(
    tradeId: TradeId, coinId: CoinId, coinSymbol: string, side: Side,
    quantity: real, price: real, total: real,
    profitLoss: Option<real>, profitLossPercentage: Option<real>)

  /** The persisted value of `user.portfolio`. */
  datatype Account = Account(balance: real, holdings: seq<Holding>, history: seq<Entry>)

  /** A new user's portfolio. */
  function NewAccount(): (a: Account)
    ensures a.balance == 100000.0 && a.holdings == [] && a.history == []
  {
    Account(StartingBalance, [], [])
  }

  /** Remainder below which closing a position drops the holding. */
  const Dust: real := 0.00000001

  /** At most one holding per coin, and every holding has a positive quantity. */
  predicate WellFormed(hs: seq<Holding>) {
    && (forall i :: 0 <= i < |hs| ==> hs[i].quantity > 0.0)
    && (forall i, j :: 0 <= i < j < |hs| ==> hs[i].coinId != hs[j].coinId)
  }

  predicate ValidAccount(a: Account) {
    WellFormed(a.holdings) && |a.history| <= HistoryLimit
  }

  /** `holdings.find(h => h.coinId === coin)`: the position of the first holding of the coin. */
  function Find(hs: seq<Holding>, coin: CoinId): (r: Option<nat>)
    ensures r.Some? ==> r.value < |hs| && hs[r.value].coinId == coin
    ensures r.Some? ==> forall j :: 0 <= j < r.value ==> hs[j].coinId != coin
    ensures r.None? <==> forall j :: 0 <= j < |hs| ==> hs[j].coinId != coin
  {
    if hs == [] then None
    else if hs[0].coinId == coin then Some(0)
    else match Find(hs[1..], coin)
      case None => None
      case Some(i) => Some(i + 1)
  }

  /** The quantity held of a coin, 0 when there is no holding. */
  function Held(hs: seq<Holding>, coin: CoinId): real {
    match Find(hs, coin)
    case Some(i) => hs[i].quantity
    case None => 0.0
  }

  /** `holdings.filter(h => h.coinId !== coin)`. */
  function RemoveCoin(hs: seq<Holding>, coin: CoinId): seq<Holding> {
    if hs == [] then []
    else (if hs[0].coinId == coin then [] else [hs[0]]) + RemoveCoin(hs[1..], coin)
  }

  /** Filtering out a coin keeps exactly the holdings of the other coins, and
      changes nothing when the coin is absent. */
  lemma {:induction false} RemoveCoinKeepsOthers(hs: seq<Holding>, coin: CoinId)
    ensures forall h :: h in RemoveCoin(hs, coin) <==> h in hs && h.coinId != coin
    ensures (forall j :: 0 <= j < |hs| ==> hs[j].coinId != coin) ==> RemoveCoin(hs, coin) == hs
    decreases |hs|
  {
    if hs != [] {
      RemoveCoinKeepsOthers(hs[1..], coin);
      assert hs == [hs[0]] + hs[1..];
    }
  }

  /** `history.unshift(e)` followed by `history.slice(0, 50)` when longer than 50. */
  function Record(history: seq<Entry>, e: Entry): (r: seq<Entry>)
    ensures |r| == if |history| < HistoryLimit then |history| + 1 else HistoryLimit
    ensures r[0] == e
    ensures forall k :: 1 <= k < |r| ==> r[k] == history[k - 1]
  {
    var h := [e] + history;
    if |h| > HistoryLimit then h[..HistoryLimit] else h
  }

  /** A buy fill of `q` coins at `price`: the existing holding gets the
      quantity-weighted average of its cost basis and the fill cost
      `price * q`; otherwise a new holding is appended at `price`. */
  function BuyInto(hs: seq<Holding>, coin: CoinId, sym: string, q: real, price: real): seq<Holding>
    requires q > 0.0 && WellFormed(hs)
  {
    match Find(hs, coin)
    case Some(i) => hs[i := Merge(hs[i], q, price)]
    case None => hs + [Holding(coin, sym, q, price)]
  }

  /** The holding after buying `q` more at `price`: the new quantity, at the
      quantity-weighted average of the old cost basis and the fill cost. */
  function Merge(h: Holding, q: real, price: real): Holding
    requires h.quantity > 0.0 && q > 0.0
  {
    var newQuantity := h.quantity + q;
    h.(quantity := newQuantity, averageBuyPrice := (h.quantity * h.averageBuyPrice + price * q) / newQuantity)
  }

  /** Takes `q` from the holding at `i`, or drops every holding of that coin when `drop`. */
  function Withdraw(hs: seq<Holding>, i: nat, q: real, drop: bool): seq<Holding>
    requires i < |hs|
  {
    if drop then RemoveCoin(hs, hs[i].coinId)
    else hs[i := hs[i].(quantity := hs[i].quantity - q)]
  }

  /** A market, order or strategy sell: the holding goes only when exactly 0 is left. */
  function SellOut(hs: seq<Holding>, i: nat, q: real): seq<Holding>
    requires i < |hs|
  {
    Withdraw(hs, i, q, hs[i].quantity - q == 0.0)
  }

  /** Closing a position: the holding goes when less than `Dust` is left. */
  function CloseOut(hs: seq<Holding>, i: nat, q: real): seq<Holding>
    requires i < |hs|
  {
    Withdraw(hs, i, q, hs[i].quantity - q < Dust)
  }

  // ---------------------------------------------------------------------
  // Properties of the ledger arithmetic

  /** In a well-formed list the holding of a coin is the only one with that id. */
  lemma FindUnique(hs: seq<Holding>, coin: CoinId, k: nat)
    requires WellFormed(hs) && k < |hs| && hs[k].coinId == coin
    ensures Find(hs, coin) == Some(k)
  {
  }

  /** A buy keeps the holdings well formed, adds exactly `q` to the coin's
      quantity, keeps the cost basis `quantity * averageBuyPrice` equal to
      the old cost basis plus the fill cost, and touches no other coin. */
  lemma BuyIntoCostBasis(hs: seq<Holding>, coin: CoinId, sym: string, q: real, price: real)
    requires q > 0.0 && WellFormed(hs)
    ensures var r := BuyInto(hs, coin, sym, q, price);
      && WellFormed(r)
      && Held(r, coin) == Held(hs, coin) + q
      && CostBasis(r, coin) == CostBasis(hs, coin) + price * q
      && Find(r, coin).Some?
      && (forall c :: c != coin ==> Find(r, c) == Find(hs, c))
  {
    match Find(hs, coin)
    case Some(i) =>
      BuyIntoHeld(hs, coin, sym, q, price, i);
    case None =>
      var h := Holding(coin, sym, q, price);
      AppendKeepsFind(hs, h);
      CostBasisAt(hs + [h], coin, |hs|);
  }

  /** A buy of a coin already held merges the fill into that holding, in place. */
  lemma BuyIntoHeld(hs: seq<Holding>, coin: CoinId, sym: string, q: real, price: real, i: nat)
    requires q > 0.0 && WellFormed(hs) && Find(hs, coin) == Some(i)
    ensures var r := BuyInto(hs, coin, sym, q, price);
      && WellFormed(r)
      && Find(r, coin) == Some(i)
      && Held(r, coin) == Held(hs, coin) + q
      && CostBasis(r, coin) == CostBasis(hs, coin) + price * q
      && (forall c :: c != coin ==> Find(r, c) == Find(hs, c))
  {
    var m := Merge(hs[i], q, price);
    MergeFigures(hs[i], q, price);
    UpdateKeepsFind(hs, i, m);
    CostBasisAt(hs, coin, i);
    CostBasisAt(hs[i := m], coin, i);
  }

  lemma CostBasisAt(hs: seq<Holding>, coin: CoinId, i: nat)
    requires Find(hs, coin) == Some(i)
    ensures Held(hs, coin) == hs[i].quantity
    ensures CostBasis(hs, coin) == hs[i].quantity * hs[i].averageBuyPrice
  {
  }

  /** Merging a fill adds its quantity, and its cost to the cost basis. */
  lemma MergeFigures(h: Holding, q: real, price: real)
    requires h.quantity > 0.0 && q > 0.0
    ensures var m := Merge(h, q, price);
      && m.coinId == h.coinId && m.quantity == h.quantity + q > 0.0
      && m.quantity * m.averageBuyPrice == h.quantity * h.averageBuyPrice + price * q
  {
    WeightedAverage(h.quantity * h.averageBuyPrice + price * q, h.quantity + q);
  }

  /** Multiplying the weighted average back by the new quantity gives the cost basis. */
  lemma WeightedAverage(cost: real, n: real)
    requires n != 0.0
    ensures (cost / n) * n == cost
  {
  }

  /** Replacing a holding by one of the same coin keeps every lookup. */
  lemma UpdateKeepsFind(hs: seq<Holding>, i: nat, h: Holding)
    requires WellFormed(hs) && i < |hs| && h.coinId == hs[i].coinId && h.quantity > 0.0
    ensures WellFormed(hs[i := h])
    ensures forall c :: Find(hs[i := h], c) == Find(hs, c)
  {
    var r := hs[i := h];
    forall c ensures Find(r, c) == Find(hs, c) {
      match Find(hs, c)
      case Some(j) => FindUnique(r, c, j);
      case None =>
    }
  }

  /** Appending a holding of a new coin keeps every other lookup. */
  lemma AppendKeepsFind(hs: seq<Holding>, h: Holding)
    requires WellFormed(hs) && Find(hs, h.coinId).None? && h.quantity > 0.0
    ensures WellFormed(hs + [h])
    ensures Find(hs + [h], h.coinId) == Some(|hs|)
    ensures forall c :: c != h.coinId ==> Find(hs + [h], c) == Find(hs, c)
  {
    var r := hs + [h];
    FindUnique(r, h.coinId, |hs|);
    forall c | c != h.coinId ensures Find(r, c) == Find(hs, c) {
      match Find(hs, c)
      case Some(j) => FindUnique(r, c, j);
      case None =>
    }
  }

  /** Cost basis of the coin's holding, 0 when there is none. */
  function CostBasis(hs: seq<Holding>, coin: CoinId): real {
    match Find(hs, coin)
    case Some(i) => hs[i].quantity * hs[i].averageBuyPrice
    case None => 0.0
  }

  /** The new average lies between the old average and the fill price. */
  lemma AverageBetween(oldQuantity: real, oldAverage: real, q: real, price: real)
    requires oldQuantity > 0.0 && q > 0.0
    ensures var avg := (oldQuantity * oldAverage + price * q) / (oldQuantity + q);
      Min(oldAverage, price) <= avg <= Max(oldAverage, price)
  {
    var n := oldQuantity + q;
    var avg := (oldQuantity * oldAverage + price * q) / n;
    assert avg * n == oldQuantity * oldAverage + price * q;
    var lo, hi := Min(oldAverage, price), Max(oldAverage, price);
    assert oldQuantity * oldAverage >= oldQuantity * lo && price * q >= lo * q;
    assert oldQuantity * oldAverage <= oldQuantity * hi && price * q <= hi * q;
    assert avg * n >= lo * n && avg * n <= hi * n;
  }

  /** A sequence of buy fills `(quantity, price)` applied one after another. */
  datatype Fill = Fill(quantity: real, price: real)

  predicate PositiveFills(fills: seq<Fill>) {
    forall k :: 0 <= k < |fills| ==> fills[k].quantity > 0.0
  }

  function BuyAll(hs: seq<Holding>, coin: CoinId, sym: string, fills: seq<Fill>): (r: seq<Holding>)
    requires WellFormed(hs) && PositiveFills(fills)
    ensures WellFormed(r)
    decreases |fills|
  {
    if fills == [] then hs
    else
      var init := BuyAll(hs, coin, sym, fills[..|fills| - 1]);
      var f := fills[|fills| - 1];
      assert WellFormed(BuyInto(init, coin, sym, f.quantity, f.price)) by {
        BuyIntoCostBasis(init, coin, sym, f.quantity, f.price);
      }
      BuyInto(init, coin, sym, f.quantity, f.price)
  }

  function TotalQuantity(fills: seq<Fill>): real {
    if fills == [] then 0.0 else TotalQuantity(fills[..|fills| - 1]) + fills[|fills| - 1].quantity
  }

  function TotalCost(fills: seq<Fill>): real {
    if fills == [] then 0.0
    else TotalCost(fills[..|fills| - 1]) + fills[|fills| - 1].price * fills[|fills| - 1].quantity
  }

  /** The holding that a sequence of buy fills builds up from nothing: the
      total bought, at the quantity-weighted mean of the fill prices. */
  function Bought(coin: CoinId, sym: string, fills: seq<Fill>): Holding
    requires TotalQuantity(fills) > 0.0
  {
    Holding(coin, sym, TotalQuantity(fills), TotalCost(fills) / TotalQuantity(fills))
  }

  /** Merging the last fill into the holding built from the others gives the
      holding built from all of them. */
  lemma MergeBought(coin: CoinId, sym: string, fills: seq<Fill>)
    requires PositiveFills(fills) && |fills| > 1
    ensures var init, f := fills[..|fills| - 1], fills[|fills| - 1];
      && TotalQuantity(init) > 0.0 && f.quantity > 0.0
      && Merge(Bought(coin, sym, init), f.quantity, f.price) == Bought(coin, sym, fills)
  {
    var init, f := fills[..|fills| - 1], fills[|fills| - 1];
    PositiveInit(fills);
    PositiveTotal(init);
    MergeTotals(TotalQuantity(init), TotalCost(init), f.quantity, f.price);
  }

  lemma MergeTotals(q0: real, c0: real, q: real, p: real)
    requires q0 > 0.0 && q > 0.0
    ensures (q0 * (c0 / q0) + p * q) / (q0 + q) == (c0 + p * q) / (q0 + q)
  {
    WeightedAverage(c0, q0);
  }

  lemma {:induction false} PositiveTotal(fills: seq<Fill>)
    requires PositiveFills(fills) && fills != []
    ensures TotalQuantity(fills) > 0.0
    decreases |fills|
  {
    if |fills| > 1 {
      PositiveInit(fills);
      PositiveTotal(fills[..|fills| - 1]);
    }
  }

  /** Starting from no holding of the coin, the buys leave exactly the
      built-up holding at the coin's position. */
  lemma {:induction false} BuyAllHolding(hs: seq<Holding>, coin: CoinId, sym: string, fills: seq<Fill>)
    requires WellFormed(hs) && PositiveFills(fills) && fills != []
    requires Find(hs, coin).None?
    ensures TotalQuantity(fills) > 0.0
    ensures var r := BuyAll(hs, coin, sym, fills);
      Find(r, coin).Some? && r[Find(r, coin).value] == Bought(coin, sym, fills)
    decreases |fills|
  {
    var init := fills[..|fills| - 1];
    var f := fills[|fills| - 1];
    PositiveInit(fills);
    PositiveTotal(fills);
    var prev := BuyAll(hs, coin, sym, init);
    assert BuyAll(hs, coin, sym, fills) == BuyInto(prev, coin, sym, f.quantity, f.price);
    if |fills| == 1 {
      assert init == [];
      FirstHolding(hs, coin, sym, f.quantity, f.price);
      SingleBought(coin, sym, fills);
    } else {
      BuyAllHolding(hs, coin, sym, init);
      NextHolding(prev, coin, sym, Bought(coin, sym, init), f.quantity, f.price);
      MergeBought(coin, sym, fills);
    }
  }

  lemma FirstHolding(hs: seq<Holding>, coin: CoinId, sym: string, q: real, price: real)
    requires WellFormed(hs) && Find(hs, coin).None? && q > 0.0
    ensures var r := BuyInto(hs, coin, sym, q, price);
      Find(r, coin).Some? && r[Find(r, coin).value] == Holding(coin, sym, q, price)
  {
    AppendKeepsFind(hs, Holding(coin, sym, q, price));
  }

  lemma NextHolding(hs: seq<Holding>, coin: CoinId, sym: string, g: Holding, q: real, price: real)
    requires WellFormed(hs) && Find(hs, coin).Some? && hs[Find(hs, coin).value] == g && q > 0.0
    ensures var r := BuyInto(hs, coin, sym, q, price);
      Find(r, coin).Some? && r[Find(r, coin).value] == Merge(g, q, price)
  {
    var i := Find(hs, coin).value;
    UpdateKeepsFind(hs, i, Merge(g, q, price));
  }

  lemma SingleBought(coin: CoinId, sym: string, fills: seq<Fill>)
    requires |fills| == 1 && fills[0].quantity > 0.0
    ensures TotalQuantity(fills) > 0.0
    ensures Bought(coin, sym, fills) == Holding(coin, sym, fills[0].quantity, fills[0].price)
  {
    var q, price := fills[0].quantity, fills[0].price;
    assert fills[..|fills| - 1] == [];
    assert TotalQuantity(fills) == q;
    assert TotalCost(fills) == price * q;
    DivideBack(q, price, price * q);
  }

  /** Quantity and cost basis of a coin whose holding is known. */
  lemma HoldingFigures(r: seq<Holding>, coin: CoinId, quantity: real, cost: real)
    requires Find(r, coin).Some? && quantity > 0.0
    requires r[Find(r, coin).value].quantity == quantity
    requires r[Find(r, coin).value].averageBuyPrice == cost / quantity
    ensures Held(r, coin) == quantity && CostBasis(r, coin) == cost
  {
    WeightedAverage(cost, quantity);
  }

  /** Starting from no holding of the coin, any sequence of buy fills leaves a
      holding whose quantity is the total bought and whose average buy price
      is the quantity-weighted mean of the fill prices. */
  lemma {:induction false} AverageOfFills(hs: seq<Holding>, coin: CoinId, sym: string, fills: seq<Fill>)
    requires WellFormed(hs) && PositiveFills(fills) && fills != []
    requires Find(hs, coin).None?
    ensures var r := BuyAll(hs, coin, sym, fills);
      && Find(r, coin).Some?
      && TotalQuantity(fills) > 0.0
      && r[Find(r, coin).value].quantity == TotalQuantity(fills)
      && r[Find(r, coin).value].averageBuyPrice == TotalCost(fills) / TotalQuantity(fills)
  {
    BuyAllHolding(hs, coin, sym, fills);
  }

  /** Any sequence of buys of a coin not held before leaves the total
      bought, at a cost basis of the total paid. */
  lemma {:induction false} AccumulatedFills(hs: seq<Holding>, coin: CoinId, sym: string, fills: seq<Fill>)
    requires WellFormed(hs) && PositiveFills(fills)
    requires Find(hs, coin).None?
    ensures var r := BuyAll(hs, coin, sym, fills);
      && Held(r, coin) == TotalQuantity(fills)
      && CostBasis(r, coin) == TotalCost(fills)
      && (fills != [] ==> Find(r, coin).Some? && TotalQuantity(fills) > 0.0)
  {
    if fills != [] {
      BuyAllHolding(hs, coin, sym, fills);
      HoldingFigures(BuyAll(hs, coin, sym, fills), coin, TotalQuantity(fills), TotalCost(fills));
    }
  }

  lemma PositiveInit(fills: seq<Fill>)
    requires PositiveFills(fills) && fills != []
    ensures PositiveFills(fills[..|fills| - 1])
  {
    var init := fills[..|fills| - 1];
    forall k | 0 <= k < |init| ensures init[k].quantity > 0.0 {
      assert init[k] == fills[k];
    }
  }

  lemma DivideBack(n: real, avg: real, cost: real)
    requires n != 0.0 && n * avg == cost
    ensures avg == cost / n
  {
  }

  lemma HeldNonNegative(hs: seq<Holding>, coin: CoinId)
    requires WellFormed(hs)
    ensures Held(hs, coin) >= 0.0
  {
  }

  /** Selling part of a holding keeps the average buy price; selling all of
      it removes every holding of the coin. Either way the holdings stay
      well formed when no more than held is sold. */
  lemma SellOutEffect(hs: seq<Holding>, i: nat, q: real)
    requires WellFormed(hs) && i < |hs| && 0.0 < q <= hs[i].quantity
    ensures var r := SellOut(hs, i, q); var coin := hs[i].coinId;
      && WellFormed(r)
      && (hs[i].quantity == q ==> Find(r, coin).None?)
      && (hs[i].quantity != q ==> r[i] == hs[i].(quantity := hs[i].quantity - q) && |r| == |hs|)
      && Held(r, coin) == hs[i].quantity - q
      && (Find(r, coin).Some? ==> r[Find(r, coin).value].averageBuyPrice == hs[i].averageBuyPrice)
      && (forall c :: c != coin ==> Held(r, c) == Held(hs, c))
  {
    var r := SellOut(hs, i, q);
    WithdrawEffect(hs, i, q, hs[i].quantity - q == 0.0);
    if hs[i].quantity != q {
      FindUnique(r, hs[i].coinId, i);
    }
  }

  /** Closing never leaves a holding smaller than `Dust`. */
  lemma CloseOutEffect(hs: seq<Holding>, i: nat, q: real)
    requires WellFormed(hs) && i < |hs| && 0.0 <= q <= hs[i].quantity
    ensures var r := CloseOut(hs, i, q); var coin := hs[i].coinId;
      && WellFormed(r)
      && (hs[i].quantity - q < Dust ==> Find(r, coin).None?)
      && (hs[i].quantity - q >= Dust ==> r[i] == hs[i].(quantity := hs[i].quantity - q) && r[i].quantity >= Dust)
      && (forall c :: c != coin ==> Held(r, c) == Held(hs, c))
  {
    WithdrawEffect(hs, i, q, hs[i].quantity - q < Dust);
  }

  lemma WithdrawEffect(hs: seq<Holding>, i: nat, q: real, drop: bool)
    requires WellFormed(hs) && i < |hs| && q <= hs[i].quantity
    requires !drop ==> hs[i].quantity - q > 0.0
    ensures var r := Withdraw(hs, i, q, drop); var coin := hs[i].coinId;
      && WellFormed(r)
      && (drop ==> Find(r, coin).None?)
      && (!drop ==> r == hs[i := hs[i].(quantity := hs[i].quantity - q)])
      && (forall c :: c != coin ==> Held(r, c) == Held(hs, c))
  {
    var coin := hs[i].coinId;
    if drop {
      RemoveCoinDropsOne(hs, i);
      DropKeepsHeld(hs, i);
    } else {
      UpdateKeepsFind(hs, i, hs[i].(quantity := hs[i].quantity - q));
    }
  }

  /** In a well-formed list, filtering out a coin deletes exactly its one holding. */
  lemma {:induction false} RemoveCoinDropsOne(hs: seq<Holding>, i: nat)
    requires WellFormed(hs) && i < |hs|
    ensures RemoveCoin(hs, hs[i].coinId) == hs[..i] + hs[i + 1..]
    decreases i
  {
    var coin := hs[i].coinId;
    var tail := hs[1..];
    TailWellFormed(hs);
    if i == 0 {
      RemoveCoinKeepsOthers(tail, coin);
      assert RemoveCoin(hs, coin) == [] + RemoveCoin(tail, coin);
    } else {
      RemoveCoinDropsOne(tail, i - 1);
      assert RemoveCoin(hs, coin) == [hs[0]] + (tail[..i - 1] + tail[i..]);
      ConsDrop(hs, i);
    }
  }

  /** The rest of a well-formed list is well formed and has no holding of its first coin. */
  lemma TailWellFormed(hs: seq<Holding>)
    requires WellFormed(hs) && hs != []
    ensures WellFormed(hs[1..])
    ensures forall j :: 0 <= j < |hs[1..]| ==> hs[1..][j].coinId != hs[0].coinId
  {
  }

  lemma ConsDrop<T>(s: seq<T>, i: nat)
    requires 0 < i < |s|
    ensures [s[0]] + (s[1..][..i - 1] + s[1..][i..]) == s[..i] + s[i + 1..]
  {
    DropAt(s, i);
    DropAt(s[1..], i - 1);
  }

  /** Dropping the element at `i` shifts every later element down by one. */
  lemma DropAt<T>(s: seq<T>, i: nat)
    requires i < |s|
    ensures |s[..i] + s[i + 1..]| == |s| - 1
    ensures forall j :: 0 <= j < i ==> (s[..i] + s[i + 1..])[j] == s[j]
    ensures forall j :: i < j < |s| ==> (s[..i] + s[i + 1..])[j - 1] == s[j]
  {
  }

  /** Deleting one holding of a well-formed list keeps it well formed and
      keeps every other coin's quantity. */
  lemma DropKeepsHeld(hs: seq<Holding>, i: nat)
    requires WellFormed(hs) && i < |hs|
    ensures var d := hs[..i] + hs[i + 1..];
      && WellFormed(d)
      && Find(d, hs[i].coinId).None?
      && forall c :: c != hs[i].coinId ==> Held(d, c) == Held(hs, c)
  {
    var d := hs[..i] + hs[i + 1..];
    DropWellFormed(hs, i);
    forall c | c != hs[i].coinId ensures Held(d, c) == Held(hs, c) {
      DropKeepsFind(hs, i, c);
    }
  }

  lemma DropWellFormed(hs: seq<Holding>, i: nat)
    requires WellFormed(hs) && i < |hs|
    ensures WellFormed(hs[..i] + hs[i + 1..])
    ensures Find(hs[..i] + hs[i + 1..], hs[i].coinId).None?
  {
    DropAt(hs, i);
  }

  lemma DropKeepsFind(hs: seq<Holding>, i: nat, c: CoinId)
    requires WellFormed(hs) && i < |hs| && c != hs[i].coinId
    ensures Held(hs[..i] + hs[i + 1..], c) == Held(hs, c)
  {
    var d := hs[..i] + hs[i + 1..];
    DropWellFormed(hs, i);
    DropAt(hs, i);
    match Find(hs, c)
    case Some(j) =>
      var k := if j < i then j else j - 1;
      assert d[k] == hs[j];
      FindUnique(d, c, k);
      CostBasisAt(d, c, k);
      CostBasisAt(hs, c, j);
    case None =>
      assert forall k :: 0 <= k < |d| ==> d[k].coinId != c;
  }

  // ---------------------------------------------------------------------
  // Whole-account updates shared by the market trade and the strategy actions

  /** The sell precondition: a holding of the coin of at least `q`. */
  predicate CanSell(hs: seq<Holding>, coin: CoinId, q: real) {
    Find(hs, coin).Some? && hs[Find(hs, coin).value].quantity >= q
  }

  /** A market fill of `q` coins at `price`: a buy debits `price * q` and
      folds the fill into the holding; a sell credits `price * q` and takes
      `q` from the holding, dropping it at exactly 0. History is untouched. */
  function MarketFill(a: Account, coin: CoinId, sym: string, side: Side, q: real, price: real): Account
    requires q > 0.0 && WellFormed(a.holdings)
    requires side == Sell ==> Find(a.holdings, coin).Some?
  {
    match side
    case Buy => a.(balance := a.balance - price * q, holdings := BuyInto(a.holdings, coin, sym, q, price))
    case Sell => a.(balance := a.balance + price * q, holdings := SellOut(a.holdings, Find(a.holdings, coin).value, q))
  }

  /** Selling `q` of the holding at `i` when closing a position: credit the
      proceeds and drop the holding when less than `Dust` is left. */
  function Closed(a: Account, i: nat, q: real, price: real): Account
    requires i < |a.holdings|
  {
    a.(balance := a.balance + price * q, holdings := CloseOut(a.holdings, i, q))
  }

  /** The account with one more history entry. */
  function Logged(a: Account, e: Entry): Account {
    a.(history := Record(a.history, e))
  }

  /** Realized profit of selling `q` coins bought at `average` for `price` each. */
  function Realized(average: real, q: real, price: real): real {
    price * q - q * average
  }

  lemma LoggedValid(a: Account, e: Entry)
    requires ValidAccount(a)
    ensures ValidAccount(Logged(a, e)) && Logged(a, e).history[0] == e
  {
  }

  /** A market buy debits exactly the fill cost, which reappears in the
      coin's cost basis: cash plus cost basis is conserved. */
  lemma MarketBuyEffect(a: Account, coin: CoinId, sym: string, q: real, price: real)
    requires ValidAccount(a) && q > 0.0
    ensures var r := MarketFill(a, coin, sym, Buy, q, price);
      && ValidAccount(r) && r.history == a.history
      && r.balance == a.balance - price * q
      && Held(r.holdings, coin) == Held(a.holdings, coin) + q
      && r.balance + CostBasis(r.holdings, coin) == a.balance + CostBasis(a.holdings, coin)
      && (forall c :: c != coin ==> Held(r.holdings, c) == Held(a.holdings, c))
  {
    var hs := a.holdings;
    BuyIntoCostBasis(hs, coin, sym, q, price);
    var r := BuyInto(hs, coin, sym, q, price);
    forall c | c != coin ensures Held(r, c) == Held(hs, c) {
      match Find(hs, coin)
      case Some(i) =>
        if Find(hs, c).Some? { assert Find(hs, c).value != i; }
      case None =>
    }
  }

  /** A market sell credits exactly the proceeds, takes `q` from the coin,
      keeps its average buy price while some is left, and touches no other coin. */
  lemma MarketSellEffect(a: Account, coin: CoinId, sym: string, q: real, price: real)
    requires ValidAccount(a) && q > 0.0 && CanSell(a.holdings, coin, q)
    ensures var r := MarketFill(a, coin, sym, Sell, q, price);
      && ValidAccount(r) && r.history == a.history
      && r.balance == a.balance + price * q
      && Held(r.holdings, coin) == Held(a.holdings, coin) - q
      && (Find(r.holdings, coin).Some? ==>
            r.holdings[Find(r.holdings, coin).value].averageBuyPrice
              == a.holdings[Find(a.holdings, coin).value].averageBuyPrice)
      && (forall c :: c != coin ==> Held(r.holdings, c) == Held(a.holdings, c))
  {
    var hs := a.holdings;
    var i := Find(hs, coin).value;
    SellOutEffect(hs, i, q);
    assert MarketFill(a, coin, sym, Sell, q, price) == a.(balance := a.balance + price * q, holdings := SellOut(hs, i, q));
  }

  /** Buying a coin not held and selling the same quantity at the same price
      gives back exactly the account before. */
  lemma BuyThenSellRestores(a: Account, coin: CoinId, sym: string, q: real, price: real)
    requires ValidAccount(a) && q > 0.0 && Find(a.holdings, coin).None?
    ensures var b := MarketFill(a, coin, sym, Buy, q, price);
      && Find(b.holdings, coin).Some?
      && MarketFill(b, coin, sym, Sell, q, price) == a
  {
    var hs := a.holdings;
    var h := Holding(coin, sym, q, price);
    AppendKeepsFind(hs, h);
    SellAppendedAll(hs, h);
    var b := MarketFill(a, coin, sym, Buy, q, price);
    assert b == a.(balance := a.balance - price * q, holdings := hs + [h]);
    var c := MarketFill(b, coin, sym, Sell, q, price);
    assert c == b.(balance := b.balance + price * q, holdings := hs);
  }

  /** Selling all of a holding just appended gives the holdings back. */
  lemma SellAppendedAll(hs: seq<Holding>, h: Holding)
    requires WellFormed(hs) && Find(hs, h.coinId).None? && h.quantity > 0.0
    ensures SellOut(hs + [h], |hs|, h.quantity) == hs
  {
    var r := hs + [h];
    AppendKeepsFind(hs, h);
    assert r[|hs|] == h;
    assert SellOut(r, |hs|, h.quantity) == RemoveCoin(r, h.coinId);
    RemoveCoinDropsOne(r, |hs|);
    assert r[..|hs|] == hs && r[|hs| + 1..] == [];
  }

  /** Two buys and a sell of one coin from a new account. */
  lemma TradeScenario()
    ensures var a1 := MarketFill(NewAccount(), "x", "X", Buy, 2.0, 100.0);
      var a2 := MarketFill(a1, "x", "X", Buy, 1.0, 130.0);
      var a3 := MarketFill(a2, "x", "X", Sell, 1.0, 150.0);
      && a1.balance == 99800.0 && a1.holdings == [Holding("x", "X", 2.0, 100.0)]
      && a2.holdings == [Holding("x", "X", 3.0, 110.0)]
      && a3.balance == a2.balance + 150.0 && a3.holdings == [Holding("x", "X", 2.0, 110.0)]
      && Realized(a2.holdings[0].averageBuyPrice, 1.0, 150.0) == 40.0
  {
    var a1 := MarketFill(NewAccount(), "x", "X", Buy, 2.0, 100.0);
    assert a1.holdings == [Holding("x", "X", 2.0, 100.0)];
    var a2 := MarketFill(a1, "x", "X", Buy, 1.0, 130.0);
    assert Find(a1.holdings, "x") == Some(0);
    assert a2.holdings == [Holding("x", "X", 3.0, 110.0)];
    assert Find(a2.holdings, "x") == Some(0);
  }

  // ---------------------------------------------------------------------
  // The loaded user document

  /** `user.portfolio` once loaded: the operations change its fields in
      place and then save it back. */
  class Portfolio {
    var balance: real
    var holdings: seq<Holding>
    var history: seq<Entry>

    constructor Load(a: Account)
      ensures State() == a
    {
      balance, holdings, history := a.balance, a.holdings, a.history;
    }

    function State(): Account
      reads this
    {
      Account(balance, holdings, history)
    }

    /** A market fill applied to the loaded portfolio. */
    method Fill(coin: CoinId, sym: string, side: Side, q: real, price: real)
      requires q > 0.0 && ValidAccount(State())
      requires side == Sell ==> CanSell(holdings, coin, q)
      modifies this
      ensures State() == MarketFill(old(State()), coin, sym, side, q, price)
      ensures ValidAccount(State())
    {
      ghost var a := State();
      var total := price * q;
      if side == Buy {
        MarketBuyEffect(a, coin, sym, q, price);
        balance := balance - total;
        holdings := BuyInto(holdings, coin, sym, q, price);
      } else {
        MarketSellEffect(a, coin, sym, q, price);
        balance := balance + total;
        holdings := SellOut(holdings, Find(holdings, coin).value, q);
      }
    }

    /** Adds `q` coins bought at `price` whose cost was paid beforehand. */
    method Acquire(coin: CoinId, sym: string, q: real, price: real)
      requires q > 0.0 && ValidAccount(State())
      modifies this
      ensures State() == old(State()).(holdings := BuyInto(old(holdings), coin, sym, q, price))
      ensures ValidAccount(State())
    {
      MarketBuyEffect(State(), coin, sym, q, price);
      holdings := BuyInto(holdings, coin, sym, q, price);
    }

    /** Closing `q` of the holding at `i` on the loaded portfolio. */
    method Close(i: nat, q: real, price: real)
      requires ValidAccount(State()) && i < |holdings| && 0.0 <= q <= holdings[i].quantity
      modifies this
      ensures State() == Closed(old(State()), i, q, price)
      ensures ValidAccount(State())
    {
      CloseOutEffect(holdings, i, q);
      balance := balance + price * q;
      holdings := CloseOut(holdings, i, q);
    }

    /** Prepends one history entry and trims the history to 50 entries. */
    method Log(e: Entry)
      modifies this
      ensures history == Record(old(history), e)
      ensures balance == old(balance) && holdings == old(holdings)
    {
      history := [e] + history;
      if |history| > HistoryLimit {
        history := history[..HistoryLimit];
      }
    }
  }
}
