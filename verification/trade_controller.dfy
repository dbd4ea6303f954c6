/** The interactive trading operations: market trades, closing a position,
    placing and cancelling limit/stop orders, and the valuation of a
    portfolio at current prices. The price lookup is a parameter (`quote`);
    the clock reading that stamps new documents is the parameter `now`. */
module TradeController {
  import opened Common
  import opened Ledger
  import opened Store

  datatype TradeError =
    | MissingFields | BadType | BadQuantity        // request validation
    | LookupFailed | NoPrice                       // the price lookup threw / answered nothing usable
    | UserNotFound | InsufficientFunds | InsufficientCoins
    | MissingCoin | BadPercentage | NoHolding      // closing a position
    | LimitPriceRequired | StopPriceRequired | InvalidOrder
    | OrderNotFound | NotOwner | NotPending        // cancelling an order

  /** The body of a trade or order request; absent fields are `None`. */
  datatype TradeRequest = TradeRequest(
    coinId: Option<string>, coinSymbol: Option<string>, kind: Option<string>, quantity: Option<real>,
    orderType: Option<string>, limitPrice: Option<real>, stopPrice: Option<real>)

  /** A validated trade intent. */
  datatype Ticket = Ticket(coin: CoinId, sym: string, side: Side, quantity: real)

  /** The four fields a trade request must carry. */
  predicate Complete(req: TradeRequest) {
    GivenText(req.coinId) && GivenText(req.coinSymbol) && GivenText(req.kind) && GivenNumber(req.quantity)
  }

  function PriceOf(q: Quote): real {
    if q.Price? then q.value else 0.0
  }

  // ---------------------------------------------------------------------
  // Market trade

  /** Validation of a market trade request: missing fields, then the side,
      then the sign of the quantity. */
  function CheckMarket(req: TradeRequest): (r: Result<Ticket, TradeError>)
    ensures r == Err(MissingFields) <==> !Complete(req)
    ensures r == Err(BadType) <==> Complete(req) && SideOf(req.kind.value).None?
    ensures r == Err(BadQuantity) <==> Complete(req) && SideOf(req.kind.value).Some? && req.quantity.value < 0.0
    ensures r.Ok? <==> Complete(req) && SideOf(req.kind.value).Some? && req.quantity.value > 0.0
    ensures r.Ok? ==> r.value == Ticket(req.coinId.value, req.coinSymbol.value, SideOf(req.kind.value).value, req.quantity.value)
  {
    if !Complete(req) then Err(MissingFields)
    else if SideOf(req.kind.value).None? then Err(BadType)
    else if req.quantity.value <= 0.0 then Err(BadQuantity)
    else Ok(Ticket(req.coinId.value, req.coinSymbol.value, SideOf(req.kind.value).value, req.quantity.value))
  }

  /** Every check of a market trade, in order, before anything changes. */
  function MarketVerdict(req: TradeRequest, quote: Quote, accounts: map<UserId, Account>, me: UserId): (r: Result<Ticket, TradeError>)
    ensures CheckMarket(req).Err? ==> r == CheckMarket(req)
    ensures r.Ok? ==> r == CheckMarket(req) && Usable(quote) && me in accounts
    ensures r.Ok? && r.value.side == Buy ==> accounts[me].balance >= quote.value * r.value.quantity
    ensures r.Ok? && r.value.side == Sell ==> CanSell(accounts[me].holdings, r.value.coin, r.value.quantity)
    ensures CheckMarket(req).Ok? && quote.Failed? ==> r == Err(LookupFailed)
    ensures CheckMarket(req).Ok? && Usable(quote) && me in accounts ==>
      var o := CheckMarket(req).value;
      && (o.side == Buy ==> (r == Err(InsufficientFunds) <==> accounts[me].balance < quote.value * o.quantity))
      && (o.side == Sell ==> (r == Err(InsufficientCoins) <==> !CanSell(accounts[me].holdings, o.coin, o.quantity)))
      && (r.Ok? || r == Err(InsufficientFunds) || r == Err(InsufficientCoins))
  {
    match CheckMarket(req)
    case Err(e) => Err(e)
    case Ok(o) =>
      if quote.Failed? then Err(LookupFailed)
      else if !Usable(quote) then Err(NoPrice)
      else if me !in accounts then Err(UserNotFound)
      else if o.side == Buy && accounts[me].balance < quote.value * o.quantity then Err(InsufficientFunds)
      else if o.side == Sell && !CanSell(accounts[me].holdings, o.coin, o.quantity) then Err(InsufficientCoins)
      else Ok(o)
  }

  /** The completed market trade document for a ticket filled at `price`. */
  function MarketTrade(id: TradeId, me: UserId, o: Ticket, price: real, now: int): (t: Trade)
    ensures t.status == Completed && t.orderKind == Market && t.total == price * o.quantity
  {
    Trade(id, me, None, o.coin, o.sym, o.side, o.quantity, price, price * o.quantity,
          Completed, Market, None, None, None, None, None, now)
  }

  /** The store after a market trade with verdict `v`: a refusal changes
      nothing; a fill stores one completed trade and updates the user's
      account by the market fill plus one history entry. */
  predicate MarketCommitted(before: Records, after: Records, me: UserId, v: Result<Ticket, TradeError>,
                            price: real, now: int, r: Result<Trade, TradeError>)
    requires ValidRecords(before)
    requires v.Ok? ==> me in before.accounts && v.value.quantity > 0.0
    requires v.Ok? && v.value.side == Sell ==> CanSell(before.accounts[me].holdings, v.value.coin, v.value.quantity)
  {
    match v
    case Err(e) => r == Err(e) && after == before
    case Ok(o) =>
      var t := MarketTrade(before.nextId, me, o, price, now);
      var a := MarketFill(before.accounts[me], o.coin, o.sym, o.side, o.quantity, price);
      && r == Ok(t)
      && after == Records(before.accounts[me := Logged(a, EntryOf(t))], before.trades + [t], before.nextId + 1)
  }

  method ExecuteMarketTrade(db: Database, me: UserId, req: TradeRequest, quote: Quote, now: int)
    returns (r: Result<Trade, TradeError>)
    requires db.Valid()
    modifies db
    ensures db.Valid()
    ensures MarketCommitted(old(db.Contents()), db.Contents(), me,
                            MarketVerdict(req, quote, old(db.accounts), me), PriceOf(quote), now, r)
  {
    ghost var before := db.Contents();
    ghost var v := MarketVerdict(req, quote, db.accounts, me);
    var check := CheckMarket(req);
    if check.Err? {
      return Err(check.error);
    }
    var o := check.value;
    if quote.Failed? {
      return Err(LookupFailed);
    }
    if !Usable(quote) {
      assert v == Err(NoPrice);
      return Err(NoPrice);
    }
    var price := quote.value;
    var total := price * o.quantity;
    if me !in db.accounts {
      assert v == Err(UserNotFound);
      return Err(UserNotFound);
    }
    var p := new Portfolio.Load(db.accounts[me]);
    if o.side == Buy {
      if p.balance < total {
        return Err(InsufficientFunds);
      }
    } else {
      var i := Find(p.holdings, o.coin);
      if i.None? || p.holdings[i.value].quantity < o.quantity {
        return Err(InsufficientCoins);
      }
    }
    assert v == Ok(o);
    p.Fill(o.coin, o.sym, o.side, o.quantity, price);
    var t := db.Commit(me, p, MarketTrade(0, me, o, price, now));
    assert t == MarketTrade(before.nextId, me, o, price, now);
    return Ok(t);
  }

  // ---------------------------------------------------------------------
  // Closing a position

  /** Fixed-point scale of `toFixed(8)`. */
  const Scale: real := 100000000.0

  /** `parseFloat(x.toFixed(8))` for x >= 0: rounds half up at the eighth decimal. */
  function Round8(x: real): (r: real)
    requires x >= 0.0
    ensures r >= 0.0
    ensures x - 0.5 / Scale < r <= x + 0.5 / Scale
  {
    var y := x * Scale + 0.5;
    var f := y.Floor;
    assert f as real <= y < f as real + 1.0;
    (f as real) / Scale
  }

  /** The requested percentage; an absent one defaults to 100. */
  function Percent(percentage: Option<real>): real {
    if percentage.Some? then percentage.value else 100.0
  }

  /** The quantity a close sells: the rounded share of the holding, never more than held. */
  function CloseQuantity(held: real, pct: real): (q: real)
    requires held > 0.0 && 0.0 < pct <= 100.0
    ensures 0.0 <= q <= held
    ensures held * pct / 100.0 - 0.5 / Scale < q
    ensures q <= held * pct / 100.0 + 0.5 / Scale
  {
    ShareOfHolding(held, pct);
    Min(held, Round8(held * pct / 100.0))
  }

  lemma ShareOfHolding(held: real, pct: real)
    requires held > 0.0 && 0.0 < pct <= 100.0
    ensures 0.0 <= held * pct / 100.0 <= held
  {
    assert held * pct <= held * 100.0;
  }

  /** The return of a close relative to the average buy price, in percent;
      `None` where the division by a zero average has no numeric value. */
  function ReturnPercent(average: real, price: real): (r: Option<real>)
    ensures r.Some? <==> average != 0.0
    ensures r.Some? ==> r.value * average == (price - average) * 100.0
  {
    if average == 0.0 then None else Some((price - average) / average * 100.0)
  }

  /** The checks of a close, in order; on success the position of the holding. */
  function CloseVerdict(coinId: Option<string>, percentage: Option<real>, quote: Quote,
                        accounts: map<UserId, Account>, me: UserId): (r: Result<nat, TradeError>)
    ensures !GivenText(coinId) ==> r == Err(MissingCoin)
    ensures GivenText(coinId) && !(0.0 < Percent(percentage) <= 100.0) ==> r == Err(BadPercentage)
    ensures (GivenText(coinId) && 0.0 < Percent(percentage) <= 100.0 && me in accounts
             && !CanSell(accounts[me].holdings, coinId.value, 0.0)) ==> r == Err(NoHolding)
    ensures r.Ok? ==>
      && GivenText(coinId) && 0.0 < Percent(percentage) <= 100.0 && me in accounts && Usable(quote)
      && Find(accounts[me].holdings, coinId.value) == Some(r.value)
      && accounts[me].holdings[r.value].quantity > 0.0
  {
    if !GivenText(coinId) then Err(MissingCoin)
    else if Percent(percentage) <= 0.0 || Percent(percentage) > 100.0 then Err(BadPercentage)
    else if me !in accounts then Err(UserNotFound)
    else match Find(accounts[me].holdings, coinId.value)
      case None => Err(NoHolding)
      case Some(i) =>
        if accounts[me].holdings[i].quantity <= 0.0 then Err(NoHolding)
        else if quote.Failed? then Err(LookupFailed)
        else if !Usable(quote) then Err(NoPrice)
        else Ok(i)
  }

  /** The outcome of a close: the stored trade and the realized result. */
  datatype Closing = Closing(trade: Trade, profitLoss: real, profitLossPercentage: Option<real>)

  /** Selling `q` of holding `h` at `price` as a close: the trade carries the
      realized profit and the return relative to the average buy price. */
  function CloseOutcome(id: TradeId, me: UserId, h: Holding, q: real, price: real, now: int): (c: Closing)
    ensures c.trade.side == Sell && c.trade.quantity == q && c.trade.total == price * q
    ensures c.profitLoss == c.trade.total - q * h.averageBuyPrice
    ensures c.trade.profitLoss == Some(c.profitLoss) && c.trade.profitLossPercentage == c.profitLossPercentage
  {
    var pl := Realized(h.averageBuyPrice, q, price);
    var pct := ReturnPercent(h.averageBuyPrice, price);
    Closing(Trade(id, me, None, h.coinId, h.coinSymbol, Sell, q, price, price * q,
                  Completed, Market, None, None, None, Some(pl), pct, now), pl, pct)
  }

  method ClosePosition(db: Database, me: UserId, coinId: Option<string>, percentage: Option<real>,
                       quote: Quote, now: int) returns (r: Result<Closing, TradeError>)
    requires db.Valid()
    modifies db
    ensures db.Valid()
    ensures var v := CloseVerdict(coinId, percentage, quote, old(db.accounts), me);
      && (v.Err? ==> r == Err(v.error) && db.Contents() == old(db.Contents()))
      && (v.Ok? ==>
            var a := old(db.accounts)[me];
            var h := a.holdings[v.value];
            var q := CloseQuantity(h.quantity, Percent(percentage));
            var c := CloseOutcome(old(db.nextId), me, h, q, quote.value, now);
            && r == Ok(c)
            && db.trades == old(db.trades) + [c.trade] && db.nextId == old(db.nextId) + 1
            && db.accounts == old(db.accounts)[me := Logged(Closed(a, v.value, q, quote.value), EntryOf(c.trade))])
  {
    ghost var before := db.Contents();
    ghost var v := CloseVerdict(coinId, percentage, quote, db.accounts, me);
    if !GivenText(coinId) {
      return Err(MissingCoin);
    }
    var pct := Percent(percentage);
    if pct <= 0.0 || pct > 100.0 {
      return Err(BadPercentage);
    }
    if me !in db.accounts {
      assert v == Err(UserNotFound);
      return Err(UserNotFound);
    }
    var p := new Portfolio.Load(db.accounts[me]);
    var found := Find(p.holdings, coinId.value);
    if found.None? || p.holdings[found.value].quantity <= 0.0 {
      return Err(NoHolding);
    }
    var i := found.value;
    var h := p.holdings[i];
    if quote.Failed? {
      assert v == Err(LookupFailed);
      return Err(LookupFailed);
    }
    if !Usable(quote) {
      assert v == Err(NoPrice);
      return Err(NoPrice);
    }
    assert v == Ok(i);
    var price := quote.value;
    var q := CloseQuantity(h.quantity, pct);
    var total := price * q;
    var profitLoss := Realized(h.averageBuyPrice, q, price);
    var profitLossPercentage := ReturnPercent(h.averageBuyPrice, price);
    ghost var a := p.State();
    p.Close(i, q, price);
    var t := db.Commit(me, p, Trade(0, me, None, h.coinId, h.coinSymbol, Sell, q, price, total,
                                    Completed, Market, None, None, None, Some(profitLoss), profitLossPercentage, now));
    CloseOutcomeStored(before.nextId, me, h, q, price, now);
    return Ok(Closing(t, profitLoss, profitLossPercentage));
  }

  /** The trade a close builds, once the store gives it its id, is the one of `CloseOutcome`. */
  lemma CloseOutcomeStored(id: TradeId, me: UserId, h: Holding, q: real, price: real, now: int)
    ensures var pl := Realized(h.averageBuyPrice, q, price);
      var pct := ReturnPercent(h.averageBuyPrice, price);
      var t := Trade(0, me, None, h.coinId, h.coinSymbol, Sell, q, price, price * q,
                     Completed, Market, None, None, None, Some(pl), pct, now);
      CloseOutcome(id, me, h, q, price, now) == Closing(t.(id := id), pl, pct)
  {
  }

  /** Closing 100 percent removes the holding; in every close the holdings
      stay well formed, the proceeds are credited, and other coins are untouched. */
  lemma CloseFullPosition(a: Account, i: nat, price: real)
    requires ValidAccount(a) && i < |a.holdings|
    ensures var h := a.holdings[i];
      var r := Closed(a, i, CloseQuantity(h.quantity, 100.0), price);
      && ValidAccount(r)
      && Find(r.holdings, h.coinId).None?
      && (forall c :: c != h.coinId ==> Held(r.holdings, c) == Held(a.holdings, c))
  {
    var h := a.holdings[i];
    var q := CloseQuantity(h.quantity, 100.0);
    assert h.quantity - q < Dust;
    CloseOutEffect(a.holdings, i, q);
  }

  /** Closing 50 percent leaves half the holding, up to the rounding of the
      sold quantity at the eighth decimal, at the same average buy price. */
  lemma CloseHalfPosition(a: Account, i: nat, price: real)
    requires ValidAccount(a) && i < |a.holdings| && a.holdings[i].quantity >= 2.0 * Dust
    ensures var h := a.holdings[i];
      var q := CloseQuantity(h.quantity, 50.0);
      var r := Closed(a, i, q, price);
      && ValidAccount(r)
      && r.holdings[i].coinId == h.coinId
      && h.quantity / 2.0 - 0.5 / Scale <= r.holdings[i].quantity < h.quantity / 2.0 + 0.5 / Scale
      && r.holdings[i].averageBuyPrice == h.averageBuyPrice
      && r.balance == a.balance + price * q
  {
    var h := a.holdings[i];
    var q := CloseQuantity(h.quantity, 50.0);
    assert h.quantity * 50.0 / 100.0 == h.quantity / 2.0;
    assert h.quantity - q >= Dust;
    CloseOutEffect(a.holdings, i, q);
  }

  // ---------------------------------------------------------------------
  // Limit and stop orders

  /** What placing an order does once the price is known: refuse with an
      error (nothing changes), forward the request to the market trade,
      reserve `reserve` from the balance and store a pending order, or (as
      written in the source only) reserve the funds and then fail to store
      the order document. */
  datatype Plan =
    | Refuse(error: TradeError)
    | Forward
    | Queue(order: Ticket, orderKind: OrderKind, reserve: real)
    | Strand(lost: real)

  /** The amount a pending order reserves: the limit (limit buys) or the
      current price (other buys) times the quantity; sells reserve nothing. */
  function Reservation(side: Side, kind: OrderKind, q: real, p: real, limitPrice: Option<real>): real
    requires kind == Limit ==> limitPrice.Some?
  {
    if side == Buy then (if kind == Limit then limitPrice.value * q else p * q) else 0.0
  }

  /** `placeOrder` as written: the quantity and the buy/sell type are never
      checked, and a buy reserves its funds before the order document with
      its `orderType` enum is validated by the store. */
  function PlacementAsWritten(req: TradeRequest, quote: Quote, balance: Option<real>): Plan {
    if !(Complete(req) && GivenText(req.orderType)) then Refuse(MissingFields)
    else if req.orderType.value == "limit" && !GivenNumber(req.limitPrice) then Refuse(LimitPriceRequired)
    else if req.orderType.value == "stop" && !GivenNumber(req.stopPrice) then Refuse(StopPriceRequired)
    else if quote.Failed? then Refuse(LookupFailed)
    else if !Usable(quote) then Refuse(NoPrice)
    else
      var p, ty, ot, q := quote.value, req.kind.value, req.orderType.value, req.quantity.value;
      if ot == "limit" && ((ty == "buy" && p <= req.limitPrice.value) || (ty == "sell" && p >= req.limitPrice.value)) then Forward
      else if ot == "stop" && ((ty == "buy" && p >= req.stopPrice.value) || (ty == "sell" && p <= req.stopPrice.value)) then Forward
      else
        var total := if ty == "buy" then (if ot == "limit" then req.limitPrice.value * q else p * q) else 0.0;
        if ty == "buy" && balance.None? then Refuse(UserNotFound)
        else if ty == "buy" && balance.value < total then Refuse(InsufficientFunds)
        else if SideOf(ty).None? || KindOf(ot).None? then
          (if ty == "buy" then Strand(total) else Refuse(InvalidOrder))
        else Queue(Ticket(req.coinId.value, req.coinSymbol.value, SideOf(ty).value, q), KindOf(ot).value, total)
  }

  /** `placeOrder` with the request validated as the market trade validates
      it, and the order type validated before any funds are reserved. */
  function Placement(req: TradeRequest, quote: Quote, balance: Option<real>): (r: Plan)
    ensures !r.Strand?
    ensures !(Complete(req) && GivenText(req.orderType)) ==> r == Refuse(MissingFields)
    ensures Complete(req) && GivenText(req.orderType) && CheckMarket(req).Err? ==> r == Refuse(CheckMarket(req).error)
    ensures r.Forward? || r.Queue? ==>
      CheckMarket(req).Ok? && Usable(quote) && GivenText(req.orderType) && KindOf(req.orderType.value).Some?
    ensures r.Forward? <==>
      && CheckMarket(req).Ok? && GivenText(req.orderType) && KindOf(req.orderType.value).Some?
      && (req.orderType.value == "limit" ==> GivenNumber(req.limitPrice))
      && (req.orderType.value == "stop" ==> GivenNumber(req.stopPrice))
      && Usable(quote)
      && Triggered(KindOf(req.orderType.value).value, CheckMarket(req).value.side, quote.value, req.limitPrice, req.stopPrice)
    ensures r.Queue? ==>
      && CheckMarket(req).Ok? && GivenText(req.orderType) && KindOf(req.orderType.value).Some?
      && r.order == CheckMarket(req).value && r.order.quantity > 0.0
      && r.orderKind == KindOf(req.orderType.value).value
      && !Triggered(r.orderKind, r.order.side, quote.value, req.limitPrice, req.stopPrice)
      && (r.orderKind == Limit ==> GivenNumber(req.limitPrice))
      && (r.orderKind == Stop ==> GivenNumber(req.stopPrice))
      && r.reserve == Reservation(r.order.side, r.orderKind, r.order.quantity, quote.value, req.limitPrice)
      && (r.order.side == Buy ==> balance.Some? && r.reserve <= balance.value)
  {
    if !(Complete(req) && GivenText(req.orderType)) then Refuse(MissingFields)
    else if SideOf(req.kind.value).None? then Refuse(BadType)
    else if req.quantity.value <= 0.0 then Refuse(BadQuantity)
    else if KindOf(req.orderType.value).None? then Refuse(InvalidOrder)
    else if req.orderType.value == "limit" && !GivenNumber(req.limitPrice) then Refuse(LimitPriceRequired)
    else if req.orderType.value == "stop" && !GivenNumber(req.stopPrice) then Refuse(StopPriceRequired)
    else if quote.Failed? then Refuse(LookupFailed)
    else if !Usable(quote) then Refuse(NoPrice)
    else
      var o := CheckMarket(req).value;
      var kind := KindOf(req.orderType.value).value;
      if Triggered(kind, o.side, quote.value, req.limitPrice, req.stopPrice) then Forward
      else
        var total := Reservation(o.side, kind, o.quantity, quote.value, req.limitPrice);
        if o.side == Buy && balance.None? then Refuse(UserNotFound)
        else if o.side == Buy && balance.value < total then Refuse(InsufficientFunds)
        else Queue(o, kind, total)
  }

  /** On a well-formed request the corrected placement decides exactly as
      the source does. */
  lemma PlacementAgrees(req: TradeRequest, quote: Quote, balance: Option<real>)
    requires Complete(req) && GivenText(req.orderType)
    requires SideOf(req.kind.value).Some? && req.quantity.value > 0.0 && KindOf(req.orderType.value).Some?
    ensures Placement(req, quote, balance) == PlacementAsWritten(req, quote, balance)
  {
  }

  /** With positive prices a queued order reserves a non-negative amount. */
  lemma QueuedReserveNonNegative(req: TradeRequest, quote: Quote, balance: Option<real>)
    requires Placement(req, quote, balance).Queue?
    requires quote.value > 0.0 && (req.limitPrice.Some? ==> req.limitPrice.value > 0.0)
    ensures Placement(req, quote, balance).reserve >= 0.0
  {
  }

  /** As written, a pending limit buy of quantity -1 credits the balance. */
  lemma NegativeQuantityCredits()
    ensures var req := TradeRequest(Some("btc"), Some("BTC"), Some("buy"), Some(-1.0), Some("limit"), Some(100.0), None);
      && PlacementAsWritten(req, Price(200.0), Some(0.0))
           == Queue(Ticket("btc", "BTC", Buy, -1.0), Limit, -100.0)
      && Placement(req, Price(200.0), Some(0.0)) == Refuse(BadQuantity)
  {
  }

  /** As written, a buy with an order type outside the enum loses its reservation. */
  lemma UnknownOrderTypeStrands()
    ensures var req := TradeRequest(Some("btc"), Some("BTC"), Some("buy"), Some(1.0), Some("twap"), None, None);
      && PlacementAsWritten(req, Price(100.0), Some(1000.0)) == Strand(100.0)
      && Placement(req, Price(100.0), Some(1000.0)) == Refuse(InvalidOrder)
  {
  }

  function BalanceOf(accounts: map<UserId, Account>, me: UserId): Option<real> {
    if me in accounts then Some(accounts[me].balance) else None
  }

  /** The pending order document stored for a queued placement. */
  function PendingOrder(id: TradeId, me: UserId, o: Ticket, kind: OrderKind, req: TradeRequest,
                        price: real, reserve: real, now: int): (t: Trade)
    ensures t.status == Pending && t.total == reserve && t.orderKind == kind
  {
    Trade(id, me, None, o.coin, o.sym, o.side, o.quantity, price, reserve, Pending, kind,
          if kind == Limit then req.limitPrice else None,
          if kind == Stop then req.stopPrice else None,
          None, None, None, now)
  }

  /** Takes a pending buy's `total` out of its owner's balance. */
  function ReserveFunds(accounts: map<UserId, Account>, t: Trade): map<UserId, Account>
    requires t.side == Buy ==> t.user in accounts
  {
    if t.side == Buy then accounts[t.user := accounts[t.user].(balance := accounts[t.user].balance - t.total)]
    else accounts
  }

  /** Gives a pending buy's `total` back to its owner. */
  function RefundFunds(accounts: map<UserId, Account>, t: Trade): map<UserId, Account>
    requires t.side == Buy ==> t.user in accounts
  {
    if t.side == Buy then accounts[t.user := accounts[t.user].(balance := accounts[t.user].balance + t.total)]
    else accounts
  }

  /** `placeOrder`. `quote` is the first price lookup; a forwarded request
      is handled by the market trade, which looks the price up again
      (`requote`). */
  method PlaceOrder(db: Database, me: UserId, req: TradeRequest, quote: Quote, requote: Quote, now: int)
    returns (r: Result<Trade, TradeError>)
    requires db.Valid()
    modifies db
    ensures db.Valid()
    ensures var plan := Placement(req, quote, BalanceOf(old(db.accounts), me));
      && (plan.Refuse? ==> r == Err(plan.error) && db.Contents() == old(db.Contents()))
      && (plan.Forward? ==>
            MarketCommitted(old(db.Contents()), db.Contents(), me,
                            MarketVerdict(req, requote, old(db.accounts), me), PriceOf(requote), now, r))
      && (plan.Queue? ==>
            var t := PendingOrder(old(db.nextId), me, plan.order, plan.orderKind, req, quote.value, plan.reserve, now);
            && r == Ok(t)
            && db.trades == old(db.trades) + [t] && db.nextId == old(db.nextId) + 1
            && db.accounts == ReserveFunds(old(db.accounts), t))
  {
    var plan := Placement(req, quote, BalanceOf(db.accounts, me));
    if plan.Refuse? {
      return Err(plan.error);
    } else if plan.Forward? {
      r := ExecuteMarketTrade(db, me, req.(orderType := Some("market")), requote, now);
    } else {
      var t := QueueOrder(db, me, plan.order, plan.orderKind, req, quote.value, plan.reserve, now);
      return Ok(t);
    }
  }

  /** The queued branch of `placeOrder`: a buy's reservation leaves its
      owner's balance first, then the pending order is stored. */
  method QueueOrder(db: Database, me: UserId, o: Ticket, kind: OrderKind, req: TradeRequest,
                    price: real, reserve: real, now: int) returns (t: Trade)
    requires db.Valid() && o.quantity > 0.0 && (o.side == Buy ==> me in db.accounts)
    modifies db
    ensures db.Valid()
    ensures t == PendingOrder(old(db.nextId), me, o, kind, req, price, reserve, now)
    ensures db.trades == old(db.trades) + [t] && db.nextId == old(db.nextId) + 1
    ensures db.accounts == ReserveFunds(old(db.accounts), t)
  {
    if o.side == Buy {
      var p := new Portfolio.Load(db.accounts[me]);
      p.balance := p.balance - reserve;
      db.Store(me, p);
    }
    t := db.Insert(PendingOrder(0, me, o, kind, req, price, reserve, now));
  }

  /** `cancelOrder`: the checks in order, then the refund and the removal. */
  method CancelOrder(db: Database, me: UserId, id: TradeId) returns (r: Result<(), TradeError>)
    requires db.Valid()
    modifies db
    ensures db.Valid()
    ensures var k := FindTrade(old(db.trades), id);
      && (k.None? ==> r == Err(OrderNotFound))
      && (k.Some? && old(db.trades)[k.value].user != me ==> r == Err(NotOwner))
      && (k.Some? && old(db.trades)[k.value].user == me && old(db.trades)[k.value].status != Pending ==> r == Err(NotPending))
      && (k.Some? && old(db.trades)[k.value].user == me && old(db.trades)[k.value].status == Pending ==>
            var t := old(db.trades)[k.value];
            if t.side == Buy && me !in old(db.accounts) then r == Err(UserNotFound)
            else
              && r == Ok(())
              && db.accounts == RefundFunds(old(db.accounts), t)
              && db.trades == DeleteTrade(old(db.trades), id) && db.nextId == old(db.nextId))
    ensures r.Err? ==> db.Contents() == old(db.Contents())
  {
    var k := FindTrade(db.trades, id);
    if k.None? {
      return Err(OrderNotFound);
    }
    ghost var before := db.Contents();
    var order := db.trades[k.value];
    if order.user != me {
      return Err(NotOwner);
    }
    if order.status != Pending {
      return Err(NotPending);
    }
    if order.side == Buy {
      if me !in db.accounts {
        return Err(UserNotFound);
      }
      var p := new Portfolio.Load(db.accounts[me]);
      p.balance := p.balance + order.total;
      assert p.State() == before.accounts[me].(balance := before.accounts[me].balance + order.total);
      db.Store(me, p);
    }
    assert db.accounts == RefundFunds(before.accounts, order);
    db.Delete(id);
    return Ok(());
  }

  /** Placing a pending order and cancelling it gives back the balance and
      the trade collection as they were; only the id counter has moved. */
  lemma {:induction false} CancelUndoesPlacement(s: Records, t: Trade)
    requires ValidRecords(s) && t.id == s.nextId && (t.side == Buy ==> t.user in s.accounts)
    ensures RefundFunds(ReserveFunds(s.accounts, t), t) == s.accounts
    ensures DeleteTrade(s.trades + [t], t.id) == s.trades
  {
    FreshIdDeleted(s.trades, t);
    if t.side == Buy {
      var a := s.accounts[t.user];
      assert a.(balance := a.balance - t.total).(balance := a.balance - t.total + t.total) == a;
    }
  }

  lemma {:induction false} FreshIdDeleted(ts: seq<Trade>, t: Trade)
    requires forall j :: 0 <= j < |ts| ==> ts[j].id < t.id
    ensures DeleteTrade(ts + [t], t.id) == ts
  {
    if ts == [] {
      assert DeleteTrade([t], t.id) == [] + DeleteTrade([], t.id);
    } else {
      assert (ts + [t])[1..] == ts[1..] + [t];
      FreshIdDeleted(ts[1..], t);
      assert DeleteTrade(ts + [t], t.id) == [ts[0]] + DeleteTrade(ts[1..] + [t], t.id);
    }
  }

  // ---------------------------------------------------------------------
  // Portfolio valuation

  /** A holding with its value at the current price. A value or return is
      `None` where the source computes with an undefined price or divides by
      a zero average (and so produces no number). */
  datatype HoldingView = HoldingView(
    holding: Holding, currentPrice: Option<real>, currentValue: Option<real>,
    profitLoss: Option<real>, profitLossPercentage: Option<real>)

  function ViewOf(h: Holding, quote: Quote): (v: HoldingView)
    requires !quote.Failed?
    ensures v.currentValue.Some? <==> quote.Price?
    ensures v.currentValue.Some? ==>
      && v.currentValue.value == quote.value * h.quantity
      && v.profitLoss == Some(v.currentValue.value - h.averageBuyPrice * h.quantity)
  {
    if quote.Price? then
      var value := quote.value * h.quantity;
      HoldingView(h, Some(quote.value), Some(value), Some(value - h.averageBuyPrice * h.quantity),
                  ReturnPercent(h.averageBuyPrice, quote.value))
    else HoldingView(h, None, None, None, None)
  }

  /** The sum of the current values, `None` as soon as one is missing. */
  function MarkedValue(views: seq<HoldingView>): Option<real> {
    if views == [] then Some(0.0)
    else match MarkedValue(views[..|views| - 1])
      case None => None
      case Some(s) =>
        var last := views[|views| - 1];
        if last.currentValue.Some? then Some(s + last.currentValue.value) else None
  }

  datatype PortfolioView = PortfolioView(balance: real, holdings: seq<HoldingView>, totalValue: Option<real>)

  predicate AnyFailed(quotes: seq<Quote>) {
    exists k :: 0 <= k < |quotes| && quotes[k].Failed?
  }

  /** `getPortfolio`: every holding valued at its quote (one lookup per
      holding; one failed lookup fails the request) and the total value is
      the balance plus the current values. */
  method GetPortfolio(db: Database, me: UserId, quotes: seq<Quote>) returns (r: Result<PortfolioView, TradeError>)
    requires me in db.accounts ==> |quotes| == |db.accounts[me].holdings|
    ensures me !in db.accounts ==> r == Err(UserNotFound)
    ensures me in db.accounts && AnyFailed(quotes) ==> r == Err(LookupFailed)
    ensures me in db.accounts && !AnyFailed(quotes) ==>
      var a := db.accounts[me];
      && r.Ok? && r.value.balance == a.balance
      && |r.value.holdings| == |a.holdings|
      && (forall k :: 0 <= k < |a.holdings| ==> r.value.holdings[k] == ViewOf(a.holdings[k], quotes[k]))
      && r.value.totalValue == (match MarkedValue(r.value.holdings)
                                case Some(s) => Some(a.balance + s)
                                case None => None)
  {
    if me !in db.accounts {
      return Err(UserNotFound);
    }
    var a := db.accounts[me];
    var k := 0;
    while k < |quotes|
      invariant 0 <= k <= |quotes|
      invariant forall j :: 0 <= j < k ==> !quotes[j].Failed?
    {
      if quotes[k].Failed? {
        return Err(LookupFailed);
      }
      k := k + 1;
    }
    var views: seq<HoldingView> := [];
    var total: Option<real> := Some(a.balance);
    var i := 0;
    while i < |a.holdings|
      invariant 0 <= i <= |a.holdings|
      invariant |views| == i
      invariant forall j :: 0 <= j < i ==> views[j] == ViewOf(a.holdings[j], quotes[j])
      invariant total == (match MarkedValue(views) case Some(s) => Some(a.balance + s) case None => None)
    {
      var v := ViewOf(a.holdings[i], quotes[i]);
      assert (views + [v])[..i] == views;
      views := views + [v];
      if total.Some? && v.currentValue.Some? {
        total := Some(total.value + v.currentValue.value);
      } else {
        total := None;
      }
      i := i + 1;
    }
    return Ok(PortfolioView(a.balance, views, total));
  }
}
