/** The strategy endpoints: creating a strategy, the per-strategy
    operations guarded by a lookup and an ownership check (read, partial
    update, delete, activate, deactivate) and the performance report, which
    recounts the strategy's completed trades and evaluates its conditions
    at the current price. */
module StrategyController {
  import opened Common
  import opened Ledger
  import opened Store
  import opened Strategies
  import opened Grouping
  import opened StrategyProcessing

  datatype StrategyError =
    | MissingFields | NoConditions | NoActions  // request validation
    | BadQuantity                               // corrected validation only
    | Invalid                                   // refused by the schema on create or save
    | NotFound | NotAuthorized

  /** The body of a create request; absent fields are `None`. */
  datatype CreateRequest = CreateRequest(
    name: Option<string>, description: Option<string>,
    coinId: Option<string>, coinSymbol: Option<string>, kind: Option<string>,
    conditions: Option<seq<Condition>>, actions: Option<seq<Action>>)

  /** What the schema checks when a strategy document is created or saved:
      the required strings are non-empty, `type` and every condition's
      indicator and operator are in their enums. An action quantity is only
      required to be a number. */
  predicate SchemaValid(st: Strategy) {
    && st.name != "" && st.coinId != "" && st.coinSymbol != ""
    && IsKind(st.kind)
    && forall i :: 0 <= i < |st.conditions| ==> IsIndicator(st.conditions[i].indicator) && IsOperator(st.conditions[i].operator)
  }

  /** The six fields a create request must carry, checked for truthiness. */
  predicate Provided(req: CreateRequest) {
    && GivenText(req.name) && GivenText(req.coinId) && GivenText(req.coinSymbol) && GivenText(req.kind)
    && req.conditions.Some? && req.actions.Some?
  }

  /** The document a create request stores for `me`: active, with zero counters. */
  function Draft(me: UserId, req: CreateRequest): Strategy
    requires Provided(req)
  {
    Strategy(0, me, req.name.value, req.description, req.coinId.value, req.coinSymbol.value, req.kind.value,
             req.conditions.value, req.actions.value, true, Performance(0, 0, 0.0))
  }

  // ---------------------------------------------------------------------
  // Creating a strategy

  /** `createStrategy` as written: the lists must be non-empty, but nothing
      looks at an action's quantity. */
  function CreateCheckAsWritten(me: UserId, req: CreateRequest): Result<Strategy, StrategyError> {
    if !Provided(req) then Err(MissingFields)
    else if req.conditions.value == [] then Err(NoConditions)
    else if req.actions.value == [] then Err(NoActions)
    else if !SchemaValid(Draft(me, req)) then Err(Invalid)
    else Ok(Draft(me, req))
  }

  /** `createStrategy` with every action quantity required to be positive,
      which the engine's buy and sell arithmetic presumes. */
  function CreateCheck(me: UserId, req: CreateRequest): (r: Result<Strategy, StrategyError>)
    ensures r == Err(MissingFields) <==> !Provided(req)
    ensures r == Err(NoConditions) <==> Provided(req) && req.conditions.value == []
    ensures r == Err(NoActions) <==> Provided(req) && req.conditions.value != [] && req.actions.value == []
    ensures r.Ok? ==>
      && Provided(req) && r.value == Draft(me, req)
      && r.value.user == me && r.value.active && r.value.performance == Performance(0, 0, 0.0)
      && |r.value.conditions| > 0 && |r.value.actions| > 0
      && ActionsPositive(r.value.actions) && SchemaValid(r.value)
    ensures Provided(req) && req.conditions.value != [] && req.actions.value != [] ==>
      (r.Ok? <==> ActionsPositive(req.actions.value) && SchemaValid(Draft(me, req)))
  {
    if !Provided(req) then Err(MissingFields)
    else if req.conditions.value == [] then Err(NoConditions)
    else if req.actions.value == [] then Err(NoActions)
    else if !ActionsPositive(req.actions.value) then Err(BadQuantity)
    else if !SchemaValid(Draft(me, req)) then Err(Invalid)
    else Ok(Draft(me, req))
  }

  /** On requests whose actions are all positive the corrected check decides
      exactly as the source does. */
  lemma CreateCheckAgrees(me: UserId, req: CreateRequest)
    requires req.actions.Some? && ActionsPositive(req.actions.value)
    ensures CreateCheck(me, req) == CreateCheckAsWritten(me, req)
  {
  }

  /** As written, a strategy whose buy action has quantity -1 is stored, and
      such an action passes the engine's funds check on an empty balance. */
  lemma NegativeActionAccepted()
    ensures var req := CreateRequest(Some("dip"), None, Some("eth"), Some("ETH"), Some("buy"),
                                     Some([Condition("price", "<", 100.0)]), Some([Action(Buy, -1.0)]));
      && CreateCheckAsWritten("u", req).Ok?
      && ActionRuns(Account(0.0, [], []), "eth", Action(Buy, -1.0), 90.0)
      && CreateCheck("u", req) == Err(BadQuantity)
  {
    assert [Action(Buy, -1.0)][0].quantity < 0.0;
  }

  method CreateStrategy(store: StrategyStore, me: UserId, req: CreateRequest) returns (r: Result<Strategy, StrategyError>)
    requires store.Valid()
    modifies store
    ensures store.Valid()
    ensures CreateCheck(me, req).Err? ==> r == CreateCheck(me, req) && store.Contents() == old(store.Contents())
    ensures CreateCheck(me, req).Ok? ==>
      && r == Ok(CreateCheck(me, req).value.(id := old(store.nextId)))
      && store.Contents() == Book(old(store.strategies) + [r.value], old(store.nextId) + 1)
  {
    if !Provided(req) {
      return Err(MissingFields);
    }
    if req.conditions.value == [] {
      return Err(NoConditions);
    }
    if req.actions.value == [] {
      return Err(NoActions);
    }
    if !ActionsPositive(req.actions.value) {
      return Err(BadQuantity);
    }
    var draft := Draft(me, req);
    if !SchemaValid(draft) {
      return Err(Invalid);
    }
    var stored := store.Insert(draft);
    return Ok(stored);
  }

  // ---------------------------------------------------------------------
  // Lookup and ownership

  /** `findById` followed by the ownership check every per-strategy
      operation starts with. */
  function Lookup(b: Book, id: nat, me: UserId): (r: Result<Strategy, StrategyError>)
    ensures r == Err(NotFound) <==> FindStrategy(b.strategies, id).None?
    ensures r == Err(NotAuthorized) <==>
      FindStrategy(b.strategies, id).Some? && b.strategies[FindStrategy(b.strategies, id).value].user != me
    ensures r.Ok? ==> r.value.id == id && r.value.user == me && r.value in b.strategies
  {
    match FindStrategy(b.strategies, id)
    case None => Err(NotFound)
    case Some(i) => if b.strategies[i].user != me then Err(NotAuthorized) else Ok(b.strategies[i])
  }

  /** `getStrategy`. */
  method GetStrategy(store: StrategyStore, me: UserId, id: nat) returns (r: Result<Strategy, StrategyError>)
    ensures r == Lookup(store.Contents(), id, me)
    ensures r.Ok? ==> r.value.id == id && r.value.user == me && r.value in store.strategies
  {
    var i := FindStrategy(store.strategies, id);
    if i.None? {
      return Err(NotFound);
    }
    var st := store.strategies[i.value];
    if st.user != me {
      return Err(NotAuthorized);
    }
    return Ok(st);
  }

  /** The collection after `strategy.save()` of the outcome, or unchanged
      when the operation was refused. */
  function Saved(b: Book, r: Result<Strategy, StrategyError>): Book {
    if r.Ok? then Book(ReplaceStrategy(b.strategies, r.value), b.nextId) else b
  }

  /** Replacing a strategy keeps every id in its place. */
  lemma ReplaceKeepsIds(ss: seq<Strategy>, st: Strategy)
    ensures forall j :: 0 <= j < |ss| ==> ReplaceStrategy(ss, st)[j].id == ss[j].id
  {
  }

  /** The position of an id depends only on the ids in place. */
  lemma {:induction false} FindSameIds(ss: seq<Strategy>, tt: seq<Strategy>, id: nat)
    requires |ss| == |tt| && forall j :: 0 <= j < |ss| ==> ss[j].id == tt[j].id
    ensures FindStrategy(ss, id) == FindStrategy(tt, id)
  {
    if ss != [] {
      FindSameIds(ss[1..], tt[1..], id);
    }
  }

  /** After saving a strategy that passed the lookup, the lookup finds the
      saved version, and saving it again changes nothing. */
  lemma SavedFound(b: Book, id: nat, me: UserId, st: Strategy)
    requires ValidBook(b) && Lookup(b, id, me).Ok? && st.id == id && st.user == me
    ensures Lookup(Saved(b, Ok(st)), id, me) == Ok(st)
    ensures Saved(Saved(b, Ok(st)), Ok(st)) == Saved(b, Ok(st))
  {
    var ss := b.strategies;
    var tt := ReplaceStrategy(ss, st);
    ReplaceKeepsIds(ss, st);
    FindSameIds(ss, tt, id);
    assert ReplaceStrategy(tt, st) == tt;
  }

  // ---------------------------------------------------------------------
  // Partial update

  /** The body of an update request; absent fields are `None`. */
  datatype UpdateRequest = UpdateRequest(
    name: Option<string>, description: Option<string>,
    coinId: Option<string>, coinSymbol: Option<string>, kind: Option<string>,
    conditions: Option<seq<Condition>>, actions: Option<seq<Action>>, active: Option<bool>)

  /** The field assignments of `updateStrategy`: a text field replaces the
      old value when truthy, the lists whenever given (an empty array is
      truthy), `description` and `active` whenever present. */
  function Merged(st: Strategy, req: UpdateRequest): Strategy {
    st.(name := if GivenText(req.name) then req.name.value else st.name,
        description := if req.description.Some? then req.description else st.description,
        coinId := if GivenText(req.coinId) then req.coinId.value else st.coinId,
        coinSymbol := if GivenText(req.coinSymbol) then req.coinSymbol.value else st.coinSymbol,
        kind := if GivenText(req.kind) then req.kind.value else st.kind,
        conditions := if req.conditions.Some? then req.conditions.value else st.conditions,
        actions := if req.actions.Some? then req.actions.value else st.actions,
        active := if req.active.Some? then req.active.value else st.active)
  }

  /** A field the request does not carry keeps its old value, and the id,
      owner and counters are never touched. */
  lemma MergedKeepsAbsent(st: Strategy, req: UpdateRequest)
    ensures var m := Merged(st, req);
      && m.id == st.id && m.user == st.user && m.performance == st.performance
      && (!GivenText(req.name) ==> m.name == st.name)
      && (req.description.None? ==> m.description == st.description)
      && (!GivenText(req.coinId) ==> m.coinId == st.coinId)
      && (!GivenText(req.coinSymbol) ==> m.coinSymbol == st.coinSymbol)
      && (!GivenText(req.kind) ==> m.kind == st.kind)
      && (req.conditions.None? ==> m.conditions == st.conditions)
      && (req.actions.None? ==> m.actions == st.actions)
      && (req.active.None? ==> m.active == st.active)
  {
  }

  /** A field the request carries takes the requested value. */
  lemma MergedTakesGiven(st: Strategy, req: UpdateRequest)
    ensures var m := Merged(st, req);
      && (GivenText(req.name) ==> m.name == req.name.value)
      && (req.description.Some? ==> m.description == req.description)
      && (GivenText(req.coinId) ==> m.coinId == req.coinId.value)
      && (GivenText(req.coinSymbol) ==> m.coinSymbol == req.coinSymbol.value)
      && (GivenText(req.kind) ==> m.kind == req.kind.value)
      && (req.conditions.Some? ==> m.conditions == req.conditions.value)
      && (req.actions.Some? ==> m.actions == req.actions.value)
      && (req.active.Some? ==> m.active == req.active.value)
  {
  }

  /** Applying the same update twice is applying it once, and an empty
      request changes nothing. */
  lemma MergedIdempotent(st: Strategy, req: UpdateRequest)
    ensures Merged(Merged(st, req), req) == Merged(st, req)
    ensures Merged(st, UpdateRequest(None, None, None, None, None, None, None, None)) == st
  {
  }

  /** `updateStrategy` as written after the lookup: the merged document is
      saved if the schema accepts it. */
  function ReviseAsWritten(st: Strategy, req: UpdateRequest): Result<Strategy, StrategyError> {
    if SchemaValid(Merged(st, req)) then Ok(Merged(st, req)) else Err(Invalid)
  }

  /** `updateStrategy` with new lists held to the rules of creation: non-empty,
      and every action quantity positive. */
  function Revise(st: Strategy, req: UpdateRequest): (r: Result<Strategy, StrategyError>)
    ensures r == Err(NoConditions) <==> req.conditions == Some([])
    ensures r == Err(NoActions) <==> req.conditions != Some([]) && req.actions == Some([])
    ensures r.Ok? <==>
      && req.conditions != Some([]) && req.actions != Some([])
      && ActionsPositive(Merged(st, req).actions) && SchemaValid(Merged(st, req))
    ensures r.Ok? ==> r.value == Merged(st, req)
    ensures r.Ok? && |st.conditions| > 0 && |st.actions| > 0 ==> |r.value.conditions| > 0 && |r.value.actions| > 0
  {
    if req.conditions == Some([]) then Err(NoConditions)
    else if req.actions == Some([]) then Err(NoActions)
    else if !ActionsPositive(Merged(st, req).actions) then Err(BadQuantity)
    else if !SchemaValid(Merged(st, req)) then Err(Invalid)
    else Ok(Merged(st, req))
  }

  /** On a request that supplies no empty list and no non-positive
      quantity, the corrected update decides exactly as the source does. */
  lemma ReviseAgrees(st: Strategy, req: UpdateRequest)
    requires req.conditions != Some([]) && req.actions != Some([]) && ActionsPositive(Merged(st, req).actions)
    ensures Revise(st, req) == ReviseAsWritten(st, req)
  {
  }

  /** As written, an update with an empty condition list is saved, and the
      strategy then meets its conditions at every price, so the engine runs
      its actions on every cycle. */
  lemma EmptyConditionsAccepted(p: real)
    ensures var st := Strategy(0, "u", "dip", None, "eth", "ETH", "buy",
                               [Condition("price", "<", 100.0)], [Action(Buy, 1.0)], true, Performance(0, 0, 0.0));
      var req := UpdateRequest(None, None, None, None, None, Some([]), None, None);
      && ReviseAsWritten(st, req).Ok?
      && ConditionsMet(ReviseAsWritten(st, req).value.conditions, PriceData(p))
      && Revise(st, req) == Err(NoConditions)
  {
  }

  /** Lookup, then the corrected update. */
  function UpdateOutcome(b: Book, id: nat, me: UserId, req: UpdateRequest): Result<Strategy, StrategyError> {
    match Lookup(b, id, me)
    case Err(e) => Err(e)
    case Ok(st) => Revise(st, req)
  }

  method UpdateStrategy(store: StrategyStore, me: UserId, id: nat, req: UpdateRequest) returns (r: Result<Strategy, StrategyError>)
    requires store.Valid()
    modifies store
    ensures store.Valid()
    ensures r == UpdateOutcome(old(store.Contents()), id, me, req)
    ensures store.Contents() == Saved(old(store.Contents()), r)
  {
    var found := GetStrategy(store, me, id);
    if found.Err? {
      return Err(found.error);
    }
    var st := found.value;
    if req.conditions == Some([]) {
      return Err(NoConditions);
    }
    if req.actions == Some([]) {
      return Err(NoActions);
    }
    var m := Merged(st, req);
    if !ActionsPositive(m.actions) {
      return Err(BadQuantity);
    }
    if !SchemaValid(m) {
      return Err(Invalid);
    }
    store.Replace(m);
    return Ok(m);
  }

  /** An update that succeeded touches only the updated strategy. */
  lemma UpdateTouchesOne(b: Book, id: nat, me: UserId, req: UpdateRequest)
    requires ValidBook(b) && UpdateOutcome(b, id, me, req).Ok?
    ensures var r := UpdateOutcome(b, id, me, req);
      && |Saved(b, r).strategies| == |b.strategies| && Saved(b, r).nextId == b.nextId
      && (forall j :: 0 <= j < |b.strategies| && b.strategies[j].id != id ==> Saved(b, r).strategies[j] == b.strategies[j])
      && Lookup(Saved(b, r), id, me) == r
  {
    var st := Lookup(b, id, me).value;
    SavedFound(b, id, me, Merged(st, req));
  }

  // ---------------------------------------------------------------------
  // Delete

  method DeleteStrategy(store: StrategyStore, me: UserId, id: nat) returns (r: Result<(), StrategyError>)
    requires store.Valid()
    modifies store
    ensures store.Valid()
    ensures Lookup(old(store.Contents()), id, me).Err? ==>
      r == Err(Lookup(old(store.Contents()), id, me).error) && store.Contents() == old(store.Contents())
    ensures Lookup(old(store.Contents()), id, me).Ok? ==>
      r == Ok(()) && store.Contents() == Book(Strategies.DeleteStrategy(old(store.strategies), id), old(store.nextId))
  {
    var found := GetStrategy(store, me, id);
    if found.Err? {
      return Err(found.error);
    }
    store.Delete(id);
    return Ok(());
  }

  /** After a delete the strategy is gone for everyone, and every other
      strategy is still there. */
  lemma DeleteRemoves(b: Book, id: nat, me: UserId, anyone: UserId)
    requires Lookup(b, id, me).Ok?
    ensures var b' := Book(Strategies.DeleteStrategy(b.strategies, id), b.nextId);
      && Lookup(b', id, anyone) == Err(NotFound)
      && forall st :: st in b.strategies && st.id != id ==> st in b'.strategies
  {
  }

  // ---------------------------------------------------------------------
  // Activate and deactivate

  /** Lookup, then `strategy.active = on`. */
  function Toggled(b: Book, id: nat, me: UserId, on: bool): (r: Result<Strategy, StrategyError>)
    ensures r.Err? <==> Lookup(b, id, me).Err?
    ensures r.Err? ==> r == Lookup(b, id, me)
    ensures r.Ok? ==> r.value.active == on && r.value.(active := Lookup(b, id, me).value.active) == Lookup(b, id, me).value
  {
    match Lookup(b, id, me)
    case Err(e) => Err(e)
    case Ok(st) => Ok(st.(active := on))
  }

  /** `activateStrategy` (`on` true) and `deactivateStrategy` (`on` false). */
  method SetActive(store: StrategyStore, me: UserId, id: nat, on: bool) returns (r: Result<Strategy, StrategyError>)
    requires store.Valid()
    modifies store
    ensures store.Valid()
    ensures r == Toggled(old(store.Contents()), id, me, on)
    ensures store.Contents() == Saved(old(store.Contents()), r)
  {
    var found := GetStrategy(store, me, id);
    if found.Err? {
      return Err(found.error);
    }
    var st := found.value.(active := on);
    store.Replace(st);
    return Ok(st);
  }

  method ActivateStrategy(store: StrategyStore, me: UserId, id: nat) returns (r: Result<Strategy, StrategyError>)
    requires store.Valid()
    modifies store
    ensures store.Valid()
    ensures r == Toggled(old(store.Contents()), id, me, true)
    ensures store.Contents() == Saved(old(store.Contents()), r)
  {
    r := SetActive(store, me, id, true);
  }

  method DeactivateStrategy(store: StrategyStore, me: UserId, id: nat) returns (r: Result<Strategy, StrategyError>)
    requires store.Valid()
    modifies store
    ensures store.Valid()
    ensures r == Toggled(old(store.Contents()), id, me, false)
    ensures store.Contents() == Saved(old(store.Contents()), r)
  {
    r := SetActive(store, me, id, false);
  }

  /** Activating (or deactivating) twice is activating (or deactivating) once. */
  lemma ToggleIdempotent(b: Book, id: nat, me: UserId, on: bool)
    requires ValidBook(b)
    ensures var r := Toggled(b, id, me, on);
      Toggled(Saved(b, r), id, me, on) == r && Saved(Saved(b, r), r) == Saved(b, r)
  {
    var r := Toggled(b, id, me, on);
    if r.Ok? {
      SavedFound(b, id, me, r.value);
    }
  }

  /** A deactivated strategy gets no work in the engine's next cycle. */
  lemma DeactivatedNotScheduled(b: Book, id: nat, me: UserId, quotes: CoinId -> Quote)
    requires ValidBook(b) && Lookup(b, id, me).Ok?
    ensures var b' := Saved(b, Toggled(b, id, me, false));
      && ValidBook(b')
      && forall j :: 0 <= j < |CycleJobs(b', quotes)| ==> CycleJobs(b', quotes)[j].item.id != id
  {
    var st := Toggled(b, id, me, false).value;
    var b' := Saved(b, Toggled(b, id, me, false));
    ReplaceStrategyKeepsBook(b, st);
    var jobs := CycleJobs(b', quotes);
    forall j | 0 <= j < |jobs| ensures jobs[j].item.id != id {
      var x := jobs[j].item;
      var k :| 0 <= k < |b'.strategies| && b'.strategies[k] == x;
    }
  }

  // ---------------------------------------------------------------------
  // Performance report

  /** The query `{ user, strategy, status: 'completed' }`, in store order. */
  function StrategyTrades(ts: seq<Trade>, me: UserId, id: nat): (r: seq<Trade>)
    ensures |r| <= |ts|
    ensures forall k :: 0 <= k < |r| ==> r[k] in ts && r[k].user == me && r[k].strategy == Some(id) && r[k].status == Completed
    ensures forall t {:trigger t in r} :: t in r <==> t in ts && t.user == me && t.strategy == Some(id) && t.status == Completed
  {
    if ts == [] then []
    else
      var t := ts[|ts| - 1];
      assert ts == ts[..|ts| - 1] + [t];
      StrategyTrades(ts[..|ts| - 1], me, id) + (if t.user == me && t.strategy == Some(id) && t.status == Completed then [t] else [])
  }

  /** `successfulTrades / executedTrades * 100`, or 0 without trades. */
  function SuccessRate(successful: nat, executed: nat): (r: real)
    ensures executed == 0 ==> r == 0.0
    ensures successful <= executed ==> 0.0 <= r <= 100.0
    ensures executed > 0 && successful == executed ==> r == 100.0
  {
    if executed > 0 then successful as real / executed as real * 100.0 else 0.0
  }

  /** `currentPrice`: the looked-up price, `undefined` when the lookup had
      none, and the initial 0 when it threw. */
  function CurrentPrice(q: Quote): Option<real> {
    match q
    case Price(v) => Some(v)
    case Undefined => None
    case Failed => Some(0.0)
  }

  /** `conditionsMet`: false unless the current price is positive, and then
      the conditions evaluated on the price alone. */
  function ConditionsNow(cs: seq<Condition>, q: Quote): (r: bool)
    ensures r <==> q.Price? && q.value > 0.0 && forall i :: 0 <= i < |cs| ==> Holds(cs[i], PriceData(q.value))
  {
    q.Price? && q.value > 0.0 && ConditionsMet(cs, PriceData(q.value))
  }

  datatype PerformanceReport = PerformanceReport(
    executedTrades: nat, successfulTrades: nat, successRate: real, totalProfit: real,
    currentPrice: Option<real>, conditionsMet: bool, recentTrades: seq<Trade>)

  /** The ten most recent trades or all of them. */
  function Recent(ts: seq<Trade>): (r: seq<Trade>)
    ensures |r| <= 10 && |r| <= |ts| && r == ts[..|r|]
    ensures |ts| <= 10 ==> r == ts
  {
    if |ts| <= 10 then ts else ts[..10]
  }

  /** `getStrategyPerformance`. */
  method GetStrategyPerformance(store: StrategyStore, db: Database, me: UserId, id: nat, quote: Quote)
    returns (r: Result<PerformanceReport, StrategyError>)
    ensures Lookup(store.Contents(), id, me).Err? ==> r == Err(Lookup(store.Contents(), id, me).error)
    ensures Lookup(store.Contents(), id, me).Ok? ==> r.Ok?
    ensures Lookup(store.Contents(), id, me).Ok? && r.Ok? ==>
      var st := Lookup(store.Contents(), id, me).value;
      var mine := StrategyTrades(db.trades, me, id);
      && r.value.executedTrades == |mine|
      && r.value.successfulTrades == Wins(mine)
      && r.value.totalProfit == ProfitTotal(mine)
      && r.value.successRate == SuccessRate(Wins(mine), |mine|)
      && 0.0 <= r.value.successRate <= 100.0
      && r.value.currentPrice == CurrentPrice(quote)
      && r.value.conditionsMet == ConditionsNow(st.conditions, quote)
      && r.value.recentTrades == Recent(Newest(mine))
  {
    var found := GetStrategy(store, me, id);
    if found.Err? {
      return Err(found.error);
    }
    var st := found.value;
    var trades := Newest(StrategyTrades(db.trades, me, id));
    var executed := |trades|;
    var successful: nat := 0;
    var total := 0.0;
    for i := 0 to |trades|
      invariant successful == Wins(trades[..i]) && total == ProfitTotal(trades[..i])
    {
      var t := trades[i];
      assert trades[..i + 1][..i] == trades[..i];
      if t.profit.Some? && t.profit.value != 0.0 && t.profit.value > 0.0 {
        successful := successful + 1;
        total := total + t.profit.value;
      } else if t.profit.Some? && t.profit.value != 0.0 {
        total := total + t.profit.value;
      }
    }
    assert trades[..|trades|] == trades;
    TalliesNewest(StrategyTrades(db.trades, me, id));
    var rate := SuccessRate(successful, executed);
    var price := CurrentPrice(quote);
    var met := false;
    if quote.Price? && quote.value > 0.0 {
      met := ConditionsMet(st.conditions, PriceData(quote.value));
    }
    return Ok(PerformanceReport(executed, successful, rate, total, price, met, Recent(trades)));
  }

  /** The tallies do not depend on the order the trades are visited in. */
  lemma {:induction false} TalliesNewest(ts: seq<Trade>)
    ensures Wins(Newest(ts)) == Wins(ts) && ProfitTotal(Newest(ts)) == ProfitTotal(ts) && Sells(Newest(ts)) == Sells(ts)
  {
    if ts != [] {
      var init := ts[..|ts| - 1];
      var last := [ts[|ts| - 1]];
      TalliesNewest(init);
      TalliesAppend(last, Newest(init));
      assert ts == init + last;
      TalliesAppend(init, last);
      assert Newest(ts) == last + Newest(init);
    }
  }

  /** The tallies of two lists of trades add up. */
  lemma {:induction false} TalliesAppend(xs: seq<Trade>, ys: seq<Trade>)
    ensures Wins(xs + ys) == Wins(xs) + Wins(ys)
    ensures ProfitTotal(xs + ys) == ProfitTotal(xs) + ProfitTotal(ys)
    ensures Sells(xs + ys) == Sells(xs) + Sells(ys)
  {
    if ys == [] {
      assert xs + ys == xs;
    } else {
      AppendSnoc(xs, ys);
      TalliesAppend(xs, ys[..|ys| - 1]);
    }
  }

  /** The query over a longer collection is the query over each part. */
  lemma {:induction false} StrategyTradesAppend(xs: seq<Trade>, ys: seq<Trade>, me: UserId, id: nat)
    ensures StrategyTrades(xs + ys, me, id) == StrategyTrades(xs, me, id) + StrategyTrades(ys, me, id)
  {
    if ys == [] {
      assert xs + ys == xs;
    } else {
      AppendSnoc(xs, ys);
      StrategyTradesAppend(xs, ys[..|ys| - 1], me, id);
    }
  }

  /** The query keeps every trade of the strategy. */
  lemma {:induction false} StrategyTradesAll(ts: seq<Trade>, st: Strategy)
    requires forall k :: 0 <= k < |ts| ==> Tagged(ts[k], st)
    ensures StrategyTrades(ts, st.user, st.id) == ts
  {
    if ts != [] {
      var init := ts[..|ts| - 1];
      forall k | 0 <= k < |init| ensures Tagged(init[k], st) {
        assert init[k] == ts[k];
      }
      StrategyTradesAll(init, st);
      assert Tagged(ts[|ts| - 1], st);
      assert StrategyTrades(ts, st.user, st.id) == StrategyTrades(init, st.user, st.id) + [ts[|ts| - 1]];
      assert init + [ts[|ts| - 1]] == ts;
    }
  }

  /** Over any run of a strategy's actions by the engine, the report's
      successful trades and total profit grow exactly as the stored
      counters do, while its executed trades also count the buys, which
      the stored `executedTrades` leaves out. */
  lemma ReportTracksEngine(w: World, acts: seq<Action>, p: real, now: int)
    requires Ready(w) && ActionsPositive(acts)
    ensures var r := RunActions(w, acts, p, now);
      var before := StrategyTrades(w.records.trades, w.current.user, w.current.id);
      var after := StrategyTrades(r.records.trades, w.current.user, w.current.id);
      var gained := r.current.performance.executedTrades - w.current.performance.executedTrades;
      && Wins(after) - Wins(before) == r.current.performance.successfulTrades - w.current.performance.successfulTrades
      && ProfitTotal(after) - ProfitTotal(before) == r.current.performance.totalProfit - w.current.performance.totalProfit
      && |after| - |before| == |r.records.trades| - |w.records.trades| >= gained >= 0
  {
    RunAccounting(w, acts, p, now);
    AccountedReport(w, RunActions(w, acts, p, now));
  }

  /** What `Accounted` means for the report's query. */
  lemma AccountedReport(w: World, r: World)
    requires Accounted(w, r)
    ensures var before := StrategyTrades(w.records.trades, w.current.user, w.current.id);
      var after := StrategyTrades(r.records.trades, w.current.user, w.current.id);
      var gained := r.current.performance.executedTrades - w.current.performance.executedTrades;
      && Wins(after) - Wins(before) == r.current.performance.successfulTrades - w.current.performance.successfulTrades
      && ProfitTotal(after) - ProfitTotal(before) == r.current.performance.totalProfit - w.current.performance.totalProfit
      && |after| - |before| == |r.records.trades| - |w.records.trades| >= gained >= 0
  {
    var n := |w.records.trades|;
    var added := r.records.trades[n..];
    assert r.records.trades == w.records.trades + added;
    StrategyTradesAppend(w.records.trades, added, w.current.user, w.current.id);
    forall k | 0 <= k < |added| ensures Tagged(added[k], w.current) {
      assert added[k] == r.records.trades[n + k];
    }
    StrategyTradesAll(added, w.current);
    TalliesAppend(StrategyTrades(w.records.trades, w.current.user, w.current.id), added);
  }

  // ---------------------------------------------------------------------
  // The trade documents as the schema keeps them

  /** A trade document as models/Trade.js keeps it. The schema declares
      neither `strategy` nor `profit`, `profitLoss` or
      `profitLossPercentage`, and a strict schema drops undeclared paths on
      `create` and `save`. The rest of the model keeps the four fields as
      the code writes them. */
  function AsStored(t: Trade): (r: Trade)
    ensures r.strategy.None? && r.profit.None? && r.profitLoss.None? && r.profitLossPercentage.None?
    ensures r.(strategy := t.strategy, profit := t.profit, profitLoss := t.profitLoss,
               profitLossPercentage := t.profitLossPercentage) == t
  {
    t.(strategy := None, profit := None, profitLoss := None, profitLossPercentage := None)
  }

  /** Every document of a collection as the schema keeps it. */
  function StoredAll(ts: seq<Trade>): (r: seq<Trade>)
    ensures |r| == |ts| && forall k :: 0 <= k < |ts| ==> r[k] == AsStored(ts[k])
  {
    if ts == [] then [] else StoredAll(ts[..|ts| - 1]) + [AsStored(ts[|ts| - 1])]
  }

  /** As stored, the report's query finds none of the engine's trades, and
      a query that ignored the tag would still count no sell, no success and
      no profit. */
  lemma {:induction false} StoredReportIsEmpty(ts: seq<Trade>, me: UserId, id: nat)
    ensures StrategyTrades(StoredAll(ts), me, id) == []
    ensures Sells(StoredAll(ts)) == 0 && Wins(StoredAll(ts)) == 0 && ProfitTotal(StoredAll(ts)) == 0.0
  {
    if ts != [] {
      var init := ts[..|ts| - 1];
      StoredReportIsEmpty(init, me, id);
      assert StoredAll(ts)[..|ts| - 1] == StoredAll(init);
    }
  }

  /** The scenario's sale at a profit of 150: the engine adds 1 and 150 to
      the counters (`StrategyProcessing.ScenarioSale`) and the report over
      the document the code writes agrees, but over the document as stored
      the report shows no trade, no success and no profit. */
  lemma StoredSaleUnreported(now: int)
    ensures var st := ScenarioStrategy(Performance(0, 0, 0.0));
      var t := ActionTrade(st, Action(Sell, 1.0), 250.0, Some(150.0), now);
      && StrategyTrades([t], st.user, st.id) == [t] && Wins([t]) == 1 && ProfitTotal([t]) == 150.0
      && StrategyTrades([AsStored(t)], st.user, st.id) == []
      && Wins([AsStored(t)]) == 0 && ProfitTotal([AsStored(t)]) == 0.0
  {
    var st := ScenarioStrategy(Performance(0, 0, 0.0));
    var t := ActionTrade(st, Action(Sell, 1.0), 250.0, Some(150.0), now);
    assert [t][..0] == [];
    assert t.user == st.user && t.strategy == Some(st.id) && t.status == Completed && t.profit == Some(150.0);
    assert StrategyTrades([t], st.user, st.id) == StrategyTrades([], st.user, st.id) + [t];
    assert Wins([t]) == Wins([]) + 1;
    assert ProfitTotal([t]) == ProfitTotal([]) + 150.0;
    StoredReportIsEmpty([t], st.user, st.id);
    assert StoredAll([t]) == [AsStored(t)];
  }
}
