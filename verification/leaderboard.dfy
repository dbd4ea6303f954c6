/** Leaderboards: users ranked by portfolio value (everyone, or the
    requester and their friends) and users ranked by the profit of their
    completed trades over the last day, week or month. */
module Leaderboard {
  import opened Common
  import opened Store
  import opened Grouping

  // ---------------------------------------------------------------------
  // Portfolio value

  /** The fields of a user document the value leaderboards read.
      `totalValue` and each holding's `currentValue` are read but not
      declared by the user schema, so as stored they are absent. */
  datatype Card = Card(
    id: UserId, name: string, avatar: Option<string>,
    totalValue: Option<real>, balance: real, holdingValues: seq<Option<real>>,
    friends: seq<UserId>)

  /** `holding.currentValue || 0`. */
  function ValueOrZero(v: Option<real>): real {
    if v.Some? then v.value else 0.0
  }

  /** `holdings.reduce((total, holding) => total + (holding.currentValue || 0), 0)`. */
  function HoldingsValue(vs: seq<Option<real>>): real {
    if vs == [] then 0.0 else HoldingsValue(vs[..|vs| - 1]) + ValueOrZero(vs[|vs| - 1])
  }

  /** The stored total when it is truthy; otherwise the balance, plus the
      holdings' values when there are holdings. */
  function PortfolioValue(c: Card): real {
    if GivenNumber(c.totalValue) then c.totalValue.value
    else if |c.holdingValues| > 0 then c.balance + HoldingsValue(c.holdingValues)
    else c.balance
  }

  /** A truthy stored total is taken as it is; otherwise the value is the
      balance plus the holdings' values (the guard on empty holdings
      changes nothing, as the empty sum is zero). */
  lemma PortfolioValueCases(c: Card)
    ensures GivenNumber(c.totalValue) ==> PortfolioValue(c) == c.totalValue.value
    ensures !GivenNumber(c.totalValue) ==> PortfolioValue(c) == c.balance + HoldingsValue(c.holdingValues)
  {
    if c.holdingValues == [] {
      assert HoldingsValue(c.holdingValues) == 0.0;
    }
  }

  /** Holdings without a current value add nothing. */
  lemma {:induction false} UnvaluedHoldings(vs: seq<Option<real>>)
    requires forall i :: 0 <= i < |vs| ==> vs[i].None?
    ensures HoldingsValue(vs) == 0.0
  {
    if vs != [] {
      UnvaluedHoldings(vs[..|vs| - 1]);
    }
  }

  /** Holdings of non-negative value never bring the value below the balance. */
  lemma {:induction false} HoldingsValueNonNegative(vs: seq<Option<real>>)
    requires forall i :: 0 <= i < |vs| ==> ValueOrZero(vs[i]) >= 0.0
    ensures HoldingsValue(vs) >= 0.0
  {
    if vs != [] {
      HoldingsValueNonNegative(vs[..|vs| - 1]);
    }
  }

  /** For a document as the schema stores it (no total, no current
      values) the portfolio value is the cash balance alone. */
  lemma StoredValueIsBalance(c: Card)
    requires c.totalValue.None? && forall i :: 0 <= i < |c.holdingValues| ==> c.holdingValues[i].None?
    ensures PortfolioValue(c) == c.balance
  {
    UnvaluedHoldings(c.holdingValues);
  }

  /** One row of a value leaderboard. */
  datatype ValueRow = ValueRow(id: UserId, name: string, avatar: Option<string>, portfolioValue: real)

  function RowOf(c: Card): ValueRow {
    ValueRow(c.id, c.name, c.avatar, PortfolioValue(c))
  }

  /** `users.map(...)`. */
  function ValueRows(cs: seq<Card>): (r: seq<ValueRow>)
    ensures |r| == |cs|
    ensures forall i :: 0 <= i < |cs| ==> r[i].id == cs[i].id && r[i].portfolioValue == PortfolioValue(cs[i])
    ensures forall i :: 0 <= i < |cs| ==> r[i].name == cs[i].name && r[i].avatar == cs[i].avatar
  {
    if cs == [] then [] else ValueRows(cs[..|cs| - 1]) + [RowOf(cs[|cs| - 1])]
  }

  /** The most entries a leaderboard lists. */
  const BoardLimit: nat := 50

  function Capped(n: nat): nat {
    if n < BoardLimit then n else BoardLimit
  }

  /** `getGlobalLeaderboard` over the users in the order the query sorts
      them: the first 50, each with its portfolio value. */
  function GlobalLeaderboard(users: seq<Card>): (r: seq<ValueRow>)
    ensures |r| == Capped(|users|) && |r| <= BoardLimit
    ensures forall i :: 0 <= i < |r| ==> r[i].id == users[i].id && r[i].portfolioValue == PortfolioValue(users[i])
  {
    ValueRows(users[..Capped(|users|)])
  }

  /** One row of the friends leaderboard. */
  datatype FriendRow = FriendRow(row: ValueRow, isCurrentUser: bool)

  datatype LeaderboardError = UserNotFound

  /** `User.findById`: the document with that id. */
  function FindCard(users: seq<Card>, id: UserId): (r: Option<nat>)
    ensures r.Some? ==> r.value < |users| && users[r.value].id == id
    ensures r.None? ==> forall i :: 0 <= i < |users| ==> users[i].id != id
  {
    if users == [] then None
    else match FindCard(users[..|users| - 1], id)
      case Some(i) => Some(i)
      case None => if users[|users| - 1].id == id then Some(|users| - 1) else None
  }

  /** `User.find({ _id: { $in: ids } })`: the documents whose id is listed. */
  function Members(users: seq<Card>, ids: seq<UserId>): (r: seq<Card>)
    ensures forall c :: c in r <==> c in users && c.id in ids
  {
    if users == [] then []
    else Members(users[..|users| - 1], ids) + (if users[|users| - 1].id in ids then [users[|users| - 1]] else [])
  }

  /** The rows, each marked when it is the requester's. */
  function FriendRows(cs: seq<Card>, me: UserId): (r: seq<FriendRow>)
    ensures |r| == |cs|
    ensures forall i :: 0 <= i < |cs| ==> r[i].row == RowOf(cs[i]) && (r[i].isCurrentUser <==> cs[i].id == me)
  {
    if cs == [] then [] else FriendRows(cs[..|cs| - 1], me) + [FriendRow(RowOf(cs[|cs| - 1]), cs[|cs| - 1].id == me)]
  }

  /** `getFriendsLeaderboard`: nothing for a user without friends;
      otherwise the friends and the requester, with their values. A
      requester whose document is missing makes the handler fail. */
  function FriendsLeaderboard(users: seq<Card>, me: UserId): (r: Result<seq<FriendRow>, LeaderboardError>)
    ensures r.Err? <==> FindCard(users, me).None?
    ensures r.Ok? ==> forall i :: 0 <= i < |r.value| ==> (r.value[i].isCurrentUser <==> r.value[i].row.id == me)
  {
    match FindCard(users, me)
    case None => Err(UserNotFound)
    case Some(i) =>
      var friends := users[i].friends;
      if friends == [] then Ok([]) else Ok(FriendRows(Members(users, friends + [me]), me))
  }

  /** Who is on the friends leaderboard: nobody when the requester has no
      friends, otherwise exactly the requester and the users among their
      friends, the requester marked as the current user. */
  lemma FriendsLeaderboardMembers(users: seq<Card>, me: UserId)
    requires FindCard(users, me).Some?
    ensures var friends := users[FindCard(users, me).value].friends;
      var r := FriendsLeaderboard(users, me).value;
      && (friends == [] ==> r == [])
      && (friends != [] ==>
            && (forall c :: c in users && (c.id == me || c.id in friends) ==> FriendRow(RowOf(c), c.id == me) in r)
            && (forall i :: 0 <= i < |r| ==> r[i].row.id == me || r[i].row.id in friends)
            && exists i :: 0 <= i < |r| && r[i].row.id == me && r[i].isCurrentUser)
  {
    var k := FindCard(users, me).value;
    var friends := users[k].friends;
    if friends != [] {
      var ms := Members(users, friends + [me]);
      var r := FriendRows(ms, me);
      forall c | c in users && (c.id == me || c.id in friends) ensures FriendRow(RowOf(c), c.id == me) in r {
        assert c.id in friends + [me];
        var j :| 0 <= j < |ms| && ms[j] == c;
        assert r[j] == FriendRow(RowOf(c), c.id == me);
      }
      forall i | 0 <= i < |r| ensures r[i].row.id == me || r[i].row.id in friends {
        assert ms[i] in ms;
        assert ms[i].id in friends + [me];
      }
      assert users[k] in users;
      assert FriendRow(RowOf(users[k]), true) in r;
    }
  }

  // ---------------------------------------------------------------------
  // Gainer rankings

  /** One entry of `userProfits`. */
  datatype Gain = Gain(userId: UserId, totalProfit: real, tradeCount: nat)

  function TradeUser(t: Trade): string {
    t.user
  }

  /** What a trade adds to its user's profit: nothing for a buy,
      `trade.profit || 0` for a sell. */
  function Gained(t: Trade): real {
    if t.side == Buy then 0.0 else if t.profit.Some? then t.profit.value else 0.0
  }

  function GainTotal(ts: seq<Trade>): real {
    if ts == [] then 0.0 else GainTotal(ts[..|ts| - 1]) + Gained(ts[|ts| - 1])
  }

  /** The entry of user `u` whose trades are `g`. */
  function GainOf(u: UserId, g: seq<Trade>): Gain {
    Gain(u, GainTotal(g), |g|)
  }

  /** One trade counted into its user's entry. */
  function Count1(e: Gain, t: Trade): Gain {
    e.(totalProfit := e.totalProfit + Gained(t), tradeCount := e.tradeCount + 1)
  }

  /** The completed trades made between `from` and `to`, both included. */
  function InWindow(ts: seq<Trade>, from: int, to: int): (r: seq<Trade>)
    ensures |r| <= |ts|
    ensures forall i :: 0 <= i < |r| ==> r[i].status == Completed && from <= r[i].createdAt <= to
    ensures forall t {:trigger t in r} :: t in r <==> t in ts && t.status == Completed && from <= t.createdAt <= to
  {
    if ts == [] then []
    else
      var t := ts[|ts| - 1];
      assert ts == ts[..|ts| - 1] + [t];
      InWindow(ts[..|ts| - 1], from, to) + (if t.status == Completed && from <= t.createdAt <= to then [t] else [])
  }

  /** `users` lists the traders in order of first appearance and `gains`
      holds each one's entry. */
  ghost predicate Aggregated(ts: seq<Trade>, users: seq<UserId>, gains: map<UserId, Gain>) {
    && users == FirstAppearance(Keys(ts, TradeUser))
    && (forall u :: u in gains <==> u in users)
    && (forall u :: u in gains ==> gains[u] == GainOf(u, Having(ts, TradeUser, u)))
  }

  /** The `trades.forEach` loop: an entry is created the first time a user
      is seen; a buy then adds one trade, a sell one trade and its profit. */
  method Aggregate(ts: seq<Trade>) returns (users: seq<UserId>, gains: map<UserId, Gain>)
    ensures Aggregated(ts, users, gains)
  {
    users, gains := [], map[];
    for i := 0 to |ts|
      invariant Aggregated(ts[..i], users, gains)
    {
      var t := ts[i];
      var u := t.user;
      assert ts[..i + 1] == ts[..i] + [t];
      AggregatedSnoc(ts[..i], t, users, gains);
      var entry := Gain(u, 0.0, 0);
      if u in gains {
        entry := gains[u];
      } else {
        users := users + [u];
      }
      var next;
      if t.side == Buy {
        next := entry.(tradeCount := entry.tradeCount + 1);
      } else {
        var profit := if t.profit.Some? then t.profit.value else 0.0;
        next := entry.(totalProfit := entry.totalProfit + profit, tradeCount := entry.tradeCount + 1);
      }
      assert next == Count1(entry, t);
      gains := gains[u := Count1(entry, t)];
    }
    assert ts[..|ts|] == ts;
  }

  /** One more trade extends the entries as the loop body does. */
  lemma AggregatedSnoc(ts: seq<Trade>, t: Trade, users: seq<UserId>, gains: map<UserId, Gain>)
    requires Aggregated(ts, users, gains)
    ensures var u := t.user;
      Aggregated(ts + [t], if u in gains then users else users + [u],
                 gains[u := Count1(if u in gains then gains[u] else Gain(u, 0.0, 0), t)])
  {
    var u := t.user;
    OrderSnoc(ts, t, TradeUser, users);
    var users' := if u in gains then users else users + [u];
    var gains' := gains[u := Count1(if u in gains then gains[u] else Gain(u, 0.0, 0), t)];
    forall v | v in gains' ensures gains'[v] == GainOf(v, Having(ts + [t], TradeUser, v)) {
      AggregatedEntry(ts, t, users, gains, v);
    }
    AggregatedIntro(ts + [t], users', gains');
  }

  lemma AggregatedIntro(ts: seq<Trade>, users: seq<UserId>, gains: map<UserId, Gain>)
    requires users == FirstAppearance(Keys(ts, TradeUser))
    requires forall u :: u in gains <==> u in users
    requires forall u :: u in gains ==> gains[u] == GainOf(u, Having(ts, TradeUser, u))
    ensures Aggregated(ts, users, gains)
  {
  }

  /** One user's entry after one more trade. */
  lemma AggregatedEntry(ts: seq<Trade>, t: Trade, users: seq<UserId>, gains: map<UserId, Gain>, v: UserId)
    requires Aggregated(ts, users, gains) && (v in gains || v == t.user)
    ensures var u := t.user;
      var gains' := gains[u := Count1(if u in gains then gains[u] else Gain(u, 0.0, 0), t)];
      gains'[v] == GainOf(v, Having(ts + [t], TradeUser, v))
  {
    var u := t.user;
    HavingSnoc(ts, t, TradeUser, v);
    if v == u {
      if u !in gains {
        FirstAppearanceMembers(Keys(ts, TradeUser));
        HavingAbsent(ts, TradeUser, u);
      }
      GainOfSnoc(u, Having(ts, TradeUser, u), t);
    } else {
      assert Having(ts + [t], TradeUser, v) == Having(ts, TradeUser, v) + [];
    }
  }

  /** One more trade of the user counts into the entry. */
  lemma GainOfSnoc(u: UserId, g: seq<Trade>, t: Trade)
    ensures GainOf(u, g + [t]) == Count1(GainOf(u, g), t)
  {
    assert (g + [t])[..|g|] == g;
  }

  /** Every user's entry, in order of first appearance: `Object.values(userProfits)`. */
  function Standings(ts: seq<Trade>): (r: seq<Gain>)
    ensures |r| == |FirstAppearance(Keys(ts, TradeUser))|
    ensures forall i :: 0 <= i < |r| ==>
      var u := FirstAppearance(Keys(ts, TradeUser))[i];
      r[i] == GainOf(u, Having(ts, TradeUser, u))
  {
    var users := FirstAppearance(Keys(ts, TradeUser));
    seq(|users|, i requires 0 <= i < |users| => GainOf(users[i], Having(ts, TradeUser, users[i])))
  }

  /** `Object.values(userProfits)` read off the loop's dictionary. */
  method Entries(ts: seq<Trade>, users: seq<UserId>, gains: map<UserId, Gain>) returns (xs: seq<Gain>)
    requires Aggregated(ts, users, gains)
    ensures xs == Standings(ts)
  {
    ghost var all := Standings(ts);
    xs := [];
    for k := 0 to |users|
      invariant xs == all[..k]
    {
      var u := users[k];
      assert u in gains;
      assert gains[u] == all[k];
      TakeOneMore(all, k);
      xs := xs + [gains[u]];
    }
    assert all[..|users|] == all;
  }

  /** `.filter(item => item.tradeCount > 0)`. */
  function Active(xs: seq<Gain>): (r: seq<Gain>)
    ensures forall i :: 0 <= i < |r| ==> r[i].tradeCount > 0
  {
    if xs == [] then []
    else Active(xs[..|xs| - 1]) + (if xs[|xs| - 1].tradeCount > 0 then [xs[|xs| - 1]] else [])
  }

  /** The filter keeps every entry: each was created for a trade it counts. */
  lemma {:induction false} StandingsAllActive(ts: seq<Trade>)
    ensures Active(Standings(ts)) == Standings(ts)
  {
    var xs := Standings(ts);
    var users := FirstAppearance(Keys(ts, TradeUser));
    FirstAppearanceMembers(Keys(ts, TradeUser));
    forall i | 0 <= i < |xs| ensures xs[i].tradeCount > 0 {
      assert users[i] in users;
      KeyHasItems(ts, TradeUser, users[i]);
    }
    ActiveKeepsAll(xs);
  }

  lemma {:induction false} ActiveKeepsAll(xs: seq<Gain>)
    requires forall i :: 0 <= i < |xs| ==> xs[i].tradeCount > 0
    ensures Active(xs) == xs
  {
    if xs != [] {
      ActiveKeepsAll(xs[..|xs| - 1]);
    }
  }

  /** Highest profit first. */
  predicate Descending(xs: seq<Gain>) {
    forall i, j :: 0 <= i < j < |xs| ==> xs[i].totalProfit >= xs[j].totalProfit
  }

  /** Puts `x` into a descending list in front of the first entry whose
      profit it reaches. */
  function Insert(x: Gain, ys: seq<Gain>): (r: seq<Gain>)
    ensures |r| == |ys| + 1
    ensures multiset(r) == multiset(ys) + multiset{x}
  {
    if ys == [] then [x]
    else if x.totalProfit >= ys[0].totalProfit then [x] + ys
    else
      assert ys == [ys[0]] + ys[1..];
      [ys[0]] + Insert(x, ys[1..])
  }

  /** `.sort((a, b) => b.totalProfit - a.totalProfit)`: a stable sort,
      highest profit first. */
  function Ranked(xs: seq<Gain>): (r: seq<Gain>)
    ensures |r| == |xs|
    ensures multiset(r) == multiset(xs)
  {
    if xs == [] then []
    else
      assert xs == [xs[0]] + xs[1..];
      Insert(xs[0], Ranked(xs[1..]))
  }

  lemma {:induction false} InsertDescending(x: Gain, ys: seq<Gain>)
    requires Descending(ys)
    ensures Descending(Insert(x, ys))
  {
    if ys == [] {
    } else if x.totalProfit >= ys[0].totalProfit {
      DescendingCons(x, ys);
    } else {
      InsertDescending(x, ys[1..]);
      var rest := Insert(x, ys[1..]);
      forall j | 0 <= j < |rest| ensures ys[0].totalProfit >= rest[j].totalProfit {
        assert rest[j] in multiset(rest);
        assert rest[j] == x || rest[j] in ys[1..];
      }
      DescendingCons(ys[0], rest);
    }
  }

  /** An entry reaching every profit of a descending list can head it. */
  lemma DescendingCons(y: Gain, zs: seq<Gain>)
    requires Descending(zs)
    requires zs != [] ==> y.totalProfit >= zs[0].totalProfit
    ensures Descending([y] + zs)
  {
    var r := [y] + zs;
    forall i, j | 0 <= i < j < |r| ensures r[i].totalProfit >= r[j].totalProfit {
      assert r[j] == zs[j - 1];
      if i > 0 {
        assert r[i] == zs[i - 1];
      }
    }
  }

  /** The ranking is in descending order of profit and is a permutation of the entries. */
  lemma {:induction false} RankedDescending(xs: seq<Gain>)
    ensures Descending(Ranked(xs)) && multiset(Ranked(xs)) == multiset(xs)
  {
    if xs != [] {
      RankedDescending(xs[1..]);
      InsertDescending(xs[0], Ranked(xs[1..]));
    }
  }

  /** `.slice(0, 50)`. */
  function Top(xs: seq<Gain>): (r: seq<Gain>)
    ensures |r| == Capped(|xs|)
    ensures forall i :: 0 <= i < |r| ==> r[i] == xs[i]
  {
    xs[..Capped(|xs|)]
  }

  /** The name and avatar the lookup returns. */
  datatype Profile = Profile(name: string, avatar: Option<string>)

  /** `userMap[id]?.name || 'Unknown User'`. */
  function NameOf(profiles: map<UserId, Profile>, u: UserId): string {
    if u in profiles && profiles[u].name != "" then profiles[u].name else "Unknown User"
  }

  /** `userMap[id]?.avatar || null`. */
  function AvatarOf(profiles: map<UserId, Profile>, u: UserId): Option<string> {
    if u in profiles && GivenText(profiles[u].avatar) then profiles[u].avatar else None
  }

  /** One entry of a gainer ranking. */
  datatype GainerRow = GainerRow(id: UserId, name: string, avatar: Option<string>, profit: real, tradeCount: nat)

  /** `profitArray.map(...)`. */
  function GainerRows(xs: seq<Gain>, profiles: map<UserId, Profile>): (r: seq<GainerRow>)
    ensures |r| == |xs|
    ensures forall i :: 0 <= i < |xs| ==>
      r[i] == GainerRow(xs[i].userId, NameOf(profiles, xs[i].userId), AvatarOf(profiles, xs[i].userId),
                        xs[i].totalProfit, xs[i].tradeCount)
  {
    if xs == [] then []
    else
      var x := xs[|xs| - 1];
      GainerRows(xs[..|xs| - 1], profiles) + [GainerRow(x.userId, NameOf(profiles, x.userId), AvatarOf(profiles, x.userId), x.totalProfit, x.tradeCount)]
  }

  /** The ranking of the trades `ts`, as the three handlers compute it. */
  function Board(ts: seq<Trade>, profiles: map<UserId, Profile>): seq<GainerRow> {
    GainerRows(Top(Ranked(Active(Standings(ts)))), profiles)
  }

  /** `getDailyGainers`, `getWeeklyGainers` and `getMonthlyGainers` differ
      only in the window: the aggregation, filter, sort, cap and lookup are
      this one. */
  method Gainers(trades: seq<Trade>, from: int, to: int, profiles: map<UserId, Profile>) returns (board: seq<GainerRow>)
    ensures board == Board(InWindow(trades, from, to), profiles)
  {
    var ts := InWindow(trades, from, to);
    var users, gains := Aggregate(ts);
    var values := Entries(ts, users, gains);
    board := GainerRows(Top(Ranked(Active(values))), profiles);
  }

  /** Different positions hold different users. */
  predicate DistinctUsers(xs: seq<Gain>) {
    forall i, j :: 0 <= i < j < |xs| ==> xs[i].userId != xs[j].userId
  }

  lemma {:induction false} InsertDistinct(x: Gain, ys: seq<Gain>)
    requires DistinctUsers(ys) && forall k :: 0 <= k < |ys| ==> ys[k].userId != x.userId
    ensures DistinctUsers(Insert(x, ys))
  {
    if ys != [] && x.totalProfit < ys[0].totalProfit {
      InsertDistinct(x, ys[1..]);
      var r := Insert(x, ys);
      forall j | 1 <= j < |r| ensures r[0].userId != r[j].userId {
        assert r[j] in multiset(Insert(x, ys[1..]));
        assert r[j] == x || r[j] in ys[1..];
      }
    }
  }

  /** The ranking lists each user at most once when the entries do. */
  lemma {:induction false} RankedDistinct(xs: seq<Gain>)
    requires DistinctUsers(xs)
    ensures DistinctUsers(Ranked(xs))
  {
    if xs != [] {
      var rest := Ranked(xs[1..]);
      RankedDistinct(xs[1..]);
      forall k | 0 <= k < |rest| ensures rest[k].userId != xs[0].userId {
        assert rest[k] in multiset(xs[1..]);
        var q :| 0 <= q < |xs[1..]| && xs[1..][q] == rest[k];
        assert xs[q + 1] == rest[k];
      }
      InsertDistinct(xs[0], rest);
    }
  }

  /** The entries are those of the users in order of first appearance, one per user. */
  lemma StandingsUsers(ts: seq<Trade>)
    ensures var users := FirstAppearance(Keys(ts, TradeUser)); var xs := Standings(ts);
      (forall i :: 0 <= i < |xs| ==> xs[i].userId == users[i]) && DistinctUsers(xs)
  {
    FirstAppearanceDistinct(Keys(ts, TradeUser));
  }

  /** The ranking's rows, with the filter shown to keep every entry. */
  lemma BoardIsRanking(ts: seq<Trade>, profiles: map<UserId, Profile>)
    ensures Board(ts, profiles) == GainerRows(Top(Ranked(Standings(ts))), profiles)
  {
    StandingsAllActive(ts);
  }

  /** A ranking has at most 50 rows: one per user while there are fewer. */
  lemma BoardSize(ts: seq<Trade>, profiles: map<UserId, Profile>)
    ensures |Board(ts, profiles)| == Capped(|FirstAppearance(Keys(ts, TradeUser))|)
  {
    BoardIsRanking(ts, profiles);
  }

  /** Highest profit first, and no user twice. */
  lemma BoardOrder(ts: seq<Trade>, profiles: map<UserId, Profile>)
    ensures var b := Board(ts, profiles);
      forall i, j :: 0 <= i < j < |b| ==> b[i].profit >= b[j].profit && b[i].id != b[j].id
  {
    BoardIsRanking(ts, profiles);
    var xs := Standings(ts);
    RankedDescending(xs);
    StandingsUsers(ts);
    RankedDistinct(xs);
  }

  /** Each row is one trader's: their completed trades counted (never
      zero), their sell profit summed, their name and avatar looked up. */
  lemma BoardRows(ts: seq<Trade>, profiles: map<UserId, Profile>)
    ensures var b := Board(ts, profiles);
      forall i :: 0 <= i < |b| ==>
        var g := Having(ts, TradeUser, b[i].id);
        && b[i].id in FirstAppearance(Keys(ts, TradeUser))
        && b[i].profit == GainTotal(g) && b[i].tradeCount == |g| && b[i].tradeCount > 0
        && b[i].name == NameOf(profiles, b[i].id) && b[i].avatar == AvatarOf(profiles, b[i].id)
  {
    BoardIsRanking(ts, profiles);
    var users := FirstAppearance(Keys(ts, TradeUser));
    var xs := Standings(ts);
    var rs := Ranked(xs);
    var b := Board(ts, profiles);
    FirstAppearanceMembers(Keys(ts, TradeUser));
    forall i | 0 <= i < |b|
      ensures var g := Having(ts, TradeUser, b[i].id);
        b[i].id in users && b[i].profit == GainTotal(g) && b[i].tradeCount == |g| && b[i].tradeCount > 0
    {
      assert b[i].id == rs[i].userId && b[i].profit == rs[i].totalProfit && b[i].tradeCount == rs[i].tradeCount;
      assert rs[i] in multiset(xs);
      var k :| 0 <= k < |xs| && xs[k] == rs[i];
      assert users[k] in users;
      KeyHasItems(ts, TradeUser, users[k]);
    }
  }

  /** Nobody left off the ranking earned more than anyone on it: a trader
      who earned more than some listed trader is listed. */
  lemma BoardComplete(ts: seq<Trade>, profiles: map<UserId, Profile>)
    ensures var b := Board(ts, profiles);
      forall u, i :: u in FirstAppearance(Keys(ts, TradeUser)) && 0 <= i < |b| && GainTotal(Having(ts, TradeUser, u)) > b[i].profit ==>
        exists j :: 0 <= j < |b| && b[j].id == u
  {
    BoardIsRanking(ts, profiles);
    var users := FirstAppearance(Keys(ts, TradeUser));
    var xs := Standings(ts);
    var rs := Ranked(xs);
    RankedDescending(xs);
    var b := Board(ts, profiles);
    RowsOfTop(rs, profiles);
    forall u, i | u in users && 0 <= i < |b| && GainTotal(Having(ts, TradeUser, u)) > b[i].profit
      ensures exists j :: 0 <= j < |b| && b[j].id == u
    {
      var k :| 0 <= k < |users| && users[k] == u;
      assert xs[k] == GainOf(u, Having(ts, TradeUser, u));
      assert xs[k] in multiset(rs);
      var j := TopListed(rs, b, xs[k], i);
      assert b[j].id == u;
    }
  }

  /** Each row of a ranking carries the user and the profit of the entry at
      its place. */
  lemma RowsOfTop(rs: seq<Gain>, profiles: map<UserId, Profile>)
    ensures var b := GainerRows(Top(rs), profiles);
      && |b| <= |rs|
      && forall j :: 0 <= j < |b| ==> b[j].id == rs[j].userId && b[j].profit == rs[j].totalProfit
  {
  }

  /** In a ranking read off a descending list, an entry with more profit
      than some listed row is itself listed. */
  lemma TopListed(rs: seq<Gain>, b: seq<GainerRow>, x: Gain, i: nat) returns (p: nat)
    requires Descending(rs) && x in rs && |b| <= |rs| && i < |b| && x.totalProfit > b[i].profit
    requires forall j :: 0 <= j < |b| ==> b[j].id == rs[j].userId && b[j].profit == rs[j].totalProfit
    ensures p < |b| && b[p].id == x.userId
  {
    p :| 0 <= p < |rs| && rs[p] == x;
    RankedAhead(rs, p, i);
  }

  /** In a descending list, an entry with more profit than position `i` is before it. */
  lemma RankedAhead(rs: seq<Gain>, p: nat, i: nat)
    requires Descending(rs) && p < |rs| && i < |rs| && rs[p].totalProfit > rs[i].totalProfit
    ensures p < i
  {
  }

  /** The window of `days` days back from today's local midnight to the
      last millisecond of today. */
  function WindowFrom(midnight: int, days: nat): int {
    midnight - days * DayMs
  }

  function WindowTo(midnight: int): int {
    midnight + DayMs - 1
  }

  /** `getDailyGainers`: since yesterday's midnight. */
  method DailyGainers(trades: seq<Trade>, midnight: int, profiles: map<UserId, Profile>) returns (board: seq<GainerRow>)
    ensures board == Board(InWindow(trades, WindowFrom(midnight, 1), WindowTo(midnight)), profiles)
  {
    board := Gainers(trades, WindowFrom(midnight, 1), WindowTo(midnight), profiles);
  }

  /** `getWeeklyGainers`: since the midnight seven days ago. */
  method WeeklyGainers(trades: seq<Trade>, midnight: int, profiles: map<UserId, Profile>) returns (board: seq<GainerRow>)
    ensures board == Board(InWindow(trades, WindowFrom(midnight, 7), WindowTo(midnight)), profiles)
  {
    board := Gainers(trades, WindowFrom(midnight, 7), WindowTo(midnight), profiles);
  }

  /** `getMonthlyGainers`: since the midnight thirty days ago. */
  method MonthlyGainers(trades: seq<Trade>, midnight: int, profiles: map<UserId, Profile>) returns (board: seq<GainerRow>)
    ensures board == Board(InWindow(trades, WindowFrom(midnight, 30), WindowTo(midnight)), profiles)
  {
    board := Gainers(trades, WindowFrom(midnight, 30), WindowTo(midnight), profiles);
  }

  /** A longer window counts at least as many of a user's trades: the
      weekly count is at least the daily one, the monthly at least the weekly. */
  lemma {:induction false} WiderWindowCountsMore(ts: seq<Trade>, from1: int, from2: int, to: int, u: UserId)
    requires from2 <= from1
    ensures |Having(InWindow(ts, from1, to), TradeUser, u)| <= |Having(InWindow(ts, from2, to), TradeUser, u)|
  {
    if ts != [] {
      var init := ts[..|ts| - 1];
      var t := ts[|ts| - 1];
      WiderWindowCountsMore(init, from1, from2, to, u);
      var w1, w2 := InWindow(init, from1, to), InWindow(init, from2, to);
      if t.status == Completed && from1 <= t.createdAt <= to {
        assert InWindow(ts, from1, to) == w1 + [t] && InWindow(ts, from2, to) == w2 + [t];
        HavingSnoc(w1, t, TradeUser, u);
        HavingSnoc(w2, t, TradeUser, u);
      } else if t.status == Completed && from2 <= t.createdAt <= to {
        assert InWindow(ts, from1, to) == w1 + [] && InWindow(ts, from2, to) == w2 + [t];
        assert w1 + [] == w1;
        HavingSnoc(w2, t, TradeUser, u);
      } else {
        assert InWindow(ts, from1, to) == w1 + [] && InWindow(ts, from2, to) == w2 + [];
        assert w1 + [] == w1 && w2 + [] == w2;
      }
    }
  }
}
