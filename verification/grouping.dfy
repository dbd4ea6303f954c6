/** Grouping of pending orders or active strategies by coin, as both
    background engines do before looking up one price per coin: a
    dictionary from coin id to the items of that coin, whose keys are then
    visited in the order they were first inserted. */
module Grouping {
  import opened Common

  /** The key of every item, in order. */
  function Keys<T>(items: seq<T>, key: T -> string): (r: seq<string>)
    ensures |r| == |items| && forall j :: 0 <= j < |items| ==> r[j] == key(items[j])
  {
    if items == [] then [] else Keys(items[..|items| - 1], key) + [key(items[|items| - 1])]
  }

  /** The distinct keys in order of first appearance. */
  function FirstAppearance(keys: seq<string>): seq<string> {
    if keys == [] then []
    else
      var init := FirstAppearance(keys[..|keys| - 1]);
      var c := keys[|keys| - 1];
      if c in init then init else init + [c]
  }

  /** The first-appearance order lists exactly the keys that occur. */
  lemma {:induction false} FirstAppearanceMembers(keys: seq<string>)
    ensures forall c :: c in FirstAppearance(keys) <==> c in keys
  {
    if keys != [] {
      var init := keys[..|keys| - 1];
      FirstAppearanceMembers(init);
      assert keys == init + [keys[|keys| - 1]];
    }
  }

  predicate Distinct(xs: seq<string>) {
    forall i, j :: 0 <= i < j < |xs| ==> xs[i] != xs[j]
  }

  /** No coin is visited twice, so no price is looked up twice in a cycle. */
  lemma {:induction false} FirstAppearanceDistinct(keys: seq<string>)
    ensures Distinct(FirstAppearance(keys))
  {
    if keys != [] {
      FirstAppearanceDistinct(keys[..|keys| - 1]);
    }
  }

  /** The items whose key is `c`, in order. */
  function Having<T>(items: seq<T>, key: T -> string, c: string): (r: seq<T>)
    ensures |r| <= |items|
    ensures forall j :: 0 <= j < |r| ==> key(r[j]) == c
  {
    if items == [] then []
    else
      var init := Having(items[..|items| - 1], key, c);
      var x := items[|items| - 1];
      if key(x) == c then init + [x] else init
  }

  /** A key that occurs has at least one item. */
  lemma {:induction false} KeyHasItems<T>(items: seq<T>, key: T -> string, c: string)
    requires c in Keys(items, key)
    ensures Having(items, key, c) != []
  {
    var init := items[..|items| - 1];
    assert Keys(items, key) == Keys(init, key) + [key(items[|items| - 1])];
    if key(items[|items| - 1]) != c {
      KeyHasItems(init, key, c);
    }
  }

  /** Each member of a group is one of the items. */
  lemma {:induction false} HavingFrom<T>(items: seq<T>, key: T -> string, c: string, j: nat)
    requires j < |Having(items, key, c)|
    ensures exists i :: 0 <= i < |items| && items[i] == Having(items, key, c)[j]
  {
    var init := items[..|items| - 1];
    var h := Having(init, key, c);
    if j < |h| {
      HavingFrom(init, key, c, j);
      var i :| 0 <= i < |init| && init[i] == h[j];
      assert items[i] == init[i];
    } else {
      assert Having(items, key, c)[j] == items[|items| - 1];
    }
  }

  /** `coins` and `groups` are the grouping of `items`. */
  ghost predicate Grouped<T>(items: seq<T>, key: T -> string, coins: seq<string>, groups: map<string, seq<T>>) {
    && coins == FirstAppearance(Keys(items, key))
    && (forall c :: c in groups <==> c in coins)
    && (forall c :: c in groups ==> groups[c] == Having(items, key, c))
  }

  /** `ordersByCoin`: one pass over the items, creating a group the first
      time a key is seen and appending each item to its group. */
  method GroupBy<T>(items: seq<T>, key: T -> string) returns (coins: seq<string>, groups: map<string, seq<T>>)
    ensures Grouped(items, key, coins, groups)
  {
    coins, groups := [], map[];
    for i := 0 to |items|
      invariant Grouped(items[..i], key, coins, groups)
    {
      var x := items[i];
      var k := key(x);
      assert items[..i + 1] == items[..i] + [x];
      ghost var coins0, groups0 := coins, groups;
      if k !in groups {
        groups := groups[k := []];
        coins := coins + [k];
      }
      groups := groups[k := groups[k] + [x]];
      GroupedSnoc(items[..i], x, key, coins0, groups0);
    }
    assert items[..|items|] == items;
  }

  /** The keys of a list with one more item. */
  lemma KeysSnoc<T>(items: seq<T>, x: T, key: T -> string)
    ensures Keys(items + [x], key) == Keys(items, key) + [key(x)]
  {
    assert (items + [x])[..|items|] == items;
  }

  /** A group of a list with one more item. */
  lemma HavingSnoc<T>(items: seq<T>, x: T, key: T -> string, c: string)
    ensures Having(items + [x], key, c) == Having(items, key, c) + (if key(x) == c then [x] else [])
  {
    assert (items + [x])[..|items|] == items;
  }

  /** One more item adds its key to the first-appearance order when the key is new. */
  lemma OrderSnoc<T>(items: seq<T>, x: T, key: T -> string, coins: seq<string>)
    requires coins == FirstAppearance(Keys(items, key))
    ensures FirstAppearance(Keys(items + [x], key)) == if key(x) in coins then coins else coins + [key(x)]
  {
    var all := items + [x];
    KeysSnoc(items, x, key);
    assert Keys(all, key)[..|items|] == Keys(items, key);
  }

  /** One more item extends the grouping as the loop body does. */
  lemma GroupedSnoc<T>(items: seq<T>, x: T, key: T -> string, coins: seq<string>, groups: map<string, seq<T>>)
    requires Grouped(items, key, coins, groups)
    ensures var k := key(x);
      var coins' := if k in groups then coins else coins + [k];
      var groups' := groups[k := (if k in groups then groups[k] else []) + [x]];
      Grouped(items + [x], key, coins', groups')
  {
    var k := key(x);
    var all := items + [x];
    KeysSnoc(items, x, key);
    var coins' := if k in groups then coins else coins + [k];
    var groups' := groups[k := (if k in groups then groups[k] else []) + [x]];
    OrderSnoc(items, x, key, coins);
    forall c | c in groups' ensures groups'[c] == Having(all, key, c) {
      HavingSnoc(items, x, key, c);
      if c == k && k !in groups {
        FirstAppearanceMembers(Keys(items, key));
        HavingAbsent(items, key, k);
      }
    }
  }

  /** Total size of the groups of the given keys. */
  function GroupSizes<T>(items: seq<T>, key: T -> string, cs: seq<string>): nat {
    if cs == [] then 0 else GroupSizes(items, key, cs[..|cs| - 1]) + |Having(items, key, cs[|cs| - 1])|
  }

  /** The groups partition the items: every item lands in exactly one group. */
  lemma {:induction false} GroupsPartition<T>(items: seq<T>, key: T -> string)
    ensures GroupSizes(items, key, FirstAppearance(Keys(items, key))) == |items|
  {
    if items != [] {
      var init := items[..|items| - 1];
      var k := key(items[|items| - 1]);
      assert Keys(items, key) == Keys(init, key) + [k];
      assert Keys(items, key)[..|items| - 1] == Keys(init, key);
      GroupsPartition(init, key);
      var cs := FirstAppearance(Keys(init, key));
      FirstAppearanceDistinct(Keys(init, key));
      if k in cs {
        assert FirstAppearance(Keys(items, key)) == cs;
        var p :| 0 <= p < |cs| && cs[p] == k;
        SizesGrowAt(items, key, cs, p);
      } else {
        assert FirstAppearance(Keys(items, key)) == cs + [k];
        assert (cs + [k])[..|cs|] == cs;
        SizesUnchanged(items, key, cs);
        FirstAppearanceMembers(Keys(init, key));
        HavingAbsent(init, key, k);
        assert |Having(items, key, k)| == 1;
      }
    }
  }

  /** A key that no item has has an empty group. */
  lemma {:induction false} HavingAbsent<T>(items: seq<T>, key: T -> string, c: string)
    requires c !in Keys(items, key)
    ensures Having(items, key, c) == []
  {
    if items != [] {
      var init := items[..|items| - 1];
      assert Keys(items, key) == Keys(init, key) + [key(items[|items| - 1])];
      HavingAbsent(init, key, c);
    }
  }

  /** Appending an item of key `cs[p]` grows exactly that group. */
  lemma {:induction false} SizesGrowAt<T>(items: seq<T>, key: T -> string, cs: seq<string>, p: nat)
    requires items != [] && Distinct(cs) && p < |cs| && cs[p] == key(items[|items| - 1])
    ensures GroupSizes(items, key, cs) == GroupSizes(items[..|items| - 1], key, cs) + 1
  {
    var init := cs[..|cs| - 1];
    if p == |cs| - 1 {
      assert forall j :: 0 <= j < |init| ==> init[j] != cs[p];
      SizesUnchanged(items, key, init);
    } else {
      assert Distinct(init) && init[p] == cs[p];
      SizesGrowAt(items, key, init, p);
    }
  }

  /** Appending an item whose key is none of `cs` leaves their groups alone. */
  lemma {:induction false} SizesUnchanged<T>(items: seq<T>, key: T -> string, cs: seq<string>)
    requires items != [] && forall j :: 0 <= j < |cs| ==> cs[j] != key(items[|items| - 1])
    ensures GroupSizes(items, key, cs) == GroupSizes(items[..|items| - 1], key, cs)
  {
    if cs != [] {
      SizesUnchanged(items, key, cs[..|cs| - 1]);
    }
  }

  // ---------------------------------------------------------------------
  // The work of one cycle

  /** One item to settle at its coin's price. */
  datatype Job<T> = Job(item: T, price: real)

  function Jobs<T>(items: seq<T>, p: real): (r: seq<Job<T>>)
    ensures |r| == |items|
    ensures forall j :: 0 <= j < |items| ==> r[j] == Job(items[j], p)
  {
    if items == [] then [] else Jobs(items[..|items| - 1], p) + [Job(items[|items| - 1], p)]
  }

  /** The jobs of one more item of a list. */
  lemma JobsSnoc<T>(items: seq<T>, k: nat, p: real)
    requires k < |items|
    ensures Jobs(items[..k + 1], p)[..k] == Jobs(items[..k], p)
    ensures Jobs(items[..k + 1], p)[k] == Job(items[k], p)
  {
    assert items[..k + 1][..k] == items[..k];
  }

  /** The work of a cycle, coin by coin in the order given: the items of a
      coin, in order, at that coin's price, and nothing for a coin whose
      lookup failed or gave no price. */
  function Schedule<T>(items: seq<T>, key: T -> string, coins: seq<string>, quotes: string -> Quote): (r: seq<Job<T>>)
    ensures forall j :: 0 <= j < |r| ==>
      && Usable(quotes(key(r[j].item)))
      && r[j].price == quotes(key(r[j].item)).value
      && key(r[j].item) in coins
  {
    if coins == [] then []
    else
      var init := Schedule(items, key, coins[..|coins| - 1], quotes);
      var c := coins[|coins| - 1];
      if Usable(quotes(c)) then init + Jobs(Having(items, key, c), quotes(c).value) else init
  }

  /** A property of every item is a property of every scheduled item. */
  lemma {:induction false} ScheduleKeeps<T>(items: seq<T>, key: T -> string, coins: seq<string>, quotes: string -> Quote, P: T -> bool)
    requires forall i :: 0 <= i < |items| ==> P(items[i])
    ensures forall j :: 0 <= j < |Schedule(items, key, coins, quotes)| ==> P(Schedule(items, key, coins, quotes)[j].item)
  {
    if coins != [] {
      var init := coins[..|coins| - 1];
      var c := coins[|coins| - 1];
      ScheduleKeeps(items, key, init, quotes, P);
      if Usable(quotes(c)) {
        var r := Schedule(items, key, coins, quotes);
        var before := Schedule(items, key, init, quotes);
        var group := Having(items, key, c);
        HavingKeeps(items, key, c, P);
        forall j | 0 <= j < |r| ensures P(r[j].item) {
          if j >= |before| {
            assert r[j].item == group[j - |before|];
          }
        }
      }
    }
  }

  /** A property of every item is a property of every member of a group. */
  lemma HavingKeeps<T>(items: seq<T>, key: T -> string, c: string, P: T -> bool)
    requires forall i :: 0 <= i < |items| ==> P(items[i])
    ensures forall j :: 0 <= j < |Having(items, key, c)| ==> P(Having(items, key, c)[j])
  {
    forall j | 0 <= j < |Having(items, key, c)| ensures P(Having(items, key, c)[j]) {
      HavingFrom(items, key, c, j);
    }
  }

  /** One more coin extends the schedule by that coin's batch. */
  lemma ScheduleStep<T>(items: seq<T>, key: T -> string, coins: seq<string>, k: nat, quotes: string -> Quote)
    requires k < |coins|
    ensures var c := coins[k];
      Schedule(items, key, coins[..k + 1], quotes)
        == Schedule(items, key, coins[..k], quotes)
           + (if Usable(quotes(c)) then Jobs(Having(items, key, c), quotes(c).value) else [])
  {
    assert coins[..k + 1][..k] == coins[..k];
  }
}
