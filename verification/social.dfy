/** The social graph: friend requests, friendships and follows, kept as
    lists of user ids on both users' documents, and the activity feed of
    the trades of the people a user is connected to. */
module Social {
  import opened Common
  import opened Store
  import opened Grouping

  /** The social lists of one user document. */
  datatype Links = Links(
    friends: seq<UserId>, followers: seq<UserId>, following: seq<UserId>,
    sent: seq<UserId>, received: seq<UserId>)

  /** The user documents by id. */
  type Graph = map<UserId, Links>

  const NoLinks := Links([], [], [], [], [])

  datatype SocialError =
    | UserNotFound
    | SelfRequest | AlreadySent | AlreadyFriends
    | NoRequest | NotFriends
    | SelfFollow | AlreadyFollowing | NotFollowing

  lemma {:induction false} WithoutDistinct(xs: seq<UserId>, x: UserId)
    requires Distinct(xs)
    ensures Distinct(Without(xs, x))
  {
    if xs != [] {
      var init := xs[..|xs| - 1];
      WithoutDistinct(init, x);
      assert xs[|xs| - 1] !in init;
    }
  }

  // ---------------------------------------------------------------------
  // The consistency of the two-sided lists

  function FriendsOf(l: Links): seq<UserId> { l.friends }
  function FollowersOf(l: Links): seq<UserId> { l.followers }
  function FollowingOf(l: Links): seq<UserId> { l.following }
  function SentOf(l: Links): seq<UserId> { l.sent }
  function ReceivedOf(l: Links): seq<UserId> { l.received }

  /** `v` is on `u`'s `A` list exactly when `u` is on `v`'s `B` list. */
  predicate Mirrored(g: Graph, A: Links -> seq<UserId>, B: Links -> seq<UserId>) {
    forall u, v :: u in g && v in g ==> (v in A(g[u]) <==> u in B(g[v]))
  }

  /** Nobody is their own friend, follower or correspondent. */
  predicate NoSelfLinks(g: Graph) {
    forall u :: u in g ==>
      u !in g[u].friends && u !in g[u].followers && u !in g[u].following && u !in g[u].sent && u !in g[u].received
  }

  /** Friendship is recorded on both sides, a follow on the follower's
      following list and the followed user's followers list, and a pending
      request on the sender's sent list and the target's received list. */
  predicate Consistent(g: Graph) {
    && Mirrored(g, FriendsOf, FriendsOf)
    && Mirrored(g, FollowingOf, FollowersOf)
    && Mirrored(g, SentOf, ReceivedOf)
    && NoSelfLinks(g)
  }

  lemma ConsistentIntro(g: Graph)
    requires Mirrored(g, FriendsOf, FriendsOf) && Mirrored(g, FollowingOf, FollowersOf)
    requires Mirrored(g, SentOf, ReceivedOf) && NoSelfLinks(g)
    ensures Consistent(g)
  {
  }

  /** Nobody appears twice in a friends list. */
  predicate NoDuplicateFriends(g: Graph) {
    forall u :: u in g ==> Distinct(g[u].friends)
  }

  /** Lists that do not change stay mirrored. */
  lemma MirroredFrame(g: Graph, g': Graph, A: Links -> seq<UserId>, B: Links -> seq<UserId>)
    requires Mirrored(g, A, B) && g'.Keys == g.Keys
    requires forall u :: u in g ==> A(g'[u]) == A(g[u]) && B(g'[u]) == B(g[u])
    ensures Mirrored(g', A, B)
  {
  }

  /** The pair `(u, v)` is `(a, b)`, or `(b, a)` when both directions change. */
  predicate Touched(u: UserId, v: UserId, a: UserId, b: UserId, both: bool) {
    (u == a && v == b) || (both && u == b && v == a)
  }

  /** Adding (or removing) the pair `(a, b)`, and `(b, a)` when `both`,
      on both sides, and changing no other pair, keeps the lists mirrored. */
  lemma MirroredStep(g: Graph, g': Graph, A: Links -> seq<UserId>, B: Links -> seq<UserId>, a: UserId, b: UserId, both: bool, added: bool)
    requires Mirrored(g, A, B) && g'.Keys == g.Keys
    requires forall u, v :: u in g && v in g ==> (v in A(g'[u]) <==> if Touched(u, v, a, b, both) then added else v in A(g[u]))
    requires forall u, v :: u in g && v in g ==> (u in B(g'[v]) <==> if Touched(u, v, a, b, both) then added else u in B(g[v]))
    ensures Mirrored(g', A, B)
  {
  }

  // ---------------------------------------------------------------------
  // The operations, on the documents as values

  /** `sendFriendRequest`: the target must exist, differ from the sender,
      not have a request from the sender already and not be a friend; the
      target goes on the sender's sent list and the sender on the target's
      received list, each only if missing. */
  function SendRequest(g: Graph, me: UserId, target: UserId): (r: Result<Graph, SocialError>)
    requires me in g
    ensures r == Err(UserNotFound) <==> target !in g
    ensures r == Err(SelfRequest) <==> target in g && target == me
    ensures r == Err(AlreadySent) <==> target in g && target != me && target in g[me].sent
    ensures r == Err(AlreadyFriends) <==> target in g && target != me && target !in g[me].sent && target in g[me].friends
    ensures r.Ok? ==> r.value.Keys == g.Keys
  {
    if target !in g then Err(UserNotFound)
    else if target == me then Err(SelfRequest)
    else if target in g[me].sent then Err(AlreadySent)
    else if target in g[me].friends then Err(AlreadyFriends)
    else
      var mine := g[me];
      var theirs := g[target];
      var mine' := mine.(sent := if target in mine.sent then mine.sent else mine.sent + [target]);
      var theirs' := theirs.(received := if me in theirs.received then theirs.received else theirs.received + [me]);
      Ok(g[me := mine'][target := theirs'])
  }

  /** `acceptFriendRequest` as written: each user is pushed onto the
      other's friends list whether or not already there. */
  function AcceptAsWritten(g: Graph, me: UserId, from: UserId): (r: Result<Graph, SocialError>)
    requires me in g
    ensures r == Err(UserNotFound) <==> from !in g
    ensures r == Err(NoRequest) <==> from in g && from !in g[me].received
  {
    if from !in g then Err(UserNotFound)
    else if from !in g[me].received then Err(NoRequest)
    else
      var mine := g[me];
      var theirs := g[from];
      var mine' := mine.(friends := mine.friends + [from], received := Without(mine.received, from));
      var theirs' := theirs.(friends := theirs.friends + [me], sent := Without(theirs.sent, me));
      Ok(g[me := mine'][from := theirs'])
  }

  /** `acceptFriendRequest` with each push guarded by `includes`, as the
      request lists' pushes are: the request must be pending; the two
      become friends and the request leaves both lists. */
  function Accept(g: Graph, me: UserId, from: UserId): (r: Result<Graph, SocialError>)
    requires me in g
    ensures r == Err(UserNotFound) <==> from !in g
    ensures r == Err(NoRequest) <==> from in g && from !in g[me].received
    ensures r.Ok? ==> r.value.Keys == g.Keys
  {
    if from !in g then Err(UserNotFound)
    else if from !in g[me].received then Err(NoRequest)
    else
      var mine := g[me];
      var theirs := g[from];
      var mine' := mine.(friends := if from in mine.friends then mine.friends else mine.friends + [from],
                         received := Without(mine.received, from));
      var theirs' := theirs.(friends := if me in theirs.friends then theirs.friends else theirs.friends + [me],
                             sent := Without(theirs.sent, me));
      Ok(g[me := mine'][from := theirs'])
  }

  /** Outside crossed requests, where neither user already lists the other
      as a friend, the guarded accept is the code's accept. */
  lemma AcceptAgrees(g: Graph, me: UserId, from: UserId)
    requires me in g && from !in g[me].friends && (from in g ==> me !in g[from].friends)
    ensures Accept(g, me, from) == AcceptAsWritten(g, me, from)
  {
  }

  /** `rejectFriendRequest`: the request must be pending; it leaves both lists. */
  function Reject(g: Graph, me: UserId, from: UserId): (r: Result<Graph, SocialError>)
    requires me in g
    ensures r == Err(UserNotFound) <==> from !in g
    ensures r == Err(NoRequest) <==> from in g && from !in g[me].received
    ensures r.Ok? ==> r.value.Keys == g.Keys
  {
    if from !in g then Err(UserNotFound)
    else if from !in g[me].received then Err(NoRequest)
    else
      var mine := g[me];
      var theirs := g[from];
      Ok(g[me := mine.(received := Without(mine.received, from))][from := theirs.(sent := Without(theirs.sent, me))])
  }

  /** `removeFriend`: the two must be friends; each leaves the other's list. */
  function Unfriend(g: Graph, me: UserId, other: UserId): (r: Result<Graph, SocialError>)
    requires me in g
    ensures r == Err(UserNotFound) <==> other !in g
    ensures r == Err(NotFriends) <==> other in g && other !in g[me].friends
    ensures r.Ok? ==> r.value.Keys == g.Keys
  {
    if other !in g then Err(UserNotFound)
    else if other !in g[me].friends then Err(NotFriends)
    else
      var mine := g[me];
      var theirs := g[other];
      Ok(g[me := mine.(friends := Without(mine.friends, other))][other := theirs.(friends := Without(theirs.friends, me))])
  }

  /** `followUser`: the target must exist, differ from the follower and
      not be followed yet; it goes on the following list and the follower
      on its followers list. */
  function Follow(g: Graph, me: UserId, target: UserId): (r: Result<Graph, SocialError>)
    requires me in g
    ensures r == Err(UserNotFound) <==> target !in g
    ensures r == Err(SelfFollow) <==> target in g && target == me
    ensures r == Err(AlreadyFollowing) <==> target in g && target != me && target in g[me].following
    ensures r.Ok? ==> r.value.Keys == g.Keys
  {
    if target !in g then Err(UserNotFound)
    else if target == me then Err(SelfFollow)
    else if target in g[me].following then Err(AlreadyFollowing)
    else
      var mine := g[me];
      var theirs := g[target];
      Ok(g[me := mine.(following := mine.following + [target])][target := theirs.(followers := theirs.followers + [me])])
  }

  /** `unfollowUser`: the target must be followed; both entries go. */
  function Unfollow(g: Graph, me: UserId, target: UserId): (r: Result<Graph, SocialError>)
    requires me in g
    ensures r == Err(UserNotFound) <==> target !in g
    ensures r == Err(NotFollowing) <==> target in g && target !in g[me].following
    ensures r.Ok? ==> r.value.Keys == g.Keys
  {
    if target !in g then Err(UserNotFound)
    else if target !in g[me].following then Err(NotFollowing)
    else
      var mine := g[me];
      var theirs := g[target];
      Ok(g[me := mine.(following := Without(mine.following, target))][target := theirs.(followers := Without(theirs.followers, me))])
  }

  // ---------------------------------------------------------------------
  // What the operations do and keep

  /** A sent request is pending on both sides and no friendship changes. */
  lemma SendRecords(g: Graph, me: UserId, target: UserId)
    requires me in g && SendRequest(g, me, target).Ok?
    ensures var g' := SendRequest(g, me, target).value;
      && target in g'[me].sent && me in g'[target].received
      && forall u :: u in g ==> g'[u].friends == g[u].friends && g'[u].following == g[u].following
  {
  }

  /** One user's lists after a sent request. */
  lemma SendLists(g: Graph, me: UserId, target: UserId, u: UserId)
    requires Consistent(g) && me in g && SendRequest(g, me, target).Ok? && u in g
    ensures var g' := SendRequest(g, me, target).value;
      && g'[u].friends == g[u].friends && g'[u].following == g[u].following && g'[u].followers == g[u].followers
      && (forall v :: v in g'[u].sent <==> v in g[u].sent || (u == me && v == target))
      && (forall v :: v in g'[u].received <==> v in g[u].received || (u == target && v == me))
  {
  }

  lemma SendKeepsConsistent(g: Graph, me: UserId, target: UserId)
    requires Consistent(g) && me in g && SendRequest(g, me, target).Ok?
    ensures Consistent(SendRequest(g, me, target).value)
  {
    var g' := SendRequest(g, me, target).value;
    forall u | u in g
      ensures g'[u].friends == g[u].friends && g'[u].following == g[u].following && g'[u].followers == g[u].followers
      ensures u !in g'[u].sent && u !in g'[u].received
    {
      SendLists(g, me, target, u);
    }
    MirroredFrame(g, g', FriendsOf, FriendsOf);
    MirroredFrame(g, g', FollowingOf, FollowersOf);
    SendMirrorsRequests(g, me, target);
    ConsistentIntro(g');
  }

  lemma SendMirrorsRequests(g: Graph, me: UserId, target: UserId)
    requires Consistent(g) && me in g && SendRequest(g, me, target).Ok?
    ensures Mirrored(SendRequest(g, me, target).value, SentOf, ReceivedOf)
  {
    var g' := SendRequest(g, me, target).value;
    forall u | u in g
      ensures forall v :: v in g'[u].sent <==> v in g[u].sent || (u == me && v == target)
      ensures forall v :: v in g'[u].received <==> v in g[u].received || (u == target && v == me)
    {
      SendLists(g, me, target, u);
    }
    MirroredStep(g, g', SentOf, ReceivedOf, me, target, false, true);
  }

  /** Accepting makes the two friends, on both sides, and settles the request. */
  lemma AcceptBefriends(g: Graph, me: UserId, from: UserId)
    requires Consistent(g) && me in g && Accept(g, me, from).Ok?
    ensures var g' := Accept(g, me, from).value;
      && from in g'[me].friends && me in g'[from].friends
      && from !in g'[me].received && me !in g'[from].sent
      && forall u :: u in g && u != me && u != from ==> g'[u] == g[u]
  {
  }

  lemma AcceptKeepsConsistent(g: Graph, me: UserId, from: UserId)
    requires Consistent(g) && me in g && Accept(g, me, from).Ok?
    ensures Consistent(Accept(g, me, from).value)
  {
    var g' := Accept(g, me, from).value;
    forall u | u in g
      ensures g'[u].following == g[u].following && g'[u].followers == g[u].followers
      ensures forall v :: v in g'[u].friends <==> v in g[u].friends || (u == me && v == from) || (u == from && v == me)
      ensures forall v :: v in g'[u].sent <==> v in g[u].sent && !(u == from && v == me)
      ensures u !in g'[u].friends && u !in g'[u].followers && u !in g'[u].following && u !in g'[u].sent && u !in g'[u].received
    {
      AcceptLists(g, me, from, u);
    }
    MirroredFrame(g, g', FollowingOf, FollowersOf);
    AcceptMirrorsFriends(g, me, from);
    AcceptMirrorsRequests(g, me, from);
    ConsistentIntro(g');
  }

  lemma AcceptMirrorsFriends(g: Graph, me: UserId, from: UserId)
    requires Consistent(g) && me in g && Accept(g, me, from).Ok?
    ensures Mirrored(Accept(g, me, from).value, FriendsOf, FriendsOf)
  {
    var g' := Accept(g, me, from).value;
    forall u | u in g
      ensures forall v :: v in g'[u].friends <==> v in g[u].friends || (u == me && v == from) || (u == from && v == me)
    {
      AcceptLists(g, me, from, u);
    }
    MirroredStep(g, g', FriendsOf, FriendsOf, me, from, true, true);
  }

  lemma AcceptMirrorsRequests(g: Graph, me: UserId, from: UserId)
    requires Consistent(g) && me in g && Accept(g, me, from).Ok?
    ensures Mirrored(Accept(g, me, from).value, SentOf, ReceivedOf)
  {
    var g' := Accept(g, me, from).value;
    forall u | u in g
      ensures forall v :: v in g'[u].sent <==> v in g[u].sent && !(u == from && v == me)
      ensures forall v :: v in g'[u].received <==> v in g[u].received && !(u == me && v == from)
    {
      AcceptLists(g, me, from, u);
    }
    MirroredStep(g, g', SentOf, ReceivedOf, from, me, false, false);
  }

  /** One user's lists after an accept. */
  lemma AcceptLists(g: Graph, me: UserId, from: UserId, u: UserId)
    requires Consistent(g) && me in g && Accept(g, me, from).Ok? && u in g
    ensures var g' := Accept(g, me, from).value;
      && g'[u].following == g[u].following && g'[u].followers == g[u].followers
      && (forall v :: v in g'[u].friends <==> v in g[u].friends || (u == me && v == from) || (u == from && v == me))
      && (forall v :: v in g'[u].sent <==> v in g[u].sent && !(u == from && v == me))
      && (forall v :: v in g'[u].received <==> v in g[u].received && !(u == me && v == from))
      && u !in g'[u].friends && u !in g'[u].followers && u !in g'[u].following && u !in g'[u].sent && u !in g'[u].received
  {
    assert from != me;
  }

  /** No list of any document names a user twice. */
  predicate NoRepeats(g: Graph) {
    forall u :: u in g ==> DistinctLinks(g[u])
  }

  predicate DistinctLinks(l: Links) {
    Distinct(l.friends) && Distinct(l.followers) && Distinct(l.following) && Distinct(l.sent) && Distinct(l.received)
  }

  /** Appending an id only when it is missing keeps a list free of repeats. */
  lemma AddMissingDistinct(xs: seq<UserId>, x: UserId)
    requires Distinct(xs)
    ensures Distinct(if x in xs then xs else xs + [x])
  {
    if x !in xs {
      forall i, j | 0 <= i < j < |xs + [x]| ensures (xs + [x])[i] != (xs + [x])[j] {
        if j == |xs| {
          assert (xs + [x])[i] == xs[i];
        }
      }
    }
  }

  /** Sending a request keeps every list free of repeats: each id is pushed
      only when missing. */
  lemma SendKeepsNoRepeats(g: Graph, me: UserId, target: UserId)
    requires NoRepeats(g) && me in g && SendRequest(g, me, target).Ok?
    ensures NoRepeats(SendRequest(g, me, target).value)
  {
    var g' := SendRequest(g, me, target).value;
    AddMissingDistinct(g[me].sent, target);
    AddMissingDistinct(g[target].received, me);
    forall u | u in g' ensures DistinctLinks(g'[u]) {
      if u != me && u != target {
        assert g'[u] == g[u];
      }
    }
  }

  /** The guarded accept keeps every list free of repeats; the request lists
      only lose entries. */
  lemma AcceptKeepsNoRepeats(g: Graph, me: UserId, from: UserId)
    requires NoRepeats(g) && me in g && Accept(g, me, from).Ok?
    ensures NoRepeats(Accept(g, me, from).value)
  {
    var g' := Accept(g, me, from).value;
    AddMissingDistinct(g[me].friends, from);
    AddMissingDistinct(g[from].friends, me);
    WithoutDistinct(g[me].received, from);
    WithoutDistinct(g[from].sent, me);
    forall u | u in g' ensures DistinctLinks(g'[u]) {
      if u != me && u != from {
        assert g'[u] == g[u];
      }
    }
  }

  /** Rejecting keeps every list free of repeats. */
  lemma RejectKeepsNoRepeats(g: Graph, me: UserId, from: UserId)
    requires NoRepeats(g) && me in g && Reject(g, me, from).Ok?
    ensures NoRepeats(Reject(g, me, from).value)
  {
    var g' := Reject(g, me, from).value;
    WithoutDistinct(g[me].received, from);
    WithoutDistinct(g[from].sent, me);
    forall u | u in g' ensures DistinctLinks(g'[u]) {
      if u != me && u != from {
        assert g'[u] == g[u];
      }
    }
  }

  /** With the include guard, friends lists stay free of repeats. */
  lemma AcceptKeepsFriendsDistinct(g: Graph, me: UserId, from: UserId)
    requires NoDuplicateFriends(g) && me in g && Accept(g, me, from).Ok?
    ensures NoDuplicateFriends(Accept(g, me, from).value)
  {
    var g' := Accept(g, me, from).value;
    forall u | u in g' ensures Distinct(g'[u].friends) {
      if u != me && u != from {
        assert g'[u] == g[u];
      }
    }
  }

  // The crossed-requests scenario, one graph per step.
  const CrossedStart: Graph := map["a" := NoLinks, "b" := NoLinks]
  const CrossedSent: Graph := map["a" := Links([], [], [], ["b"], []), "b" := Links([], [], [], [], ["a"])]
  const CrossedBoth: Graph := map["a" := Links([], [], [], ["b"], ["b"]), "b" := Links([], [], [], ["a"], ["a"])]
  const CrossedAccepted: Graph := map["a" := Links(["b"], [], [], [], ["b"]), "b" := Links(["a"], [], [], ["a"], [])]
  const CrossedTwice: Graph := map["a" := Links(["b", "b"], [], [], [], []), "b" := Links(["a", "a"], [], [], [], [])]
  const CrossedOnce: Graph := map["a" := Links(["b"], [], [], [], []), "b" := Links(["a"], [], [], [], [])]

  lemma CrossedFirstSend()
    ensures SendRequest(CrossedStart, "a", "b") == Ok(CrossedSent)
  {
    var r := SendRequest(CrossedStart, "a", "b").value;
    assert r.Keys == CrossedSent.Keys;
    assert r["a"] == CrossedSent["a"] && r["b"] == CrossedSent["b"];
    assert forall k :: k in CrossedSent ==> k == "a" || k == "b";
    assert r == CrossedSent;
  }

  lemma CrossedSecondSend()
    ensures SendRequest(CrossedSent, "b", "a") == Ok(CrossedBoth)
  {
    var r := SendRequest(CrossedSent, "b", "a").value;
    assert r.Keys == CrossedBoth.Keys;
    assert r["a"] == CrossedBoth["a"] && r["b"] == CrossedBoth["b"];
    assert forall k :: k in CrossedBoth ==> k == "a" || k == "b";
    assert r == CrossedBoth;
  }

  lemma CrossedFirstAccept()
    ensures AcceptAsWritten(CrossedBoth, "b", "a") == Ok(CrossedAccepted)
    ensures Accept(CrossedBoth, "b", "a") == Ok(CrossedAccepted)
  {
    assert Without(["a"], "a") == [] && Without(["b"], "b") == [];
    var r := AcceptAsWritten(CrossedBoth, "b", "a").value;
    assert r.Keys == CrossedAccepted.Keys;
    assert r["a"] == CrossedAccepted["a"] && r["b"] == CrossedAccepted["b"];
    assert forall k :: k in CrossedAccepted ==> k == "a" || k == "b";
    assert r == CrossedAccepted;
    var r' := Accept(CrossedBoth, "b", "a").value;
    assert r'.Keys == CrossedAccepted.Keys;
    assert r'["a"] == CrossedAccepted["a"] && r'["b"] == CrossedAccepted["b"];
    assert r' == CrossedAccepted;
  }

  lemma CrossedSecondAccept()
    ensures AcceptAsWritten(CrossedAccepted, "a", "b") == Ok(CrossedTwice)
    ensures Accept(CrossedAccepted, "a", "b") == Ok(CrossedOnce)
  {
    assert Without(["a"], "a") == [] && Without(["b"], "b") == [];
    var r := AcceptAsWritten(CrossedAccepted, "a", "b").value;
    assert r.Keys == CrossedTwice.Keys;
    assert r["a"] == CrossedTwice["a"] && r["b"] == CrossedTwice["b"];
    assert forall k :: k in CrossedTwice ==> k == "a" || k == "b";
    assert r == CrossedTwice;
    var r' := Accept(CrossedAccepted, "a", "b").value;
    assert r'.Keys == CrossedOnce.Keys;
    assert r'["a"] == CrossedOnce["a"] && r'["b"] == CrossedOnce["b"];
    assert forall k :: k in CrossedOnce ==> k == "a" || k == "b";
    assert r' == CrossedOnce;
  }

  /** As written, crossed requests end in duplicate friends: `a` and `b`
      each send the other a request (neither is refused: each only checks
      its own sent list and friends), `b` accepts, then `a` accepts the
      still-pending request from `b`, and each is on the other's list twice. */
  lemma CrossedRequestsDuplicateFriends()
    ensures var g0 := map["a" := NoLinks, "b" := NoLinks];
      var g1 := SendRequest(g0, "a", "b");
      g1.Ok? &&
      var g2 := SendRequest(g1.value, "b", "a");
      g2.Ok? &&
      var g3 := AcceptAsWritten(g2.value, "b", "a");
      g3.Ok? &&
      var g4 := AcceptAsWritten(g3.value, "a", "b");
      g4.Ok? && g4.value["a"].friends == ["b", "b"] && !NoDuplicateFriends(g4.value)
  {
    CrossedFirstSend();
    CrossedSecondSend();
    CrossedFirstAccept();
    CrossedSecondAccept();
    assert CrossedTwice["a"].friends[0] == CrossedTwice["a"].friends[1];
  }

  /** The corrected accept leaves a single entry on the same path. */
  lemma CrossedRequestsSingleFriend()
    ensures var g0 := map["a" := NoLinks, "b" := NoLinks];
      var g1 := SendRequest(g0, "a", "b");
      g1.Ok? &&
      var g2 := SendRequest(g1.value, "b", "a");
      g2.Ok? &&
      var g3 := Accept(g2.value, "b", "a");
      g3.Ok? &&
      var g4 := Accept(g3.value, "a", "b");
      g4.Ok? && g4.value["a"].friends == ["b"] && g4.value["b"].friends == ["a"]
  {
    CrossedFirstSend();
    CrossedSecondSend();
    CrossedFirstAccept();
    CrossedSecondAccept();
  }

  /** Rejecting settles the request and leaves every friends list alone. */
  lemma RejectSettles(g: Graph, me: UserId, from: UserId)
    requires Consistent(g) && me in g && Reject(g, me, from).Ok?
    ensures var g' := Reject(g, me, from).value;
      && from !in g'[me].received && me !in g'[from].sent
      && forall u :: u in g ==> g'[u].friends == g[u].friends
  {
  }

  /** One user's lists after a rejected request. */
  lemma RejectLists(g: Graph, me: UserId, from: UserId, u: UserId)
    requires Consistent(g) && me in g && Reject(g, me, from).Ok? && u in g
    ensures var g' := Reject(g, me, from).value;
      && g'[u].friends == g[u].friends && g'[u].following == g[u].following && g'[u].followers == g[u].followers
      && (forall v :: v in g'[u].sent <==> v in g[u].sent && !(u == from && v == me))
      && (forall v :: v in g'[u].received <==> v in g[u].received && !(u == me && v == from))
  {
    assert from != me;
  }

  lemma RejectKeepsConsistent(g: Graph, me: UserId, from: UserId)
    requires Consistent(g) && me in g && Reject(g, me, from).Ok?
    ensures Consistent(Reject(g, me, from).value)
  {
    var g' := Reject(g, me, from).value;
    forall u | u in g
      ensures g'[u].friends == g[u].friends && g'[u].following == g[u].following && g'[u].followers == g[u].followers
      ensures u !in g'[u].sent && u !in g'[u].received
    {
      RejectLists(g, me, from, u);
    }
    MirroredFrame(g, g', FriendsOf, FriendsOf);
    MirroredFrame(g, g', FollowingOf, FollowersOf);
    RejectMirrorsRequests(g, me, from);
    ConsistentIntro(g');
  }

  lemma RejectMirrorsRequests(g: Graph, me: UserId, from: UserId)
    requires Consistent(g) && me in g && Reject(g, me, from).Ok?
    ensures Mirrored(Reject(g, me, from).value, SentOf, ReceivedOf)
  {
    var g' := Reject(g, me, from).value;
    forall u | u in g
      ensures forall v :: v in g'[u].sent <==> v in g[u].sent && !(u == from && v == me)
      ensures forall v :: v in g'[u].received <==> v in g[u].received && !(u == me && v == from)
    {
      RejectLists(g, me, from, u);
    }
    MirroredStep(g, g', SentOf, ReceivedOf, from, me, false, false);
  }

  /** Removing a friend ends the friendship on both sides. */
  lemma UnfriendSeparates(g: Graph, me: UserId, other: UserId)
    requires me in g && Unfriend(g, me, other).Ok?
    ensures var g' := Unfriend(g, me, other).value;
      other !in g'[me].friends && me !in g'[other].friends
  {
  }

  /** One user's lists after an unfriend. */
  lemma UnfriendLists(g: Graph, me: UserId, other: UserId, u: UserId)
    requires Consistent(g) && me in g && Unfriend(g, me, other).Ok? && u in g
    ensures var g' := Unfriend(g, me, other).value;
      && g'[u].sent == g[u].sent && g'[u].received == g[u].received
      && g'[u].following == g[u].following && g'[u].followers == g[u].followers
      && (forall v :: v in g'[u].friends <==> v in g[u].friends && !(u == me && v == other) && !(u == other && v == me))
  {
    assert other != me;
  }

  lemma UnfriendKeepsConsistent(g: Graph, me: UserId, other: UserId)
    requires Consistent(g) && me in g && Unfriend(g, me, other).Ok?
    ensures Consistent(Unfriend(g, me, other).value)
  {
    var g' := Unfriend(g, me, other).value;
    forall u | u in g
      ensures g'[u].sent == g[u].sent && g'[u].received == g[u].received
      ensures g'[u].following == g[u].following && g'[u].followers == g[u].followers
      ensures u !in g'[u].friends
    {
      UnfriendLists(g, me, other, u);
    }
    MirroredFrame(g, g', FollowingOf, FollowersOf);
    MirroredFrame(g, g', SentOf, ReceivedOf);
    UnfriendMirrorsFriends(g, me, other);
    ConsistentIntro(g');
  }

  lemma UnfriendMirrorsFriends(g: Graph, me: UserId, other: UserId)
    requires Consistent(g) && me in g && Unfriend(g, me, other).Ok?
    ensures Mirrored(Unfriend(g, me, other).value, FriendsOf, FriendsOf)
  {
    var g' := Unfriend(g, me, other).value;
    forall u | u in g
      ensures forall v :: v in g'[u].friends <==> v in g[u].friends && !(u == me && v == other) && !(u == other && v == me)
    {
      UnfriendLists(g, me, other, u);
    }
    MirroredStep(g, g', FriendsOf, FriendsOf, me, other, true, false);
  }

  /** One user's lists after a follow. */
  lemma FollowLists(g: Graph, me: UserId, target: UserId, u: UserId)
    requires Consistent(g) && me in g && Follow(g, me, target).Ok? && u in g
    ensures var g' := Follow(g, me, target).value;
      && g'[u].friends == g[u].friends && g'[u].sent == g[u].sent && g'[u].received == g[u].received
      && (forall v :: v in g'[u].following <==> v in g[u].following || (u == me && v == target))
      && (forall v :: v in g'[u].followers <==> v in g[u].followers || (u == target && v == me))
  {
  }

  lemma FollowKeepsConsistent(g: Graph, me: UserId, target: UserId)
    requires Consistent(g) && me in g && Follow(g, me, target).Ok?
    ensures Consistent(Follow(g, me, target).value)
  {
    var g' := Follow(g, me, target).value;
    forall u | u in g
      ensures g'[u].friends == g[u].friends && g'[u].sent == g[u].sent && g'[u].received == g[u].received
      ensures u !in g'[u].following && u !in g'[u].followers
    {
      FollowLists(g, me, target, u);
    }
    MirroredFrame(g, g', FriendsOf, FriendsOf);
    MirroredFrame(g, g', SentOf, ReceivedOf);
    FollowMirrorsFollows(g, me, target);
    ConsistentIntro(g');
  }

  lemma FollowMirrorsFollows(g: Graph, me: UserId, target: UserId)
    requires Consistent(g) && me in g && Follow(g, me, target).Ok?
    ensures Mirrored(Follow(g, me, target).value, FollowingOf, FollowersOf)
  {
    var g' := Follow(g, me, target).value;
    forall u | u in g
      ensures forall v :: v in g'[u].following <==> v in g[u].following || (u == me && v == target)
      ensures forall v :: v in g'[u].followers <==> v in g[u].followers || (u == target && v == me)
    {
      FollowLists(g, me, target, u);
    }
    MirroredStep(g, g', FollowingOf, FollowersOf, me, target, false, true);
  }

  /** One user's lists after an unfollow. */
  lemma UnfollowLists(g: Graph, me: UserId, target: UserId, u: UserId)
    requires Consistent(g) && me in g && Unfollow(g, me, target).Ok? && u in g
    ensures var g' := Unfollow(g, me, target).value;
      && g'[u].friends == g[u].friends && g'[u].sent == g[u].sent && g'[u].received == g[u].received
      && (forall v :: v in g'[u].following <==> v in g[u].following && !(u == me && v == target))
      && (forall v :: v in g'[u].followers <==> v in g[u].followers && !(u == target && v == me))
  {
    assert target != me;
  }

  lemma UnfollowKeepsConsistent(g: Graph, me: UserId, target: UserId)
    requires Consistent(g) && me in g && Unfollow(g, me, target).Ok?
    ensures Consistent(Unfollow(g, me, target).value)
  {
    var g' := Unfollow(g, me, target).value;
    forall u | u in g
      ensures g'[u].friends == g[u].friends && g'[u].sent == g[u].sent && g'[u].received == g[u].received
      ensures u !in g'[u].following && u !in g'[u].followers
    {
      UnfollowLists(g, me, target, u);
    }
    MirroredFrame(g, g', FriendsOf, FriendsOf);
    MirroredFrame(g, g', SentOf, ReceivedOf);
    UnfollowMirrorsFollows(g, me, target);
    ConsistentIntro(g');
  }

  lemma UnfollowMirrorsFollows(g: Graph, me: UserId, target: UserId)
    requires Consistent(g) && me in g && Unfollow(g, me, target).Ok?
    ensures Mirrored(Unfollow(g, me, target).value, FollowingOf, FollowersOf)
  {
    var g' := Unfollow(g, me, target).value;
    forall u | u in g
      ensures forall v :: v in g'[u].following <==> v in g[u].following && !(u == me && v == target)
      ensures forall v :: v in g'[u].followers <==> v in g[u].followers && !(u == target && v == me)
    {
      UnfollowLists(g, me, target, u);
    }
    MirroredStep(g, g', FollowingOf, FollowersOf, me, target, false, false);
  }

  /** Following and then unfollowing a user restores every document. */
  lemma FollowUnfollowRestores(g: Graph, me: UserId, target: UserId)
    requires Consistent(g) && me in g && Follow(g, me, target).Ok?
    ensures Unfollow(Follow(g, me, target).value, me, target) == Ok(g)
  {
    var g1 := Follow(g, me, target).value;
    var mine, theirs := g[me], g[target];
    assert me !in theirs.followers by {
      assert target !in mine.following;
    }
    var mine1 := mine.(following := mine.following + [target]);
    var theirs1 := theirs.(followers := theirs.followers + [me]);
    UnappendAbsent(mine.following, target);
    UnappendAbsent(theirs.followers, me);
    assert mine1.(following := Without(mine1.following, target)) == mine;
    assert theirs1.(followers := Without(theirs1.followers, me)) == theirs;
    UpdateBothRestores(g, me, target, mine1, theirs1);
  }

  /** Writing two documents and then writing back the originals restores the graph. */
  lemma UpdateBothRestores(g: Graph, a: UserId, b: UserId, x: Links, y: Links)
    requires a in g && b in g && a != b
    ensures g[a := x][b := y][a := g[a]][b := g[b]] == g
  {
    var h := g[a := x][b := y][a := g[a]][b := g[b]];
    assert h.Keys == g.Keys;
  }


  // ---------------------------------------------------------------------
  // The user documents, updated in place

  class Network {
    var users: Graph

    predicate Valid()
      reads this
    {
      Consistent(users)
    }

    constructor (g: Graph)
      requires Consistent(g)
      ensures Valid() && users == g
    {
      users := g;
    }

    /** `sendFriendRequest`. */
    method SendFriendRequest(me: UserId, target: UserId) returns (err: Option<SocialError>)
      requires Valid() && me in users
      modifies this
      ensures Valid()
      ensures match SendRequest(old(users), me, target)
        case Ok(g) => err.None? && users == g
        case Err(e) => err == Some(e) && users == old(users)
    {
      if target !in users {
        return Some(UserNotFound);
      }
      if target == me {
        return Some(SelfRequest);
      }
      var current := users[me];
      if target in current.sent {
        return Some(AlreadySent);
      }
      if target in current.friends {
        return Some(AlreadyFriends);
      }
      SendKeepsConsistent(users, me, target);
      if target !in current.sent {
        current := current.(sent := current.sent + [target]);
      }
      users := users[me := current];
      var user := users[target];
      if me !in user.received {
        user := user.(received := user.received + [me]);
      }
      users := users[target := user];
      err := None;
    }

    /** `acceptFriendRequest`, with the friends pushes guarded. */
    method AcceptFriendRequest(me: UserId, from: UserId) returns (err: Option<SocialError>)
      requires Valid() && me in users
      modifies this
      ensures Valid()
      ensures match Accept(old(users), me, from)
        case Ok(g) => err.None? && users == g
        case Err(e) => err == Some(e) && users == old(users)
    {
      if from !in users {
        return Some(UserNotFound);
      }
      var current := users[me];
      if from !in current.received {
        return Some(NoRequest);
      }
      AcceptKeepsConsistent(users, me, from);
      var user := users[from];
      if from !in current.friends {
        current := current.(friends := current.friends + [from]);
      }
      if me !in user.friends {
        user := user.(friends := user.friends + [me]);
      }
      current := current.(received := Without(current.received, from));
      user := user.(sent := Without(user.sent, me));
      users := users[me := current][from := user];
      err := None;
    }

    /** `rejectFriendRequest`. */
    method RejectFriendRequest(me: UserId, from: UserId) returns (err: Option<SocialError>)
      requires Valid() && me in users
      modifies this
      ensures Valid()
      ensures match Reject(old(users), me, from)
        case Ok(g) => err.None? && users == g
        case Err(e) => err == Some(e) && users == old(users)
    {
      if from !in users {
        return Some(UserNotFound);
      }
      var current := users[me];
      if from !in current.received {
        return Some(NoRequest);
      }
      RejectKeepsConsistent(users, me, from);
      var user := users[from];
      current := current.(received := Without(current.received, from));
      user := user.(sent := Without(user.sent, me));
      users := users[me := current][from := user];
      err := None;
    }

    /** `removeFriend`. */
    method RemoveFriend(me: UserId, other: UserId) returns (err: Option<SocialError>)
      requires Valid() && me in users
      modifies this
      ensures Valid()
      ensures match Unfriend(old(users), me, other)
        case Ok(g) => err.None? && users == g
        case Err(e) => err == Some(e) && users == old(users)
    {
      if other !in users {
        return Some(UserNotFound);
      }
      var current := users[me];
      if other !in current.friends {
        return Some(NotFriends);
      }
      UnfriendKeepsConsistent(users, me, other);
      var user := users[other];
      current := current.(friends := Without(current.friends, other));
      user := user.(friends := Without(user.friends, me));
      users := users[me := current][other := user];
      err := None;
    }

    /** `followUser`. */
    method FollowUser(me: UserId, target: UserId) returns (err: Option<SocialError>)
      requires Valid() && me in users
      modifies this
      ensures Valid()
      ensures match Follow(old(users), me, target)
        case Ok(g) => err.None? && users == g
        case Err(e) => err == Some(e) && users == old(users)
    {
      if target !in users {
        return Some(UserNotFound);
      }
      if target == me {
        return Some(SelfFollow);
      }
      var current := users[me];
      if target in current.following {
        return Some(AlreadyFollowing);
      }
      FollowKeepsConsistent(users, me, target);
      var user := users[target];
      current := current.(following := current.following + [target]);
      user := user.(followers := user.followers + [me]);
      users := users[me := current][target := user];
      err := None;
    }

    /** `unfollowUser`. */
    method UnfollowUser(me: UserId, target: UserId) returns (err: Option<SocialError>)
      requires Valid() && me in users
      modifies this
      ensures Valid()
      ensures match Unfollow(old(users), me, target)
        case Ok(g) => err.None? && users == g
        case Err(e) => err == Some(e) && users == old(users)
    {
      if target !in users {
        return Some(UserNotFound);
      }
      var current := users[me];
      if target !in current.following {
        return Some(NotFollowing);
      }
      UnfollowKeepsConsistent(users, me, target);
      var user := users[target];
      current := current.(following := Without(current.following, target));
      user := user.(followers := Without(user.followers, me));
      users := users[me := current][target := user];
      err := None;
    }
  }

  // ---------------------------------------------------------------------
  // The activity feed

  /** The most trades the feed shows. */
  const FeedLimit: nat := 50

  /** `[...new Set([...friends, ...following]), me]`. The set holds ObjectId
      objects, which it does not compare by value; only membership matters,
      as the list is used as an `$in` filter. */
  function FeedUserIds(l: Links, me: UserId): (r: seq<UserId>)
    ensures forall u :: u in r <==> u in l.friends || u in l.following || u == me
  {
    l.friends + l.following + [me]
  }

  /** The completed trades of the listed users, in store order. */
  function FeedCandidates(ts: seq<Trade>, ids: seq<UserId>): (r: seq<Trade>)
    ensures |r| <= |ts|
    ensures forall k :: 0 <= k < |r| ==> r[k] in ts && r[k].user in ids && r[k].status == Completed
    ensures forall t {:trigger t in r} :: t in r <==> t in ts && t.user in ids && t.status == Completed
  {
    if ts == [] then []
    else
      var t := ts[|ts| - 1];
      assert ts == ts[..|ts| - 1] + [t];
      FeedCandidates(ts[..|ts| - 1], ids) + (if t.user in ids && t.status == Completed then [t] else [])
  }

  /** `getActivityFeed`: the 50 newest completed trades of the requester,
      their friends and the users they follow. */
  function ActivityFeed(ts: seq<Trade>, l: Links, me: UserId): (r: seq<Trade>)
    ensures |r| <= FeedLimit
    ensures forall k :: 0 <= k < |r| ==>
      r[k] in ts && r[k].status == Completed && (r[k].user == me || r[k].user in l.friends || r[k].user in l.following)
  {
    var ns := Newest(FeedCandidates(ts, FeedUserIds(l, me)));
    assert forall k :: 0 <= k < |ns| ==> ns[k] in FeedCandidates(ts, FeedUserIds(l, me));
    if |ns| <= FeedLimit then ns else ns[..FeedLimit]
  }

  /** `r` lists the last `cap` entries of `c`, the last one first (all of
      them when there are no more than `cap`). */
  ghost predicate NewestOf<T>(r: seq<T>, c: seq<T>, cap: nat) {
    && |r| == (if |c| <= cap then |c| else cap)
    && forall k :: 0 <= k < |r| ==> r[k] == c[|c| - 1 - k]
  }

  /** The feed is the newest matching trades: the last matching trade in
      the store comes first, and with at most 50 matches all are shown. */
  lemma ActivityFeedNewest(ts: seq<Trade>, l: Links, me: UserId)
    ensures NewestOf(ActivityFeed(ts, l, me), FeedCandidates(ts, FeedUserIds(l, me)), FeedLimit)
  {
    var c := FeedCandidates(ts, FeedUserIds(l, me));
    NewestCapped(c, ActivityFeed(ts, l, me), FeedLimit);
  }

  /** The first `cap` entries of the newest-first order of `c`. */
  lemma NewestCapped<T>(c: seq<T>, r: seq<T>, cap: nat)
    requires r == if |Newest(c)| <= cap then Newest(c) else Newest(c)[..cap]
    ensures NewestOf(r, c, cap)
  {
  }

  /** A trade by someone the requester is not connected to never shows. */
  lemma FeedExcludesStrangers(ts: seq<Trade>, l: Links, me: UserId, stranger: UserId)
    requires stranger != me && stranger !in l.friends && stranger !in l.following
    ensures forall k :: 0 <= k < |ActivityFeed(ts, l, me)| ==> ActivityFeed(ts, l, me)[k].user != stranger
  {
  }
}
