/** Posts: writing, editing and deleting them, likes and comments, sharing
    a trade, and the paged listings of a user's feed and of one author's
    posts. */
module Posts {
  import opened Common
  import opened Store

  type PostId = nat
  type CommentId = nat

  /** An entry of a post's `comments` array. */
  datatype Comment = Comment(id: CommentId, user: UserId, content: string)

  /** A post document; `trade` is set when the post shares a trade. The
      collection keeps the documents in the order they were created. */
  datatype Post = Post(
    id: PostId, user: UserId, content: string, trade: Option<TradeId>,
    likes: seq<UserId>, comments: seq<Comment>)

  datatype PostError =
    | NoContent | PostNotFound | NotAuthorized
    | AlreadyLiked | NotLiked | CommentNotFound
    | TradeNotFound | NegativeSkip

  /** What a notification to a post's owner reports. */
  datatype Reaction = Liked | Commented

  /** `createNotification(post.user, kind, ...)`: `actor` liked or
      commented on the owner's post. */
  datatype Notice = Notice(recipient: UserId, kind: Reaction, actor: UserId, post: PostId)

  // ---------------------------------------------------------------------
  // Ids

  function PostKey(p: Post): nat { p.id }
  function CommentKey(c: Comment): nat { c.id }

  /** The keys are unique and below the next id to hand out. */
  predicate UniqueBelow<T>(xs: seq<T>, key: T -> nat, next: nat) {
    && (forall i :: 0 <= i < |xs| ==> key(xs[i]) < next)
    && (forall i, j :: 0 <= i < j < |xs| ==> key(xs[i]) != key(xs[j]))
  }

  /** Post ids are unique, and so are the comment ids of each post. */
  predicate Stored(ps: seq<Post>, next: nat) {
    && UniqueBelow(ps, PostKey, next)
    && (forall i :: 0 <= i < |ps| ==> UniqueBelow(ps[i].comments, CommentKey, next))
  }

  /** `findById` and `comments.find(c => c._id === id)`: the first
      document with the id. */
  function Locate<T>(xs: seq<T>, key: T -> nat, id: nat): (r: Option<nat>)
    ensures r.Some? ==> r.value < |xs| && key(xs[r.value]) == id
    ensures r.Some? ==> forall j :: 0 <= j < r.value ==> key(xs[j]) != id
    ensures r.None? ==> forall j :: 0 <= j < |xs| ==> key(xs[j]) != id
  {
    if xs == [] then None
    else if key(xs[0]) == id then Some(0)
    else match Locate(xs[1..], key, id)
      case None => None
      case Some(i) => Some(i + 1)
  }

  /** Handing out a larger next id keeps the ids below it. */
  lemma Raised(ps: seq<Post>, next: nat)
    requires Stored(ps, next)
    ensures Stored(ps, next + 1)
  {
    forall i | 0 <= i < |ps|
      ensures UniqueBelow(ps[i].comments, CommentKey, next + 1)
    {
      assert UniqueBelow(ps[i].comments, CommentKey, next);
    }
  }

  /** A comment with the next id, put first on one post, keeps the ids
      unique once the counter moves on. */
  lemma CommentAdded(ps: seq<Post>, next: nat, k: nat, c: Comment)
    requires Stored(ps, next) && k < |ps| && c.id == next
    ensures Stored(ps[k := ps[k].(comments := [c] + ps[k].comments)], next + 1)
  {
    Raised(ps, next);
    var cs := [c] + ps[k].comments;
    assert UniqueBelow(ps[k].comments, CommentKey, next);
    assert forall i :: 1 <= i < |cs| ==> cs[i] == ps[k].comments[i - 1];
    assert UniqueBelow(cs, CommentKey, next + 1);
  }

  /** Removing one entry keeps the rest unique. */
  lemma {:induction false} RemovedAt<T>(xs: seq<T>, key: T -> nat, next: nat, k: nat)
    requires UniqueBelow(xs, key, next) && k < |xs|
    ensures UniqueBelow(xs[..k] + xs[k + 1..], key, next)
  {
    var ys := xs[..k] + xs[k + 1..];
    assert forall i :: 0 <= i < |ys| ==> ys[i] == if i < k then xs[i] else xs[i + 1];
  }

  /** Removing one post keeps the collection well formed. */
  lemma PostRemovedAt(ps: seq<Post>, next: nat, k: nat)
    requires Stored(ps, next) && k < |ps|
    ensures Stored(ps[..k] + ps[k + 1..], next)
  {
    RemovedAt(ps, PostKey, next, k);
    var qs := ps[..k] + ps[k + 1..];
    forall i | 0 <= i < |qs|
      ensures UniqueBelow(qs[i].comments, CommentKey, next)
    {
      assert qs[i] == if i < k then ps[i] else ps[i + 1];
    }
  }

  // ---------------------------------------------------------------------
  // Likes

  /** `likePost` on a found post: a user who has not liked it yet is
      added to its likes. */
  function Like(p: Post, me: UserId): (r: Result<Post, PostError>)
    ensures r.Err? <==> me in p.likes
    ensures r.Err? ==> r.error == AlreadyLiked
    ensures r.Ok? ==> r.value == p.(likes := r.value.likes)
    ensures r.Ok? ==> multiset(r.value.likes) == multiset(p.likes) + multiset{me}
  {
    if me in p.likes then Err(AlreadyLiked) else Ok(p.(likes := p.likes + [me]))
  }

  /** `unlikePost` on a found post: a user who has liked it is filtered
      out of its likes. */
  function Unlike(p: Post, me: UserId): (r: Result<Post, PostError>)
    ensures r.Err? <==> me !in p.likes
    ensures r.Err? ==> r.error == NotLiked
    ensures r.Ok? ==> r.value == p.(likes := r.value.likes)
    ensures r.Ok? ==> forall u :: u in r.value.likes <==> u in p.likes && u != me
  {
    if me !in p.likes then Err(NotLiked) else Ok(p.(likes := Without(p.likes, me)))
  }

  lemma LikeUnlikeRestores(p: Post, me: UserId)
    requires Like(p, me).Ok?
    ensures Unlike(Like(p, me).value, me) == Ok(p)
  {
    UnappendAbsent(p.likes, me);
  }

  /** The owner is told about a like or a comment by someone else. */
  function Notify(p: Post, kind: Reaction, me: UserId): (r: Option<Notice>)
    ensures r.Some? <==> p.user != me
    ensures r.Some? ==> r.value.recipient == p.user && r.value.actor == me && r.value.kind == kind && r.value.post == p.id
  {
    if p.user != me then Some(Notice(p.user, kind, me, p.id)) else None
  }

  // ---------------------------------------------------------------------
  // Comments

  /** `post.comments.filter(c => c._id.toString() !== id)`. */
  function DropComment(cs: seq<Comment>, id: CommentId): (r: seq<Comment>)
    ensures forall c :: c in r <==> c in cs && c.id != id
    ensures |r| <= |cs|
  {
    if cs == [] then []
    else (if cs[0].id == id then [] else [cs[0]]) + DropComment(cs[1..], id)
  }

  /** Filtering out an id that is not there changes nothing. */
  lemma {:induction false} DropAbsentComment(cs: seq<Comment>, id: CommentId)
    requires forall j :: 0 <= j < |cs| ==> cs[j].id != id
    ensures DropComment(cs, id) == cs
  {
    if cs != [] {
      DropAbsentComment(cs[1..], id);
      assert cs == [cs[0]] + cs[1..];
    }
  }

  /** When no other comment shares its id, the filter removes exactly the
      one comment and keeps the others in order. */
  lemma {:induction false} DropCommentRemovesOne(cs: seq<Comment>, k: nat)
    requires k < |cs|
    requires forall j :: 0 <= j < |cs| && j != k ==> cs[j].id != cs[k].id
    ensures DropComment(cs, cs[k].id) == cs[..k] + cs[k + 1..]
  {
    var tail := cs[1..];
    if k == 0 {
      DropAbsentComment(tail, cs[0].id);
    } else {
      DropCommentRemovesOne(tail, k - 1);
      SplicedAfterHead(cs, k);
    }
  }

  lemma SplicedAfterHead<T>(xs: seq<T>, k: nat)
    requires 0 < k < |xs|
    ensures xs[..k] + xs[k + 1..] == [xs[0]] + (xs[1..][..k - 1] + xs[1..][k..])
  {
  }

  /** Deleting a stored comment removes that one entry and keeps the
      collection well formed. */
  lemma CommentRemovedAt(ps: seq<Post>, next: nat, k: nat, j: nat)
    requires Stored(ps, next) && k < |ps| && j < |ps[k].comments|
    ensures var cs := ps[k].comments;
      && DropComment(cs, cs[j].id) == cs[..j] + cs[j + 1..]
      && Stored(ps[k := ps[k].(comments := cs[..j] + cs[j + 1..])], next)
  {
    var cs := ps[k].comments;
    assert UniqueBelow(cs, CommentKey, next);
    assert forall i :: 0 <= i < |cs| && i != j ==> cs[i].id != cs[j].id by {
      assert forall i :: 0 <= i < |cs| && i != j ==> CommentKey(cs[i]) != CommentKey(cs[j]);
    }
    DropCommentRemovesOne(cs, j);
    RemovedAt(cs, CommentKey, next, j);
    CommentsReplaced(ps, next, k, cs[..j] + cs[j + 1..]);
  }

  /** Giving one post other well-formed comments keeps the collection well formed. */
  lemma CommentsReplaced(ps: seq<Post>, next: nat, k: nat, cs: seq<Comment>)
    requires Stored(ps, next) && k < |ps| && UniqueBelow(cs, CommentKey, next)
    ensures Stored(ps[k := ps[k].(comments := cs)], next)
  {
    var qs := ps[k := ps[k].(comments := cs)];
    assert forall i :: 0 <= i < |qs| ==> PostKey(qs[i]) == PostKey(ps[i]);
  }

  /** Deleting a comment just added, under its fresh id, gives back the
      comments the post had. */
  lemma CommentThenDeleteRestores(cs: seq<Comment>, next: nat, c: Comment)
    requires UniqueBelow(cs, CommentKey, next) && c.id == next
    ensures DropComment([c] + cs, c.id) == cs
  {
    DropAbsentComment(cs, c.id);
    assert ([c] + cs)[1..] == cs;
  }

  /** Only the comment's author or the post's owner may delete it. */
  predicate MayDeleteComment(p: Post, c: Comment, me: UserId) {
    c.user == me || p.user == me
  }

  // ---------------------------------------------------------------------
  // Listings and their pages

  const DefaultLimit: int := 10

  /** `parseInt(q, 10) || d`: a missing, unparsable or zero parameter
      takes the default. */
  function QueryOr(q: Option<int>, d: int): (r: int)
    ensures q.Some? && q.value != 0 ==> r == q.value
    ensures q.None? || q.value == 0 ==> r == d
  {
    if q.Some? && q.value != 0 then q.value else d
  }

  function StartIndex(page: int, limit: int): int {
    (page - 1) * limit
  }

  function Magnitude(n: int): nat {
    if n < 0 then -n else n
  }

  /** `Math.ceil(total / limit)`: the least whole number of pages that is
      at least the quotient. */
  function PageCount(total: nat, limit: int): (r: int)
    requires limit != 0
    ensures limit > 0 ==> (r - 1) * limit < total <= r * limit
    ensures limit < 0 ==> r * limit <= total < (r - 1) * limit
  {
    if limit > 0 then
      var n := total + limit - 1;
      assert n == (n / limit) * limit + n % limit;
      n / limit
    else
      var l := -limit;
      assert total == (total / l) * l + total % l;
      -(total / l)
  }

  /** `.skip(start).limit(limit)` on the sorted documents. MongoDB refuses
      a negative skip, and returns at most as many documents as a negative
      limit's magnitude. */
  function Window<T>(xs: seq<T>, start: int, limit: int): (r: Result<seq<T>, PostError>)
    requires limit != 0
    ensures r.Err? <==> start < 0
    ensures r.Err? ==> r.error == NegativeSkip
    ensures r.Ok? ==> |r.value| <= Magnitude(limit)
    ensures r.Ok? ==> |r.value| == Magnitude(limit) || start + |r.value| >= |xs|
    ensures r.Ok? ==> forall j :: 0 <= j < |r.value| ==> start + j < |xs| && r.value[j] == xs[start + j]
  {
    if start < 0 then Err(NegativeSkip)
    else if start >= |xs| then Ok([])
    else if start + Magnitude(limit) <= |xs| then Ok(xs[start..start + Magnitude(limit)])
    else Ok(xs[start..])
  }

  /** `Post.find({ user: { $in: authors } })`. */
  function ByAuthors(ps: seq<Post>, authors: seq<UserId>): (r: seq<Post>)
    ensures forall p :: p in r <==> p in ps && p.user in authors
    ensures |r| <= |ps|
  {
    if ps == [] then []
    else ByAuthors(ps[..|ps| - 1], authors) + (if ps[|ps| - 1].user in authors then [ps[|ps| - 1]] else [])
  }

  /** A page of posts and the pagination figures of the response. */
  datatype Listing = Listing(count: nat, total: nat, page: int, pages: int, data: seq<Post>)

  /** One page of an already ordered list, with the pagination figures. */
  function Paged(sorted: seq<Post>, page: int, limit: int): (r: Result<Listing, PostError>)
    requires limit != 0
    ensures r.Err? <==> StartIndex(page, limit) < 0
    ensures r.Ok? ==> var l := r.value;
      && l.page == page
      && l.total == |sorted|
      && l.pages == PageCount(|sorted|, limit)
      && l.count == |l.data| <= Magnitude(limit)
      && (l.count == Magnitude(limit) || StartIndex(page, limit) + l.count >= |sorted|)
      && forall j :: 0 <= j < |l.data| ==>
           StartIndex(page, limit) + j < |sorted| && l.data[j] == sorted[StartIndex(page, limit) + j]
  {
    match Window(sorted, StartIndex(page, limit), limit)
    case Err(e) => Err(e)
    case Ok(data) => Ok(Listing(|data|, |sorted|, page, PageCount(|sorted|, limit), data))
  }

  /** `r` is the listing of page `page` of the posts by `authors`, newest
      first, `limit` to a page: an error exactly when the page would start
      before the first post; otherwise the page number, the number of
      matching posts, the number of pages and the posts of the page. */
  predicate Listed(r: Result<Listing, PostError>, ps: seq<Post>, authors: seq<UserId>, page: int, limit: int) {
    && limit != 0
    && (r.Err? <==> StartIndex(page, limit) < 0)
    && (r.Ok? ==> var l := r.value;
      && l.page == page
      && l.total == |ByAuthors(ps, authors)|
      && l.pages == PageCount(l.total, limit)
      && l.count == |l.data| <= Magnitude(limit)
      && (l.count == Magnitude(limit) || StartIndex(page, limit) + l.count >= l.total)
      && forall j :: 0 <= j < |l.data| ==>
           var k := StartIndex(page, limit) + j;
           k < l.total && l.data[j] == Newest(ByAuthors(ps, authors))[k] && l.data[j].user in authors)
  }

  /** The posts by the given authors, newest first: the page asked for,
      the number of matching posts and the number of pages. */
  function ListPosts(ps: seq<Post>, authors: seq<UserId>, pageQ: Option<int>, limitQ: Option<int>): (r: Result<Listing, PostError>)
    ensures Listed(r, ps, authors, QueryOr(pageQ, 1), QueryOr(limitQ, DefaultLimit))
  {
    var page := QueryOr(pageQ, 1);
    var limit := QueryOr(limitQ, DefaultLimit);
    PagedListed(ps, authors, page, limit);
    Paged(Newest(ByAuthors(ps, authors)), page, limit)
  }

  /** The page cut from the newest-first matching posts is their listing. */
  lemma PagedListed(ps: seq<Post>, authors: seq<UserId>, page: int, limit: int)
    requires limit != 0
    ensures Listed(Paged(Newest(ByAuthors(ps, authors)), page, limit), ps, authors, page, limit)
  {
    NewestMembers(ByAuthors(ps, authors));
  }

  /** The newest-first order holds only entries of the list. */
  lemma NewestMembers<T>(xs: seq<T>)
    ensures forall k :: 0 <= k < |Newest(xs)| ==> Newest(xs)[k] in xs
  {
    forall k | 0 <= k < |Newest(xs)| ensures Newest(xs)[k] in xs {
      assert Newest(xs)[k] == xs[|xs| - 1 - k];
    }
  }

  /** `getPosts`: the posts of the people the user follows and the user's own. */
  function Feed(ps: seq<Post>, me: UserId, following: seq<UserId>, pageQ: Option<int>, limitQ: Option<int>): (r: Result<Listing, PostError>)
    ensures r.Ok? ==> forall p :: p in r.value.data ==> p in ps && (p.user == me || p.user in following)
  {
    var r := ListPosts(ps, following + [me], pageQ, limitQ);
    assert r.Ok? ==> forall p :: p in r.value.data ==> p in ByAuthors(ps, following + [me]) by {
      if r.Ok? {
        forall p | p in r.value.data ensures p in ByAuthors(ps, following + [me]) {
          var j :| 0 <= j < |r.value.data| && r.value.data[j] == p;
        }
      }
    }
    r
  }

  /** `getPostsByUser`: the posts of one author. */
  function ByUser(ps: seq<Post>, author: UserId, pageQ: Option<int>, limitQ: Option<int>): (r: Result<Listing, PostError>)
    ensures r.Ok? ==> forall p :: p in r.value.data ==> p in ps && p.user == author
  {
    var r := ListPosts(ps, [author], pageQ, limitQ);
    assert r.Ok? ==> forall p :: p in r.value.data ==> p in ByAuthors(ps, [author]) by {
      if r.Ok? {
        forall p | p in r.value.data ensures p in ByAuthors(ps, [author]) {
          var j :| 0 <= j < |r.value.data| && r.value.data[j] == p;
        }
      }
    }
    r
  }

  lemma MulLe(a: int, b: int, c: nat)
    requires a <= b
    ensures a * c <= b * c
  {
  }

  /** With a positive limit, item `k` is on page `k / limit + 1`, and that
      page is one of the counted pages. */
  lemma {:induction false} PageOfItem(total: nat, limit: int, k: nat)
    requires limit > 0 && k < total
    ensures var page := k / limit + 1;
      && 1 <= page <= PageCount(total, limit)
      && 0 <= StartIndex(page, limit) <= k < StartIndex(page, limit) + limit
      && k - StartIndex(page, limit) == k % limit
  {
    var q := k / limit;
    assert k == q * limit + k % limit;
    MulLe(0, q, limit);
    var r := PageCount(total, limit);
    if q + 1 > r {
      MulLe(r, q, limit);
    }
  }

  /** With a positive limit, no page but `k / limit + 1` holds item `k`. */
  lemma {:induction false} OnlyPageOfItem(limit: int, k: nat)
    requires limit > 0
    ensures forall page :: StartIndex(page, limit) <= k < StartIndex(page, limit) + limit ==> page == k / limit + 1
  {
    var q := k / limit;
    assert k == q * limit + k % limit;
    forall page | StartIndex(page, limit) <= k < StartIndex(page, limit) + limit
      ensures page == q + 1
    {
      if page - 1 < q {
        MulLe(page, q, limit);
      } else if page - 1 > q {
        MulLe(q + 1, page - 1, limit);
      }
    }
  }

  /** Asking for page `k / limit + 1` lists the `k`-th newest matching
      post, at position `k % limit`. */
  lemma ListedOnItsPage(ps: seq<Post>, authors: seq<UserId>, limitQ: Option<int>, limit: int, k: nat)
    requires limit == QueryOr(limitQ, DefaultLimit) > 0 && k < |ByAuthors(ps, authors)|
    ensures var r := ListPosts(ps, authors, Some(k / limit + 1), limitQ);
      && r.Ok? && 1 <= r.value.page <= r.value.pages
      && k % limit < r.value.count
      && r.value.data[k % limit] == Newest(ByAuthors(ps, authors))[k]
  {
    PageOfItem(|ByAuthors(ps, authors)|, limit, k);
    ListedAt(ps, authors, limitQ, k / limit + 1, k, k % limit);
  }

  /** Item `k` at offset `j` of a counted page starting at `k - j`. */
  lemma ListedAt(ps: seq<Post>, authors: seq<UserId>, limitQ: Option<int>, page: int, k: nat, j: nat)
    requires QueryOr(limitQ, DefaultLimit) > 0 && k < |ByAuthors(ps, authors)|
    requires 1 <= page <= PageCount(|ByAuthors(ps, authors)|, QueryOr(limitQ, DefaultLimit))
    requires StartIndex(page, QueryOr(limitQ, DefaultLimit)) + j == k && j <= k && j < QueryOr(limitQ, DefaultLimit)
    ensures var r := ListPosts(ps, authors, Some(page), limitQ);
      && r.Ok? && 1 <= r.value.page <= r.value.pages
      && j < r.value.count
      && r.value.data[j] == Newest(ByAuthors(ps, authors))[k]
  {
    var limit := QueryOr(limitQ, DefaultLimit);
    var start := StartIndex(page, limit);
    assert QueryOr(Some(page), 1) == page;
    var r := ListPosts(ps, authors, Some(page), limitQ);
    assert r.Ok?;
    EntryOnPage(r.value, Newest(ByAuthors(ps, authors)), start, limit, k, j);
  }

  /** A listing that holds `limit` items from `start` on, or all of those
      left, holds item `k` at offset `k - start`. */
  lemma EntryOnPage(l: Listing, sorted: seq<Post>, start: int, limit: int, k: nat, j: nat)
    requires 0 <= start && start + j == k && j < limit && k < l.total == |sorted|
    requires l.count == |l.data| && (l.count == limit || start + l.count >= l.total)
    requires forall i :: 0 <= i < |l.data| ==> var n := start + i; n < l.total && l.data[i] == sorted[n]
    ensures j < l.count && l.data[j] == sorted[k]
  {
  }

  /** `getPost`. */
  function GetPost(ps: seq<Post>, id: PostId): (r: Result<Post, PostError>)
    ensures r.Err? <==> forall j :: 0 <= j < |ps| ==> ps[j].id != id
    ensures r.Err? ==> r.error == PostNotFound
    ensures r.Ok? ==> r.value in ps && r.value.id == id
  {
    match Locate(ps, PostKey, id)
    case None => Err(PostNotFound)
    case Some(k) => Ok(ps[k])
  }

  // ---------------------------------------------------------------------
  // The post documents, updated in place

  class PostCollection {
    var posts: seq<Post>
    var nextId: nat

    predicate Valid()
      reads this
    {
      Stored(posts, nextId)
    }

    constructor ()
      ensures Valid() && posts == [] && nextId == 0
    {
      posts, nextId := [], 0;
    }

    /** `Post.create(...)`: stores a new post under a fresh id. */
    method Insert(me: UserId, content: string, trade: Option<TradeId>) returns (p: Post)
      requires Valid()
      modifies this
      ensures Valid()
      ensures p == Post(old(nextId), me, content, trade, [], [])
      ensures posts == old(posts) + [p] && nextId == old(nextId) + 1
    {
      Raised(posts, nextId);
      p := Post(nextId, me, content, trade, [], []);
      posts := posts + [p];
      nextId := nextId + 1;
    }

    /** `createPost`. */
    method CreatePost(me: UserId, content: Option<string>) returns (r: Result<Post, PostError>)
      requires Valid()
      modifies this
      ensures Valid()
      ensures !GivenText(content) ==> r == Err(NoContent) && posts == old(posts) && nextId == old(nextId)
      ensures GivenText(content) ==> r == Ok(Post(old(nextId), me, content.value, None, [], []))
      ensures r.Ok? ==> posts == old(posts) + [r.value] && nextId == old(nextId) + 1
    {
      if !GivenText(content) {
        return Err(NoContent);
      }
      var p := Insert(me, content.value, None);
      r := Ok(p);
    }

    /** `shareTrade`: a post referring to one of the user's own trades. */
    method ShareTrade(me: UserId, content: Option<string>, tradeId: TradeId, trades: seq<Trade>) returns (r: Result<Post, PostError>)
      requires Valid()
      modifies this
      ensures Valid()
      ensures !GivenText(content) ==> r == Err(NoContent)
      ensures GivenText(content) ==> match FindTrade(trades, tradeId)
        case None => r == Err(TradeNotFound)
        case Some(i) =>
          if trades[i].user != me then r == Err(NotAuthorized)
          else r == Ok(Post(old(nextId), me, content.value, Some(tradeId), [], []))
      ensures r.Ok? ==> posts == old(posts) + [r.value] && nextId == old(nextId) + 1
      ensures r.Err? ==> posts == old(posts) && nextId == old(nextId)
    {
      if !GivenText(content) {
        return Err(NoContent);
      }
      var found := FindTrade(trades, tradeId);
      if found.None? {
        return Err(TradeNotFound);
      }
      if trades[found.value].user != me {
        return Err(NotAuthorized);
      }
      var p := Insert(me, content.value, Some(tradeId));
      r := Ok(p);
    }

    /** `updatePost`: only the owner may change the content. */
    method UpdatePost(id: PostId, me: UserId, content: Option<string>) returns (r: Result<Post, PostError>)
      requires Valid()
      modifies this
      ensures Valid() && nextId == old(nextId)
      ensures !GivenText(content) ==> r == Err(NoContent)
      ensures GivenText(content) ==> match Locate(old(posts), PostKey, id)
        case None => r == Err(PostNotFound)
        case Some(k) =>
          if old(posts)[k].user != me then r == Err(NotAuthorized)
          else r == Ok(old(posts)[k].(content := content.value)) && posts == old(posts)[k := r.value]
      ensures r.Err? ==> posts == old(posts)
    {
      if !GivenText(content) {
        return Err(NoContent);
      }
      var found := Locate(posts, PostKey, id);
      if found.None? {
        return Err(PostNotFound);
      }
      var k := found.value;
      var post := posts[k];
      if post.user != me {
        return Err(NotAuthorized);
      }
      post := post.(content := content.value);
      posts := posts[k := post];
      r := Ok(post);
    }

    /** `deletePost`: only the owner may remove the post. */
    method DeletePost(id: PostId, me: UserId) returns (err: Option<PostError>)
      requires Valid()
      modifies this
      ensures Valid() && nextId == old(nextId)
      ensures match Locate(old(posts), PostKey, id)
        case None => err == Some(PostNotFound) && posts == old(posts)
        case Some(k) =>
          if old(posts)[k].user != me then err == Some(NotAuthorized) && posts == old(posts)
          else err.None? && posts == old(posts)[..k] + old(posts)[k + 1..]
    {
      var found := Locate(posts, PostKey, id);
      if found.None? {
        return Some(PostNotFound);
      }
      var k := found.value;
      if posts[k].user != me {
        return Some(NotAuthorized);
      }
      PostRemovedAt(posts, nextId, k);
      posts := posts[..k] + posts[k + 1..];
      err := None;
    }

    /** `likePost`. */
    method LikePost(id: PostId, me: UserId) returns (r: Result<Post, PostError>, notice: Option<Notice>)
      requires Valid()
      modifies this
      ensures Valid() && nextId == old(nextId)
      ensures match Locate(old(posts), PostKey, id)
        case None => r == Err(PostNotFound) && notice.None?
        case Some(k) =>
          && r == Like(old(posts)[k], me)
          && (r.Ok? ==> posts == old(posts)[k := r.value] && notice == Notify(old(posts)[k], Liked, me))
          && (r.Err? ==> notice.None?)
      ensures r.Err? ==> posts == old(posts)
    {
      notice := None;
      var found := Locate(posts, PostKey, id);
      if found.None? {
        return Err(PostNotFound), None;
      }
      var k := found.value;
      var post := posts[k];
      if me in post.likes {
        return Err(AlreadyLiked), None;
      }
      post := post.(likes := post.likes + [me]);
      posts := posts[k := post];
      if post.user != me {
        notice := Some(Notice(post.user, Liked, me, post.id));
      }
      r := Ok(post);
    }

    /** `unlikePost`. */
    method UnlikePost(id: PostId, me: UserId) returns (r: Result<Post, PostError>)
      requires Valid()
      modifies this
      ensures Valid() && nextId == old(nextId)
      ensures match Locate(old(posts), PostKey, id)
        case None => r == Err(PostNotFound)
        case Some(k) => r == Unlike(old(posts)[k], me) && (r.Ok? ==> posts == old(posts)[k := r.value])
      ensures r.Err? ==> posts == old(posts)
    {
      var found := Locate(posts, PostKey, id);
      if found.None? {
        return Err(PostNotFound);
      }
      var k := found.value;
      var post := posts[k];
      if me !in post.likes {
        return Err(NotLiked);
      }
      post := post.(likes := Without(post.likes, me));
      posts := posts[k := post];
      r := Ok(post);
    }

    /** `addComment`: the new comment goes first and is returned. */
    method AddComment(id: PostId, me: UserId, content: Option<string>) returns (r: Result<Comment, PostError>, notice: Option<Notice>)
      requires Valid()
      modifies this
      ensures Valid()
      ensures !GivenText(content) ==> r == Err(NoContent)
      ensures GivenText(content) ==> match Locate(old(posts), PostKey, id)
        case None => r == Err(PostNotFound)
        case Some(k) =>
          && r == Ok(Comment(old(nextId), me, content.value))
          && posts == old(posts)[k := old(posts)[k].(comments := [r.value] + old(posts)[k].comments)]
          && nextId == old(nextId) + 1
          && notice == Notify(old(posts)[k], Commented, me)
      ensures r.Err? ==> posts == old(posts) && nextId == old(nextId) && notice.None?
    {
      notice := None;
      if !GivenText(content) {
        return Err(NoContent), None;
      }
      var found := Locate(posts, PostKey, id);
      if found.None? {
        return Err(PostNotFound), None;
      }
      var k := found.value;
      var post := posts[k];
      var c := Comment(nextId, me, content.value);
      CommentAdded(posts, nextId, k, c);
      post := post.(comments := [c] + post.comments);
      posts := posts[k := post];
      nextId := nextId + 1;
      if post.user != me {
        notice := Some(Notice(post.user, Commented, me, post.id));
      }
      r := Ok(post.comments[0]);
    }

    /** `deleteComment`: the comment's author or the post's owner removes
        the comment. */
    method DeleteComment(id: PostId, commentId: CommentId, me: UserId) returns (err: Option<PostError>)
      requires Valid()
      modifies this
      ensures Valid() && nextId == old(nextId)
      ensures match Locate(old(posts), PostKey, id)
        case None => err == Some(PostNotFound) && posts == old(posts)
        case Some(k) =>
          var p := old(posts)[k];
          match Locate(p.comments, CommentKey, commentId)
          case None => err == Some(CommentNotFound) && posts == old(posts)
          case Some(j) =>
            if !MayDeleteComment(p, p.comments[j], me) then err == Some(NotAuthorized) && posts == old(posts)
            else err.None? && posts == old(posts)[k := p.(comments := p.comments[..j] + p.comments[j + 1..])]
    {
      var found := Locate(posts, PostKey, id);
      if found.None? {
        return Some(PostNotFound);
      }
      var k := found.value;
      var post := posts[k];
      var at := Locate(post.comments, CommentKey, commentId);
      if at.None? {
        return Some(CommentNotFound);
      }
      var comment := post.comments[at.value];
      if comment.user != me && post.user != me {
        return Some(NotAuthorized);
      }
      CommentRemovedAt(posts, nextId, k, at.value);
      post := post.(comments := DropComment(post.comments, commentId));
      posts := posts[k := post];
      err := None;
    }
  }
}
