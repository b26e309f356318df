/** `getFeedPosts`: the author list of a feed and the posts selected for it. */
module Feed {
  import opened Prelude

  /** The two id lists of a user document that the feed reads. */
  datatype Social = Social(connections: seq<UserId>, following: seq<UserId>)

  /** A stored post as the query sees it: its author and its creation time (ms). */
  datatype PostRow = PostRow(id: string, author: UserId, createdAt: int)

  /** `[userId, ...user.connections, ...user.following]`. */
  function FeedAuthors(self: UserId, social: Social): (r: seq<UserId>)
    ensures |r| == 1 + |social.connections| + |social.following|
    ensures r[0] == self
    ensures forall i :: 0 <= i < |social.connections| ==> r[1 + i] == social.connections[i]
    ensures forall i :: 0 <= i < |social.following| ==>
              r[1 + |social.connections| + i] == social.following[i]
  {
    [self] + social.connections + social.following
  }

  /** The requester is always an author of their own feed, and nobody else is but their
      connections and the users they follow. */
  lemma FeedAuthorsMembers(self: UserId, social: Social, a: UserId)
    ensures a in FeedAuthors(self, social) <==>
              a == self || a in social.connections || a in social.following
  {
    var r := FeedAuthors(self, social);
    if a in social.connections {
      var i :| 0 <= i < |social.connections| && social.connections[i] == a;
      assert r[1 + i] == a;
    }
    if a in social.following {
      var i :| 0 <= i < |social.following| && social.following[i] == a;
      assert r[1 + |social.connections| + i] == a;
    }
  }

  /** `{ user: { $in: authors } }`: the posts whose author is listed, in stored order. */
  function Select(posts: seq<PostRow>, authors: seq<UserId>): (r: seq<PostRow>)
    ensures forall p :: p in r ==> p in posts && p.author in authors
    ensures forall p :: p in posts && p.author in authors ==> p in r
    ensures forall p: PostRow :: p.author in authors ==> multiset(r)[p] == multiset(posts)[p]
  {
    if posts == [] then []
    else
      assert posts == [posts[0]] + posts[1..];
      if posts[0].author in authors then [posts[0]] + Select(posts[1..], authors)
      else Select(posts[1..], authors)
  }

  /** `sort({ createdAt: -1 })`: no post is followed by a newer one. */
  predicate NewestFirst(s: seq<PostRow>)
  {
    forall i, j :: 0 <= i < j < |s| ==> s[i].createdAt >= s[j].createdAt
  }

  function Insert(p: PostRow, s: seq<PostRow>): (r: seq<PostRow>)
    requires NewestFirst(s)
    ensures NewestFirst(r)
    ensures multiset(r) == multiset(s) + multiset{p}
    ensures |r| == |s| + 1 && (r[0] == p || (s != [] && r[0] == s[0]))
  {
    if s == [] || p.createdAt >= s[0].createdAt then [p] + s
    else
      assert s == [s[0]] + s[1..];
      [s[0]] + Insert(p, s[1..])
  }

  /** One ordering of `s` newest-first; the database may break ties differently. */
  function SortNewestFirst(s: seq<PostRow>): (r: seq<PostRow>)
    ensures NewestFirst(r)
    ensures multiset(r) == multiset(s)
  {
    if s == [] then []
    else
      assert s == [s[0]] + s[1..];
      Insert(s[0], SortNewestFirst(s[1..]))
  }

  /** What the response's `posts` must be: the selected posts, each as often as stored,
      newest first. */
  ghost predicate IsFeedOf(feed: seq<PostRow>, posts: seq<PostRow>, authors: seq<UserId>)
  {
    && NewestFirst(feed)
    && (forall p :: p in feed ==> p.author in authors)
    && (forall p: PostRow :: p.author in authors ==> multiset(feed)[p] == multiset(posts)[p])
  }

  /** `getFeedPosts`: a missing requester makes `user.connections` throw, which the handler
      reports as a failure. */
  function GetFeedPosts(users: map<UserId, Social>, posts: seq<PostRow>, self: UserId)
    : (r: Result<seq<PostRow>>)
    ensures self !in users <==> r.Err?
    ensures self in users ==> IsFeedOf(r.value, posts, FeedAuthors(self, users[self]))
  {
    if self !in users then Err("user not found")
    else
      var authors := FeedAuthors(self, users[self]);
      var feed := SortNewestFirst(Select(posts, authors));
      assert forall p :: p in feed ==> p in multiset(feed);
      Ok(feed)
  }

  /** A post is in the feed exactly when it is stored and written by the requester, a
      connection or a followed user; the requester's own posts are always there. */
  lemma FeedMembers(users: map<UserId, Social>, posts: seq<PostRow>, self: UserId, p: PostRow)
    requires self in users
    ensures p in GetFeedPosts(users, posts, self).value <==>
              p in posts && (p.author == self || p.author in users[self].connections
                             || p.author in users[self].following)
  {
    var authors := FeedAuthors(self, users[self]);
    var feed := GetFeedPosts(users, posts, self).value;
    FeedAuthorsMembers(self, users[self], p.author);
    assert p in feed <==> p in multiset(feed);
    assert p in posts <==> p in multiset(posts);
  }
}
