/** The like toggle of `likePost`: a post's `likes_count` list of user ids. */
module Posts {
  import opened Prelude

  /** The JSON reply `{success, message}` of the handler. */
  datatype Reply = Reply(success: bool, message: string)

  const PostNotFound := Reply(false, "Post not found")
  const PostUnliked := Reply(true, "Post unliked")
  const PostLiked := Reply(true, "Post liked")

  /** `likes.filter(user => user !== u)`: every entry except those equal to `u`. */
  function Without(likes: seq<UserId>, u: UserId): (r: seq<UserId>)
    ensures forall v :: v in r <==> v in likes && v != u
    ensures |r| <= |likes|
  {
    if likes == [] then []
    else if likes[0] == u then Without(likes[1..], u)
    else [likes[0]] + Without(likes[1..], u)
  }

  /** The list after one `likePost` by `u`: unlike when present, like otherwise. */
  function Toggled(likes: seq<UserId>, u: UserId): (r: seq<UserId>)
    ensures u in r <==> u !in likes
    ensures forall v :: v != u ==> (v in r <==> v in likes)
  {
    if u in likes then Without(likes, u) else likes + [u]
  }

  /** Filtering removes every occurrence of `u` and keeps every other entry, as often as before. */
  lemma {:induction false} WithoutCounts(likes: seq<UserId>, u: UserId)
    ensures u !in Without(likes, u)
    ensures multiset(Without(likes, u))[u] == 0
    ensures forall v :: v != u ==> multiset(Without(likes, u))[v] == multiset(likes)[v]
  {
    if likes != [] {
      WithoutCounts(likes[1..], u);
      assert likes == [likes[0]] + likes[1..];
    }
  }

  /** Filtering keeps the relative order: it distributes over concatenation. */
  lemma {:induction false} WithoutConcat(a: seq<UserId>, b: seq<UserId>, u: UserId)
    ensures Without(a + b, u) == Without(a, u) + Without(b, u)
  {
    if a != [] {
      assert (a + b)[1..] == a[1..] + b;
      WithoutConcat(a[1..], b, u);
    } else {
      assert a + b == b;
    }
  }

  /** Filtering a list that does not hold `u` changes nothing. */
  lemma {:induction false} WithoutAbsent(likes: seq<UserId>, u: UserId)
    requires u !in likes
    ensures Without(likes, u) == likes
  {
    if likes != [] {
      WithoutAbsent(likes[1..], u);
      assert likes == [likes[0]] + likes[1..];
    }
  }

  /** Liking a post not yet liked by `u` appends exactly one `u` and keeps every earlier entry. */
  lemma LikeAppends(likes: seq<UserId>, u: UserId)
    requires u !in likes
    ensures |Toggled(likes, u)| == |likes| + 1
    ensures Toggled(likes, u)[..|likes|] == likes && Toggled(likes, u)[|likes|] == u
  {
  }

  /** Unliking removes every `u` and keeps the other likers in their original order. */
  lemma UnlikeRemovesAll(likes: seq<UserId>, u: UserId)
    requires u in likes
    ensures u !in Toggled(likes, u)
    ensures forall v :: v != u ==> multiset(Toggled(likes, u))[v] == multiset(likes)[v]
    ensures forall a, b :: likes == a + b ==> Toggled(likes, u) == Without(a, u) + Without(b, u)
  {
    WithoutCounts(likes, u);
    forall a, b | likes == a + b
      ensures Toggled(likes, u) == Without(a, u) + Without(b, u)
    {
      WithoutConcat(a, b, u);
    }
  }

  /** One toggle flips the caller's membership. */
  lemma ToggleFlips(likes: seq<UserId>, u: UserId)
    ensures (u in Toggled(likes, u)) <==> (u !in likes)
  {
    WithoutCounts(likes, u);
  }

  /** Like then unlike gives back exactly the list the user was absent from. */
  lemma LikeThenUnlike(likes: seq<UserId>, u: UserId)
    requires u !in likes
    ensures Toggled(Toggled(likes, u), u) == likes
  {
    WithoutConcat(likes, [u], u);
    WithoutAbsent(likes, u);
    assert Without([u], u) == [];
  }

  /** A stored post document; `likes_count` is the array the handler rewrites and saves. */
  class Post {
    const id: string
    var likesCount: seq<UserId>

    constructor (id: string, likes: seq<UserId>)
      ensures this.id == id && likesCount == likes
    {
      this.id := id;
      likesCount := likes;
    }

    /** The two branches of `likePost` once the post is found, followed by `save()`. */
    method Toggle(userId: UserId) returns (reply: Reply)
      modifies this
      ensures likesCount == Toggled(old(likesCount), userId)
      ensures reply == (if userId in old(likesCount) then PostUnliked else PostLiked)
    {
      if userId in likesCount {
        likesCount := Without(likesCount, userId);
        reply := PostUnliked;
      } else {
        likesCount := likesCount + [userId];
        reply := PostLiked;
      }
    }
  }

  /** `likePost`: `post` is the result of `Post.findById(postId)`, null when none matches. */
  method LikePost(post: Post?, userId: UserId) returns (reply: Reply)
    modifies post
    ensures post == null ==> reply == PostNotFound
    ensures post != null ==> post.likesCount == Toggled(old(post.likesCount), userId)
    ensures post != null ==> (reply == PostUnliked <==> userId in old(post.likesCount))
    ensures post != null ==> (reply == PostLiked <==> userId !in old(post.likesCount))
  {
    if post == null {
      return PostNotFound;
    }
    reply := post.Toggle(userId);
  }
}
