/**
 * The pure aggregation steps of the posts router: attaching an author to a
 * post, attaching the post's comments, and attaching authors to a whole
 * post list (all or nothing).
 */
module Aggregate {
  import opened Wrappers
  import opened Types

  /** Why an aggregation step failed. */
  datatype AggError = UpstreamFailed | AuthorNotFound

  /** Some user in `users` has id `uid`. */
  ghost predicate HasUser(users: seq<User>, uid: int)
  {
    exists i :: 0 <= i < |users| && users[i].id == uid
  }

  /** `i` is the position of the first user in `users` whose id is `uid`. */
  ghost predicate FirstWithId(users: seq<User>, i: int, uid: int)
  {
    && 0 <= i < |users|
    && users[i].id == uid
    && forall j :: 0 <= j < i ==> users[j].id != uid
  }

  /** The position `find` stops at: the first user whose id is `uid`, if any. */
  function FirstUserIndex(users: seq<User>, uid: int): (r: Option<nat>)
    ensures r.None? <==> !HasUser(users, uid)
    ensures r.Some? ==> FirstWithId(users, r.value, uid)
  {
    if users == [] then None
    else if users[0].id == uid then Some(0)
    else
      match FirstUserIndex(users[1..], uid)
      case None =>
        assert forall i :: 1 <= i < |users| ==> users[i] == users[1..][i - 1];
        None
      case Some(i) =>
        assert forall j :: 1 <= j <= i ==> users[j] == users[1..][j - 1];
        Some(i + 1)
  }

  /**
   * Attaches to `post` the first user whose id is the post's `userId`.
   * Fails when the users could not be fetched or when no user matches.
   */
  function AddAuthorDataToPost(post: Post, users: Fetch<seq<User>>): (r: Result<PostWithAuthor, AggError>)
    ensures r.Ok? <==> users.Fetched? && HasUser(users.value, post.userId)
    ensures users.Failed? ==> r == Err(UpstreamFailed)
    ensures users.Fetched? && !HasUser(users.value, post.userId) ==> r == Err(AuthorNotFound)
    ensures r.Ok? ==> PostPart(r.value) == post && r.value.author.id == post.userId
    ensures r.Ok? ==> exists i :: FirstWithId(users.value, i, post.userId) && users.value[i] == r.value.author
  {
    match users
    case Failed => Err(UpstreamFailed)
    case Fetched(us) =>
      match FirstUserIndex(us, post.userId)
      case None => Err(AuthorNotFound)
      case Some(i) =>
        Ok(PostWithAuthor(post.userId, post.id, post.title, post.body, us[i]))
  }

  /** `a` is `b` with some elements removed, the rest kept in their order. */
  ghost predicate IsSubsequence<T>(a: seq<T>, b: seq<T>)
    decreases |b|
  {
    if a == [] then true
    else if b == [] then false
    else (a[0] == b[0] && IsSubsequence(a[1..], b[1..])) || IsSubsequence(a, b[1..])
  }

  /** The comments whose `postId` is `postId`, in upstream order (`filter`). */
  function PostComments(comments: seq<Comment>, postId: int): (r: seq<Comment>)
    ensures forall c :: c in r <==> c in comments && c.postId == postId
  {
    if comments == [] then []
    else
      var rest := PostComments(comments[1..], postId);
      assert forall c :: c in comments <==> c == comments[0] || c in comments[1..];
      if comments[0].postId == postId then [comments[0]] + rest else rest
  }

  /** Filtering keeps the order of the comments it keeps. */
  lemma {:induction false} PostCommentsOrdered(comments: seq<Comment>, postId: int)
    ensures IsSubsequence(PostComments(comments, postId), comments)
    decreases |comments|
  {
    if comments != [] {
      PostCommentsOrdered(comments[1..], postId);
      var r := PostComments(comments, postId);
      var rest := PostComments(comments[1..], postId);
      if comments[0].postId == postId {
        assert r[0] == comments[0] && r[1..] == rest;
      } else {
        assert r == rest;
        if r != [] {
          assert IsSubsequence(r, comments[1..]);
        }
      }
    }
  }

  /** Filtering keeps every matching comment as often as it occurs upstream, and nothing else. */
  lemma {:induction false} PostCommentsCount(comments: seq<Comment>, postId: int)
    ensures forall c :: multiset(PostComments(comments, postId))[c]
                        == if c.postId == postId then multiset(comments)[c] else 0
    decreases |comments|
  {
    if comments != [] {
      PostCommentsCount(comments[1..], postId);
      assert comments == [comments[0]] + comments[1..];
      assert multiset(comments) == multiset{comments[0]} + multiset(comments[1..]);
    }
  }

  /**
   * Attaches the post's comments. Fails only when the comments could not be
   * fetched; a post without comments gets an empty list.
   */
  function AddCommentsToPost(post: PostWithAuthor, comments: Fetch<seq<Comment>>): (r: Result<PostWithComments, AggError>)
    ensures r.Ok? <==> comments.Fetched?
    ensures r.Err? ==> r.error == UpstreamFailed
    ensures r.Ok? ==> AuthorPart(r.value) == post
    ensures r.Ok? ==> forall c :: c in r.value.comments <==> c in comments.value && c.postId == post.id
    ensures r.Ok? ==> IsSubsequence(r.value.comments, comments.value)
    ensures r.Ok? ==> forall c :: multiset(r.value.comments)[c]
                                 == if c.postId == post.id then multiset(comments.value)[c] else 0
  {
    match comments
    case Failed => Err(UpstreamFailed)
    case Fetched(cs) =>
      PostCommentsOrdered(cs, post.id);
      PostCommentsCount(cs, post.id);
      Ok(PostWithComments(post.userId, post.id, post.title, post.body, post.author, PostComments(cs, post.id)))
  }

  /**
   * Attaches an author to every post, all or nothing: one post without an
   * author fails the whole list. An empty list needs no user data at all.
   */
  function AttachAuthors(posts: seq<Post>, users: Fetch<seq<User>>): (r: Result<seq<PostWithAuthor>, AggError>)
    ensures r.Ok? <==> forall i :: 0 <= i < |posts| ==> AddAuthorDataToPost(posts[i], users).Ok?
    ensures r.Ok? <==> |posts| == 0 || (users.Fetched? && forall i :: 0 <= i < |posts| ==> HasUser(users.value, posts[i].userId))
    ensures r.Ok? ==> |r.value| == |posts|
    ensures r.Ok? ==> forall i :: 0 <= i < |posts| ==> r.value[i] == AddAuthorDataToPost(posts[i], users).value
    ensures r.Ok? ==> forall i :: 0 <= i < |posts| ==> PostPart(r.value[i]) == posts[i] && r.value[i].author.id == posts[i].userId
    ensures r.Err? ==> r.error == if users.Failed? then UpstreamFailed else AuthorNotFound
  {
    if posts == [] then Ok([])
    else
      match AddAuthorDataToPost(posts[0], users)
      case Err(e) => Err(e)
      case Ok(p) =>
        match AttachAuthors(posts[1..], users)
        case Err(e) => Err(e)
        case Ok(rest) =>
          assert forall i :: 1 <= i < |posts| ==> posts[i] == posts[1..][i - 1];
          Ok([p] + rest)
  }
}
