/**
 * The two query handlers of the posts router, as functions from the cache
 * and the upstream answers to a Reply: the value returned, the cache
 * afterwards and the upstream requests made.
 */
module PostsRouter {
  import opened Wrappers
  import opened Types
  import opened Aggregate

  /**
   * `getAll`: serve the list cached under "posts"; otherwise fetch the posts,
   * attach every author, cache the list and return it. Any failure becomes a
   * generic error and caches nothing.
   */
  function GetAllReply(cache: Store, posts: Fetch<seq<Post>>, users: Fetch<seq<User>>): (r: Reply<CacheVal>)
    // a hit returns the stored value untouched, with no upstream request
    ensures POSTS_CACHE_KEY in cache ==> r == Reply(Ok(cache[POSTS_CACHE_KEY]), cache, [])
    // a miss starts with the post collection, then one users request per post
    ensures POSTS_CACHE_KEY !in cache ==>
              r.calls == [GetPosts] + (if posts.Fetched? then seq(|posts.value|, _ => GetUsers) else [])
    // a miss succeeds exactly when the posts arrive and every author resolves
    ensures POSTS_CACHE_KEY !in cache ==>
              (r.result.Ok? <==>
                 && posts.Fetched?
                 && (|posts.value| == 0 ||
                     (users.Fetched? && forall i :: 0 <= i < |posts.value| ==> HasUser(users.value, posts.value[i].userId))))
    // a successful miss returns the posts in upstream order, each with its author, and caches that list
    ensures POSTS_CACHE_KEY !in cache && r.result.Ok? ==>
              && r.result.value.PostList?
              && |r.result.value.posts| == |posts.value|
              && (forall i :: 0 <= i < |posts.value| ==>
                    PostPart(r.result.value.posts[i]) == posts.value[i] &&
                    r.result.value.posts[i].author.id == posts.value[i].userId)
              && (forall i :: 0 <= i < |posts.value| ==>
                    r.result.value.posts[i] == AddAuthorDataToPost(posts.value[i], users).value)
              && r.cache == cache[POSTS_CACHE_KEY := r.result.value]
    // every failure is the same generic error, and nothing is cached
    ensures r.result.Err? ==> r.result.error == Internal(FETCH_POSTS_FAILED) && r.cache == cache
  {
    if POSTS_CACHE_KEY in cache then
      Reply(Ok(cache[POSTS_CACHE_KEY]), cache, [])
    else
      match posts
      case Failed => Reply(Err(Internal(FETCH_POSTS_FAILED)), cache, [GetPosts])
      case Fetched(ps) =>
        var calls := [GetPosts] + seq(|ps|, _ => GetUsers);
        match AttachAuthors(ps, users)
        case Err(_) => Reply(Err(Internal(FETCH_POSTS_FAILED)), cache, calls)
        case Ok(list) => Reply(Ok(PostList(list)), cache[POSTS_CACHE_KEY := PostList(list)], calls)
  }

  /**
   * `getPostById`: serve whatever is cached under the raw id string;
   * otherwise fetch the post, attach its author, then its comments, cache
   * the record under the id and return it. Any failure becomes NOT_FOUND
   * and caches nothing.
   */
  function GetPostByIdReply(cache: Store, id: string, post: Fetch<Post>, users: Fetch<seq<User>>,
                            comments: Fetch<seq<Comment>>): (r: Reply<CacheVal>)
    ensures id in cache ==> r == Reply(Ok(cache[id]), cache, [])
    // a miss issues post, users, comments in that order, stopping at the first failure
    ensures id !in cache ==>
              r.calls == [GetPost(id)]
                         + (if post.Fetched? then [GetUsers] else [])
                         + (if post.Fetched? && users.Fetched? && HasUser(users.value, post.value.userId)
                            then [GetComments] else [])
    ensures id !in cache ==>
              (r.result.Ok? <==>
                 post.Fetched? && users.Fetched? && HasUser(users.value, post.value.userId) && comments.Fetched?)
    ensures id !in cache && r.result.Ok? ==>
              && r.result.value.PostDetail?
              && PostPart(AuthorPart(r.result.value.post)) == post.value
              && WellFormedDetail(r.result.value.post)
              && (exists i :: FirstWithId(users.value, i, post.value.userId) &&
                              users.value[i] == r.result.value.post.author)
              && (forall c :: c in r.result.value.post.comments <==>
                                c in comments.value && c.postId == post.value.id)
              && IsSubsequence(r.result.value.post.comments, comments.value)
              && (forall c :: multiset(r.result.value.post.comments)[c]
                              == if c.postId == post.value.id then multiset(comments.value)[c] else 0)
              && r.cache == cache[id := r.result.value]
    ensures r.result.Err? ==> r.result.error == NotFound(POST_NOT_FOUND) && r.cache == cache
  {
    if id in cache then
      Reply(Ok(cache[id]), cache, [])
    else
      match post
      case Failed => Reply(Err(NotFound(POST_NOT_FOUND)), cache, [GetPost(id)])
      case Fetched(p) =>
        match AddAuthorDataToPost(p, users)
        case Err(_) => Reply(Err(NotFound(POST_NOT_FOUND)), cache, [GetPost(id), GetUsers])
        case Ok(withAuthor) =>
          var calls := [GetPost(id), GetUsers, GetComments];
          match AddCommentsToPost(withAuthor, comments)
          case Err(_) => Reply(Err(NotFound(POST_NOT_FOUND)), cache, calls)
          case Ok(withComments) =>
            Reply(Ok(PostDetail(withComments)), cache[id := PostDetail(withComments)], calls)
  }
}
