/**
 * Properties of the cache protocol that relate several handler calls:
 * repeated reads hit, a comment forces its post to be re-aggregated, and
 * the list and the posts share one key space.
 */
module Protocol {
  import opened Types
  import opened PostsRouter
  import opened CommentsRouter

  /** A miss on `id` does not depend on what else is cached. */
  lemma GetPostByIdMissIgnoresOtherEntries(c1: Store, c2: Store, id: string, post: Fetch<Post>,
                                           users: Fetch<seq<User>>, comments: Fetch<seq<Comment>>)
    requires id !in c1 && id !in c2
    ensures GetPostByIdReply(c1, id, post, users, comments).result
            == GetPostByIdReply(c2, id, post, users, comments).result
    ensures GetPostByIdReply(c1, id, post, users, comments).calls
            == GetPostByIdReply(c2, id, post, users, comments).calls
  {
  }

  /** After a successful `getPostById`, asking again returns the same record with no upstream request. */
  lemma RepeatedGetPostByIdHits(cache: Store, id: string,
                                post: Fetch<Post>, users: Fetch<seq<User>>, comments: Fetch<seq<Comment>>,
                                post': Fetch<Post>, users': Fetch<seq<User>>, comments': Fetch<seq<Comment>>)
    requires GetPostByIdReply(cache, id, post, users, comments).result.Ok?
    ensures var first := GetPostByIdReply(cache, id, post, users, comments);
            GetPostByIdReply(first.cache, id, post', users', comments') == Reply(first.result, first.cache, [])
  {
  }

  /** After a successful `getAll`, asking again returns the same list with no upstream request. */
  lemma RepeatedGetAllHits(cache: Store, posts: Fetch<seq<Post>>, users: Fetch<seq<User>>,
                           posts': Fetch<seq<Post>>, users': Fetch<seq<User>>)
    requires GetAllReply(cache, posts, users).result.Ok?
    ensures var first := GetAllReply(cache, posts, users);
            GetAllReply(first.cache, posts', users') == Reply(first.result, first.cache, [])
  {
  }

  /**
   * Once a comment on `postId` has been answered by the service, the next
   * `getPostById(postId)` misses: it behaves exactly as on an empty cache,
   * asking upstream for the post again.
   */
  lemma CreateCommentForcesReaggregation(cache: Store, body: string, postId: string, delivery: Delivery<Comment>,
                                         post: Fetch<Post>, users: Fetch<seq<User>>, comments: Fetch<seq<Comment>>)
    requires ValidBody(body) && delivery.Delivered?
    ensures var after := CreateCommentReply(cache, body, postId, delivery).cache;
            var next := GetPostByIdReply(after, postId, post, users, comments);
            && next.calls[0] == GetPost(postId)
            && next.result == GetPostByIdReply(map[], postId, post, users, comments).result
            && next.calls == GetPostByIdReply(map[], postId, post, users, comments).calls
  {
    var after := CreateCommentReply(cache, body, postId, delivery).cache;
    GetPostByIdMissIgnoresOtherEntries(after, map[], postId, post, users, comments);
  }

  /**
   * A comment on any post other than one whose id is the literal "posts"
   * leaves the cached list in place: the next `getAll` answers as it would have before.
   */
  lemma CreateCommentKeepsPostList(cache: Store, body: string, postId: string, delivery: Delivery<Comment>,
                                   posts: Fetch<seq<Post>>, users: Fetch<seq<User>>)
    requires postId != POSTS_CACHE_KEY
    ensures var after := CreateCommentReply(cache, body, postId, delivery).cache;
            GetAllReply(after, posts, users).result == GetAllReply(cache, posts, users).result
  {
  }

  /** A comment whose body is rejected is invisible to every later read of any key. */
  lemma InvalidCommentChangesNothing(cache: Store, body: string, postId: string, delivery: Delivery<Comment>,
                                     id: string, post: Fetch<Post>, users: Fetch<seq<User>>,
                                     comments: Fetch<seq<Comment>>, posts: Fetch<seq<Post>>)
    requires !ValidBody(body)
    ensures var after := CreateCommentReply(cache, body, postId, delivery).cache;
            && GetPostByIdReply(after, id, post, users, comments) == GetPostByIdReply(cache, id, post, users, comments)
            && GetAllReply(after, posts, users) == GetAllReply(cache, posts, users)
  {
  }

  /** The post id steers only the cache removal: the request sent and the answer are the same for every post id. */
  lemma CommentPayloadOmitsPostId(cache: Store, body: string, p1: string, p2: string, delivery: Delivery<Comment>)
    ensures CreateCommentReply(cache, body, p1, delivery).calls == CreateCommentReply(cache, body, p2, delivery).calls
    ensures CreateCommentReply(cache, body, p1, delivery).result == CreateCommentReply(cache, body, p2, delivery).result
  {
  }

  /**
   * The list key and the post ids share one key space: once `getAll` has
   * cached the list, `getPostById("posts")` serves that list.
   */
  lemma PostsKeySharedWithPostIds(cache: Store, posts: Fetch<seq<Post>>, users: Fetch<seq<User>>,
                                  post: Fetch<Post>, users': Fetch<seq<User>>, comments: Fetch<seq<Comment>>)
    requires POSTS_CACHE_KEY !in cache
    requires GetAllReply(cache, posts, users).result.Ok?
    ensures var list := GetAllReply(cache, posts, users);
            var byId := GetPostByIdReply(list.cache, "posts", post, users', comments);
            byId.result == list.result && byId.result.value.PostList? && byId.calls == []
  {
  }

  /** `getAll` keeps every cached value well formed and only ever serves well-formed values. */
  lemma GetAllKeepsConsistency(cache: Store, posts: Fetch<seq<Post>>, users: Fetch<seq<User>>)
    requires Consistent(cache)
    ensures Consistent(GetAllReply(cache, posts, users).cache)
    ensures GetAllReply(cache, posts, users).result.Ok? ==> WellFormed(GetAllReply(cache, posts, users).result.value)
  {
  }

  /** `getPostById` keeps every cached value well formed and only ever serves well-formed values. */
  lemma GetPostByIdKeepsConsistency(cache: Store, id: string, post: Fetch<Post>, users: Fetch<seq<User>>,
                                    comments: Fetch<seq<Comment>>)
    requires Consistent(cache)
    ensures Consistent(GetPostByIdReply(cache, id, post, users, comments).cache)
    ensures GetPostByIdReply(cache, id, post, users, comments).result.Ok? ==>
              WellFormed(GetPostByIdReply(cache, id, post, users, comments).result.value)
  {
  }

  /** `comments.create` only removes entries, so it keeps every cached value well formed. */
  lemma CreateCommentKeepsConsistency(cache: Store, body: string, postId: string, delivery: Delivery<Comment>)
    requires Consistent(cache)
    ensures Consistent(CreateCommentReply(cache, body, postId, delivery).cache)
  {
  }
}
