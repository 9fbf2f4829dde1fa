/**
 * The process-wide cache shared by the handlers, as an object whose
 * handlers update its map in place. Each handler is tied to the function in
 * PostsRouter or CommentsRouter that specifies it.
 */
module Server {
  import opened Wrappers
  import opened Types
  import opened Aggregate
  import opened PostsRouter
  import opened CommentsRouter
  import opened Protocol

  class Api {
    /** The live cache entries: key to stored value. */
    var cache: Store

    /** Every stored value is well formed. */
    ghost predicate Valid()
      reads this
    {
      Consistent(cache)
    }

    /** A freshly started process has an empty cache. */
    constructor ()
      ensures Valid() && cache == map[]
    {
      cache := map[];
    }

    /** `posts.getAll`. */
    method GetAll(posts: Fetch<seq<Post>>, users: Fetch<seq<User>>)
      returns (result: Result<CacheVal, HandlerError>, calls: seq<Request>)
      requires Valid()
      modifies this
      ensures Valid()
      ensures Reply(result, cache, calls) == GetAllReply(old(cache), posts, users)
      ensures result.Ok? ==> WellFormed(result.value)
    {
      GetAllKeepsConsistency(cache, posts, users);
      if POSTS_CACHE_KEY in cache {
        result, calls := Ok(cache[POSTS_CACHE_KEY]), [];
        return;
      }
      calls := [GetPosts];
      if posts.Failed? {
        result := Err(Internal(FETCH_POSTS_FAILED));
        return;
      }
      calls := calls + seq(|posts.value|, _ => GetUsers);
      var withAuthors := AttachAuthors(posts.value, users);
      if withAuthors.Err? {
        result := Err(Internal(FETCH_POSTS_FAILED));
        return;
      }
      cache := cache[POSTS_CACHE_KEY := PostList(withAuthors.value)];
      result := Ok(PostList(withAuthors.value));
    }

    /** `posts.getPostById`, keyed by the raw id string. */
    method GetPostById(id: string, post: Fetch<Post>, users: Fetch<seq<User>>, comments: Fetch<seq<Comment>>)
      returns (result: Result<CacheVal, HandlerError>, calls: seq<Request>)
      requires Valid()
      modifies this
      ensures Valid()
      ensures Reply(result, cache, calls) == GetPostByIdReply(old(cache), id, post, users, comments)
      ensures result.Ok? ==> WellFormed(result.value)
    {
      GetPostByIdKeepsConsistency(cache, id, post, users, comments);
      if id in cache {
        result, calls := Ok(cache[id]), [];
        return;
      }
      calls := [GetPost(id)];
      if post.Failed? {
        result := Err(NotFound(POST_NOT_FOUND));
        return;
      }
      calls := calls + [GetUsers];
      var withAuthor := AddAuthorDataToPost(post.value, users);
      if withAuthor.Err? {
        result := Err(NotFound(POST_NOT_FOUND));
        return;
      }
      calls := calls + [GetComments];
      var withComments := AddCommentsToPost(withAuthor.value, comments);
      if withComments.Err? {
        result := Err(NotFound(POST_NOT_FOUND));
        return;
      }
      cache := cache[id := PostDetail(withComments.value)];
      result := Ok(PostDetail(withComments.value));
    }

    /** `comments.create`. */
    method CreateComment(body: string, postId: string, delivery: Delivery<Comment>)
      returns (result: Result<Comment, HandlerError>, calls: seq<Request>)
      requires Valid()
      modifies this
      ensures Valid()
      ensures Reply(result, cache, calls) == CreateCommentReply(old(cache), body, postId, delivery)
    {
      CreateCommentKeepsConsistency(cache, body, postId, delivery);
      if !ValidBody(body) {
        result, calls := Err(BadRequest), [];
        return;
      }
      calls := [PostComment(CommentPayload(body))];
      if delivery.Rejected? {
        result := Err(Uncaught);
        return;
      }
      cache := cache - {postId};
      match delivery.reply
      case Failed => result := Err(Uncaught);
      case Fetched(created) => result := Ok(created);
    }

    /**
     * An entry leaving the cache on its own: its time-to-live ran out, or it
     * was the one evicted to stay within the capacity. Which entry and when
     * is the cache library's business; any entry may go at any time.
     */
    method Evict(key: string)
      requires Valid()
      modifies this
      ensures Valid()
      ensures cache == old(cache) - {key}
    {
      cache := cache - {key};
    }
  }
}
