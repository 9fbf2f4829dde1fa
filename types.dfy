/**
 * The records exchanged with the remote JSON API, the values kept in the
 * shared cache, and the shape of a handler's outcome.
 */
module Types {
  import opened Wrappers

  /** A post as the posts resource returns it. */
  datatype Post = Post(userId: int, id: int, title: string, body: string)

  /** A user as the users resource returns it. */
  datatype User = User(id: int, name: string, username: string, email: string)

  /** A comment as the comments resource returns it. */
  datatype Comment = Comment(postId: int, id: int, name: string, email: string, body: string)

  /** A post with its author attached (`{ ...post, author }`). */
  datatype PostWithAuthor = PostWithAuthor(userId: int, id: int, title: string, body: string, author: User)

  /** A post with its author and its comments attached (`{ ...post, comments }`). */
  datatype PostWithComments =
    PostWithComments(userId: int, id: int, title: string, body: string, author: User, comments: seq<Comment>)

  /** The post fields of a post with author, i.e. the record without `author`. */
  function PostPart(p: PostWithAuthor): Post
  {
    Post(p.userId, p.id, p.title, p.body)
  }

  /** The record without `comments`. */
  function AuthorPart(p: PostWithComments): PostWithAuthor
  {
    PostWithAuthor(p.userId, p.id, p.title, p.body, p.author)
  }

  /**
   * What one upstream GET delivers: the decoded body, or a failure
   * (the request rejected or the body could not be decoded).
   */
  datatype Fetch<+T> = Fetched(value: T) | Failed

  /**
   * What the comment POST delivers: either the request itself rejected
   * (nothing was sent back), or a response arrived whose body may or may
   * not decode.
   */
  datatype Delivery<+T> = Rejected | Delivered(reply: Fetch<T>)

  /** The outgoing comment body: only the comment text is sent. */
  datatype CommentPayload = CommentPayload(body: string)

  /** An upstream request, recorded in the order the handler issues it. */
  datatype Request =
    | GetPosts                          // GET the post collection
    | GetPost(id: string)               // GET one post by the raw id string
    | GetUsers                          // GET the user collection
    | GetComments                       // GET the comment collection
    | PostComment(payload: CommentPayload)

  /** A value stored in the shared cache. */
  datatype CacheVal = PostList(posts: seq<PostWithAuthor>) | PostDetail(post: PostWithComments)

  /** The shared cache: one key space for the list and for every post id. */
  type Store = map<string, CacheVal>

  /** The key under which the post list is cached. */
  const POSTS_CACHE_KEY: string := "posts"

  /** The errors a handler reports to its caller. */
  datatype HandlerError =
    | BadRequest                 // input rejected by the input schema
    | Internal(message: string)  // a plain error thrown by the handler
    | NotFound(message: string)  // the NOT_FOUND error of getPostById
    | Uncaught                   // an upstream failure the handler lets through

  const FETCH_POSTS_FAILED: string := "Failed to fetch posts data"
  const POST_NOT_FOUND: string := "Post not found"

  /** The outcome of one handler call: its answer, the cache afterwards and the upstream requests it made. */
  datatype Reply<+T> = Reply(result: Result<T, HandlerError>, cache: Store, calls: seq<Request>)

  /** A cached post list is well formed when every element's author is that post's user. */
  ghost predicate WellFormedList(ps: seq<PostWithAuthor>)
  {
    forall i :: 0 <= i < |ps| ==> ps[i].author.id == ps[i].userId
  }

  /** A cached post is well formed when its author is its user and every comment belongs to it. */
  ghost predicate WellFormedDetail(p: PostWithComments)
  {
    && p.author.id == p.userId
    && forall i :: 0 <= i < |p.comments| ==> p.comments[i].postId == p.id
  }

  ghost predicate WellFormed(v: CacheVal)
  {
    match v
    case PostList(ps) => WellFormedList(ps)
    case PostDetail(p) => WellFormedDetail(p)
  }

  /** Every cached value is well formed. */
  ghost predicate Consistent(store: Store)
  {
    forall k :: k in store ==> WellFormed(store[k])
  }
}
