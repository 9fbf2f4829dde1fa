# Post aggregation and cache protocol of the t3-posts API

This project models, in Dafny, the server-side core of a small blog
application: the tRPC routers that compose posts, users and comments from a
remote JSON API into denormalized records, and the shared in-memory cache in
front of them.

- `getAll` serves whatever is cached under the literal key `"posts"`; on a miss
  it fetches the posts, attaches to each the first user whose `id` equals the
  post's `userId`, caches the list and returns it. One unresolvable author
  fails the whole call with the generic error "Failed to fetch posts data",
  and nothing is cached.
- `getPostById` serves whatever is cached under the raw id string; on a miss
  it fetches the post, attaches its author, then the comments whose `postId`
  equals the post's `id` (upstream order kept), caches the record under the
  id and returns it. Every failure becomes NOT_FOUND "Post not found", and
  nothing is cached.
- `comments.create` rejects a body whose length is outside 1..1000 before
  anything happens, sends the body alone to the comments service, and once
  the service has answered deletes exactly the cache entry keyed by `postId`.

Layout:

- `wrappers.dfy` (`Wrappers`): `Option` and `Result`.
- `types.dfy` (`Types`): the upstream records, `Fetch` (what one upstream
  read delivers, or `Failed`), `Delivery` (what the comment POST delivers),
  the upstream `Request`s a handler issues, the cache value `CacheVal`, the
  handler errors, and `Reply` (answer, cache afterwards, requests made). The
  `Consistent` predicate says every cached value is well formed.
- `aggregate.dfy` (`Aggregate`): `addAuthorDataToPost`, `addCommentsToPost`
  and the all-or-nothing author attachment over the post list.
- `posts_router.dfy` (`PostsRouter`) and `comments_router.dfy`
  (`CommentsRouter`): each handler as a function from the cache and the
  upstream answers to a `Reply`.
- `protocol.dfy` (`Protocol`): properties that relate several calls.
- `server.dfy` (`Server`): class `Api` whose `cache: map<string, CacheVal>`
  field the handler methods update in place; each method is proved equal to
  its specifying function and to keep `Consistent`.

Upstream data and failures are parameters. A handler's upstream traffic is
its returned list of `Request`s, so "no upstream read on a hit" is
`calls == []`.

Points of the code's behaviour the model keeps:
- the cache is not typed per key. `getPostById` returns whatever is stored
  under its id through an unchecked cast, so `getPostById("posts")` serves
  the cached post list (`Protocol.PostsKeySharedWithPostIds`). Its answer is
  therefore a `CacheVal`, not always a single post;
- the comment-body bounds count UTF-16 code units, which is what a
  JavaScript string's length and the schema's `min`/`max` measure. A
  character outside the Basic Multilingual Plane counts twice.

## Model

| member | source | states |
|---|---|---|
| `Aggregate.FirstUserIndex` | src/server/api/routers/posts.ts:51 | `find` yields nothing exactly when no user has the id; otherwise it yields the position of the first user with that id |
| `Aggregate.AddAuthorDataToPost` | src/server/api/routers/posts.ts:45-61 | succeeds iff the users arrived and some user has `id == post.userId`; the author is the first such user; every post field is kept; a failed users fetch or a missing author is an error |
| `Aggregate.PostComments` | src/server/api/routers/posts.ts:69-71 | a comment is in the result iff it is an upstream comment with `postId` equal to the post's `id` |
| `Aggregate.PostCommentsOrdered` | src/server/api/routers/posts.ts:69-71 | the filtered comments are a subsequence of the upstream comments, in upstream order |
| `Aggregate.PostCommentsCount` | src/server/api/routers/posts.ts:69-71 | each matching comment appears as often as upstream and no other comment appears, so none is dropped |
| `Aggregate.AddCommentsToPost` | src/server/api/routers/posts.ts:63-77 | fails only when the comments did not arrive; keeps the post and its author; the comments are exactly the matching ones, in order, with multiplicity; an empty list is a success |
| `Aggregate.AttachAuthors` | src/server/api/routers/posts.ts:91 | all or nothing: succeeds iff every post's author resolves (an empty list always succeeds); the result has the posts' length and order, element i keeps post i's fields and has `author.id == userId` |
| `PostsRouter.GetAllReply` | src/server/api/routers/posts.ts:80-99 | a hit on `"posts"` returns the stored value with no request and no cache change; a miss requests the posts, then users once per post; it succeeds iff all authors resolve; it returns the ordered list, element i being post i with the first user whose `id` is its `userId`, and caches it under `"posts"`; any failure is the generic error with the cache unchanged |
| `PostsRouter.GetPostByIdReply` | src/server/api/routers/posts.ts:106-131 | a hit on the raw id returns the stored value with no request; a miss requests post, users, comments in that order, stopping at the first failure; success gives the post with its first matching author and exactly its comments (upstream order, upstream multiplicity), cached under the id; any failure is NOT_FOUND with the cache unchanged |
| `CommentsRouter.Utf16Length` | src/server/api/routers/comments.ts:11 | the JavaScript length of a string lies between its character count and twice that |
| `CommentsRouter.Utf16LengthInBmp` | src/server/api/routers/comments.ts:11 | for text in the Basic Multilingual Plane the JavaScript length is the character count |
| `CommentsRouter.ValidBodyBounds` | src/server/api/routers/comments.ts:11 | an accepted body has 1 to 1000 characters; for plain text that range is also sufficient |
| `CommentsRouter.CreateCommentReply` | src/server/api/routers/comments.ts:14-27 | an invalid body gives BAD_REQUEST with no request and no cache change; a valid body is sent once as the body alone, whatever the post id; if the send throws, the cache is untouched; once answered, exactly the `postId` entry is gone and every other entry is unchanged; the answer is the decoded reply, and any failure after validation reaches the caller unmapped |
| `Protocol.GetPostByIdMissIgnoresOtherEntries` | src/server/api/routers/posts.ts:107-125 | on a miss, the answer and the requests do not depend on the other cache entries |
| `Protocol.RepeatedGetPostByIdHits` | src/server/api/routers/posts.ts:108-113 | after a successful `getPostById`, the same call returns the same record with no request and no cache change |
| `Protocol.RepeatedGetAllHits` | src/server/api/routers/posts.ts:81-86 | after a successful `getAll`, the same call returns the same list with no request and no cache change |
| `Protocol.CreateCommentForcesReaggregation` | src/server/api/routers/comments.ts:23 | after the service answered a comment on `postId`, the next `getPostById(postId)` requests the post again and answers as it would on an empty cache |
| `Protocol.CreateCommentKeepsPostList` | src/server/api/routers/comments.ts:23 | a comment on any post id other than `"posts"` leaves `getAll`'s answer as it was |
| `Protocol.InvalidCommentChangesNothing` | src/server/api/routers/comments.ts:11 | a rejected body is invisible to later reads: `getPostById` of any id and `getAll` answer, request and cache exactly as before it |
| `Protocol.CommentPayloadOmitsPostId` | src/server/api/routers/comments.ts:16-21 | the post id steers only the cache removal: the request sent (the body alone) and the answer are the same for every post id |
| `Protocol.PostsKeySharedWithPostIds` | src/server/api/routers/posts.ts:43 | the list key and the post ids share one key space: after `getAll` caches the list, `getPostById("posts")` serves that list with no request |
| `Protocol.GetAllKeepsConsistency` | src/server/api/routers/posts.ts:89-94 | `getAll` keeps every cached value well formed and only serves well-formed values |
| `Protocol.GetPostByIdKeepsConsistency` | src/server/api/routers/posts.ts:115-125 | `getPostById` keeps every cached value well formed and only serves well-formed values |
| `Protocol.CreateCommentKeepsConsistency` | src/server/api/routers/comments.ts:23 | `create` only removes entries, so the cache stays well formed |
| `Server.Api.constructor` | src/server/api/lib/lru.ts:3-6 | the shared cache starts empty |
| `Server.Api.GetAll` | src/server/api/routers/posts.ts:80-99 | the in-place handler: answer, requests and new cache are those of `GetAllReply`; the cache stays well formed and a success is well formed |
| `Server.Api.GetPostById` | src/server/api/routers/posts.ts:106-131 | the in-place handler: answer, requests and new cache are those of `GetPostByIdReply`; the cache stays well formed and a success is well formed |
| `Server.Api.CreateComment` | src/server/api/routers/comments.ts:14-27 | the in-place handler: answer, requests and new cache are those of `CreateCommentReply`; the cache stays well formed |
| `Server.Api.Evict` | src/server/api/lib/lru.ts:3-6 | an entry expiring or evicted leaves the cache, and nothing else changes |

## Left out

- Network I/O: `fetch`, HTTP status handling and `.json()` decoding are
  replaced by the `Fetch` and `Delivery` parameters. The unchecked `as`
  casts on decoded bodies are assumed to hold.
- The relation between the requested id string and the `id` of the post the
  posts service returns is the service's business. The model takes the
  returned post as given and caches it under the raw id string.
- `getAll` fetches the user collection once per post. The model gives all
  of these fetches one answer, so they all succeed or all fail together.
- The concurrency of `Promise.all` and of handlers racing on one key. The
  map over the posts is modelled sequentially, keeping order. When several
  authors fail at once, which rejection `Promise.all` reports is not
  modelled. The handler replaces it with the same generic error anyway.
- The internals of the `lru-cache` library (src/server/api/lib/lru.ts
  only configures it with 100 entries and a 10-second time-to-live). Expiry
  and capacity eviction are `Api.Evict`, which may remove any entry at any
  time. The model does not enforce the 100-entry bound and does not model
  the eviction order or the clock.
- `console.log` / `console.error` diagnostics.
- tRPC and zod plumbing beyond the body-length bounds and the string type
  of `postId`. Error objects are reduced to their code and message.
- The shape of the comment service's reply is not checked by the source.
  The model takes it to be a `Comment`.
- Router wiring (src/server/api/root.ts), the UI and server-side rendering
  helpers are not part of this model.
