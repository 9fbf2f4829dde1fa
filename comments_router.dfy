/**
 * The comment-creation mutation: validate the body, send it to the comments
 * service, then drop the cached record of the commented post.
 */
module CommentsRouter {
  import opened Wrappers
  import opened Types

  /** Bounds of the comment body, in UTF-16 code units (the length a JavaScript string reports). */
  const BODY_MIN_LENGTH: nat := 1
  const BODY_MAX_LENGTH: nat := 1000

  /** The number of UTF-16 code units encoding `s`: two for a code point above U+FFFF, one otherwise. */
  function Utf16Length(s: string): (n: nat)
    ensures |s| <= n <= 2 * |s|
  {
    if s == [] then 0
    else (if s[0] as int >= 0x1_0000 then 2 else 1) + Utf16Length(s[1..])
  }

  /** Every character of `s` lies in the Basic Multilingual Plane. */
  ghost predicate InBmp(s: string)
  {
    forall i :: 0 <= i < |s| ==> s[i] as int < 0x1_0000
  }

  /** For text in the Basic Multilingual Plane the UTF-16 length is the character count. */
  lemma {:induction false} Utf16LengthInBmp(s: string)
    requires InBmp(s)
    ensures Utf16Length(s) == |s|
  {
    if s != [] {
      assert InBmp(s[1..]) by {
        forall i | 0 <= i < |s| - 1 ensures s[1..][i] as int < 0x1_0000 {
          assert s[1..][i] == s[i + 1];
        }
      }
      Utf16LengthInBmp(s[1..]);
    }
  }

  /** The input schema's check on the body: non-empty and at most 1000 code units. */
  predicate ValidBody(body: string)
  {
    BODY_MIN_LENGTH <= Utf16Length(body) <= BODY_MAX_LENGTH
  }

  /** What a valid body's length may be in characters, and which plain-text bodies are valid. */
  lemma ValidBodyBounds(body: string)
    ensures ValidBody(body) ==> 1 <= |body| <= 1000
    ensures InBmp(body) ==> (ValidBody(body) <==> 1 <= |body| <= 1000)
  {
    if InBmp(body) {
      Utf16LengthInBmp(body);
    }
  }

  /**
   * `comments.create`: reject an invalid body before anything happens;
   * otherwise send it, and once the service has answered remove exactly the
   * cache entry keyed by `postId`. The answer is the decoded reply.
   */
  function CreateCommentReply(cache: Store, body: string, postId: string, delivery: Delivery<Comment>): (r: Reply<Comment>)
    // an invalid body makes no request and changes nothing
    ensures !ValidBody(body) ==> r == Reply(Err(BadRequest), cache, [])
    // a valid body is sent once, with any post id at all
    ensures ValidBody(body) ==> r.calls == [PostComment(CommentPayload(body))]
    ensures ValidBody(body) ==> r.result != Err(BadRequest)
    // a request that threw leaves the cache as it was
    ensures delivery.Rejected? ==> r.cache == cache && r.result.Err?
    // once the service answered, the post's entry is gone and every other entry is unchanged
    ensures ValidBody(body) && delivery.Delivered? ==>
              && postId !in r.cache
              && r.cache.Keys == cache.Keys - {postId}
              && forall k :: k in r.cache ==> r.cache[k] == cache[k]
    ensures r.result.Ok? <==> ValidBody(body) && delivery.Delivered? && delivery.reply.Fetched?
    ensures r.result.Ok? ==> r.result.value == delivery.reply.value
    // a failure after validation reaches the caller unmapped
    ensures ValidBody(body) && r.result.Err? ==> r.result.error == Uncaught
  {
    if !ValidBody(body) then
      Reply(Err(BadRequest), cache, [])
    else
      var calls := [PostComment(CommentPayload(body))];
      match delivery
      case Rejected => Reply(Err(Uncaught), cache, calls)
      case Delivered(reply) =>
        var invalidated := cache - {postId};
        match reply
        case Failed => Reply(Err(Uncaught), invalidated, calls)
        case Fetched(created) => Reply(Ok(created), invalidated, calls)
  }
}
