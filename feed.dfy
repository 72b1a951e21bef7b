/**
 * The list transformations inside the local feed and moderation writes:
 * `[newp, ...current].slice(0, 500)`, the two `current.map(...)` updates,
 * the capped report log, the per-session block set, and the
 * `visiblePosts` filter.
 */
module Feed {
  import opened Entities
  import opened Lists

  const MaxPosts: nat := 500
  const MaxReports: nat := 1000
  const DefaultReason := "Reported via app"

  /** `p.likes || 0` */
  function LikesOf(p: Post): int
  {
    match p.likes
    case None => 0
    case Some(n) => n
  }

  /** `p.comments || []` */
  function CommentsOf(p: Post): seq<Comment>
  {
    match p.comments
    case None => []
    case Some(cs) => cs
  }

  /** `imageUri || null` */
  function ImageRef(imageUri: Option<string>): Option<string>
  {
    if imageUri.Some? && imageUri.value != "" then imageUri else None
  }

  /** The post `savePostLocally` builds: no likes, no comments, no author uid. */
  function NewLocalPost(id: string, author: string, text: string, imageUri: Option<string>, now: int): Post
  {
    Post(id, author, None, text, ImageRef(imageUri), Some(0), Some([]), now, false)
  }

  /**
   * `[newp, ...current].slice(0, 500)`: the new post first, at most 500
   * posts, and only the oldest ones dropped.
   */
  function AddPost(current: seq<Post>, newp: Post): (next: seq<Post>)
    ensures |next| <= MaxPosts && |next| == Min(|current| + 1, MaxPosts)
    ensures next[0] == newp
    ensures next == [newp] + current[..Min(|current|, MaxPosts - 1)]
  {
    PrependCapped(newp, current, MaxPosts)
  }

  /** The post with one more comment at the end of its (possibly missing) comment list. */
  function WithComment(p: Post, c: Comment): Post
  {
    p.(comments := Some(CommentsOf(p) + [c]))
  }

  /**
   * `current.map(p => p.id === postId ? {...p, comments: [...(p.comments || []), c]} : p)`.
   * Same length and order; each post with the id gains exactly `c` at the end
   * of its comments and is otherwise unchanged; every other post is unchanged.
   */
  function CommentOn(current: seq<Post>, postId: string, c: Comment): (next: seq<Post>)
    ensures |next| == |current|
    ensures forall i :: 0 <= i < |current| && current[i].id == postId ==>
      CommentsOf(next[i]) == CommentsOf(current[i]) + [c] && next[i].(comments := current[i].comments) == current[i]
    ensures forall i :: 0 <= i < |current| && current[i].id != postId ==> next[i] == current[i]
  {
    seq(|current|, i requires 0 <= i < |current| =>
      if current[i].id == postId then WithComment(current[i], c) else current[i])
  }

  /** A comment for an id no post has leaves the list as it was. */
  lemma CommentOnMissingId(current: seq<Post>, postId: string, c: Comment)
    requires forall i :: 0 <= i < |current| ==> current[i].id != postId
    ensures CommentOn(current, postId, c) == current
  {
  }

  /**
   * `current.map(p => p.id === postId ? {...p, likes: (p.likes || 0) + 1} : p)`:
   * each post with the id has exactly one more like, nothing else changes.
   */
  function LikeOn(current: seq<Post>, postId: string): (next: seq<Post>)
    ensures |next| == |current|
    ensures forall i :: 0 <= i < |current| && current[i].id == postId ==>
      LikesOf(next[i]) == LikesOf(current[i]) + 1 && next[i].(likes := current[i].likes) == current[i]
    ensures forall i :: 0 <= i < |current| && current[i].id != postId ==> next[i] == current[i]
  {
    seq(|current|, i requires 0 <= i < |current| =>
      if current[i].id == postId then current[i].(likes := Some(LikesOf(current[i]) + 1)) else current[i])
  }

  /** `n` likes of the same post, one after another. */
  function LikeRepeat(current: seq<Post>, postId: string, n: nat): seq<Post>
  {
    if n == 0 then current else LikeOn(LikeRepeat(current, postId, n - 1), postId)
  }

  /** `n` sequential likes add exactly `n` to each matching post and change nothing else. */
  lemma {:induction false} LikeRepeatCounts(current: seq<Post>, postId: string, n: nat)
    ensures |LikeRepeat(current, postId, n)| == |current|
    ensures forall i :: 0 <= i < |current| && current[i].id == postId ==>
      LikesOf(LikeRepeat(current, postId, n)[i]) == LikesOf(current[i]) + n
      && LikeRepeat(current, postId, n)[i].(likes := current[i].likes) == current[i]
    ensures forall i :: 0 <= i < |current| && current[i].id != postId ==>
      LikeRepeat(current, postId, n)[i] == current[i]
  {
    if n > 0 {
      LikeRepeatCounts(current, postId, n - 1);
    }
  }

  /** `(blocks || {})[me] || []`: the block list of the session `me`. */
  function BlockedBy(blocks: map<string, seq<string>>, me: string): seq<string>
  {
    if me in blocks then blocks[me] else []
  }

  /** Neither the post's author name nor its author uid is on the list. */
  predicate Shown(p: Post, blocked: seq<string>)
  {
    p.author !in blocked && (p.authorUid.None? || p.authorUid.value !in blocked)
  }

  /**
   * `posts.filter(p => !blocked.includes(p.author) && !blocked.includes(p.authorUid))`:
   * the posts in their order, minus exactly those whose author or author uid
   * is blocked, each shown post kept as often as it occurs.
   */
  function Visible(posts: seq<Post>, blocked: seq<string>): (shown: seq<Post>)
    ensures IsSubsequence(shown, posts)
    ensures forall p :: p in shown <==> p in posts && Shown(p, blocked)
    ensures forall p :: Shown(p, blocked) ==> multiset(shown)[p] == multiset(posts)[p]
    decreases |posts|
  {
    if posts == [] then []
    else
      var rest := Visible(posts[1..], blocked);
      assert posts == [posts[0]] + posts[1..];
      if Shown(posts[0], blocked) then [posts[0]] + rest else rest
  }

  /** `[newr, ...r].slice(0, 1000)`: the newest report first, at most 1000 kept. */
  function AddReport(log: seq<Report>, newr: Report): (next: seq<Report>)
    ensures |next| <= MaxReports && |next| == Min(|log| + 1, MaxReports)
    ensures next[0] == newr
    ensures next == [newr] + log[..Min(|log|, MaxReports - 1)]
  {
    PrependCapped(newr, log, MaxReports)
  }

  /** Reports filed one after another into an empty log. */
  function ReportEach(reports: seq<Report>): seq<Report>
  {
    PrependEach([], reports, MaxReports)
  }

  /** 1001 sequential reports keep exactly the 1000 newest, newest first; the first one filed is gone. */
  lemma ThousandAndOneReports(reports: seq<Report>)
    requires |reports| == 1001
    ensures |ReportEach(reports)| == 1000
    ensures forall k :: 0 <= k < 1000 ==> ReportEach(reports)[k] == reports[1000 - k]
  {
    PrependEachKeepsNewest([], reports, MaxReports);
    assert Reverse(reports) + [] == Reverse(reports);
    forall k | 0 <= k < 1000 ensures ReportEach(reports)[k] == reports[1000 - k] {
      ReverseAt(reports, k);
    }
  }

  /**
   * `{...blocks, [me]: Array.from(new Set([...myBlocks, who]))}`: the session's
   * list holds `who` and what it held before, each once; other sessions'
   * lists are unchanged.
   */
  function AddBlock(blocks: map<string, seq<string>>, me: string, who: string): (next: map<string, seq<string>>)
    ensures next.Keys == blocks.Keys + {me}
    ensures forall k :: k in blocks && k != me ==> next[k] == blocks[k]
    ensures NoDuplicates(next[me])
    ensures forall x :: x in next[me] <==> x == who || x in BlockedBy(blocks, me)
  {
    DedupSpec(BlockedBy(blocks, me) + [who]);
    blocks[me := Dedup(BlockedBy(blocks, me) + [who])]
  }

  /** Blocking the same identifier twice leaves the same table as blocking it once. */
  lemma BlockTwiceIsBlockOnce(blocks: map<string, seq<string>>, me: string, who: string)
    ensures AddBlock(AddBlock(blocks, me, who), me, who) == AddBlock(blocks, me, who)
  {
    DedupAddTwice(BlockedBy(blocks, me), who);
  }

  /** After blocking `who`, the session sees no post whose author name or uid is `who`. */
  lemma BlockedAuthorHidden(posts: seq<Post>, blocks: map<string, seq<string>>, me: string, who: string)
    ensures forall p :: p in Visible(posts, BlockedBy(AddBlock(blocks, me, who), me)) ==>
      p.author != who && p.authorUid != Some(who)
  {
  }
}
