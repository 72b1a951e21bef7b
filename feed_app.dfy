/**
 * The app component's write paths. Each local write is a load, a pure
 * transformation and a save over one storage key, followed by `setPosts`
 * for the feed; in cloud mode create, comment and like try the cloud call
 * first and fall back to the local write for that one operation.
 */
module FeedApp {
  import opened Entities
  import opened Text
  import opened Lists
  import opened KeyValue
  import opened Feed

  /** Fixed for the process: cloud exactly when the cloud backend initialised. */
  datatype Mode = Cloud | Local

  /** How an opaque cloud call (upload, document insert, counter increment) settles. */
  datatype CloudCall = CloudSucceeds | CloudFails

  /** The store after a local write and the list passed to `setPosts`, if it was called. */
  datatype Effect = Effect(cells: map<string, Cell>, shown: Option<seq<Post>>)

  /** How `createPost` ended, as its notices tell the user. */
  datatype PostOutcome = RejectedEmpty | RejectedProfane | SentToCloud | SavedLocally

  /** `(await load(POSTS, [])) || []` when that is a list of posts; `None` for a value of another shape. */
  function StoredPosts(cells: map<string, Cell>, readFails: bool): Option<seq<Post>>
  {
    match LoadResult(cells, PostsKey, PostList([]), readFails)
    case Null => Some([])
    case PostList(ps) => Some(ps)
    case _ => None
  }

  /** `(await load(REPORTS, [])) || []` when that is a report log. */
  function StoredReports(cells: map<string, Cell>, readFails: bool): Option<seq<Report>>
  {
    match LoadResult(cells, ReportsKey, ReportLog([]), readFails)
    case Null => Some([])
    case ReportLog(rs) => Some(rs)
    case _ => None
  }

  /** `(await load(BLOCKS, {})) || {}` when that is a block table. */
  function StoredBlocks(cells: map<string, Cell>, readFails: bool): Option<map<string, seq<string>>>
  {
    match LoadResult(cells, BlocksKey, BlockTable(map[]), readFails)
    case Null => Some(map[])
    case BlockTable(b) => Some(b)
    case _ => None
  }

  /** Load the posts, transform them with `f`, save and show the result. */
  function PostsWrite(cells: map<string, Cell>, io: Io, f: seq<Post> -> seq<Post>): Effect
  {
    match StoredPosts(cells, io.readFails)
    case None => Effect(cells, None)
    case Some(current) =>
      var next := f(current);
      Effect(SaveResult(cells, PostsKey, PostList(next), io.writeFails), Some(next))
  }

  /** `savePostLocally(text, imageUri)` */
  function SavePostStep(cells: map<string, Cell>, session: Option<Session>, text: string,
                        imageUri: Option<string>, id: string, now: int, io: Io): Effect
  {
    var newp := NewLocalPost(id, AuthorName(session), text, imageUri, now);
    PostsWrite(cells, io, current => AddPost(current, newp))
  }

  /** `saveCommentLocally(postId, text)` */
  function SaveCommentStep(cells: map<string, Cell>, session: Option<Session>, postId: string,
                           text: string, commentId: string, now: int, io: Io): Effect
  {
    var c := Comment(commentId, AuthorName(session), text, now);
    PostsWrite(cells, io, current => CommentOn(current, postId, c))
  }

  /** `likeLocally(postId)` */
  function LikeStep(cells: map<string, Cell>, postId: string, io: Io): Effect
  {
    PostsWrite(cells, io, current => LikeOn(current, postId))
  }

  /** `reportPost(postId, reason)` */
  function ReportStep(cells: map<string, Cell>, session: Option<Session>, postId: string,
                      reason: string, id: string, now: int, io: Io): map<string, Cell>
  {
    match StoredReports(cells, io.readFails)
    case None => cells
    case Some(log) =>
      var newr := Report(id, postId, reason, AuthorName(session), now);
      SaveResult(cells, ReportsKey, ReportLog(AddReport(log, newr)), io.writeFails)
  }

  /** `blockAuthor(who)` */
  function BlockStep(cells: map<string, Cell>, session: Option<Session>, who: string, io: Io): map<string, Cell>
  {
    match StoredBlocks(cells, io.readFails)
    case None => cells
    case Some(blocks) =>
      SaveResult(cells, BlocksKey, BlockTable(AddBlock(blocks, BlockOwner(session), who)), io.writeFails)
  }

  /** The feed state after a write that produced `eff`. */
  function ShownOr(eff: Effect, before: seq<Post>): seq<Post>
  {
    if eff.shown.Some? then eff.shown.value else before
  }

  /** The post list the local start-up shows: `(await load(POSTS, [])) || []`. */
  function ListedPosts(cells: map<string, Cell>, readFails: bool): seq<Post>
  {
    match StoredPosts(cells, readFails)
    case None => []
    case Some(ps) => ps
  }

  /** The session the local start-up restores: `(await load(SESSION, null)) || null`. */
  function ListedSession(cells: map<string, Cell>, readFails: bool): Option<Session>
  {
    match LoadResult(cells, SessionKey, Null, readFails)
    case SessionRecord(s) => Some(s)
    case _ => None
  }

  /**
   * A local post, once saved, is the first entry the next listing shows,
   * with the given text, no likes and no comments; the listing holds at most
   * 500 posts and continues with the newest of the previous ones.
   */
  lemma SavedPostListedFirst(cells: map<string, Cell>, session: Option<Session>, text: string,
                             imageUri: Option<string>, id: string, now: int, before: seq<Post>)
    requires StoredPosts(cells, false) == Some(before)
    ensures var after := ListedPosts(SavePostStep(cells, session, text, imageUri, id, now, NoFaults).cells, false);
      && after == AddPost(before, NewLocalPost(id, AuthorName(session), text, imageUri, now))
      && |after| == Min(|before| + 1, MaxPosts) && 0 < |after| <= MaxPosts
      && after[0].text == text && after[0].likes == Some(0) && after[0].comments == Some([])
      && after[0].author == AuthorName(session)
      && after[1..] == before[..|after| - 1]
  {
  }

  /**
   * The fallback `[]` also stands for unreadable posts: saving a post over
   * them leaves that post alone in the feed.
   */
  lemma SaveOverUnreadablePosts(cells: map<string, Cell>, session: Option<Session>, text: string,
                                imageUri: Option<string>, id: string, now: int)
    requires PostsKey in cells && cells[PostsKey] == Unparseable
    ensures SavePostStep(cells, session, text, imageUri, id, now, NoFaults).cells[PostsKey]
         == Json(PostList([NewLocalPost(id, AuthorName(session), text, imageUri, now)]))
  {
  }

  /**
   * A like or a comment whose read rejects, or finds unparseable posts, maps
   * over the fallback `[]` and saves that: the whole stored feed is replaced
   * by the empty list.
   */
  lemma LikeOrCommentOverUnreadableWipes(cells: map<string, Cell>, session: Option<Session>, postId: string,
                                          text: string, commentId: string, now: int, readFails: bool)
    requires readFails || (PostsKey in cells && cells[PostsKey] in {EmptyText, Unparseable})
    ensures LikeStep(cells, postId, Io(readFails, false)).cells == cells[PostsKey := Json(PostList([]))]
    ensures SaveCommentStep(cells, session, postId, text, commentId, now, Io(readFails, false)).cells
         == cells[PostsKey := Json(PostList([]))]
  {
    assert LikeOn([], postId) == [];
    assert CommentOn([], postId, Comment(commentId, AuthorName(session), text, now)) == [];
  }

  /** A comment for an id no stored post has writes the same list back: the store is unchanged. */
  lemma CommentForMissingPost(cells: map<string, Cell>, session: Option<Session>, postId: string,
                              text: string, commentId: string, now: int, io: Io, ps: seq<Post>)
    requires !io.readFails && PostsKey in cells && cells[PostsKey] == Json(PostList(ps))
    requires forall i :: 0 <= i < |ps| ==> ps[i].id != postId
    ensures SaveCommentStep(cells, session, postId, text, commentId, now, io).cells == cells
  {
    CommentOnMissingId(ps, postId, Comment(commentId, AuthorName(session), text, now));
  }

  /** The store after `n` local likes of `postId`, none of them failing. */
  function LikeSteps(cells: map<string, Cell>, postId: string, n: nat): map<string, Cell>
  {
    if n == 0 then cells else LikeStep(LikeSteps(cells, postId, n - 1), postId, NoFaults).cells
  }

  lemma {:induction false} LikeStepsStore(cells: map<string, Cell>, postId: string, n: nat, ps: seq<Post>)
    requires PostsKey in cells && cells[PostsKey] == Json(PostList(ps))
    ensures var after := LikeSteps(cells, postId, n);
      PostsKey in after && after[PostsKey] == Json(PostList(LikeRepeat(ps, postId, n)))
  {
    if n > 0 {
      LikeStepsStore(cells, postId, n - 1, ps);
    }
  }

  /** `n` sequential local likes of a post that starts with no likes leave it with exactly `n`. */
  lemma NLikesGiveN(cells: map<string, Cell>, postId: string, n: nat, ps: seq<Post>, i: nat)
    requires PostsKey in cells && cells[PostsKey] == Json(PostList(ps))
    requires i < |ps| && ps[i].id == postId && LikesOf(ps[i]) == 0
    ensures var after := ListedPosts(LikeSteps(cells, postId, n), false);
      i < |after| && LikesOf(after[i]) == n
  {
    LikeStepsStore(cells, postId, n, ps);
    LikeRepeatCounts(ps, postId, n);
  }

  /** With readable storage a report is stored first and the log stays within 1000 entries. */
  lemma ReportStoredFirst(cells: map<string, Cell>, session: Option<Session>, postId: string,
                          reason: string, id: string, now: int, log: seq<Report>)
    requires StoredReports(cells, false) == Some(log)
    ensures var after := StoredReports(ReportStep(cells, session, postId, reason, id, now, NoFaults), false);
      && after == Some(AddReport(log, Report(id, postId, reason, AuthorName(session), now)))
      && |after.value| == Min(|log| + 1, MaxReports) && 0 < |after.value| <= MaxReports
      && after.value[0] == Report(id, postId, reason, AuthorName(session), now)
      && after.value[1..] == log[..|after.value| - 1]
  {
  }

  /** The store after filing `reports` one after another, none of them failing. */
  function ReportSteps(cells: map<string, Cell>, session: Option<Session>, reports: seq<Report>): map<string, Cell>
    decreases |reports|
  {
    if reports == [] then cells
    else
      var r := reports[0];
      ReportSteps(ReportStep(cells, session, r.postId, r.reason, r.id, r.createdAt, NoFaults), session, reports[1..])
  }

  /** Filing reports one after another stores the bounded prepends of all of them onto the stored log. */
  lemma {:induction false} ReportStepsStore(cells: map<string, Cell>, session: Option<Session>,
                                            reports: seq<Report>, log: seq<Report>)
    requires StoredReports(cells, false) == Some(log)
    requires forall k :: 0 <= k < |reports| ==> reports[k].reporter == AuthorName(session)
    ensures StoredReports(ReportSteps(cells, session, reports), false) == Some(PrependEach(log, reports, MaxReports))
    decreases |reports|
  {
    if reports != [] {
      var r := reports[0];
      assert Report(r.id, r.postId, r.reason, AuthorName(session), r.createdAt) == r;
      var next := ReportStep(cells, session, r.postId, r.reason, r.id, r.createdAt, NoFaults);
      assert StoredReports(next, false) == Some(AddReport(log, r));
      ReportStepsStore(next, session, reports[1..], AddReport(log, r));
    }
  }

  /**
   * 1001 reports filed one after another on a device with no report log
   * leave exactly the 1000 newest stored, newest first.
   */
  lemma ThousandAndOneStoredReports(cells: map<string, Cell>, session: Option<Session>, reports: seq<Report>)
    requires ReportsKey !in cells
    requires |reports| == 1001
    requires forall k :: 0 <= k < |reports| ==> reports[k].reporter == AuthorName(session)
    ensures var stored := StoredReports(ReportSteps(cells, session, reports), false);
      && stored.Some? && |stored.value| == 1000
      && forall k :: 0 <= k < 1000 ==> stored.value[k] == reports[1000 - k]
  {
    ReportStepsStore(cells, session, reports, []);
    ThousandAndOneReports(reports);
  }

  /**
   * Blocking the same identifier twice leaves the store as blocking it once;
   * the session's list then holds it, and other sessions' lists are as before.
   */
  lemma BlockTwiceSameStore(cells: map<string, Cell>, session: Option<Session>, who: string,
                            blocks: map<string, seq<string>>)
    requires StoredBlocks(cells, false) == Some(blocks)
    ensures var once := BlockStep(cells, session, who, NoFaults);
      && BlockStep(once, session, who, NoFaults) == once
      && StoredBlocks(once, false) == Some(AddBlock(blocks, BlockOwner(session), who))
      && who in BlockedBy(StoredBlocks(once, false).value, BlockOwner(session))
      && forall k :: k in blocks && k != BlockOwner(session) ==> StoredBlocks(once, false).value[k] == blocks[k]
  {
    BlockTwiceIsBlockOnce(blocks, BlockOwner(session), who);
  }

  /** A fresh device lists exactly the welcome post after the local start-up. */
  lemma FreshStartListsWelcome(now: int)
    ensures ListedPosts(SeedResult(map[], now, NoFaults), false) == [WelcomePost(now)]
  {
  }

  class App {
    const mode: Mode
    const kv: LocalController
    /** The component's `posts` state. */
    var posts: seq<Post>
    /** The component's `session` state. */
    var session: Option<Session>

    constructor (mode: Mode, kv: LocalController)
      ensures this.mode == mode && this.kv == kv && posts == [] && session == None
    {
      this.mode := mode;
      this.kv := kv;
      posts := [];
      session := None;
    }

    /**
     * The start-up effect. In local mode: seed, then show the stored posts
     * and restore the stored session. The cloud branch subscribes to the
     * backend and leaves the local state alone.
     */
    method Start(now: int, seedIo: Io, postsReadFails: bool, sessionReadFails: bool)
      modifies this, kv
      ensures mode == Local ==> && kv.cells == SeedResult(old(kv.cells), now, seedIo)
                                && posts == ListedPosts(kv.cells, postsReadFails)
                                && session == ListedSession(kv.cells, sessionReadFails)
      ensures mode == Cloud ==> kv.cells == old(kv.cells) && posts == old(posts) && session == old(session)
    {
      if mode == Local {
        kv.SeedIfNeeded(now, seedIo);
        var v := kv.Load(PostsKey, PostList([]), postsReadFails);
        match v {
          case Null => posts := [];
          case PostList(ps) => posts := ps;
          case _ => posts := [];
        }
        var s := kv.Load(SessionKey, Null, sessionReadFails);
        match s {
          case SessionRecord(u) => session := Some(u);
          case _ => session := None;
        }
      }
    }

    /** Loads the stored posts as `(await load(POSTS, [])) || []`; `None` for a value that is not a list of posts. */
    method LoadPosts(readFails: bool) returns (current: Option<seq<Post>>)
      ensures current == StoredPosts(kv.cells, readFails)
      ensures readFails || PostsKey !in kv.cells || kv.cells[PostsKey] in {EmptyText, Unparseable, Json(Null)} ==> current == Some([])
      ensures !readFails && PostsKey in kv.cells && kv.cells[PostsKey].Json? && kv.cells[PostsKey].value.PostList? ==> current == Some(kv.cells[PostsKey].value.posts)
      ensures !readFails && PostsKey in kv.cells && kv.cells[PostsKey].Json? && !kv.cells[PostsKey].value.Null? && !kv.cells[PostsKey].value.PostList? ==> current == None
    {
      var v := kv.Load(PostsKey, PostList([]), readFails);
      match v {
        case Null => current := Some([]);
        case PostList(ps) => current := Some(ps);
        case _ => current := None;
      }
    }

    /** `savePostLocally(text, imageUri)` */
    method SavePostLocally(text: string, imageUri: Option<string>, id: string, now: int, io: Io)
      modifies this, kv
      ensures var eff := SavePostStep(old(kv.cells), session, text, imageUri, id, now, io);
        kv.cells == eff.cells && posts == ShownOr(eff, old(posts))
      ensures session == old(session)
    {
      var current := LoadPosts(io.readFails);
      if current.None? {
        return;  // spreading a value that is not a list throws; the catch swallows it
      }
      var next := AddPost(current.value, NewLocalPost(id, AuthorName(session), text, imageUri, now));
      kv.Save(PostsKey, PostList(next), io.writeFails);
      posts := next;
    }

    /**
     * `createPost(text, imageUri)`: blank or profane text is rejected before
     * any write; otherwise the cloud insert is tried in cloud mode, and the
     * local save runs in local mode or when the cloud call fails.
     */
    method CreatePost(text: string, imageUri: Option<string>, id: string, now: int, cloud: CloudCall, io: Io)
      returns (outcome: PostOutcome)
      modifies this, kv
      ensures AllSpace(text) ==> outcome == RejectedEmpty
      ensures !AllSpace(text) && ContainsProfanity(text) ==> outcome == RejectedProfane
      ensures outcome in {RejectedEmpty, RejectedProfane, SentToCloud} ==>
        kv.cells == old(kv.cells) && posts == old(posts)
      ensures !AllSpace(text) && !ContainsProfanity(text) ==>
        outcome == if mode == Cloud && cloud == CloudSucceeds then SentToCloud else SavedLocally
      ensures outcome == SavedLocally ==>
        var eff := SavePostStep(old(kv.cells), session, text, imageUri, id, now, io);
        kv.cells == eff.cells && posts == ShownOr(eff, old(posts))
      ensures session == old(session)
    {
      TrimEmptyIffAllSpace(text);
      if Trim(text) == "" {
        return RejectedEmpty;
      }
      if ContainsProfanity(text) {
        return RejectedProfane;
      }
      if mode == Cloud && cloud == CloudSucceeds {
        return SentToCloud;  // the live subscription shows the post later
      }
      SavePostLocally(text, imageUri, id, now, io);
      outcome := SavedLocally;
    }

    /** `saveCommentLocally(postId, text)` */
    method SaveCommentLocally(postId: string, text: string, commentId: string, now: int, io: Io)
      modifies this, kv
      ensures var eff := SaveCommentStep(old(kv.cells), session, postId, text, commentId, now, io);
        kv.cells == eff.cells && posts == ShownOr(eff, old(posts))
      ensures session == old(session)
    {
      var current := LoadPosts(io.readFails);
      if current.None? {
        return;
      }
      var next := CommentOn(current.value, postId, Comment(commentId, AuthorName(session), text, now));
      kv.Save(PostsKey, PostList(next), io.writeFails);
      posts := next;
    }

    /**
     * `addComment(postId, text)`: a blank comment is ignored; otherwise the
     * cloud write is tried in cloud mode and the local write runs in local
     * mode or when the cloud call fails.
     */
    method AddComment(postId: string, text: string, commentId: string, now: int, cloud: CloudCall, io: Io)
      modifies this, kv
      ensures AllSpace(text) || (mode == Cloud && cloud == CloudSucceeds) ==>
        kv.cells == old(kv.cells) && posts == old(posts)
      ensures !AllSpace(text) && (mode == Local || cloud == CloudFails) ==>
        var eff := SaveCommentStep(old(kv.cells), session, postId, text, commentId, now, io);
        kv.cells == eff.cells && posts == ShownOr(eff, old(posts))
      ensures session == old(session)
    {
      TrimEmptyIffAllSpace(text);
      if Trim(text) == "" {
        return;
      }
      if mode == Cloud && cloud == CloudSucceeds {
        return;
      }
      SaveCommentLocally(postId, text, commentId, now, io);
    }

    /** `likeLocally(postId)` */
    method LikeLocally(postId: string, io: Io)
      modifies this, kv
      ensures var eff := LikeStep(old(kv.cells), postId, io);
        kv.cells == eff.cells && posts == ShownOr(eff, old(posts))
      ensures session == old(session)
    {
      var current := LoadPosts(io.readFails);
      if current.None? {
        return;  // `current.map` throws on a value that is not a list
      }
      var next := LikeOn(current.value, postId);
      kv.Save(PostsKey, PostList(next), io.writeFails);
      posts := next;
    }

    /** `likePost(postId)`: the cloud increment in cloud mode, the local like in local mode or when it fails. */
    method LikePost(postId: string, cloud: CloudCall, io: Io)
      modifies this, kv
      ensures mode == Cloud && cloud == CloudSucceeds ==> kv.cells == old(kv.cells) && posts == old(posts)
      ensures mode == Local || cloud == CloudFails ==>
        var eff := LikeStep(old(kv.cells), postId, io);
        kv.cells == eff.cells && posts == ShownOr(eff, old(posts))
      ensures session == old(session)
    {
      if mode == Cloud && cloud == CloudSucceeds {
        return;
      }
      LikeLocally(postId, io);
    }

    /** Loads the report log as `(await load(REPORTS, [])) || []`; `None` for a value that is not a log. */
    method LoadReports(readFails: bool) returns (log: Option<seq<Report>>)
      ensures log == StoredReports(kv.cells, readFails)
      ensures readFails || ReportsKey !in kv.cells || kv.cells[ReportsKey] in {EmptyText, Unparseable, Json(Null)} ==> log == Some([])
      ensures !readFails && ReportsKey in kv.cells && kv.cells[ReportsKey].Json? && kv.cells[ReportsKey].value.ReportLog? ==> log == Some(kv.cells[ReportsKey].value.reports)
      ensures !readFails && ReportsKey in kv.cells && kv.cells[ReportsKey].Json? && !kv.cells[ReportsKey].value.Null? && !kv.cells[ReportsKey].value.ReportLog? ==> log == None
    {
      var v := kv.Load(ReportsKey, ReportLog([]), readFails);
      match v {
        case Null => log := Some([]);
        case ReportLog(rs) => log := Some(rs);
        case _ => log := None;
      }
    }

    /**
     * `reportPost(postId, reason)`: local in both modes; the feed is not
     * touched. The app's only caller passes no reason, so `reason` is then
     * the default `DefaultReason`.
     */
    method ReportPost(postId: string, reason: string, id: string, now: int, io: Io)
      modifies kv
      ensures kv.cells == ReportStep(old(kv.cells), session, postId, reason, id, now, io)
    {
      var log := LoadReports(io.readFails);
      if log.None? {
        return;
      }
      var next := AddReport(log.value, Report(id, postId, reason, AuthorName(session), now));
      kv.Save(ReportsKey, ReportLog(next), io.writeFails);
    }

    /** Loads the block table as `(await load(BLOCKS, {})) || {}`; `None` for a value that is not a table. */
    method LoadBlocks(readFails: bool) returns (blocks: Option<map<string, seq<string>>>)
      ensures blocks == StoredBlocks(kv.cells, readFails)
      ensures readFails || BlocksKey !in kv.cells || kv.cells[BlocksKey] in {EmptyText, Unparseable, Json(Null)} ==> blocks == Some(map[])
      ensures !readFails && BlocksKey in kv.cells && kv.cells[BlocksKey].Json? && kv.cells[BlocksKey].value.BlockTable? ==> blocks == Some(kv.cells[BlocksKey].value.blocks)
      ensures !readFails && BlocksKey in kv.cells && kv.cells[BlocksKey].Json? && !kv.cells[BlocksKey].value.Null? && !kv.cells[BlocksKey].value.BlockTable? ==> blocks == None
    {
      var v := kv.Load(BlocksKey, BlockTable(map[]), readFails);
      match v {
        case Null => blocks := Some(map[]);
        case BlockTable(b) => blocks := Some(b);
        case _ => blocks := None;
      }
    }

    /** `blockAuthor(who)`: local in both modes; adds `who` to the current session's block set. */
    method BlockAuthor(who: string, io: Io)
      modifies kv
      ensures kv.cells == BlockStep(old(kv.cells), session, who, io)
    {
      var blocks := LoadBlocks(io.readFails);
      if blocks.None? {
        return;
      }
      var next := AddBlock(blocks.value, BlockOwner(session), who);
      kv.Save(BlocksKey, BlockTable(next), io.writeFails);
    }

    /**
     * `visiblePosts` against the block table `blocks`: the feed in order,
     * without the posts whose author name or uid the current session
     * blocked, here under `session?.uid || "guest"`.
     */
    function VisiblePosts(blocks: map<string, seq<string>>): (shown: seq<Post>)
      reads this
      ensures IsSubsequence(shown, posts)
      ensures forall p :: p in shown <==> p in posts && Shown(p, BlockedBy(blocks, BlockOwner(session)))
      ensures forall p :: Shown(p, BlockedBy(blocks, BlockOwner(session))) ==> multiset(shown)[p] == multiset(posts)[p]
    {
      Visible(posts, BlockedBy(blocks, BlockOwner(session)))
    }
  }
}
