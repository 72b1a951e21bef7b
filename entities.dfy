/**
 * The records the feed keeps in local storage, the four storage keys and the
 * two session-derived defaults every local write uses.
 */
module Entities {

  datatype Option<T> = None | Some(value: T)

  /** Storage keys (`StorageKeys`). */
  const PostsKey := "@tstar_posts_v2"
  const SessionKey := "@tstar_session_v2"
  const BlocksKey := "@tstar_blocks_v2"
  const ReportsKey := "@tstar_reports_v2"

  /** A comment as `saveCommentLocally` builds it. */
  datatype Comment = Comment(id: string, author: string, text: string, createdAt: int)

  /**
   * A post. Fields that stored data may lack are optional: `likes` and
   * `comments` are read as `p.likes || 0` and `p.comments || []`, and posts
   * written in local mode carry no `authorUid` at all.
   */
  datatype Post = Post(
    id: string,
    author: string,
    authorUid: Option<string>,
    text: string,
    imageUrl: Option<string>,
    likes: Option<int>,
    comments: Option<seq<Comment>>,
    createdAt: int,
    isPremium: bool)

  datatype Report = Report(id: string, postId: string, reason: string, reporter: string, createdAt: int)

  /** The signed-in user: only the two fields the core reads. */
  datatype Session = Session(uid: string, displayName: string)

  /** A JSON value as one of the four keys holds it after parsing. */
  datatype Value =
    | Null
    | PostList(posts: seq<Post>)
    | ReportLog(reports: seq<Report>)
    | BlockTable(blocks: map<string, seq<string>>)
    | SessionRecord(session: Session)

  /**
   * The raw text stored under a present key: the empty string, text that
   * `JSON.parse` rejects, or the serialisation of a value.
   */
  datatype Cell = EmptyText | Unparseable | Json(value: Value)

  /** `session?.displayName || "Guest"`: the name stamped on posts, comments and reports. */
  function AuthorName(session: Option<Session>): (name: string)
    ensures name != ""
    ensures session.Some? && session.value.displayName != "" ==> name == session.value.displayName
    ensures (session.None? || session.value.displayName == "") ==> name == "Guest"
  {
    if session.Some? && session.value.displayName != "" then session.value.displayName else "Guest"
  }

  /** `session?.uid || "guest"`: the key of the current session's block list. */
  function BlockOwner(session: Option<Session>): (me: string)
    ensures me != ""
    ensures session.Some? && session.value.uid != "" ==> me == session.value.uid
    ensures (session.None? || session.value.uid == "") ==> me == "guest"
  {
    if session.Some? && session.value.uid != "" then session.value.uid else "guest"
  }
}
