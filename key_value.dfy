/**
 * `LocalController`: the fault-tolerant adapter over the device's key-value
 * store. A read never fails (a caller-supplied fallback stands in for a
 * missing, empty or unreadable value) and a write never reports failure.
 */
module KeyValue {
  import opened Entities

  /** Which of an operation's storage calls reject (`getItem` for reads, `setItem` for writes). */
  datatype Io = Io(readFails: bool, writeFails: bool)

  const NoFaults := Io(false, false)

  /** The value `load(key, fallback)` resolves to over the store `cells`. */
  function LoadResult(cells: map<string, Cell>, key: string, fallback: Value, readFails: bool): Value
  {
    if readFails || key !in cells then fallback
    else match cells[key]
      case EmptyText => fallback
      case Unparseable => fallback
      case Json(v) => v
  }

  /** The store after `save(key, value)`; a rejected write is swallowed and leaves it as it was. */
  function SaveResult(cells: map<string, Cell>, key: string, value: Value, writeFails: bool): map<string, Cell>
  {
    if writeFails then cells else cells[key := Json(value)]
  }

  /** Reading back what was just written yields it; a write touches no other key. */
  lemma SaveThenLoad(cells: map<string, Cell>, key: string, other: string, value: Value, fallback: Value)
    ensures LoadResult(SaveResult(cells, key, value, false), key, fallback, false) == value
    ensures other != key ==>
      LoadResult(SaveResult(cells, key, value, false), other, fallback, false) == LoadResult(cells, other, fallback, false)
  {
  }

  const WelcomeText := "Welcome to T-Star Traders \U{2014} local demo. Add Firebase config to enable cloud mode."

  /** The single post `seedIfNeeded` writes into an empty feed. */
  function WelcomePost(now: int): Post
  {
    Post("p_start", "System", None, WelcomeText, None, Some(0), Some([]), now, false)
  }

  /**
   * The store after `seedIfNeeded`: the welcome post is written when loading
   * the posts key with fallback `null` yields `null` (JavaScript's `!posts`;
   * a stored empty list is truthy and is kept).
   */
  function SeedResult(cells: map<string, Cell>, now: int, io: Io): map<string, Cell>
  {
    if LoadResult(cells, PostsKey, Null, io.readFails) == Null
    then SaveResult(cells, PostsKey, PostList([WelcomePost(now)]), io.writeFails)
    else cells
  }

  /** Posts already stored (even an empty list) are left untouched when they can be read. */
  lemma SeedKeepsStoredPosts(cells: map<string, Cell>, now: int, io: Io, ps: seq<Post>)
    requires !io.readFails && PostsKey in cells && cells[PostsKey] == Json(PostList(ps))
    ensures SeedResult(cells, now, io) == cells
  {
  }

  /**
   * When the posts key holds nothing readable, exactly one post is stored,
   * `p_start` by `System`, with no likes and no comments; nothing else changes.
   */
  lemma SeedWritesWelcome(cells: map<string, Cell>, now: int)
    requires PostsKey !in cells || cells[PostsKey] in {EmptyText, Unparseable, Json(Null)}
    ensures var seeded := SeedResult(cells, now, NoFaults);
      && seeded.Keys == cells.Keys + {PostsKey}
      && (forall k :: k in cells && k != PostsKey ==> seeded[k] == cells[k])
      && seeded[PostsKey].Json? && seeded[PostsKey].value.PostList?
      && |seeded[PostsKey].value.posts| == 1
      && var p := seeded[PostsKey].value.posts[0];
         p.id == "p_start" && p.author == "System" && p.likes == Some(0) && p.comments == Some([])
  {
  }

  /**
   * The fallback is also taken when the read itself rejects, so a failed
   * read replaces stored posts by the welcome post.
   */
  lemma SeedAfterFailedRead(cells: map<string, Cell>, now: int)
    ensures SeedResult(cells, now, Io(true, false)) == cells[PostsKey := Json(PostList([WelcomePost(now)]))]
  {
  }

  class LocalController {
    /** The device store: text under each present key. */
    var cells: map<string, Cell>

    constructor (initial: map<string, Cell>)
      ensures cells == initial
    {
      cells := initial;
    }

    /** `save(key, value)`: persists `value`; a rejected write is logged and swallowed. */
    method Save(key: string, value: Value, writeFails: bool)
      modifies this
      ensures cells == SaveResult(old(cells), key, value, writeFails)
      ensures !writeFails ==> cells == old(cells)[key := Json(value)]
      ensures writeFails ==> cells == old(cells)
    {
      if !writeFails {
        cells := cells[key := Json(value)];
      }
    }

    /** `load(key, fallback)`: the stored value, or `fallback` when it is missing, empty or unreadable. */
    method Load(key: string, fallback: Value, readFails: bool) returns (v: Value)
      ensures v == LoadResult(cells, key, fallback, readFails)
      ensures readFails || key !in cells || cells[key] in {EmptyText, Unparseable} ==> v == fallback
      ensures !readFails && key in cells && cells[key].Json? ==> v == cells[key].value
    {
      if readFails {
        return fallback;  // getItem rejected
      }
      if key !in cells {
        return fallback;  // getItem resolved to null
      }
      match cells[key] {
        case EmptyText => v := fallback;
        case Unparseable => v := fallback;  // JSON.parse threw
        case Json(x) => v := x;
      }
    }

    /** `seedIfNeeded()`: stores the welcome post when there are no posts. */
    method SeedIfNeeded(now: int, io: Io)
      modifies this
      ensures cells == SeedResult(old(cells), now, io)
    {
      var posts := Load(PostsKey, Null, io.readFails);
      if posts == Null {
        Save(PostsKey, PostList([WelcomePost(now)]), io.writeFails);
      }
    }
  }
}
