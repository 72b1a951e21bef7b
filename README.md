# T-Star Traders feed: local persistence, write paths and moderation

A Dafny model of the persistence core of the T-Star Traders feed app (`app.js`):

- the `LocalController` adapter over the device key-value store, under the four keys of `StorageKeys`;
- the local feed writes (create post, add comment, like);
- the moderation store (capped report log, per-session block set) and the `visiblePosts` filter;
- the validation in front of the writes (blank text, `containsProfanity`);
- the per-operation cloud-first, local-fallback decision of cloud mode.

Layout, one module per file:

- `entities.dfy` (`Entities`): posts, comments, reports, sessions, the JSON values the keys hold, the raw cell under a key, the storage keys, and the `session?.displayName || "Guest"` / `session?.uid || "guest"` defaults.
- `text.dfy` (`Text`): JavaScript's whitespace set (`\s`, `trim`), `trim`, `toLowerCase` on ASCII letters, `split(/\s+/)`, and `containsProfanity`. It proves that a word is flagged exactly when a listed word occurs as a whole word.
- `lists.dfy` (`Lists`): `[x, ...xs].slice(0, cap)`, `Array.from(new Set(xs))`, subsequences, and their lemmas.
- `key_value.dfy` (`KeyValue`): the class `LocalController`. A field `cells: map<string, Cell>` stands for the device store; the methods are `Save`, `Load` and `SeedIfNeeded`. Each is proved against a pure function (`SaveResult`, `LoadResult`, `SeedResult`).
- `feed.dfy` (`Feed`): the pure list transformations inside each write, and the filter.
- `feed_app.dfy` (`FeedApp`): the class `App`. It holds the fixed `mode`, the adapter, and the component's `posts` and `session` state. Each write method performs the source's load, transform, save and `setPosts` sequence. Its `ensures` equate the new store and feed with a pure step function of the old store (`SavePostStep`, `SaveCommentStep`, `LikeStep`, `ReportStep`, `BlockStep`). The lemmas about the write sequences are stated over those step functions.

Environment inputs are parameters:

- `Date.now()` as `now`.
- The time-derived ids as `id` / `commentId`. Nothing is claimed about their uniqueness.
- Each storage call's rejection as `Io(readFails, writeFails)`.
- Each opaque cloud call's outcome as `CloudCall`.
- The report reason as `reason`. The app's only call, `reportPost(item.id)` (app.js:691), passes none, so it is the default `Feed.DefaultReason`, "Reported via app" (app.js:492).

A present key holds one of three things: the empty string (`EmptyText`), text that `JSON.parse` rejects (`Unparseable`), or the serialisation of a value (`Json`). A key may also be absent.

Behaviour of `app.js` the model keeps, which is easy to misread:

- Seeding happens when the load with fallback `null` yields `null`. That includes a failed or unparseable read, which then replaces stored posts by the welcome post (`KeyValue.SeedAfterFailedRead`).
- A stored empty list `[]` is truthy in JavaScript, so it is never reseeded while it can be read.
- The local feed is in insertion order, newest first (`[newp, ...current]`). In local mode nothing sorts by `createdAt`; the cloud query does (app.js:239).
- The loads use fallback `[]`, so a write over unreadable posts keeps only the new entry (`FeedApp.SaveOverUnreadablePosts`).
- A like or a comment whose read rejects, or finds empty or unparseable posts, saves `[]` over the whole stored feed (`FeedApp.LikeOrCommentOverUnreadableWipes`).
- Local posts and local comments carry no `authorUid`. Blocking a uid therefore hides cloud posts only; local posts are hidden by author name.

## Model

| member | source | states |
|---|---|---|
| Entities.AuthorName | app.js:410 | the name stamped on a local post, comment or report is the session's display name when it is non-empty, otherwise "Guest"; never empty |
| Entities.BlockOwner | app.js:507 | the block list used is keyed by the session uid when it is non-empty, otherwise by "guest"; never empty |
| Text.SpaceRun | app.js:369 | the leading whitespace run: every character before the returned index is whitespace and the one at it is not |
| Text.FirstSpace | app.js:193 | the first piece ends at the first whitespace character: none before it, one at it unless it is the end |
| Text.TrimEmptyIffAllSpace | app.js:369-372 | `text.trim() === ""` holds exactly when every character is JavaScript whitespace, the empty string included |
| Text.PieceIsWholeWord | app.js:193 | every piece of `split(/\s+/)` is a span of the input bounded by whitespace or the string's ends |
| Text.WholeWordIsPiece | app.js:193 | every non-empty whitespace-free span bounded by whitespace or the ends is one of the pieces of `split(/\s+/)` |
| Text.ProfanityIsWholeWord | app.js:192-193 | `containsProfanity(text)` holds iff a listed word occurs in the lower-cased text as a whole, whitespace-delimited word |
| Text.ListedWordsHaveNoSpace | app.js:192 | the listed words are non-empty and contain no whitespace |
| Text.UpperCaseProfanityCaught | app.js:193 | matching is case-insensitive: "buy BADWORD now" is flagged |
| Lists.PrependCapped | app.js:418 | `[x, ...xs].slice(0, cap)` puts `x` first, has length min(|xs|+1, cap), and keeps only the first cap-1 old entries |
| Lists.ReverseAt | app.js:497 | position k of the reversal holds the k-th element from the end |
| Lists.PrependEachKeepsNewest | app.js:495-497 | a run of bounded prepends holds the newest entries first, then as much of the old log as fits, at most cap entries |
| Lists.DedupSpec | app.js:509 | `Array.from(new Set(xs))` has no duplicates and exactly the elements of `xs` |
| Lists.DedupOfDistinct | app.js:509 | a list without duplicates is unchanged by `Array.from(new Set(...))` |
| Lists.DedupSnoc | app.js:509 | appending an element to the input extends the deduplicated list by that element exactly when the input did not already hold it |
| Lists.DedupAddTwice | app.js:509 | adding the same element twice gives the same list as adding it once |
| KeyValue.SaveThenLoad | app.js:142-158 | a load after a successful save of the same key returns the saved value; a save leaves every other key's load unchanged |
| KeyValue.SeedKeepsStoredPosts | app.js:161-163 | readable stored posts, an empty list included, are left untouched by `seedIfNeeded` |
| KeyValue.SeedWritesWelcome | app.js:161-177 | when the posts key is absent, empty, unparseable or null, it then holds exactly one post, `p_start` by `System` with no likes and no comments, and no other key changes |
| KeyValue.SeedAfterFailedRead | app.js:150-163 | a rejected read falls back to null, so the welcome post replaces whatever was stored |
| KeyValue.LocalController.Save | app.js:142-148 | the key then holds the value; a rejected write is swallowed and leaves the store unchanged |
| KeyValue.LocalController.Load | app.js:150-159 | returns the fallback when the read rejects, the key is absent, its text is empty or unparseable; otherwise the stored value; never fails |
| KeyValue.LocalController.SeedIfNeeded | app.js:161-178 | the store afterwards is `SeedResult` of the store before: the welcome post is saved exactly when the posts load yields null |
| Feed.AddPost | app.js:408-418 | the new post comes first, the list has at most 500 posts, and it continues with the first min(n, 499) old posts, so the oldest are dropped |
| Feed.CommentOn | app.js:455-457 | same length and order; each post with the id has exactly the new comment appended to its (possibly missing) comments and is otherwise unchanged; every other post is unchanged |
| Feed.CommentOnMissingId | app.js:455-457 | a comment for an id no post has leaves the list unchanged |
| Feed.LikeOn | app.js:484 | same length and order; each post with the id has likes (missing read as 0) raised by exactly one and is otherwise unchanged; every other post is unchanged |
| Feed.LikeRepeatCounts | app.js:484 | n sequential likes raise each matching post's likes by exactly n and change nothing else |
| Feed.Visible | app.js:609-612 | the filter is a subsequence of the feed in order, contains exactly the posts whose author and author uid are both off the block list, and keeps every shown post as often as it occurs |
| Feed.AddReport | app.js:495-497 | the new report comes first, at most 1000 are kept, the rest are the newest old ones |
| Feed.ThousandAndOneReports | app.js:495-497 | 1001 sequential reports leave exactly the 1000 newest, newest first; the first one filed is dropped |
| Feed.AddBlock | app.js:506-509 | the session's list then holds exactly the identifier and its old entries, each once; other sessions' lists are unchanged |
| Feed.BlockTwiceIsBlockOnce | app.js:506-509 | blocking the same identifier twice gives the same table as blocking it once |
| Feed.BlockedAuthorHidden | app.js:504-512 | after blocking `who`, the session's filter shows no post whose author or author uid is `who` |
| FeedApp.SavedPostListedFirst | app.js:405-424 | after a local save with working storage, the next listing is exactly `AddPost` of the previous posts: it starts with that post (given text, 0 likes, no comments, session author), has length min(n+1, 500), and continues with the newest min(n, 499) previous posts |
| FeedApp.SaveOverUnreadablePosts | app.js:150-159 | a post saved over unparseable stored posts is then the only post |
| FeedApp.LikeOrCommentOverUnreadableWipes | app.js:452-487 | a like or comment whose read rejects, or finds empty or unparseable posts, stores the empty list in place of the whole feed |
| FeedApp.CommentForMissingPost | app.js:452-463 | a local comment for an id no stored post has leaves the store exactly as it was |
| FeedApp.LikeStepsStore | app.js:482-487 | n sequential local likes store the post list liked n times |
| FeedApp.NLikesGiveN | app.js:482-487 | n sequential local likes on a post with no likes leave it with exactly n |
| FeedApp.ReportStoredFirst | app.js:492-502 | with working storage, the stored log is then exactly `AddReport` of the previous log: the new report (session reporter) first, length min(n+1, 1000), then the newest min(n, 999) previous reports |
| FeedApp.ReportStepsStore | app.js:492-502 | reports filed one after another with working storage leave the stored log equal to the bounded prepends of all of them onto the previous log |
| FeedApp.ThousandAndOneStoredReports | app.js:495-497 | 1001 reports filed on a device with no report log leave exactly the 1000 newest stored, newest first |
| FeedApp.BlockTwiceSameStore | app.js:504-515 | blocking twice leaves the same store as blocking once; the session's list holds the identifier; other sessions' lists are unchanged |
| FeedApp.FreshStartListsWelcome | app.js:270-276 | on a fresh device the local start-up lists exactly the welcome post |
| FeedApp.App.Start | app.js:221-281 | in local mode, the store is seeded and the feed and session are what the store then holds (`|| []`, `|| null`); in cloud mode nothing local changes |
| FeedApp.App.LoadPosts | app.js:407 | the loaded posts are the stored list, `[]` for a missing, empty, unreadable or null value, none for a value of another shape |
| FeedApp.App.SavePostLocally | app.js:405-424 | the store and feed afterwards are those of `SavePostStep`; the feed is set even when the write was rejected |
| FeedApp.App.CreatePost | app.js:368-403 | blank text is rejected, then profane text, with no write at all; a successful cloud insert changes nothing local; in local mode or after a failed cloud call the effect is exactly the local save |
| FeedApp.App.SaveCommentLocally | app.js:452-463 | the store and feed afterwards are those of `SaveCommentStep` |
| FeedApp.App.AddComment | app.js:429-450 | a blank comment changes nothing; a successful cloud write changes nothing local; in local mode or after a failed cloud call the effect is exactly the local comment |
| FeedApp.App.LikeLocally | app.js:482-487 | the store and feed afterwards are those of `LikeStep` |
| FeedApp.App.LikePost | app.js:468-480 | a successful cloud increment changes nothing local; in local mode or after a failed cloud call the effect is exactly the local like |
| FeedApp.App.LoadReports | app.js:494 | the loaded log is the stored one, `[]` for a missing, empty, unreadable or null value, none for another shape |
| FeedApp.App.ReportPost | app.js:492-502 | the store afterwards is `ReportStep` of the store before |
| FeedApp.App.LoadBlocks | app.js:506 | the loaded table is the stored one, `{}` for a missing, empty, unreadable or null value, none for another shape |
| FeedApp.App.BlockAuthor | app.js:504-515 | the store afterwards is `BlockStep` of the store before |
| FeedApp.App.VisiblePosts | app.js:599-612 | the feed in order without exactly the posts whose author name or uid the current session (`uid` or "guest") blocked; every post that is shown keeps the number of copies it has in the feed |

## Left out

- Rendering, hooks, modals, styles, `Alert` notices and the composer reset: presentation. `setPosts` is modelled as the `posts` field taking the saved list.
- Firebase initialisation, auth, Firestore and Storage calls, and the image upload: foreign library calls. Each cloud write is one `CloudCall` that succeeds or fails. The cloud-side documents, counters and the comment counter are not modelled.
- The `onSnapshot` subscription and its unsubscribe: asynchronous and event-driven. In cloud mode a successful write changes nothing local, and the snapshot delivery that later shows the post is not modelled.
- The cloud branch of start-up also loads the block and report lists and discards them. It has no effect and is modelled as changing nothing.
- JSON encoding: values are stored as they are, and unparseable text is its own cell state.
- Values of another key's shape (a report log under the posts key, say) are never written by the app. A load that yields one makes the operation stop before its write. JavaScript would instead act on the value as its shape allows.
- `Text.Lower`: maps only ASCII `A`-`Z`. It does not model JavaScript's full Unicode `toLowerCase`.
- Local sign-in and sign-out (`localSignIn`, `localSignOut`) and the cloud sign-up and sign-in: session writes tied to the UI and to the auth provider. The session is a field that start-up restores.
- `LocalController.clearAll`: no caller in the app.
- Feed.LikeOn: `likes` is a JavaScript number, an IEEE double, while `int` here is unbounded. From 2^53 on, `(p.likes || 0) + 1` (app.js:484) no longer always adds one, so the exact counts of `Feed.LikeRepeatCounts` and `FeedApp.NLikesGiveN` hold in the app only while likes stay at or below 2^53.
- `console.warn` on every swallowed failure (app.js:146, 156, 394, 422, 444, 461, 474, 500, 513): logging only, with no stored state.
- The filter's block table comes from a `useRef`/`useEffect` pair declared after the early `if (loading) return` (app.js:590-607). This breaks React's rule that hooks run in the same order on every render. Read as intended, the table is loaded once on mount and misses later blocks. `FeedApp.App.VisiblePosts` takes the table as a parameter instead.
- Interleaving: each write is modelled as one atomic load-transform-save. Two writes started together, which the source does not serialise between their `await`s, are not modelled.
- `createPost` with an undefined `text`: strings here are always defined, so `!text` is covered by the blank check on the empty string.
