# Social-content store of the eco-tracking web app

This project models the in-memory store behind the community feed of the
eco-tracking web app (`src/utils/fakeData.ts`). The store holds three seeded,
ordered collections: users, posts and comments. It offers two join-style reads
and two mutations:

- `getCommunityPosts` returns every post, in store order. Each post has its author
  attached, plus its comments, each with its own author.
- `getPostById` returns the same view for one post, or `null` for an unknown id.
- `addNewPost` prepends a post. Its id is the numeral of the new post count, and
  its like and comment counters are zero.
- `addNewComment` appends a comment. Its id is the numeral of the new comment count.
  It bumps the comment counter of the first post with the given id, if any. It
  returns the comment with its author attached.

Modules:

- `Wrappers` (`wrappers.dfy`) defines `Option`. It stands in for a JavaScript
  `undefined` or `null` result.
- `Decimal` (`decimal.dfy`) defines `NatToString`, which is JavaScript's
  `String(n)` on a natural number. Its inverse, `ParseDecimal`, is used to prove
  that distinct counts give distinct ids.
- `FakeData` (`fake_data.dfy`) holds the entities as datatypes and the seed
  collections as constants. It defines `Array.prototype.find` as `FirstIndex` and
  `filter` as `CommentsOf`. The joins are pure functions over the three
  sequences. The `Store` class holds the three sequences as fields. Its methods
  `AddNewPost` and `AddNewComment` update them in place (`modifies this`).
- `Scenarios` (`scenarios.dfy`) holds client methods and seed facts. They show
  what a caller can conclude from the contracts:
  - the feed order after two new posts;
  - a new post at the head of the seeded feed;
  - a comment by user "2" on seeded post "1", after which that post's view
    lists three comments, the new one last with author "greenthumb_sara";
  - a counter that tracks its comments;
  - an orphan comment on "nonexistent-post", which moves no counter and leaves
    that post unknown.

The store keeps no invariant that a post's `commentsCount` equals the number of
stored comments carrying its id. The seeded counters are 12, 8, 15, 23 and 31,
while the seeded comments number 2, 1, 1, 1 and 0 per post. A comment on an
unknown post is also stored without moving any counter. What the code does keep
is each post's *drift*, meaning its counter minus the number of its comments.
`AddNewComment` preserves it whenever post ids are distinct. So the counter is a
figure of its own, not a count of the stored comments, and the model keeps it as
such.

`Store.Valid()` says that post ids and comment ids are pairwise distinct and
that each is the numeral of some number from 1 to the collection size. The seed
satisfies this, and both mutations preserve it. So every id that the
length-based scheme hands out is fresh, as long as only these mutations change
the store.

Both reads are functions with a `reads this` clause. They cannot change users,
posts or comments, and the same store always gives the same result.
`Store.GetCommunityPosts` and `Store.GetPostById` only pass the store's three
fields to `CommunityPosts` and `PostById`, whose contracts are listed below.

The long seeded texts (post bodies, comment bodies, bios, URLs) are written as
concatenations of shorter string literals. The resulting strings are the source's
strings.

## Model

| member | source | states |
|---|---|---|
| `Decimal.NatToString` | src/utils/fakeData.ts:179 | `String(n)` for a natural number: a non-empty digit string with no leading zero (except "0"), one digit exactly when n < 10 |
| `Decimal.ParseNatToString` | src/utils/fakeData.ts:179 | round trip: reading the numeral of n back as a decimal number gives n |
| `Decimal.NatToStringInjective` | src/utils/fakeData.ts:191 | different counts give different numerals, so length-based ids differ when counts differ |
| `FakeData.FirstIndex` | src/utils/fakeData.ts:155 | `find`: the result is the first index whose element satisfies the predicate; `None` exactly when no element does |
| `FakeData.FindUser` | src/utils/fakeData.ts:155 | the author of a post or comment is the first user with that id; absent (not an error) exactly when no user has it |
| `FakeData.FindPostIndex` | src/utils/fakeData.ts:164 | the position of the first post with the id; `None` exactly when no post has it |
| `FakeData.CommentsOf` | src/utils/fakeData.ts:156 | the filter is no longer than the stored comments and keeps only comments on the given post |
| `FakeData.CommentsOfMembers` | src/utils/fakeData.ts:156 | a comment is in the filter exactly when it is stored and carries the post's id |
| `FakeData.CommentsOfNone` | src/utils/fakeData.ts:156 | a post's comment list is empty exactly when no stored comment carries its id |
| `FakeData.CommentsOfAppend` | src/utils/fakeData.ts:156 | the filter keeps store order: appending a comment appends it to its own post's list and to no other |
| `FakeData.JoinPost` | src/utils/fakeData.ts:153-159 | a view keeps the post's fields unchanged, attaches the first-match author, and lists exactly the filtered comments in store order, each with its first-match author |
| `FakeData.CommunityPosts` | src/utils/fakeData.ts:152-161 | exactly one view per stored post, in the same order, each carrying that post unchanged |
| `FakeData.PostById` | src/utils/fakeData.ts:163-175 | `None` exactly when no post has the id; otherwise the view of the first such post, equal to that post's entry in the feed |
| `FakeData.FeedAfterAddPost` | src/utils/fakeData.ts:185 | after a prepend the feed is the new post's view followed by the old feed, unchanged |
| `FakeData.CommentsAfterAddComment` | src/utils/fakeData.ts:197 | after an append the comment ends its own post's comment list, and every other post's list is unchanged |
| `FakeData.CommentShowsInView` | src/utils/fakeData.ts:197-203 | after a comment is stored and its post bumped, looking that post up gives the bumped post, its author, and its old comment list with the new comment (and its author) at the end |
| `FakeData.NextNumeralFresh` | src/utils/fakeData.ts:179 | while ids are numbered, the numeral of count + 1 is not already an id |
| `FakeData.FreshNumeralPrepended` | src/utils/fakeData.ts:179-185 | prepending a post numbered count + 1 keeps post ids numbered |
| `FakeData.FreshNumeralAppended` | src/utils/fakeData.ts:191-197 | appending a comment numbered count + 1 keeps comment ids numbered |
| `FakeData.AppendedCommentNumbered` | src/utils/fakeData.ts:191-197 | a comment whose id is the numeral of count + 1 has an id no stored comment has, and comment ids stay numbered |
| `FakeData.BumpCommentCount` | src/utils/fakeData.ts:199-203 | the first post with the id gets `commentsCount` + 1 and no other change; every other post is unchanged; with no match the posts are unchanged |
| `FakeData.BumpKeepsIds` | src/utils/fakeData.ts:200-203 | the counter bump leaves every post id in place |
| `FakeData.AddCommentKeepsDrift` | src/utils/fakeData.ts:197-203 | with distinct post ids, storing a comment and bumping the counter keep every post's counter minus its comment count |
| `FakeData.DuplicateIdsMoveDrift` | src/utils/fakeData.ts:200-202 | with two posts sharing an id only the first is bumped, so the second post's drift drops by one |
| `FakeData.SeedIds` | src/utils/fakeData.ts:56-150 | the seeded posts and the seeded comments carry ids "1" to "5" in store order |
| `FakeData.Store.Seeded` | src/utils/fakeData.ts:3-150 | the store starts with the seeded users, posts and comments, and its ids are numbered |
| `FakeData.Store.AddNewPost` | src/utils/fakeData.ts:177-187 | the new post is element 0 with id `String(old count + 1)`, the caller's fields, zero likes and comments, and the given time. Old posts follow unchanged, users and comments are unchanged, and numbered ids stay numbered with the new id fresh |
| `FakeData.Store.AddNewComment` | src/utils/fakeData.ts:189-209 | the comment is appended with id `String(old count + 1)` and is returned with its first-match author. Posts change only by the counter bump, users are unchanged, numbered ids stay numbered with the new id fresh, and every post's drift is kept |
| `Scenarios.SeedAuthor` | src/utils/fakeData.ts:14-23 | seeded user "2" is found first for id "2" and is "greenthumb_sara" |
| `Scenarios.UnknownSeedPost` | src/utils/fakeData.ts:56-112 | no seeded post has id "nonexistent-post" |
| `Scenarios.SeedCommentsOnFirstPost` | src/utils/fakeData.ts:114-127 | seeded post "1" has exactly the first two stored comments, in store order |
| `Scenarios.SeedFirstPost` | src/utils/fakeData.ts:56-67 | seeded post "1" is the first post with id "1", it has two comments, and user "2" is the first match for "2" and is "greenthumb_sara" |
| `Scenarios.CommentOnPost` | src/utils/fakeData.ts:189-209 | a comment on the first post with the id makes that post's view one comment longer, ending with the new comment and its first-match author, and raises its counter by one |
| `Scenarios.OrphanComment` | src/utils/fakeData.ts:197-203 | a comment on an id no post has is stored last, no post changes, and the lookup of that id still gives `None` |

## Left out

- Wall-clock time: `new Date().toISOString()` (src/utils/fakeData.ts:183, 195) is taken as the `createdAt` parameter of each mutation.
- `addNewPost` accepts any object (`postData: any`). The model takes the five fields its one caller passes: user id, title, content, type and image URL (src/components/CreatePost.tsx:44-50). Extra keys are not modelled. That includes an `id` key, which would override the generated id because the spread comes after it.
- Object identity: the source stores the very object that `addNewPost` returns, so a caller holding it would see a later counter bump. The views' `user` fields are references to the stored user objects. The model works on values and has no aliasing.
- JavaScript numbers: counters and likes are unbounded naturals. Floating-point precision above 2^53 is not modelled, and neither is the exponent notation that `String(n)` uses from 10^21 on.
- The leaderboard's in-place `fakeUsers.sort` (src/pages/Community.tsx:336) is UI code. It only reorders users, which matters to the first-match author lookup only when user ids repeat.
- Caller-side checks and fallbacks are UI code and are not modelled. These are the non-blank title/content check (src/components/CreatePost.tsx:31) and the `"1"` user-id fallbacks (src/components/CreatePost.tsx:45, src/components/PostCard.tsx:60).
- The screens, hosted auth/database calls, date formatting, like toggle, sharing and activity totals are presentation or foreign I/O. They reach the store only through three of the modelled operations (src/pages/Community.tsx:144, src/components/CreatePost.tsx:44, src/components/PostCard.tsx:60) and the leaderboard sort above.
