/**
 * The in-memory social-content store of the eco-tracking web app: three seeded,
 * ordered collections (users, posts, comments), two join-style reads that attach
 * authors and comments to posts, and two mutations that add a post or a comment.
 */
module FakeData {
  import opened Wrappers
  import opened Decimal

  // ---------------------------------------------------------------------------
  // Entities
  // ---------------------------------------------------------------------------

  datatype User = User(
    id: string,
    username: string,
    email: string,
    avatarUrl: string,
    bio: string,
    ecoScore: int,
    location: string,
    createdAt: string)

  /** `commentsCount` is a cached counter: nothing ties it to the stored comments. */
  datatype Post = Post(
    id: string,
    userId: string,
    title: string,
    content: string,
    imageUrl: Option<string>,
    postType: string,
    likes: nat,
    commentsCount: nat,
    createdAt: string)

  datatype Comment = Comment(
    id: string,
    postId: string,
    userId: string,
    content: string,
    createdAt: string)

  /** A comment with its author attached (`user` is absent when no user has its `userId`). */
  datatype CommentView = CommentView(comment: Comment, user: Option<User>)

  /** A post with its author and its comments attached. */
  datatype PostView = PostView(post: Post, user: Option<User>, comments: seq<CommentView>)

  /** The fields a caller supplies for a new post. */
  datatype PostInput = PostInput(
    userId: string,
    title: string,
    content: string,
    postType: string,
    imageUrl: Option<string>)

  // ---------------------------------------------------------------------------
  // Seed data
  // ---------------------------------------------------------------------------

  const SeedUsers: seq<User> := [
    User("1", "ecowarrior123", "eco@example.com",
         "https://images.unsplash.com/photo-1494790108755-2616b612b070?"
         + "w=100&h=100&fit=crop&crop=face",
         "Passionate about sustainable living "
         + "and renewable energy!",
         892, "San Francisco, CA", "2024-01-15T10:00:00Z"),
    User("2", "greenthumb_sara", "sara@example.com",
         "https://images.unsplash.com/photo-1534528741775-53994a69daeb?"
         + "w=100&h=100&fit=crop&crop=face",
         "Urban gardener and zero-waste "
         + "advocate \U{1F331}",
         745, "Portland, OR", "2024-02-20T14:30:00Z"),
    User("3", "mike_sustainable", "mike@example.com",
         "https://images.unsplash.com/photo-1507003211169-0a1dd7228f2d?"
         + "w=100&h=100&fit=crop&crop=face",
         "Electric vehicle enthusiast and "
         + "climate activist",
         623, "Austin, TX", "2024-03-10T09:15:00Z"),
    User("4", "nature_lover_emma", "emma@example.com",
         "https://images.unsplash.com/photo-1438761681033-6461ffad8d80?"
         + "w=100&h=100&fit=crop&crop=face",
         "Hiking, recycling, and spreading "
         + "eco-awareness everywhere I go!",
         567, "Denver, CO", "2024-01-28T16:45:00Z"),
    User("5", "solar_power_sam", "sam@example.com",
         "https://images.unsplash.com/photo-1472099645785-5658abf4ff4e?"
         + "w=100&h=100&fit=crop&crop=face",
         "Solar energy installer helping "
         + "homes go green \U{2600}\U{FE0F}",
         934, "Phoenix, AZ", "2024-02-14T11:20:00Z")
  ]

  // The seeded counters (12, 8, 15, 23, 31) do not match the seeded comments (2, 1, 1, 1, 0).
  const SeedPosts: seq<Post> := [
    Post("1", "1", "My First Month of Zero Waste Living",
         "I've been trying to live zero "
         + "waste for a month now, and the "
         + "results have been amazing! I've "
         + "reduced my trash output by 80% "
         + "and discovered so many creative "
         + "ways to reuse items. The biggest "
         + "challenge was food packaging, "
         + "but I found some great local bulk "
         + "stores. Here are my top 5 tips "
         + "for getting started...",
         Some("https://images.unsplash.com/photo-1532996122724-e3c354a0b15b?"
              + "w=600&h=400&fit=crop"),
         "article", 45, 12, "2024-07-17T10:30:00Z"),
    Post("2", "2", "Urban Garden Update",
         "Look at my rooftop garden progress! "
         + "\U{1F331} These tomatoes and herbs "
         + "are thriving despite the city "
         + "environment. Growing your own "
         + "food reduces carbon footprint "
         + "and tastes so much better. Anyone "
         + "else trying urban gardening?",
         Some("https://images.unsplash.com/photo-1416879595882-3373a0480b5b?"
              + "w=600&h=400&fit=crop"),
         "photo", 78, 8, "2024-07-16T15:20:00Z"),
    Post("3", "3", "Electric Vehicle Road Trip Success!",
         "Just completed a 500-mile road "
         + "trip in my Tesla Model 3! The "
         + "charging infrastructure has improved "
         + "so much. We saved approximately "
         + "150kg of CO2 compared to a gas "
         + "car, and the total 'fuel' cost "
         + "was only $25. The future of transportation "
         + "is electric! \U{26A1}",
         Some("https://images.unsplash.com/photo-1593941707882-a5bac6861d75?"
              + "w=600&h=400&fit=crop"),
         "photo", 92, 15, "2024-07-15T08:45:00Z"),
    Post("4", "4", "Beach Cleanup Results",
         "Our community beach cleanup this "
         + "weekend was incredible! 25 volunteers "
         + "collected over 200 pounds of trash "
         + "and recyclables. Found everything "
         + "from plastic bottles to old fishing "
         + "nets. It's heartbreaking to see "
         + "the impact on marine life, but "
         + "together we can make a difference. "
         + "Next cleanup is scheduled for "
         + "August 15th!",
         Some("https://images.unsplash.com/photo-1618477388954-7852f32655ec?"
              + "w=600&h=400&fit=crop"),
         "article", 134, 23, "2024-07-14T12:10:00Z"),
    Post("5", "5", "Solar Panel Installation Complete!",
         "Finally got my home solar system "
         + "installed! 20 panels generating "
         + "8kW should cover 95% of our electricity "
         + "needs. The installation process "
         + "took 2 days and we're already "
         + "seeing the energy production. "
         + "Estimated CO2 reduction: 4 tons "
         + "per year. Best investment ever! "
         + "\U{2600}\U{FE0F}",
         Some("https://images.unsplash.com/photo-1569163139394-de44cb5d2c6c?"
              + "w=600&h=400&fit=crop"),
         "photo", 156, 31, "2024-07-13T14:55:00Z")
  ]

  const SeedComments: seq<Comment> := [
    Comment("1", "1", "2",
            "This is so inspiring! I've been "
            + "wanting to start zero waste. Do "
            + "you have any specific bulk store "
            + "recommendations?",
            "2024-07-17T11:15:00Z"),
    Comment("2", "1", "3",
            "Great tips! The food packaging "
            + "challenge is real. I started bringing "
            + "my own containers to delis and "
            + "it works great.",
            "2024-07-17T12:30:00Z"),
    Comment("3", "2", "1",
            "Your garden looks amazing! I'm "
            + "trying container gardening on "
            + "my balcony. Any advice for small "
            + "spaces?",
            "2024-07-16T16:45:00Z"),
    Comment("4", "3", "4",
            "That's awesome! How was the charging "
            + "experience on the road trip? Any "
            + "range anxiety?",
            "2024-07-15T09:20:00Z"),
    Comment("5", "4", "5",
            "Thank you for organizing this! "
            + "I was there and it felt great "
            + "to make a tangible difference. "
            + "Count me in for August!",
            "2024-07-14T13:25:00Z")
  ]

  // ---------------------------------------------------------------------------
  // Lookups: `Array.prototype.find` and `Array.prototype.filter`
  // ---------------------------------------------------------------------------

  /** The index of the first element of `s` that satisfies `p`, scanning from the front. */
  function FirstIndex<T>(s: seq<T>, p: T -> bool): (r: Option<nat>)
    ensures r.Some? ==> r.value < |s| && p(s[r.value]) && forall j :: 0 <= j < r.value ==> !p(s[j])
    ensures r.None? <==> forall j :: 0 <= j < |s| ==> !p(s[j])
    decreases |s|
  {
    if s == [] then None
    else if p(s[0]) then Some(0)
    else match FirstIndex(s[1..], p)
      case None => None
      case Some(i) => Some(i + 1)
  }

  /** The author lookup of both joins: the first user whose id is `id`, if any. */
  function FindUser(users: seq<User>, id: string): (r: Option<User>)
    ensures r.None? <==> forall i :: 0 <= i < |users| ==> users[i].id != id
    ensures r.Some? ==> exists i :: 0 <= i < |users| && users[i] == r.value && users[i].id == id &&
                                    forall j :: 0 <= j < i ==> users[j].id != id
  {
    match FirstIndex(users, (u: User) => u.id == id)
    case None => None
    case Some(i) => Some(users[i])
  }

  /** Index `i` holds the first post whose id is `id`. */
  predicate FirstWithId(posts: seq<Post>, i: int, id: string) {
    0 <= i < |posts| && posts[i].id == id && forall j :: 0 <= j < i ==> posts[j].id != id
  }

  /** The position of the first post whose id is `id`, if any. */
  function FindPostIndex(posts: seq<Post>, id: string): (r: Option<nat>)
    ensures r.Some? ==> FirstWithId(posts, r.value, id)
    ensures r.None? <==> forall i :: 0 <= i < |posts| ==> posts[i].id != id
  {
    FirstIndex(posts, (q: Post) => q.id == id)
  }

  /** The stored comments on post `postId`, in store order. */
  function CommentsOf(comments: seq<Comment>, postId: string): (r: seq<Comment>)
    ensures |r| <= |comments|
    ensures forall k :: 0 <= k < |r| ==> r[k].postId == postId
    decreases |comments|
  {
    if comments == [] then []
    else (if comments[0].postId == postId then [comments[0]] else []) + CommentsOf(comments[1..], postId)
  }

  /** The filter keeps exactly the comments on `postId`. */
  lemma {:induction false} CommentsOfMembers(comments: seq<Comment>, postId: string)
    ensures forall c :: c in CommentsOf(comments, postId) <==> c in comments && c.postId == postId
    decreases |comments|
  {
    if comments != [] {
      CommentsOfMembers(comments[1..], postId);
      assert comments == [comments[0]] + comments[1..];
    }
  }

  /** A post has no comments exactly when no stored comment carries its id. */
  lemma {:induction false} CommentsOfNone(comments: seq<Comment>, postId: string)
    ensures CommentsOf(comments, postId) == [] <==> forall i :: 0 <= i < |comments| ==> comments[i].postId != postId
    decreases |comments|
  {
    if comments != [] {
      CommentsOfNone(comments[1..], postId);
      assert forall i :: 1 <= i < |comments| ==> comments[i] == comments[1..][i - 1];
    }
  }

  /** Filtering distributes over an appended comment: the filter keeps store order. */
  lemma {:induction false} CommentsOfAppend(comments: seq<Comment>, c: Comment, postId: string)
    ensures CommentsOf(comments + [c], postId) ==
            CommentsOf(comments, postId) + (if c.postId == postId then [c] else [])
    decreases |comments|
  {
    var last := if c.postId == postId then [c] else [];
    if comments == [] {
      assert comments + [c] == [c];
    } else {
      var head := if comments[0].postId == postId then [comments[0]] else [];
      var rest := CommentsOf(comments[1..], postId);
      assert CommentsOf(comments + [c], postId) == head + CommentsOf(comments[1..] + [c], postId) by {
        assert (comments + [c])[0] == comments[0];
        assert (comments + [c])[1..] == comments[1..] + [c];
      }
      CommentsOfAppend(comments[1..], c, postId);
      assert head + (rest + last) == (head + rest) + last;
    }
  }

  // ---------------------------------------------------------------------------
  // Joins
  // ---------------------------------------------------------------------------

  function JoinComment(users: seq<User>, c: Comment): CommentView {
    CommentView(c, FindUser(users, c.userId))
  }

  function JoinComments(users: seq<User>, cs: seq<Comment>): seq<CommentView> {
    seq(|cs|, k requires 0 <= k < |cs| => JoinComment(users, cs[k]))
  }

  /** A post with its author and its comments, each comment with its own author. */
  function JoinPost(users: seq<User>, comments: seq<Comment>, p: Post): (v: PostView)
    ensures v.post == p
    ensures v.user == FindUser(users, p.userId)
    ensures |v.comments| == |CommentsOf(comments, p.id)|
    ensures forall k :: 0 <= k < |v.comments| ==>
              v.comments[k].comment == CommentsOf(comments, p.id)[k] &&
              v.comments[k].comment.postId == p.id &&
              v.comments[k].user == FindUser(users, v.comments[k].comment.userId)
  {
    PostView(p, FindUser(users, p.userId), JoinComments(users, CommentsOf(comments, p.id)))
  }

  /** The whole feed: one view per stored post, in store order. */
  function CommunityPosts(users: seq<User>, posts: seq<Post>, comments: seq<Comment>): (r: seq<PostView>)
    ensures |r| == |posts|
    ensures forall i :: 0 <= i < |r| ==> r[i].post == posts[i] && r[i] == JoinPost(users, comments, posts[i])
  {
    seq(|posts|, i requires 0 <= i < |posts| => JoinPost(users, comments, posts[i]))
  }

  /** The view of the first post whose id is `id`, or `None` when no post has it. */
  function PostById(users: seq<User>, posts: seq<Post>, comments: seq<Comment>, id: string): (r: Option<PostView>)
    ensures r.None? <==> forall i :: 0 <= i < |posts| ==> posts[i].id != id
    ensures r.Some? ==> exists i :: FirstWithId(posts, i, id) && r.value == CommunityPosts(users, posts, comments)[i]
  {
    match FindPostIndex(posts, id)
    case None => None
    case Some(i) => Some(JoinPost(users, comments, posts[i]))
  }

  /** A prepended post shows up first in the feed, ahead of the unchanged older views. */
  lemma FeedAfterAddPost(users: seq<User>, posts: seq<Post>, comments: seq<Comment>, p: Post)
    ensures CommunityPosts(users, [p] + posts, comments) ==
            [JoinPost(users, comments, p)] + CommunityPosts(users, posts, comments)
  {
  }

  /** An appended comment ends the comment list of its post and of no other post. */
  lemma CommentsAfterAddComment(users: seq<User>, comments: seq<Comment>, c: Comment, p: Post)
    ensures JoinPost(users, comments + [c], p).comments ==
            JoinPost(users, comments, p).comments + (if c.postId == p.id then [JoinComment(users, c)] else [])
  {
    CommentsOfAppend(comments, c, p.id);
  }

  // ---------------------------------------------------------------------------
  // Identifiers and counters
  // ---------------------------------------------------------------------------

  /** The identifiers of a collection, in store order. */
  function Ids<T>(s: seq<T>, id: T -> string): (ids: seq<string>)
    ensures |ids| == |s| && forall i :: 0 <= i < |s| ==> ids[i] == id(s[i])
  {
    seq(|s|, i requires 0 <= i < |s| => id(s[i]))
  }

  /** Appending an element appends its identifier. */
  lemma IdsAppended<T>(s: seq<T>, x: T, id: T -> string)
    ensures Ids(s + [x], id) == Ids(s, id) + [id(x)]
  {
  }

  function PostId(p: Post): string { p.id }

  function CommentId(c: Comment): string { c.id }

  predicate DistinctIds(ids: seq<string>) {
    forall i, j :: 0 <= i < j < |ids| ==> ids[i] != ids[j]
  }

  /**
   * The identifiers are pairwise distinct and each is the numeral of some
   * number between 1 and their count: the shape that length-based numbering keeps.
   */
  predicate NumberedIds(ids: seq<string>) {
    DistinctIds(ids) && forall i :: 0 <= i < |ids| ==> IsNumeralUpTo(ids[i], |ids|)
  }

  /** `s` is the numeral of some number between 1 and `n`. */
  predicate IsNumeralUpTo(s: string, n: nat) {
    exists k :: 1 <= k <= n && s == NatToString(k)
  }

  lemma DistinctPrepended(x: string, ids: seq<string>)
    requires DistinctIds(ids) && x !in ids
    ensures DistinctIds([x] + ids)
  {
  }

  lemma DistinctAppended(ids: seq<string>, x: string)
    requires DistinctIds(ids) && x !in ids
    ensures DistinctIds(ids + [x])
  {
  }

  /** The next length-based identifier is fresh. */
  lemma NextNumeralFresh(ids: seq<string>)
    requires NumberedIds(ids)
    ensures NatToString(|ids| + 1) !in ids
  {
    forall i | 0 <= i < |ids|
      ensures ids[i] != NatToString(|ids| + 1)
    {
      var k :| 1 <= k <= |ids| && ids[i] == NatToString(k);
      NatToStringInjective(k, |ids| + 1);
    }
  }

  /** A numeral up to `n` is a numeral up to `n + 1`. */
  lemma NumeralsUpToNext(ids: seq<string>)
    requires forall i :: 0 <= i < |ids| ==> IsNumeralUpTo(ids[i], |ids|)
    ensures forall i :: 0 <= i < |ids| ==> IsNumeralUpTo(ids[i], |ids| + 1)
  {
  }

  lemma NumeralsPrepended(x: string, ids: seq<string>)
    requires IsNumeralUpTo(x, |ids| + 1)
    requires forall i :: 0 <= i < |ids| ==> IsNumeralUpTo(ids[i], |ids| + 1)
    requires DistinctIds([x] + ids)
    ensures NumberedIds([x] + ids)
  {
  }

  lemma NumeralsAppended(ids: seq<string>, x: string)
    requires IsNumeralUpTo(x, |ids| + 1)
    requires forall i :: 0 <= i < |ids| ==> IsNumeralUpTo(ids[i], |ids| + 1)
    requires DistinctIds(ids + [x])
    ensures NumberedIds(ids + [x])
  {
  }

  /** Prepending the next length-based identifier keeps the numbering. */
  lemma FreshNumeralPrepended(ids: seq<string>)
    requires NumberedIds(ids)
    ensures NumberedIds([NatToString(|ids| + 1)] + ids)
  {
    var next := NatToString(|ids| + 1);
    NextNumeralFresh(ids);
    NumeralsUpToNext(ids);
    DistinctPrepended(next, ids);
    assert IsNumeralUpTo(next, |ids| + 1);
    NumeralsPrepended(next, ids);
  }

  /** Appending the next length-based identifier keeps the numbering. */
  lemma FreshNumeralAppended(ids: seq<string>)
    requires NumberedIds(ids)
    ensures NumberedIds(ids + [NatToString(|ids| + 1)])
  {
    var next := NatToString(|ids| + 1);
    NextNumeralFresh(ids);
    NumeralsUpToNext(ids);
    DistinctAppended(ids, next);
    assert IsNumeralUpTo(next, |ids| + 1);
    NumeralsAppended(ids, next);
  }

  /**
   * The counter update of adding a comment: the first post whose id is `postId`
   * gets one more comment; every other post, and every post when none matches,
   * stays as it was.
   */
  function BumpCommentCount(posts: seq<Post>, postId: string): (r: seq<Post>)
    ensures |r| == |posts|
    ensures forall i :: 0 <= i < |posts| ==> r[i].id == posts[i].id
    ensures (forall i :: 0 <= i < |posts| ==> posts[i].id != postId) ==> r == posts
    ensures forall i :: 0 <= i < |posts| ==>
              r[i] == if FirstWithId(posts, i, postId)
                      then posts[i].(commentsCount := posts[i].commentsCount + 1)
                      else posts[i]
  {
    match FindPostIndex(posts, postId)
    case None => posts
    case Some(i) => posts[i := posts[i].(commentsCount := posts[i].commentsCount + 1)]
  }

  /** How far a post's counter is from the number of stored comments carrying its id. */
  function Drift(p: Post, comments: seq<Comment>): int {
    p.commentsCount - |CommentsOf(comments, p.id)|
  }

  /**
   * With distinct post ids, storing a comment and bumping the counter keeps every
   * post's drift: counter and comment count move together, or neither moves.
   */
  lemma AddCommentKeepsDrift(posts: seq<Post>, comments: seq<Comment>, c: Comment)
    requires DistinctIds(Ids(posts, PostId))
    ensures forall i :: 0 <= i < |posts| ==>
              Drift(BumpCommentCount(posts, c.postId)[i], comments + [c]) == Drift(posts[i], comments)
  {
    var r := BumpCommentCount(posts, c.postId);
    forall i | 0 <= i < |posts|
      ensures Drift(r[i], comments + [c]) == Drift(posts[i], comments)
    {
      CommentsOfAppend(comments, c, posts[i].id);
      if posts[i].id == c.postId {
        forall j | 0 <= j < i ensures posts[j].id != c.postId {
          assert Ids(posts, PostId)[j] != Ids(posts, PostId)[i];
        }
        assert FirstWithId(posts, i, c.postId);
      }
    }
  }

  /** The counter bump leaves every post id where it was. */
  lemma BumpKeepsIds(posts: seq<Post>, postId: string)
    ensures Ids(BumpCommentCount(posts, postId), PostId) == Ids(posts, PostId)
  {
  }

  /** A comment numbered after the comment count has a fresh id and keeps comment ids numbered. */
  lemma AppendedCommentNumbered(comments: seq<Comment>, c: Comment)
    requires NumberedIds(Ids(comments, CommentId))
    requires c.id == NatToString(|comments| + 1)
    ensures NumberedIds(Ids(comments + [c], CommentId)) && c.id !in Ids(comments, CommentId)
  {
    FreshNumeralAppended(Ids(comments, CommentId));
    NextNumeralFresh(Ids(comments, CommentId));
    IdsAppended(comments, c, CommentId);
  }

  /**
   * After a comment on post `c.postId` is stored and counted, looking that post
   * up gives its bumped post, with the new comment ending its comment list.
   */
  lemma CommentShowsInView(users: seq<User>, posts: seq<Post>, comments: seq<Comment>, c: Comment, i: nat)
    requires FirstWithId(posts, i, c.postId)
    ensures PostById(users, BumpCommentCount(posts, c.postId), comments + [c], c.postId) ==
            Some(PostView(posts[i].(commentsCount := posts[i].commentsCount + 1),
                          FindUser(users, posts[i].userId),
                          JoinPost(users, comments, posts[i]).comments + [JoinComment(users, c)]))
  {
    var bumped := BumpCommentCount(posts, c.postId);
    assert FirstWithId(bumped, i, c.postId);
    CommentsAfterAddComment(users, comments, c, bumped[i]);
  }

  /**
   * Distinct post ids are needed: of two posts sharing an id only the first is
   * bumped, so the second one's drift moves.
   */
  lemma DuplicateIdsMoveDrift(p: Post, c: Comment)
    requires c.postId == p.id
    ensures Drift(BumpCommentCount([p, p], c.postId)[1], [c]) == Drift(p, []) - 1
  {
  }

  // ---------------------------------------------------------------------------
  // The store
  // ---------------------------------------------------------------------------

  class Store {
    var users: seq<User>
    var posts: seq<Post>
    var comments: seq<Comment>

    /** Post ids and comment ids are numbered as the two mutations number them. */
    ghost predicate Valid()
      reads this
    {
      NumberedIds(Ids(posts, PostId)) && NumberedIds(Ids(comments, CommentId))
    }

    /** The store as the module starts out: the seed collections. */
    constructor Seeded()
      ensures users == SeedUsers && posts == SeedPosts && comments == SeedComments
      ensures Valid()
    {
      users, posts, comments := SeedUsers, SeedPosts, SeedComments;
      new;
      SeedIds();
      SeedNumbered(Ids(posts, PostId));
      SeedNumbered(Ids(comments, CommentId));
    }

    /** The feed as the community page reads it. */
    function GetCommunityPosts(): seq<PostView>
      reads this
    {
      CommunityPosts(users, posts, comments)
    }

    /** One post's view, or `None` for an unknown id. */
    function GetPostById(id: string): Option<PostView>
      reads this
    {
      PostById(users, posts, comments, id)
    }

    /**
     * Prepends a post numbered after the current post count, with zeroed
     * counters and the given creation time, and returns it.
     */
    method AddNewPost(input: PostInput, createdAt: string) returns (p: Post)
      modifies this
      ensures p == Post(NatToString(|old(posts)| + 1), input.userId, input.title, input.content,
                        input.imageUrl, input.postType, 0, 0, createdAt)
      ensures posts == [p] + old(posts)
      ensures users == old(users) && comments == old(comments)
      ensures old(Valid()) ==> Valid() && p.id !in Ids(old(posts), PostId)
    {
      ghost var wasValid := Valid();
      ghost var oldIds := Ids(posts, PostId);
      p := Post(NatToString(|posts| + 1), input.userId, input.title, input.content,
                input.imageUrl, input.postType, 0, 0, createdAt);
      posts := [p] + posts;
      if wasValid {
        FreshNumeralPrepended(oldIds);
        NextNumeralFresh(oldIds);
        assert Ids(posts, PostId) == [p.id] + oldIds;
      }
    }

    /**
     * Appends a comment numbered after the current comment count, bumps the
     * counter of the first post with id `postId` (if any), and returns the
     * comment with its author.
     */
    method AddNewComment(postId: string, userId: string, content: string, createdAt: string)
      returns (v: CommentView)
      modifies this
      ensures v.comment == Comment(NatToString(|old(comments)| + 1), postId, userId, content, createdAt)
      ensures v.user == FindUser(users, userId)
      ensures comments == old(comments) + [v.comment]
      ensures posts == BumpCommentCount(old(posts), postId)
      ensures users == old(users)
      ensures old(Valid()) ==> Valid() && v.comment.id !in Ids(old(comments), CommentId)
      ensures old(Valid()) ==> forall i :: 0 <= i < |posts| ==>
                Drift(posts[i], comments) == Drift(old(posts)[i], old(comments))
    {
      ghost var wasValid := Valid();
      ghost var oldPosts, oldComments := posts, comments;
      var c := Comment(NatToString(|comments| + 1), postId, userId, content, createdAt);
      comments := comments + [c];
      match FindPostIndex(posts, postId) {
        case None =>
        case Some(i) =>
          posts := posts[i := posts[i].(commentsCount := posts[i].commentsCount + 1)];
      }
      assert posts == BumpCommentCount(oldPosts, postId);
      v := CommentView(c, FindUser(users, userId));
      if wasValid {
        AppendedCommentNumbered(oldComments, c);
        BumpKeepsIds(oldPosts, postId);
        AddCommentKeepsDrift(oldPosts, oldComments, c);
      }
    }
  }

  /** The seeded posts and comments are numbered "1" to "5" in store order. */
  lemma SeedIds()
    ensures Ids(SeedPosts, PostId) == ["1", "2", "3", "4", "5"]
    ensures Ids(SeedComments, CommentId) == ["1", "2", "3", "4", "5"]
  {
  }

  /** The seed identifiers "1" to "5" are numbered. */
  lemma SeedNumbered(ids: seq<string>)
    requires ids == ["1", "2", "3", "4", "5"]
    ensures NumberedIds(ids)
  {
    assert NatToString(1) == "1" && NatToString(2) == "2" && NatToString(3) == "3";
    assert NatToString(4) == "4" && NatToString(5) == "5";
    forall i | 0 <= i < |ids|
      ensures IsNumeralUpTo(ids[i], |ids|)
    {
      assert ids[i] == NatToString(i + 1);
    }
  }
}
