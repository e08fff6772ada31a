/**
 * Clients of the store: sequences of calls a screen makes, with what the
 * store's contracts let a caller conclude about the result.
 */
module Scenarios {
  import opened Wrappers
  import opened Decimal
  import opened FakeData

  /** Two new posts lead the feed, newest first, ahead of the views that were there before. */
  method FeedOrder(store: Store, first: PostInput, second: PostInput, t1: string, t2: string)
    modifies store
  {
    ghost var before := store.posts;
    var p1 := store.AddNewPost(first, t1);
    var p2 := store.AddNewPost(second, t2);
    FeedAfterAddPost(store.users, [p1] + before, store.comments, p2);
    FeedAfterAddPost(store.users, before, store.comments, p1);
    var feed := store.GetCommunityPosts();
    assert feed == [JoinPost(store.users, store.comments, p2), JoinPost(store.users, store.comments, p1)]
                   + CommunityPosts(store.users, before, store.comments);
  }

  /**
   * A new post given two comments shows a counter of 2 and two comments, as long
   * as no stored comment already pointed at its id.
   */
  method CounterTracksComments(store: Store, input: PostInput, who: string, t: string)
    requires store.Valid()
    requires forall i :: 0 <= i < |store.comments| ==> store.comments[i].postId != NatToString(|store.posts| + 1)
    modifies store
  {
    var p := store.AddNewPost(input, t);
    CommentsOfNone(store.comments, p.id);
    var c1 := store.AddNewComment(p.id, who, "a", t);
    var c2 := store.AddNewComment(p.id, who, "b", t);
    assert FirstWithId(store.posts, 0, p.id);
    assert store.posts[0].commentsCount == 2;
    assert |CommentsOf(store.comments, p.id)| == 2;
  }

  /** A new post is the feed's head with zeroed counters. */
  method NewPostHead(t: string) {
    var store := new Store.Seeded();
    var p := store.AddNewPost(PostInput("1", "T", "B", "article", None), t);
    var feed := store.GetCommunityPosts();
    assert |feed| == 6;
    assert feed[0].post.title == "T" && feed[0].post.likes == 0 && feed[0].post.commentsCount == 0;
  }

  /** User "2" of the seed is "greenthumb_sara", so a comment by "2" comes back with that author. */
  lemma SeedAuthor()
    ensures FindUser(SeedUsers, "2") == Some(SeedUsers[1])
    ensures SeedUsers[1].username == "greenthumb_sara"
  {
  }

  /** Seeded post "1" has two comments, the first two stored ones. */
  lemma {:induction false} SeedCommentsOnFirstPost()
    ensures CommentsOf(SeedComments, "1") == SeedComments[..2]
  {
    var cs := SeedComments;
    assert CommentsOf(cs[4..], "1") == [] by {
      assert cs[4..][1..] == [];
    }
    assert CommentsOf(cs[2..], "1") == [] by {
      assert cs[2..][1..] == cs[3..] && cs[3..][1..] == cs[4..];
    }
    assert cs[1..][1..] == cs[2..];
  }

  /**
   * A comment on the post at index `i` (the first with id `postId`) ends that
   * post's view, with its author attached, and the view's counter goes up by one.
   */
  method CommentOnPost(store: Store, i: nat, postId: string, userId: string, content: string, t: string)
    returns (view: PostView)
    requires FirstWithId(store.posts, i, postId)
    modifies store
    ensures store.users == old(store.users)
    ensures store.GetPostById(postId) == Some(view)
    ensures view.post.commentsCount == old(store.posts[i].commentsCount) + 1
    ensures |view.comments| == |CommentsOf(old(store.comments), postId)| + 1
    ensures view.comments[|view.comments| - 1] ==
            CommentView(Comment(NatToString(|old(store.comments)| + 1), postId, userId, content, t),
                        FindUser(store.users, userId))
  {
    ghost var posts, comments := store.posts, store.comments;
    var v := store.AddNewComment(postId, userId, content, t);
    CommentShowsInView(store.users, posts, comments, v.comment, i);
    view := store.GetPostById(postId).value;
  }

  /** Seeded post "1" leads the store and has two comments; user "2" is "greenthumb_sara". */
  lemma SeedFirstPost()
    ensures FirstWithId(SeedPosts, 0, "1")
    ensures |CommentsOf(SeedComments, "1")| == 2
    ensures FindUser(SeedUsers, "2") == Some(SeedUsers[1]) && SeedUsers[1].username == "greenthumb_sara"
  {
    SeedIds();
    assert SeedPosts[0].id == Ids(SeedPosts, PostId)[0];
    SeedCommentsOnFirstPost();
    SeedAuthor();
  }

  /**
   * User "2" comments "Nice!" on seeded post "1": that post's counter goes up
   * by one, and its view now lists three comments, the new one last with
   * author "greenthumb_sara".
   */
  method CommentOnSeededPost(t: string) {
    var store := new Store.Seeded();
    SeedFirstPost();
    var view := CommentOnPost(store, 0, "1", "2", "Nice!", t);
    assert |view.comments| == 3;
    assert view.comments[2].comment.content == "Nice!";
    assert view.comments[2].user.value.username == "greenthumb_sara";
    assert view.post.commentsCount == 13;
  }

  /**
   * A comment on an unknown post (as "nonexistent-post" is for the seed) is
   * stored, no counter moves, and the post stays unknown.
   */
  method OrphanComment(store: Store, postId: string, userId: string, content: string, t: string)
    returns (v: CommentView)
    requires forall i :: 0 <= i < |store.posts| ==> store.posts[i].id != postId
    modifies store
    ensures store.posts == old(store.posts)
    ensures store.comments == old(store.comments) + [v.comment] && v.comment.postId == postId
    ensures store.GetPostById(postId) == None
  {
    v := store.AddNewComment(postId, userId, content, t);
  }

  /** No seeded post has id "nonexistent-post", so looking it up in the seeded store reads `None`. */
  lemma UnknownSeedPost()
    ensures forall i :: 0 <= i < |SeedPosts| ==> SeedPosts[i].id != "nonexistent-post"
  {
  }

  /** A comment on "nonexistent-post" in the seeded store moves no counter, and the post stays unknown. */
  method OrphanOnSeededStore(t: string) {
    var store := new Store.Seeded();
    UnknownSeedPost();
    var v := OrphanComment(store, "nonexistent-post", "1", "Hello", t);
    assert store.posts == SeedPosts;
    assert store.comments[5] == v.comment;
    assert store.GetPostById("nonexistent-post") == None;
  }
}
