/** The feed screen: liking a post and the comment box, over the posts held in
    component state. */
module FeedScreen {
  import opened Common
  import opened Text

  datatype Author = Author(id: string, name: string, avatar: string, role: string)

  datatype Post = Post(id: string, user: Author, content: string, image: Option<string>,
                       likes: int, comments: nat, timeAgo: string, isLiked: bool)

  /** The three posts the screen starts with. */
  const MockPosts := [
    Post("1", Author("1", "Sarah Johnson", "https://randomuser.me/api/portraits/women/44.jpg", "Senior Developer"),
         "Just published a new article about React Native performance optimization! Check it out and let me know your thoughts. #ReactNative #MobileDev",
         Some("https://miro.medium.com/max/1400/1*LGHh60wmYDbEFMqKxUEBzA.png"), 24, 8, "2h ago", false),
    Post("2", Author("2", "Michael Chen", "https://randomuser.me/api/portraits/men/32.jpg", "UX/UI Designer"),
         "Designing for accessibility isn't just about checking boxes—it's about creating experiences that everyone can use and enjoy. Here are some key principles to keep in mind:",
         Some("https://miro.medium.com/max/1400/1*2J9E1pYtZJYtJh5J5X5Q5Q.png"), 42, 15, "5h ago", true),
    Post("3", Author("3", "Emma Wilson", "https://randomuser.me/api/portraits/women/33.jpg", "Product Manager"),
         "Excited to announce that our team just launched a major update to our mobile app! Huge thanks to everyone who contributed to this release. #ProductLaunch #TeamWork",
         None, 56, 12, "1d ago", false)
  ]

  /** One press of Like on a post. */
  function Toggle(p: Post): Post {
    p.(isLiked := !p.isLiked, likes := if p.isLiked then p.likes - 1 else p.likes + 1)
  }

  /** The new list of `handleLike(postId)`: every post with that id toggled. */
  function WithLike(posts: seq<Post>, postId: string): (r: seq<Post>)
    ensures |r| == |posts|
    ensures forall i :: 0 <= i < |posts| && posts[i].id != postId ==> r[i] == posts[i]
    ensures forall i :: 0 <= i < |posts| && posts[i].id == postId ==>
              && r[i].isLiked == !posts[i].isLiked
              && r[i].likes == posts[i].likes + (if posts[i].isLiked then -1 else 1)
              && r[i].(isLiked := posts[i].isLiked, likes := posts[i].likes) == posts[i]
  {
    seq(|posts|, i requires 0 <= i < |posts| => if posts[i].id == postId then Toggle(posts[i]) else posts[i])
  }

  /** Liking the same post twice restores the list. */
  lemma LikeTwice(posts: seq<Post>, postId: string)
    ensures WithLike(WithLike(posts, postId), postId) == posts
  {
    var r := WithLike(WithLike(posts, postId), postId);
    forall i | 0 <= i < |posts| ensures r[i] == posts[i] {
      if posts[i].id == postId {
        assert r[i] == Toggle(Toggle(posts[i]));
      }
    }
  }

  /** An id that names no post leaves the list as it is. */
  lemma LikeUnknown(posts: seq<Post>, postId: string)
    requires forall i :: 0 <= i < |posts| ==> posts[i].id != postId
    ensures WithLike(posts, postId) == posts
  {
  }

  /** Likes of different posts commute. */
  lemma LikesCommute(posts: seq<Post>, a: string, b: string)
    ensures WithLike(WithLike(posts, a), b) == WithLike(WithLike(posts, b), a)
  {
  }

  /** The comment button: opens this post's box, or closes it when it is the one open. */
  function ToggledInput(active: Option<string>, postId: string): (r: Option<string>)
    ensures r == Some(postId) <==> active != Some(postId)
    ensures r == None <==> active == Some(postId)
  {
    if active == Some(postId) then None else Some(postId)
  }

  /** Pressing Comment twice on one post restores the state, whatever box was open before. */
  lemma ToggleInputTwice(active: Option<string>, postId: string)
    ensures active.None? || active == Some(postId) ==> ToggledInput(ToggledInput(active, postId), postId) == active
    ensures active.Some? && active != Some(postId) ==> ToggledInput(ToggledInput(active, postId), postId) == None
  {
  }

  class Feed {
    var posts: seq<Post>
    var commentText: string
    var activeCommentInput: Option<string>

    constructor()
      ensures posts == MockPosts && commentText == "" && activeCommentInput == None
    {
      posts, commentText, activeCommentInput := MockPosts, "", None;
    }

    /** `handleLike`. */
    method HandleLike(postId: string)
      modifies this
      ensures posts == WithLike(old(posts), postId)
      ensures commentText == old(commentText) && activeCommentInput == old(activeCommentInput)
    {
      posts := WithLike(posts, postId);
    }

    /** `handleAddComment`: blank text is ignored; otherwise the text is
        cleared and the box closed (the comment itself goes nowhere). */
    method HandleAddComment(postId: string)
      modifies this
      ensures posts == old(posts)
      ensures Blank(old(commentText)) ==> commentText == old(commentText) && activeCommentInput == old(activeCommentInput)
      ensures !Blank(old(commentText)) ==> commentText == "" && activeCommentInput == None
    {
      if Trim(commentText) == "" {
        return;
      }
      commentText := "";
      activeCommentInput := None;
    }

    method PressComment(postId: string)
      modifies this
      ensures activeCommentInput == ToggledInput(old(activeCommentInput), postId)
      ensures posts == old(posts) && commentText == old(commentText)
    {
      activeCommentInput := if activeCommentInput == Some(postId) then None else Some(postId);
    }
  }
}
