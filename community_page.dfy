/**
 * The community page: a feed that starts from three sample posts and to which
 * new posts are prepended, and the form whose button posts only when both the
 * title and the content are filled in.
 */
module CommunityPage {

  datatype Post = Post(id: int, user: string, initials: string, time: string,
                       title: string, content: string, likes: nat, comments: nat)

  /** The sample posts the page starts with. */
  const MockPosts: seq<Post> := [
    Post(1, "Amit Kumar", "AK", "2h ago", "Best practices for organic farming?",
         "What are some effective organic fertilizers for tomatoes?", 5, 2),
    Post(2, "Priya Singh", "PS", "4h ago", "Pest control in rice fields",
         "How do you manage pests without chemicals? Any natural remedies?", 3, 1),
    Post(3, "Ravi Patel", "RP", "1d ago", "Irrigation tips for summer",
         "Share your best tips for conserving water during hot months!", 7, 4)
  ]

  /** The post `handlePost` builds, numbered one past the feed's length. */
  function NewPost(id: int, title: string, content: string): Post {
    Post(id, "You", "U", "just now", title, content, 0, 0)
  }

  /** `[newPost, ...posts]`. */
  function Posted(posts: seq<Post>, title: string, content: string): (r: seq<Post>)
    ensures |r| == |posts| + 1
    ensures r[0] == NewPost(|posts| + 1, title, content)
    ensures r[1..] == posts
  {
    [NewPost(|posts| + 1, title, content)] + posts
  }

  /** The feed after posting each `(title, content)` of `entries` in turn. */
  function AfterPosts(posts: seq<Post>, entries: seq<(string, string)>): seq<Post>
    decreases |entries|
  {
    if entries == [] then posts
    else AfterPosts(Posted(posts, entries[0].0, entries[0].1), entries[1..])
  }

  /** Ids are distinct and lie in `1 .. |posts|`. */
  ghost predicate IdsOk(posts: seq<Post>) {
    && (forall k :: 0 <= k < |posts| ==> 1 <= posts[k].id <= |posts|)
    && (forall j, k :: 0 <= j < k < |posts| ==> posts[j].id != posts[k].id)
  }

  /** Posting keeps the ids distinct: the new id exceeds every id already there. */
  lemma PostedKeepsIds(posts: seq<Post>, title: string, content: string)
    requires IdsOk(posts)
    ensures IdsOk(Posted(posts, title, content))
  {
    var r := Posted(posts, title, content);
    forall k | 1 <= k < |r| ensures r[k] == posts[k - 1] {
      assert r[k] == r[1..][k - 1];
    }
  }

  /** From the sample feed, ids stay distinct after any sequence of posts. */
  lemma {:induction false} IdsStayDistinct(posts: seq<Post>, entries: seq<(string, string)>)
    requires IdsOk(posts)
    ensures IdsOk(AfterPosts(posts, entries))
    ensures |AfterPosts(posts, entries)| == |posts| + |entries|
    decreases |entries|
  {
    if entries != [] {
      PostedKeepsIds(posts, entries[0].0, entries[0].1);
      IdsStayDistinct(Posted(posts, entries[0].0, entries[0].1), entries[1..]);
    }
  }

  lemma MockPostsIdsOk()
    ensures IdsOk(MockPosts)
  {
  }

  /** The page's `posts` state. */
  class Feed {
    var posts: seq<Post>

    ghost predicate Valid()
      reads this
    {
      IdsOk(posts)
    }

    constructor ()
      ensures posts == MockPosts
      ensures Valid()
    {
      posts := MockPosts;
      MockPostsIdsOk();
    }

    /** `handlePost`: prepend the new post; the previous ones follow unchanged, in order. */
    method HandlePost(title: string, content: string)
      requires Valid()
      modifies this
      ensures posts == Posted(old(posts), title, content)
      ensures Valid()
    {
      PostedKeepsIds(posts, title, content);
      posts := [NewPost(|posts| + 1, title, content)] + posts;
    }
  }

  /** The `PostCreation` form: its two inputs. */
  class PostForm {
    var title: string
    var content: string

    constructor ()
      ensures title == "" && content == ""
    {
      title, content := "", "";
    }

    /** `disabled={!title || !content}`. */
    predicate Disabled()
      reads this
    {
      title == "" || content == ""
    }

    method SetTitle(value: string)
      modifies this
      ensures title == value && content == old(content)
    {
      title := value;
    }

    method SetContent(value: string)
      modifies this
      ensures content == value && title == old(title)
    {
      content := value;
    }

    /**
     * The Post button: with both fields filled, post them to `feed` and clear
     * the form; otherwise change nothing.
     */
    method Click(feed: Feed)
      requires feed.Valid()
      modifies this, feed
      ensures feed.Valid()
      ensures old(Disabled()) ==> feed.posts == old(feed.posts) && title == old(title) && content == old(content)
      ensures !old(Disabled()) ==>
                feed.posts == Posted(old(feed.posts), old(title), old(content)) && title == "" && content == ""
    {
      if title != "" && content != "" {
        feed.HandlePost(title, content);
        title := "";
        content := "";
      }
    }
  }
}
