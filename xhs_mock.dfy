/**
 * The scraper's synthetic fallback: `generateMockCommentsForPost` and
 * `generateMockData` of src/lib/xhsscraper.ts.
 */
module XhsMock {
  import opened Wrappers
  import opened Text
  import opened Counts
  import opened XhsTypes

  /** One canned comment: the text around the keyword and the author's names. */
  datatype MockTemplate = MockTemplate(before: string, after: string, username: string, nickname: string)

  const MockTemplates: seq<MockTemplate> := [
    MockTemplate("我也在考虑", "，但是不知道从哪里开始，有没有专业的人可以给点建议？预算大概5000左右", "new_mom_2024", "新手妈妈小美"),
    MockTemplate("看了这个帖子才知道", "这么重要，我家宝宝1岁了，现在配置还来得及吗？求推荐靠谱的产品", "working_mom_anna", "职场妈妈Anna"),
    MockTemplate("我也在纠结这个问题，关于", "的选择真的太多了，预算有限想先买最重要的，有推荐吗？", "budget_conscious_dad", "节俭爸爸"),
    MockTemplate("刚当爸爸，对", "完全不懂，但是想给孩子最好的保障，有没有专业的保险顾问可以咨询？", "first_time_dad", "新手爸爸Alex")
  ]

  const CommentAvatar: string := "/placeholder.svg?height=32&width=32"
  const PostAvatar: string := "/placeholder.svg?height=40&width=40"

  /** The id of the k-th synthetic comment of a post. */
  function MockCommentId(postId: string, k: nat): string {
    "comment_" + postId + "_" + NatToString(k)
  }

  /** The k-th synthetic comment of the p-th post. */
  function MockComment(post: Post, keyword: string, k: nat, d: MockDraw): Comment
    requires k < |MockTemplates|
  {
    var t := MockTemplates[k];
    Comment(
      MockCommentId(post.id, k), post.id, t.before + keyword + t.after,
      CommentAuthor(t.username, t.nickname, CommentAvatar),
      Finite(d.likes), Finite(d.replies), d.createdAt, false, None)
  }

  /**
   * `generateMockCommentsForPost(post, keyword)` for the p-th post: four
   * comments on that post, numbered 0 to 3, none a reply, each mentioning
   * the keyword, with likes below 50 and replies below 10.
   */
  function MockCommentsForPost(post: Post, keyword: string, ent: Entropy, p: nat): (r: seq<Comment>)
    ensures |r| == 4
    ensures forall k | 0 <= k < 4 ::
      && r[k].id == MockCommentId(post.id, k)
      && r[k].postId == post.id
      && !r[k].isReply
      && Contains(r[k].content, keyword)
      && r[k].likes.Finite? && r[k].likes.n < 50
      && r[k].replies.Finite? && r[k].replies.n < 10
  {
    var r := seq(4, k requires 0 <= k < 4 => MockComment(post, keyword, k, ent.mock(p, k)));
    forall k | 0 <= k < 4
      ensures && r[k].id == MockCommentId(post.id, k)
              && r[k].postId == post.id
              && !r[k].isReply
              && Contains(r[k].content, keyword)
              && r[k].likes.Finite? && r[k].likes.n < 50
              && r[k].replies.Finite? && r[k].replies.n < 10
    {
      var t := MockTemplates[k];
      assert r[k] == MockComment(post, keyword, k, ent.mock(p, k));
      assert r[k].content == t.before + keyword + t.after;
      ContainsSpliced(t.before, keyword, t.after);
    }
    r
  }

  /** The synthetic comments of a list of posts, four per post, post after post (`flatMap`). */
  function MockCommentsFor(posts: seq<Post>, keyword: string, ent: Entropy): (r: seq<Comment>)
    ensures |r| == 4 * |posts|
    ensures forall k | 0 <= k < |r| :: r[k].postId == posts[k / 4].id
  {
    if posts == [] then []
    else
      var n := |posts| - 1;
      var before := MockCommentsFor(posts[..n], keyword, ent);
      var last := MockCommentsForPost(posts[n], keyword, ent, n);
      var r := before + last;
      assert forall k | 0 <= k < |before| :: r[k].postId == posts[k / 4].id;
      assert forall k | |before| <= k < |r| :: k / 4 == n && r[k] == last[k - |before|];
      r
  }

  /** The two canned posts of `generateMockData`. */
  function MockPosts(keyword: string): (posts: seq<Post>)
    ensures |posts| == 2 && posts[0].id == "post_1" && posts[1].id == "post_2"
    ensures forall i | 0 <= i < 2 :: keyword in posts[i].tags
  {
    [
      Post("post_1", keyword + "选择指南 - 新手必看",
        "作为一个过来人，分享一下关于" + keyword + "的经验，希望能帮到大家...",
        PostAuthor("insurance_expert_2024", "保险小助手", PostAvatar, 15600),
        PostStats(Finite(1240), Finite(89), 156),
        [keyword, "理财", "保障"], "2024-01-20T10:30:00Z",
        "https://www.xiaohongshu.com/discovery/item/post_1"),
      Post("post_2", "我的" + keyword + "配置经验分享",
        "花了半年时间研究" + keyword + "，终于找到了适合的方案，分享给大家...",
        PostAuthor("smart_mom_lily", "理财妈妈Lily", PostAvatar, 8900),
        PostStats(Finite(856), Finite(67), 92),
        [keyword, "经验分享", "理财规划"], "2024-01-19T15:45:00Z",
        "https://www.xiaohongshu.com/discovery/item/post_2")
    ]
  }

  /**
   * `generateMockData(keyword)`: two posts and eight comments, each comment
   * on one of the two posts; the count is the number of comments and there
   * is never more.
   */
  function MockData(keyword: string, ent: Entropy): (r: ScrapingResult)
    ensures |r.posts| == 2 && r.posts[0].id == "post_1" && r.posts[1].id == "post_2"
    ensures |r.comments| == 8 && r.totalCount == 8 && !r.hasMore
    ensures forall k | 0 <= k < 8 :: r.comments[k].postId == r.posts[k / 4].id
  {
    var posts := MockPosts(keyword);
    var comments := MockCommentsFor(posts, keyword, ent);
    ScrapingResult(posts, comments, |comments|, false)
  }
}
