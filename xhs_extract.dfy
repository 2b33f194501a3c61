/**
 * `extractPostData` and `extractCommentData` of src/lib/xhsscraper.ts: each
 * field is the first non-empty answer of an ordered chain of selectors,
 * then a default.
 */
module XhsExtract {
  import opened Wrappers
  import opened Text
  import opened Counts
  import opened XhsTypes

  const TitleSelectors: seq<string> := [".note-item-title", "[data-testid=\"note-title\"]", ".title"]
  const ContentSelectors: seq<string> := [".note-item-desc", "[data-testid=\"note-content\"]", ".content"]
  const AuthorSelectors: seq<string> := [".author-name", "[data-testid=\"author-name\"]", ".user-name"]
  const AvatarSelectors: seq<string> := [".author-avatar img", "[data-testid=\"author-avatar\"] img", ".avatar img"]
  const LikesSelectors: seq<string> := [".like-count", "[data-testid=\"like-count\"]", ".likes"]
  const CommentCountSelectors: seq<string> := [".comment-count", "[data-testid=\"comment-count\"]", ".comments"]
  const TagSelector: string := ".tag, .hashtag, [data-testid=\"tag\"]"

  const CommentContentSelectors: seq<string> := [".comment-content", "[data-testid=\"comment-content\"]", ".content"]
  const CommentAuthorSelectors: seq<string> := [".comment-author", "[data-testid=\"comment-author\"]", ".author"]
  const CommentAvatarSelectors: seq<string> := [".comment-avatar img", "[data-testid=\"comment-avatar\"] img", ".avatar img"]
  const CommentLikesSelectors: seq<string> := [".comment-like-count", "[data-testid=\"comment-likes\"]", ".likes"]
  const RepliesSelectors: seq<string> := [".comment-reply-count", "[data-testid=\"comment-replies\"]", ".replies"]

  const SiteOrigin: string := "https://www.xiaohongshu.com"
  const NoTitle: string := "无标题"
  const NoContent: string := "无内容"
  const Anonymous: string := "匿名用户"

  /** The trimmed texts the selectors of a chain give on `e`, in chain order. */
  function Texts(e: Element, selectors: seq<string>): (r: seq<string>)
    ensures |r| == |selectors|
    ensures forall i | 0 <= i < |selectors| :: r[i] == FindText(e, selectors[i])
  {
    seq(|selectors|, i requires 0 <= i < |selectors| => FindText(e, selectors[i]))
  }

  /** The `src` attributes the selectors of a chain give on `e`, in chain order. */
  function Srcs(e: Element, selectors: seq<string>): (r: seq<string>)
    ensures |r| == |selectors|
    ensures forall i | 0 <= i < |selectors| :: r[i] == FindAttr(e, selectors[i], "src")
  {
    seq(|selectors|, i requires 0 <= i < |selectors| => FindAttr(e, selectors[i], "src"))
  }

  /** One tag element's contribution: trimmed text with its first "#" removed. */
  function TagText(n: Node): string {
    RemoveFirst(Trim(n.text), '#')
  }

  /** The candidate tag texts of the tag elements, in document order. */
  function TagTexts(nodes: seq<Node>): (r: seq<string>)
    ensures |r| == |nodes|
    ensures forall i | 0 <= i < |nodes| :: r[i] == TagText(nodes[i])
  {
    seq(|nodes|, i requires 0 <= i < |nodes| => TagText(nodes[i]))
  }

  /** The non-empty strings of a list, in order (`if (tag) tags.push(tag)`). */
  function NonEmpty(ts: seq<string>): (r: seq<string>)
    ensures |r| <= |ts|
    ensures forall i | 0 <= i < |r| :: r[i] != []
  {
    if ts == [] then []
    else if ts[|ts| - 1] != [] then NonEmpty(ts[..|ts| - 1]) + [ts[|ts| - 1]]
    else NonEmpty(ts[..|ts| - 1])
  }

  /** Keeping the non-empty strings keeps order: it distributes over concatenation. */
  lemma {:induction false} NonEmptyAppend(a: seq<string>, b: seq<string>)
    ensures NonEmpty(a + b) == NonEmpty(a) + NonEmpty(b)
    decreases |b|
  {
    if b != [] {
      var ab := a + b;
      assert ab[..|ab| - 1] == a + b[..|b| - 1];
      assert ab[|ab| - 1] == b[|b| - 1];
      NonEmptyAppend(a, b[..|b| - 1]);
    } else {
      assert a + b == a;
    }
  }

  /** One more candidate adds itself at the end when it is non-empty. */
  lemma NonEmptyStep(ts: seq<string>, i: nat)
    requires i < |ts|
    ensures NonEmpty(ts[..i + 1]) == NonEmpty(ts[..i]) + (if ts[i] != [] then [ts[i]] else [])
  {
    assert ts[..i + 1][..i] == ts[..i];
  }

  /** Nothing non-empty is dropped. */
  lemma {:induction false} NonEmptyKeeps(ts: seq<string>, i: nat)
    requires i < |ts| && ts[i] != []
    ensures ts[i] in NonEmpty(ts)
    decreases |ts|
  {
    if i < |ts| - 1 {
      NonEmptyKeeps(ts[..|ts| - 1], i);
    }
  }

  /** The tags of a post: the non-empty tag texts, in document order. */
  function TagsOf(nodes: seq<Node>): seq<string> {
    NonEmpty(TagTexts(nodes))
  }

  /** The `.each` loop that collects a post's tags. */
  method CollectTags(nodes: seq<Node>) returns (tags: seq<string>)
    ensures tags == TagsOf(nodes)
  {
    tags := [];
    var i := 0;
    ghost var texts := TagTexts(nodes);
    while i < |nodes|
      invariant 0 <= i <= |nodes|
      invariant tags == NonEmpty(texts[..i])
    {
      var tag := RemoveFirst(Trim(nodes[i].text), '#');
      NonEmptyStep(texts, i);
      if tag != [] {
        tags := tags + [tag];
      }
      i := i + 1;
    }
    assert texts[..i] == texts;
  }

  /** The link of a post: the first `a` descendant's href, else the element's own href. */
  function PostHref(e: Element): string {
    FirstNonEmpty([FindAttr(e, "a", "href"), OwnAttr(e, "href")], "")
  }

  /** The post id: the last path segment of the link, or a generated id when that is empty. */
  function PostIdOf(href: string, fallbackId: string): (id: string)
    ensures LastSegment(href) != [] ==> id == LastSegment(href) && '/' !in id
    ensures LastSegment(href) == [] ==> id == fallbackId
  {
    var seg := LastSegment(href);
    if seg != [] then seg else fallbackId
  }

  /** The absolute URL of a post: kept when it starts with "http", otherwise prefixed with the site origin. */
  function AbsoluteUrl(href: string): (url: string)
    ensures "http" <= url
    ensures "http" <= href ==> url == href
    ensures !("http" <= href) ==> url == SiteOrigin + href && href <= url[|SiteOrigin|..]
  {
    if "http" <= href then href
    else
      assert (SiteOrigin + href)[..4] == "http";
      SiteOrigin + href
  }

  /**
   * `extractPostData($, element)`: never fails in this model (the source's
   * catch branch is unreachable without the parser).
   */
  function PostFrom(e: Element, d: PostDraw): (p: Post)
    ensures p.title != [] && p.content != [] && p.author.username != []
    ensures p.author.username == p.author.nickname
    ensures p.id == PostIdOf(PostHref(e), d.fallbackId)
    ensures "http" <= p.url
    ensures p.url == AbsoluteUrl(PostHref(e))
    ensures p.tags == TagsOf(Find(e, TagSelector))
    ensures p.author.followers < 10000 && p.stats.shares < 100
  {
    var authorName := FirstNonEmpty(Texts(e, AuthorSelectors), Anonymous);
    var href := PostHref(e);
    Post(
      PostIdOf(href, d.fallbackId),
      FirstNonEmpty(Texts(e, TitleSelectors), NoTitle),
      FirstNonEmpty(Texts(e, ContentSelectors), NoContent),
      PostAuthor(authorName, authorName, FirstNonEmpty(Srcs(e, AvatarSelectors), ""), d.followers),
      PostStats(
        ParseCount(FirstNonEmpty(Texts(e, LikesSelectors), "0")),
        ParseCount(FirstNonEmpty(Texts(e, CommentCountSelectors), "0")),
        d.shares),
      TagsOf(Find(e, TagSelector)),
      d.createdAt,
      AbsoluteUrl(href))
  }

  /** `extractPostData` as the source runs it, with the tag loop. */
  method ExtractPostData(e: Element, d: PostDraw) returns (p: Post)
    ensures p == PostFrom(e, d)
  {
    var title := FirstNonEmpty(Texts(e, TitleSelectors), NoTitle);
    var content := FirstNonEmpty(Texts(e, ContentSelectors), NoContent);
    var authorName := FirstNonEmpty(Texts(e, AuthorSelectors), Anonymous);
    var avatar := FirstNonEmpty(Srcs(e, AvatarSelectors), "");
    var likesText := FirstNonEmpty(Texts(e, LikesSelectors), "0");
    var commentsText := FirstNonEmpty(Texts(e, CommentCountSelectors), "0");
    var href := PostHref(e);
    var tags := CollectTags(Find(e, TagSelector));
    p := Post(
      PostIdOf(href, d.fallbackId), title, content,
      PostAuthor(authorName, authorName, avatar, d.followers),
      PostStats(ParseCount(likesText), ParseCount(commentsText), d.shares),
      tags, d.createdAt, AbsoluteUrl(href));
  }

  /** The trimmed comment text the content chain finds. */
  function CommentText(e: Element): string {
    FirstNonEmpty(Texts(e, CommentContentSelectors), "")
  }

  /** The trimmed author name the author chain finds. */
  function CommentAuthorName(e: Element): string {
    FirstNonEmpty(Texts(e, CommentAuthorSelectors), "")
  }

  /** A comment element counts as a reply by its class or its data-reply attribute. */
  predicate IsReplyElement(e: Element) {
    "reply" in e.classes || OwnAttr(e, "data-reply") == "true"
  }

  /**
   * `extractCommentData($, element, postId)`: rejects the element exactly
   * when its content or its author text is empty.
   */
  function CommentFrom(e: Element, postId: string, d: CommentDraw): (r: Option<Comment>)
    ensures r.None? <==> CommentText(e) == [] || CommentAuthorName(e) == []
    ensures r.Some? ==>
      && r.value.postId == postId
      && r.value.content == CommentText(e) != []
      && r.value.author.username == r.value.author.nickname == CommentAuthorName(e) != []
      && (r.value.isReply <==> IsReplyElement(e))
      && r.value.parentCommentId.None?
  {
    var content := CommentText(e);
    var authorName := CommentAuthorName(e);
    var avatar := FirstNonEmpty(Srcs(e, CommentAvatarSelectors), "");
    var likesText := FirstNonEmpty(Texts(e, CommentLikesSelectors), "0");
    var repliesText := FirstNonEmpty(Texts(e, RepliesSelectors), "0");
    if content == [] || authorName == [] then None
    else
      Some(Comment(
        d.id, postId, content,
        CommentAuthor(authorName, authorName, avatar),
        ParseCount(likesText), ParseCount(repliesText),
        d.createdAt, IsReplyElement(e), None))
  }

  /**
   * A selector chain yields the trimmed text of its first selector that
   * gives a non-empty one.
   */
  lemma ChainFirst(e: Element, selectors: seq<string>, default: string, i: nat)
    requires i < |selectors|
    requires FindText(e, selectors[i]) != []
    requires forall j | 0 <= j < i :: FindText(e, selectors[j]) == []
    ensures FirstNonEmpty(Texts(e, selectors), default) == FindText(e, selectors[i])
  {
    var t := Texts(e, selectors);
    assert t[i] != [] && forall j | 0 <= j < i :: t[j] == [];
  }

  /** The title is the text of the first title selector that gives one. */
  lemma PostTitleFirst(e: Element, d: PostDraw, i: nat)
    requires i < 3
    requires FindText(e, TitleSelectors[i]) != []
    requires forall j | 0 <= j < i :: FindText(e, TitleSelectors[j]) == []
    ensures PostFrom(e, d).title == FindText(e, TitleSelectors[i])
  {
    ChainFirst(e, TitleSelectors, NoTitle, i);
  }

  /** The content is the text of the first content selector that gives one. */
  lemma PostContentFirst(e: Element, d: PostDraw, i: nat)
    requires i < 3
    requires FindText(e, ContentSelectors[i]) != []
    requires forall j | 0 <= j < i :: FindText(e, ContentSelectors[j]) == []
    ensures PostFrom(e, d).content == FindText(e, ContentSelectors[i])
  {
    ChainFirst(e, ContentSelectors, NoContent, i);
  }

  /** The author's name, under both names, is the text of the first author selector that gives one. */
  lemma PostAuthorFirst(e: Element, d: PostDraw, i: nat)
    requires i < 3
    requires FindText(e, AuthorSelectors[i]) != []
    requires forall j | 0 <= j < i :: FindText(e, AuthorSelectors[j]) == []
    ensures PostFrom(e, d).author.username == FindText(e, AuthorSelectors[i])
    ensures PostFrom(e, d).author.nickname == FindText(e, AuthorSelectors[i])
  {
    ChainFirst(e, AuthorSelectors, Anonymous, i);
  }

  /** A chain whose selectors all give empty text yields its default. */
  lemma ChainDefault(e: Element, selectors: seq<string>, default: string)
    requires forall i | 0 <= i < |selectors| :: FindText(e, selectors[i]) == []
    ensures FirstNonEmpty(Texts(e, selectors), default) == default
  {
    var t := Texts(e, selectors);
    assert forall i | 0 <= i < |t| :: t[i] == [];
  }

  /** With every selector of the title and content chains empty, their defaults apply. */
  lemma PostDefaults(e: Element, d: PostDraw)
    requires forall i | 0 <= i < 3 :: FindText(e, TitleSelectors[i]) == []
    requires forall i | 0 <= i < 3 :: FindText(e, ContentSelectors[i]) == []
    ensures PostFrom(e, d).title == NoTitle
    ensures PostFrom(e, d).content == NoContent
  {
    ChainDefault(e, TitleSelectors, NoTitle);
    ChainDefault(e, ContentSelectors, NoContent);
  }

  /** With every selector of the author chain empty, the author is anonymous under both names. */
  lemma AnonymousAuthor(e: Element, d: PostDraw)
    requires forall i | 0 <= i < 3 :: FindText(e, AuthorSelectors[i]) == []
    ensures PostFrom(e, d).author.username == Anonymous
    ensures PostFrom(e, d).author.nickname == Anonymous
  {
    ChainDefault(e, AuthorSelectors, Anonymous);
  }

  /** Whether an element yields a comment does not depend on the post it is attached to, nor on the draws. */
  lemma CommentAcceptanceIndependent(e: Element, p1: string, p2: string, d1: CommentDraw, d2: CommentDraw)
    ensures CommentFrom(e, p1, d1).Some? == CommentFrom(e, p2, d2).Some?
  {
  }
}
