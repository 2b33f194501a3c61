/**
 * Records of the Xiaohongshu scraper (src/lib/xhsscraper.ts) and the
 * abstract page it reads.
 *
 * The HTML parser and CSS selector engine are not modelled: a page is the
 * answer each selector gives, in document order, and an element carries the
 * answers to the descendant queries made on it.
 */
module XhsTypes {
  import opened Wrappers
  import opened Text
  import opened Counts

  /** An element a descendant query matched: its text content and attributes. */
  datatype Node = Node(text: string, attrs: map<string, string>)

  /**
   * An element a page-level selector matched: its classes, its attributes,
   * and for each descendant selector the elements it matches, in document order.
   */
  datatype Element = Element(classes: set<string>, attrs: map<string, string>, find: map<string, seq<Node>>)

  /** A parsed page: for each page-level selector, the elements it matches, in document order. */
  datatype Document = Document(select: map<string, seq<Element>>)

  /** `$(selector)`: no entry means no match. */
  function Select(doc: Document, selector: string): seq<Element> {
    if selector in doc.select then doc.select[selector] else []
  }

  /** `$el.find(selector)`. */
  function Find(e: Element, selector: string): seq<Node> {
    if selector in e.find then e.find[selector] else []
  }

  /** `.text()` of a selection: the texts of all matched elements, concatenated. */
  function TextOf(nodes: seq<Node>): string {
    if nodes == [] then [] else nodes[0].text + TextOf(nodes[1..])
  }

  /** `$el.find(selector).text().trim()`. */
  function FindText(e: Element, selector: string): string {
    Trim(TextOf(Find(e, selector)))
  }

  /**
   * `.attr(name)` of a selection: the attribute of its first element.
   * `undefined` and the empty string are both falsy in the `||` chains that
   * use it, so both are written "" here.
   */
  function AttrOf(nodes: seq<Node>, name: string): string {
    if nodes != [] && name in nodes[0].attrs then nodes[0].attrs[name] else ""
  }

  /** `$el.find(selector).attr(name)`. */
  function FindAttr(e: Element, selector: string, name: string): string {
    AttrOf(Find(e, selector), name)
  }

  /** `$el.attr(name)` on the element itself. */
  function OwnAttr(e: Element, name: string): string {
    if name in e.attrs then e.attrs[name] else ""
  }

  datatype PostAuthor = PostAuthor(username: string, nickname: string, avatar: string, followers: nat)

  datatype PostStats = PostStats(likes: Count, comments: Count, shares: nat)

  /** `XiaohongshuPost`. */
  datatype Post = Post(
    id: string,
    title: string,
    content: string,
    author: PostAuthor,
    stats: PostStats,
    tags: seq<string>,
    createdAt: string,
    url: string)

  datatype CommentAuthor = CommentAuthor(username: string, nickname: string, avatar: string)

  /** `XiaohongshuComment`. */
  datatype Comment = Comment(
    id: string,
    postId: string,
    content: string,
    author: CommentAuthor,
    likes: Count,
    replies: Count,
    createdAt: string,
    isReply: bool,
    parentCommentId: Option<string>)

  /** `ScrapingResult`. */
  datatype ScrapingResult = ScrapingResult(posts: seq<Post>, comments: seq<Comment>, totalCount: nat, hasMore: bool)

  /** `Math.floor(Math.random() * 10000)`. */
  type Followers = n: nat | n < 10000

  /** `Math.floor(Math.random() * 100)`. */
  type Shares = n: nat | n < 100

  /** `Math.floor(Math.random() * 50)`. */
  type MockLikes = n: nat | n < 50

  /** `Math.floor(Math.random() * 10)`. */
  type MockReplies = n: nat | n < 10

  /** The random and clock values one extracted post consumes; `fallbackId` stands for `post_<now>_<random>`. */
  datatype PostDraw = PostDraw(followers: Followers, shares: Shares, createdAt: string, fallbackId: string)

  /** The values one extracted comment consumes; `id` stands for `comment_<now>_<random>`. */
  datatype CommentDraw = CommentDraw(id: string, createdAt: string)

  /** The values one synthetic comment consumes. */
  datatype MockDraw = MockDraw(likes: MockLikes, replies: MockReplies, createdAt: string)

  /**
   * Every random and clock value a run may consume, by position:
   * `post(i)` for the i-th post element, `comment(p, s, e)` for the e-th
   * element of the s-th comment selector while handling the p-th post, and
   * `mock(p, k)` for the k-th synthetic comment of the p-th post.
   */
  datatype Entropy = Entropy(
    post: nat -> PostDraw,
    comment: (nat, nat, nat) -> CommentDraw,
    mock: (nat, nat) -> MockDraw)

  /** The ids of a list of posts. */
  function PostIds(posts: seq<Post>): set<string> {
    set p | p in posts :: p.id
  }
}
