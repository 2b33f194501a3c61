/**
 * `scrapeSearch` and `scrapePostComments` of src/lib/xhsscraper.ts: the
 * control logic that picks a post selector, extracts posts and comments,
 * falls back to synthetic data and assembles the result.
 *
 * The fetch is an input: `None` stands for every way the request can fail
 * (rejection, a non-ok status, an unreadable body), `Some(doc)` for the
 * parsed page.
 */
module XhsScraper {
  import opened Wrappers
  import opened Text
  import opened XhsTypes
  import opened XhsExtract
  import opened XhsMock

  const PostSelectors: seq<string> :=
    [".note-item", "[data-testid=\"note-item\"]", ".search-item", ".feed-item", ".note-card"]
  const SearchCommentSelectors: seq<string> :=
    [".comment-item", "[data-testid=\"comment-item\"]", ".comment", ".reply-item"]
  const PostPageCommentSelectors: seq<string> :=
    [".comment-item", "[data-testid=\"comment\"]", ".comment-list .comment", ".reply-item"]

  /** A search page with this many posts or more reports that there are more. */
  const PageSize: nat := 20

  /** How many posts receive synthetic comments when the page shows none. */
  const MockedPosts: nat := 3

  /** The position of the first selector that matches at least one element. */
  function FirstMatching(doc: Document, selectors: seq<string>): (r: Option<nat>)
    ensures r.None? <==> forall i | 0 <= i < |selectors| :: Select(doc, selectors[i]) == []
    ensures r.Some? ==>
      && r.value < |selectors|
      && Select(doc, selectors[r.value]) != []
      && forall j | 0 <= j < r.value :: Select(doc, selectors[j]) == []
  {
    if selectors == [] then None
    else if Select(doc, selectors[0]) != [] then Some(0)
    else match FirstMatching(doc, selectors[1..])
      case None => None
      case Some(i) => Some(i + 1)
  }

  /** The posts extracted from the matched elements, one per element, in order. */
  function PostsFrom(els: seq<Element>, ent: Entropy): (posts: seq<Post>)
    ensures |posts| == |els|
  {
    seq(|els|, i requires 0 <= i < |els| => PostFrom(els[i], ent.post(i)))
  }

  /**
   * The per-element comment extraction the comment loops call. The
   * scraper always passes `CommentFrom`; the loops and their proofs only
   * rely on what `KeepsPost` and `Accepted` say about it.
   */
  type Extractor = (Element, string, CommentDraw) -> Option<Comment>

  /** An extractor attaches every comment it accepts to the post id it was given. */
  ghost predicate KeepsPost(extract: Extractor) {
    forall e, postId, d :: extract(e, postId, d).Some? ==> extract(e, postId, d).value.postId == postId
  }

  /** What extraction gives for each element of the si-th comment selector of the pi-th post. */
  function Extracted(extract: Extractor, els: seq<Element>, postId: string, ent: Entropy, pi: nat, si: nat)
    : (r: seq<Option<Comment>>)
    ensures |r| == |els|
  {
    seq(|els|, i requires 0 <= i < |els| => extract(els[i], postId, ent.comment(pi, si, i)))
  }

  /** The comments the elements of one comment selector yield: the accepted ones, in order. */
  function ElementComments(extract: Extractor, els: seq<Element>, postId: string, ent: Entropy, pi: nat, si: nat)
    : seq<Comment>
  {
    Present(Extracted(extract, els, postId, ent, pi, si))
  }

  /** The comments all the given selectors yield for the pi-th post, selector after selector. */
  function SelectorComments(extract: Extractor, doc: Document, selectors: seq<string>, postId: string, ent: Entropy, pi: nat)
    : seq<Comment>
  {
    if selectors == [] then []
    else
      var n := |selectors| - 1;
      SelectorComments(extract, doc, selectors[..n], postId, ent, pi)
        + ElementComments(extract, Select(doc, selectors[n]), postId, ent, pi, n)
  }

  /**
   * The comments a search page yields: for every post, every accepted
   * comment element of every comment selector, attached to that post.
   */
  function PostComments(extract: Extractor, doc: Document, posts: seq<Post>, ent: Entropy): seq<Comment> {
    if posts == [] then []
    else
      var n := |posts| - 1;
      PostComments(extract, doc, posts[..n], ent)
        + SelectorComments(extract, doc, SearchCommentSelectors, posts[n].id, ent, n)
  }

  function Min(a: nat, b: nat): (m: nat)
    ensures m <= a && m <= b && (m == a || m == b)
  {
    if a < b then a else b
  }

  /** The synthetic comments for the first posts, used when a page with posts shows no comments. */
  function MockFill(posts: seq<Post>, keyword: string, ent: Entropy): seq<Comment> {
    MockCommentsFor(posts[..Min(MockedPosts, |posts|)], keyword, ent)
  }

  /** The comments `scrapeSearch` reports for the posts it found. */
  function PageComments(keyword: string, doc: Document, posts: seq<Post>, ent: Entropy): seq<Comment> {
    var found := PostComments(CommentFrom, doc, posts, ent);
    if |found| == 0 && |posts| > 0 then MockFill(posts, keyword, ent) else found
  }

  /** What `scrapeSearch` returns for a page whose first matching post selector is the i-th. */
  function Assemble(keyword: string, doc: Document, i: nat, ent: Entropy): ScrapingResult
    requires i < |PostSelectors|
  {
    var posts := PostsFrom(Select(doc, PostSelectors[i]), ent);
    var comments := PageComments(keyword, doc, posts, ent);
    ScrapingResult(posts, comments, |comments|, |posts| >= PageSize)
  }

  /** `scrapeSearch(keyword)` on the outcome of the fetch. */
  function Search(keyword: string, fetched: Option<Document>, ent: Entropy): (r: ScrapingResult)
    ensures r.totalCount == |r.comments| && |r.comments| > 0
    ensures forall c | c in r.comments :: c.postId in PostIds(r.posts)
  {
    if fetched.None? then MockDataOnPosts(keyword, ent); MockData(keyword, ent)
    else match FirstMatching(fetched.value, PostSelectors)
      case None => MockDataOnPosts(keyword, ent); MockData(keyword, ent)
      case Some(i) =>
        AssembleFacts(keyword, fetched.value, ent, i);
        AssembleNeverEmpty(keyword, fetched.value, ent, i);
        Assemble(keyword, fetched.value, i, ent)
  }

  /** `scrapeSearch` as the source runs it: a selector loop with a flag and a break, then nested comment loops. */
  method ScrapeSearch(keyword: string, fetched: Option<Document>, ent: Entropy) returns (r: ScrapingResult)
    ensures r == Search(keyword, fetched, ent)
  {
    if fetched.None? {
      return MockData(keyword, ent);
    }
    var doc := fetched.value;
    var posts: seq<Post> := [];
    var foundPosts := false;
    var s := 0;
    while s < |PostSelectors|
      invariant 0 <= s <= |PostSelectors|
      invariant !foundPosts && posts == []
      invariant forall j | 0 <= j < s :: Select(doc, PostSelectors[j]) == []
    {
      var matched := Select(doc, PostSelectors[s]);
      if |matched| > 0 {
        foundPosts := true;
        posts := CollectPosts(matched, ent);
        break;
      }
      s := s + 1;
    }
    if !foundPosts {
      return MockData(keyword, ent);
    }
    assert FirstMatching(doc, PostSelectors) == Some(s);
    r := AssemblePage(keyword, doc, s, posts, ent);
  }

  /** The second half of `scrapeSearch`: comments for the found posts, the synthetic fill, the result. */
  method AssemblePage(keyword: string, doc: Document, i: nat, posts: seq<Post>, ent: Entropy) returns (r: ScrapingResult)
    requires i < |PostSelectors| && posts == PostsFrom(Select(doc, PostSelectors[i]), ent)
    ensures r == Assemble(keyword, doc, i, ent)
  {
    var comments := CollectPostComments(CommentFrom, doc, posts, ent);
    if |comments| == 0 && |posts| > 0 {
      comments := CollectMockComments(posts[..Min(MockedPosts, |posts|)], keyword, ent);
    }
    r := ScrapingResult(posts, comments, |comments|, |posts| >= PageSize);
  }

  lemma PrefixStep<T>(s: seq<T>, i: nat)
    requires i < |s|
    ensures s[..i + 1] == s[..i] + [s[i]]
  {
  }

  /** The loop over the matched post elements; extraction of a post never fails. */
  method CollectPosts(matched: seq<Element>, ent: Entropy) returns (posts: seq<Post>)
    ensures posts == PostsFrom(matched, ent)
  {
    posts := [];
    var e := 0;
    ghost var all := PostsFrom(matched, ent);
    while e < |matched|
      invariant 0 <= e <= |matched|
      invariant posts == all[..e]
    {
      var post := ExtractPostData(matched[e], ent.post(e));
      PrefixStep(all, e);
      posts := posts + [post];
      e := e + 1;
    }
  }

  lemma PushStep<T>(all: seq<Option<T>>, e: nat, xs: seq<T>, c: Option<T>)
    requires e < |all| && all[e] == c && xs == Present(all[..e])
    ensures (if c.Some? then xs + [c.value] else xs) == Present(all[..e + 1])
  {
    PresentStep(all, e);
  }

  /** The loop over the elements of one comment selector, pushing each comment extraction accepts. */
  method CollectElementComments(extract: Extractor, els: seq<Element>, postId: string, ent: Entropy, pi: nat, si: nat)
    returns (comments: seq<Comment>)
    ensures comments == ElementComments(extract, els, postId, ent, pi, si)
  {
    comments := [];
    var e := 0;
    ghost var all := Extracted(extract, els, postId, ent, pi, si);
    while e < |els|
      invariant 0 <= e <= |els|
      invariant comments == Present(all[..e])
    {
      var c := extract(els[e], postId, ent.comment(pi, si, e));
      PushStep(all, e, comments, c);
      if c.Some? {
        comments := comments + [c.value];
      }
      e := e + 1;
    }
    assert all[..e] == all;
  }

  /** The loop over the comment selectors for one post. */
  method CollectSelectorComments(extract: Extractor, doc: Document, selectors: seq<string>, postId: string, ent: Entropy, pi: nat)
    returns (comments: seq<Comment>)
    ensures comments == SelectorComments(extract, doc, selectors, postId, ent, pi)
  {
    comments := [];
    var s := 0;
    while s < |selectors|
      invariant 0 <= s <= |selectors|
      invariant comments == SelectorComments(extract, doc, selectors[..s], postId, ent, pi)
    {
      var found := CollectElementComments(extract, Select(doc, selectors[s]), postId, ent, pi, s);
      comments := comments + found;
      assert selectors[..s + 1][..s] == selectors[..s];
      s := s + 1;
    }
    assert selectors[..s] == selectors;
  }

  /** The loop over the extracted posts. */
  method CollectPostComments(extract: Extractor, doc: Document, posts: seq<Post>, ent: Entropy) returns (comments: seq<Comment>)
    ensures comments == PostComments(extract, doc, posts, ent)
  {
    comments := [];
    var p := 0;
    while p < |posts|
      invariant 0 <= p <= |posts|
      invariant comments == PostComments(extract, doc, posts[..p], ent)
    {
      var found := CollectSelectorComments(extract, doc, SearchCommentSelectors, posts[p].id, ent, p);
      comments := comments + found;
      assert posts[..p + 1][..p] == posts[..p];
      p := p + 1;
    }
    assert posts[..p] == posts;
  }

  /** The loop that fills in synthetic comments for the first posts. */
  method CollectMockComments(posts: seq<Post>, keyword: string, ent: Entropy) returns (comments: seq<Comment>)
    ensures comments == MockCommentsFor(posts, keyword, ent)
  {
    comments := [];
    var k := 0;
    while k < |posts|
      invariant 0 <= k <= |posts|
      invariant comments == MockCommentsFor(posts[..k], keyword, ent)
    {
      comments := comments + MockCommentsForPost(posts[k], keyword, ent, k);
      assert posts[..k + 1][..k] == posts[..k];
      k := k + 1;
    }
    assert posts[..k] == posts;
  }

  /** The post id `scrapePostComments` attaches: the last path segment of the URL, or "unknown". */
  function PostIdFromUrl(postUrl: string): (id: string)
    ensures LastSegment(postUrl) != [] ==> id == LastSegment(postUrl)
    ensures LastSegment(postUrl) == [] ==> id == "unknown"
    ensures id != []
    ensures '/' !in id || id == "unknown"
  {
    var seg := LastSegment(postUrl);
    if seg != [] then seg else "unknown"
  }

  /** `scrapePostComments(postUrl)` on the outcome of the fetch. */
  function PostPageComments(postUrl: string, fetched: Option<Document>, ent: Entropy): (r: seq<Comment>)
    ensures fetched.None? ==> r == []
    ensures forall c | c in r :: c.postId == PostIdFromUrl(postUrl)
  {
    if fetched.None? then []
    else
      CommentFromKeepsPost();
      SelectorCommentsOnPost(CommentFrom, fetched.value, PostPageCommentSelectors, PostIdFromUrl(postUrl), ent, 0);
      SelectorComments(CommentFrom, fetched.value, PostPageCommentSelectors, PostIdFromUrl(postUrl), ent, 0)
  }

  /** `scrapePostComments` as the source runs it. */
  method ScrapePostComments(postUrl: string, fetched: Option<Document>, ent: Entropy) returns (comments: seq<Comment>)
    ensures comments == PostPageComments(postUrl, fetched, ent)
  {
    if fetched.None? {
      return [];
    }
    var postId := PostIdFromUrl(postUrl);
    comments := CollectSelectorComments(CommentFrom, fetched.value, PostPageCommentSelectors, postId, ent, 0);
  }

  // Properties of the assembled results.

  /** `CommentFrom` attaches the comments it accepts to the post id it is given. */
  lemma CommentFromKeepsPost()
    ensures KeepsPost(CommentFrom)
  {
  }

  /** An element yields a comment when its content and author texts are both non-empty. */
  predicate Accepted(e: Element) {
    CommentText(e) != [] && CommentAuthorName(e) != []
  }

  /** How many of the elements yield a comment. */
  function AcceptedCount(els: seq<Element>): nat {
    if els == [] then 0
    else AcceptedCount(els[..|els| - 1]) + (if Accepted(els[|els| - 1]) then 1 else 0)
  }

  /** How many comments one pass of the given comment selectors yields on a page. */
  function PageAccepted(doc: Document, selectors: seq<string>): nat {
    if selectors == [] then 0
    else PageAccepted(doc, selectors[..|selectors| - 1]) + AcceptedCount(Select(doc, selectors[|selectors| - 1]))
  }

  lemma ExtractedPrefix(extract: Extractor, els: seq<Element>, n: nat, postId: string, ent: Entropy, pi: nat, si: nat)
    requires n <= |els|
    ensures Extracted(extract, els[..n], postId, ent, pi, si) == Extracted(extract, els, postId, ent, pi, si)[..n]
  {
  }

  /** One selector's elements yield exactly the accepted ones. */
  lemma {:induction false} ElementCommentsCount(els: seq<Element>, postId: string, ent: Entropy, pi: nat, si: nat)
    ensures |ElementComments(CommentFrom, els, postId, ent, pi, si)| == AcceptedCount(els)
  {
    var xs := Extracted(CommentFrom, els, postId, ent, pi, si);
    PresentLength(xs);
    ExtractedCount(els, postId, ent, pi, si);
  }

  lemma {:induction false} ExtractedCount(els: seq<Element>, postId: string, ent: Entropy, pi: nat, si: nat)
    ensures PresentCount(Extracted(CommentFrom, els, postId, ent, pi, si)) == AcceptedCount(els)
  {
    if els != [] {
      var n := |els| - 1;
      var xs := Extracted(CommentFrom, els, postId, ent, pi, si);
      ExtractedPrefix(CommentFrom, els, n, postId, ent, pi, si);
      ExtractedCount(els[..n], postId, ent, pi, si);
      assert xs[n] == CommentFrom(els[n], postId, ent.comment(pi, si, n));
    }
  }

  /** All selectors together yield the page's accepted comment elements, selector by selector. */
  lemma {:induction false} SelectorCommentsCount(doc: Document, selectors: seq<string>, postId: string, ent: Entropy, pi: nat)
    ensures |SelectorComments(CommentFrom, doc, selectors, postId, ent, pi)| == PageAccepted(doc, selectors)
  {
    if selectors != [] {
      var n := |selectors| - 1;
      SelectorCommentsCount(doc, selectors[..n], postId, ent, pi);
      ElementCommentsCount(Select(doc, selectors[n]), postId, ent, pi, n);
    }
  }

  /** Every post receives the same number of comments: all the accepted comment elements of the page. */
  lemma {:induction false} PostCommentsCount(doc: Document, posts: seq<Post>, ent: Entropy)
    ensures |PostComments(CommentFrom, doc, posts, ent)| == |posts| * PageAccepted(doc, SearchCommentSelectors)
  {
    if posts != [] {
      var n := |posts| - 1;
      var a := PageAccepted(doc, SearchCommentSelectors);
      PostCommentsCount(doc, posts[..n], ent);
      SelectorCommentsCount(doc, SearchCommentSelectors, posts[n].id, ent, n);
      MulSucc(n, a);
    }
  }

  lemma MulZero(n: nat, a: nat)
    ensures n * a == 0 <==> n == 0 || a == 0
  {
  }

  lemma MulSucc(n: nat, a: nat)
    ensures n * a + a == (n + 1) * a
  {
  }

  /** Every comment found for a post is attached to that post. */
  lemma {:induction false} SelectorCommentsOnPost(
    extract: Extractor, doc: Document, selectors: seq<string>, postId: string, ent: Entropy, pi: nat)
    requires KeepsPost(extract)
    ensures forall c | c in SelectorComments(extract, doc, selectors, postId, ent, pi) :: c.postId == postId
  {
    if selectors != [] {
      var n := |selectors| - 1;
      SelectorCommentsOnPost(extract, doc, selectors[..n], postId, ent, pi);
      var xs := Extracted(extract, Select(doc, selectors[n]), postId, ent, pi, n);
      PresentFrom(xs);
      forall c: Comment | c in Present(xs) ensures c.postId == postId {
        var k :| 0 <= k < |xs| && xs[k] == Some(c);
      }
    }
  }

  /** The ids of a prefix of the posts are ids of the posts, and so is the id of the next one. */
  lemma PostIdsPrefix(posts: seq<Post>, n: nat)
    requires n < |posts|
    ensures PostIds(posts[..n]) <= PostIds(posts)
    ensures posts[n].id in PostIds(posts)
  {
    forall x | x in PostIds(posts[..n]) ensures x in PostIds(posts) {
      var p :| p in posts[..n] && p.id == x;
      assert p in posts;
    }
    assert posts[n] in posts;
  }

  /** Every comment found on a search page is attached to one of the found posts. */
  lemma {:induction false} PostCommentsOnPosts(extract: Extractor, doc: Document, posts: seq<Post>, ent: Entropy)
    requires KeepsPost(extract)
    ensures forall c | c in PostComments(extract, doc, posts, ent) :: c.postId in PostIds(posts)
  {
    if posts != [] {
      var n := |posts| - 1;
      PostCommentsOnPosts(extract, doc, posts[..n], ent);
      SelectorCommentsOnPost(extract, doc, SearchCommentSelectors, posts[n].id, ent, n);
      PostIdsPrefix(posts, n);
    }
  }

  /** The synthetic comments are attached to the first (at most three) posts, four to each. */
  lemma MockFillOnPosts(posts: seq<Post>, keyword: string, ent: Entropy)
    ensures |MockFill(posts, keyword, ent)| == 4 * Min(MockedPosts, |posts|)
    ensures forall k | 0 <= k < |MockFill(posts, keyword, ent)| :: MockFill(posts, keyword, ent)[k].postId == posts[k / 4].id
    ensures forall c | c in MockFill(posts, keyword, ent) :: c.postId in PostIds(posts)
  {
    var m := Min(MockedPosts, |posts|);
    var first := posts[..m];
    var r := MockCommentsFor(first, keyword, ent);
    forall k | 0 <= k < |r| ensures r[k].postId == posts[k / 4].id {
      assert k / 4 < m;
    }
    forall c | c in r ensures c.postId in PostIds(posts) {
      var k :| 0 <= k < |r| && r[k] == c;
      var j := k / 4;
      assert j < m;
      assert posts[j] in posts;
    }
  }

  /** Without a page, or when no post selector matches, `scrapeSearch` returns the synthetic data. */
  lemma SearchFallback(keyword: string, fetched: Option<Document>, ent: Entropy)
    requires fetched.None? || forall i | 0 <= i < |PostSelectors| :: Select(fetched.value, PostSelectors[i]) == []
    ensures Search(keyword, fetched, ent) == MockData(keyword, ent)
  {
  }

  /** When the i-th post selector is the first that matches, `scrapeSearch` assembles that selector's page. */
  lemma SearchFound(keyword: string, doc: Document, ent: Entropy, i: nat)
    requires i < |PostSelectors| && Select(doc, PostSelectors[i]) != []
    requires forall j | 0 <= j < i :: Select(doc, PostSelectors[j]) == []
    ensures Search(keyword, Some(doc), ent) == Assemble(keyword, doc, i, ent)
  {
    assert FirstMatching(doc, PostSelectors) == Some(i);
  }

  /** Every comment reported for the found posts, found or synthetic, is attached to one of them. */
  lemma PageCommentsOnPosts(keyword: string, doc: Document, posts: seq<Post>, ent: Entropy)
    ensures forall c | c in PageComments(keyword, doc, posts, ent) :: c.postId in PostIds(posts)
  {
    CommentFromKeepsPost();
    PostCommentsOnPosts(CommentFrom, doc, posts, ent);
    MockFillOnPosts(posts, keyword, ent);
  }

  /**
   * How many comments are reported for the found posts: every post gets all
   * the page's accepted comment elements; when there are none, the first
   * three posts get four synthetic comments each.
   */
  lemma PageCommentsCount(keyword: string, doc: Document, posts: seq<Post>, ent: Entropy)
    ensures var perPost := PageAccepted(doc, SearchCommentSelectors);
      && (perPost > 0 ==> |PageComments(keyword, doc, posts, ent)| == |posts| * perPost)
      && (perPost == 0 ==> |PageComments(keyword, doc, posts, ent)| == 4 * Min(MockedPosts, |posts|))
  {
    var a := PageAccepted(doc, SearchCommentSelectors);
    PostCommentsCount(doc, posts, ent);
    MulZero(|posts|, a);
    MockFillOnPosts(posts, keyword, ent);
  }

  /**
   * The assembled result holds one post per matched element in order, counts
   * its comments, reports more results for a full page, and attaches every
   * comment to one of its posts.
   */
  lemma AssembleFacts(keyword: string, doc: Document, ent: Entropy, i: nat)
    requires i < |PostSelectors|
    ensures var r := Assemble(keyword, doc, i, ent);
      var matched := Select(doc, PostSelectors[i]);
      && |r.posts| == |matched|
      && (forall k | 0 <= k < |matched| :: r.posts[k] == PostFrom(matched[k], ent.post(k)))
      && r.totalCount == |r.comments|
      && (r.hasMore <==> |matched| >= PageSize)
      && (forall c | c in r.comments :: c.postId in PostIds(r.posts))
  {
    var posts := PostsFrom(Select(doc, PostSelectors[i]), ent);
    PageCommentsOnPosts(keyword, doc, posts, ent);
  }

  /** The mock result attaches its comments to its two posts. */
  lemma MockDataOnPosts(keyword: string, ent: Entropy)
    ensures var r := MockData(keyword, ent);
      forall c | c in r.comments :: c.postId in PostIds(r.posts)
  {
    var r := MockData(keyword, ent);
    forall c | c in r.comments ensures c.postId in PostIds(r.posts) {
      var k :| 0 <= k < |r.comments| && r.comments[k] == c;
      assert r.posts[k / 4] in r.posts;
    }
  }

  /** A page with a matching post selector always reports some comment, found or synthetic. */
  lemma AssembleNeverEmpty(keyword: string, doc: Document, ent: Entropy, i: nat)
    requires i < |PostSelectors| && Select(doc, PostSelectors[i]) != []
    ensures |Assemble(keyword, doc, i, ent).comments| > 0
  {
    var posts := PostsFrom(Select(doc, PostSelectors[i]), ent);
    AssembleFacts(keyword, doc, ent, i);
    PageCommentsCount(keyword, doc, posts, ent);
    var perPost := PageAccepted(doc, SearchCommentSelectors);
    if perPost > 0 {
      PositiveProduct(|posts|, perPost);
    }
  }

  lemma PositiveProduct(a: nat, b: nat)
    requires a > 0 && b > 0
    ensures a * b > 0
  {
  }

  /**
   * `scrapePostComments` yields nothing without a page, and otherwise one
   * comment per accepted comment element of the page.
   */
  lemma PostPageCommentsFacts(postUrl: string, fetched: Option<Document>, ent: Entropy)
    ensures fetched.None? ==> PostPageComments(postUrl, fetched, ent) == []
    ensures fetched.Some? ==>
      |PostPageComments(postUrl, fetched, ent)| == PageAccepted(fetched.value, PostPageCommentSelectors)
  {
    if fetched.Some? {
      SelectorCommentsCount(fetched.value, PostPageCommentSelectors, PostIdFromUrl(postUrl), ent, 0);
    }
  }
}
