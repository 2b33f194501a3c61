/**
 * The lead-analysis endpoint (`POST /api/analyze-leads`): request
 * validation, the empty-result short-circuit, the join of scraped comments
 * with their posts that feeds the language model, the schema the model's
 * answer must satisfy, and the summary rewrite of the final answer.
 *
 * The scraper and the language model are parameters: `scrape` maps a
 * keyword to what the scraper returns, `generate` maps the keyword and the
 * joined comment records to what the model produces.
 */
module AnalyzeLeads {
  import opened Wrappers
  import opened Text
  import opened Counts
  import opened XhsTypes

  const Engagements: set<string> := {"新用户", "活跃用户", "中等活跃", "高活跃"}
  const IntentLevels: set<string> := {"低", "中", "高", "极高"}
  const ContactLevels: set<string> := {"低", "中", "高"}

  const KeywordRequired: string := "Keyword is required"
  const NoComments: string := "未找到相关评论数据"
  const UnknownPost: string := "未知帖子"
  const AnalysisFailed: string := "Failed to analyze leads"
  const UnknownError: string := "Unknown error"
  /** Stands for the message of the error `generateObject` throws when the answer does not fit the schema. */
  const SchemaMismatch: string := "No object generated: response did not match schema."

  /** One element of `leads` in the analysis schema. */
  datatype AnalyzedLead = AnalyzedLead(
    username: string,
    nickname: string,
    comment: string,
    postTitle: string,
    postUrl: string,
    aiAnalysis: string,
    leadScore: real,
    tags: seq<string>,
    engagement: string,
    intentLevel: string,
    contactPotential: string,
    followersCount: Option<real>)

  datatype Summary = Summary(
    totalAnalyzed: real,
    highQualityLeads: real,
    averageScore: real,
    topKeywords: seq<string>,
    scrapingStatus: string)

  datatype Analysis = Analysis(leads: seq<AnalyzedLead>, summary: Summary)

  /** The value constraints of the lead schema: the score range and the three enumerations. */
  predicate ValidLead(l: AnalyzedLead) {
    0.0 <= l.leadScore <= 100.0
    && l.engagement in Engagements
    && l.intentLevel in IntentLevels
    && l.contactPotential in ContactLevels
  }

  /** `LeadAnalysisSchema` accepts the analysis. */
  predicate ValidAnalysis(a: Analysis) {
    forall i | 0 <= i < |a.leads| :: ValidLead(a.leads[i])
  }

  /** A thrown value: an `Error` with its message, or anything else. */
  datatype Thrown = ErrorWithMessage(message: string) | NonError

  /** What `request.json()` yields: a failure, or a body whose `keyword` is a string or absent. */
  datatype RequestBody = Malformed(cause: Thrown) | Json(keyword: Option<string>)

  /** What the model call yields: an object to be checked against the schema, or a thrown value. */
  datatype Generation = Generated(analysis: Analysis) | Failed(cause: Thrown)

  /** One record of `commentsData`, the material of the prompt. */
  datatype CommentData = CommentData(
    index: nat,
    username: string,
    nickname: string,
    comment: string,
    postTitle: string,
    postUrl: string,
    likes: Count,
    replies: Count,
    createdAt: string,
    authorFollowers: nat)

  datatype ResponseBody = Answer(analysis: Analysis) | ErrorReply(error: string, details: Option<string>)

  datatype Response = Response(status: nat, body: ResponseBody)

  /** `posts.findIndex(p => p.id === id)`, as an option. */
  function FirstWithId(posts: seq<Post>, id: string): (r: Option<nat>)
    ensures r.None? <==> forall i | 0 <= i < |posts| :: posts[i].id != id
    ensures r.Some? ==>
      r.value < |posts| && posts[r.value].id == id && forall j | 0 <= j < r.value :: posts[j].id != id
  {
    if posts == [] then None
    else if posts[0].id == id then Some(0)
    else
      var rest := FirstWithId(posts[1..], id);
      if rest.None? then None else Some(rest.value + 1)
  }

  /** The `commentsData` record of comment `c`, numbered `index`, joined with the first post carrying its `postId`. */
  function CommentEntry(c: Comment, posts: seq<Post>, index: nat): CommentData {
    var found := FirstWithId(posts, c.postId);
    var title := if found.Some? then posts[found.value].title else "";
    var url := if found.Some? then posts[found.value].url else "";
    var followers := if found.Some? then posts[found.value].author.followers else 0;
    CommentData(
      index, c.author.username, c.author.nickname, c.content,
      if title != "" then title else UnknownPost, url,
      c.likes, c.replies, c.createdAt, followers)
  }

  /** `scrapingResult.comments.map(...)`. */
  function CommentsData(result: ScrapingResult): (ds: seq<CommentData>)
    ensures |ds| == |result.comments|
  {
    seq(|result.comments|, k requires 0 <= k < |result.comments| => CommentEntry(result.comments[k], result.posts, k + 1))
  }

  /** The scraping status reported with every non-empty answer. */
  function ScrapingStatus(posts: nat, comments: nat): string {
    StatusHead + NatToString(posts) + StatusMiddle + NatToString(comments) + StatusTail
  }

  const StatusHead: string := "成功抓取 "
  const StatusMiddle: string := " 个帖子，"
  const StatusTail: string := " 条评论"

  /** The answer when nothing was scraped. */
  function EmptyAnalysis(): Analysis {
    Analysis([], Summary(0.0, 0.0, 0.0, [], NoComments))
  }

  /** `finalResult`: the model's answer with its scraping status replaced. */
  function FinalResult(a: Analysis, result: ScrapingResult): (f: Analysis)
    ensures f.leads == a.leads
    ensures f.summary.totalAnalyzed == a.summary.totalAnalyzed
    ensures f.summary.highQualityLeads == a.summary.highQualityLeads
    ensures f.summary.averageScore == a.summary.averageScore
    ensures f.summary.topKeywords == a.summary.topKeywords
    ensures f.summary.scrapingStatus == ScrapingStatus(|result.posts|, |result.comments|)
  {
    a.(summary := a.summary.(scrapingStatus := ScrapingStatus(|result.posts|, |result.comments|)))
  }

  /** The `details` of a 500 reply. */
  function Details(e: Thrown): string {
    if e.ErrorWithMessage? then e.message else UnknownError
  }

  function Failure(e: Thrown): Response {
    Response(500, ErrorReply(AnalysisFailed, Some(Details(e))))
  }

  /** `!keyword`: absent or the empty string. */
  predicate KeywordMissing(keyword: Option<string>) {
    keyword.None? || keyword.value == ""
  }

  /**
   * The handler. Every 200 reply carries an analysis that satisfies the
   * schema, and every other reply is a 400, or a 500 error saying "Failed to
   * analyze leads" with details.
   */
  function Handle(
    request: RequestBody,
    scrape: string -> ScrapingResult,
    generate: (string, seq<CommentData>) -> Generation): (r: Response)
    ensures r.status == 200 || r.status == 400 || r.status == 500
    ensures r.status == 200 <==> r.body.Answer?
    ensures r.body.Answer? ==> ValidAnalysis(r.body.analysis)
    ensures r.status == 500 ==> r.body.error == AnalysisFailed && r.body.details.Some?
  {
    if request.Malformed? then Failure(request.cause)
    else if KeywordMissing(request.keyword) then Response(400, ErrorReply(KeywordRequired, None))
    else
      var keyword := request.keyword.value;
      var result := scrape(keyword);
      if |result.comments| == 0 then Response(200, Answer(EmptyAnalysis()))
      else match generate(keyword, CommentsData(result))
        case Failed(e) => Failure(e)
        case Generated(a) =>
          if !ValidAnalysis(a) then Failure(ErrorWithMessage(SchemaMismatch))
          else Response(200, Answer(FinalResult(a, result)))
  }

  /** A missing or empty keyword is refused with 400 whatever the scraper and the model would do. */
  lemma KeywordIsRequired(
    request: RequestBody,
    scrape: string -> ScrapingResult,
    generate: (string, seq<CommentData>) -> Generation)
    ensures Handle(request, scrape, generate).status == 400
      <==> request.Json? && KeywordMissing(request.keyword)
    ensures request.Json? && KeywordMissing(request.keyword) ==>
      Handle(request, scrape, generate) == Response(400, ErrorReply(KeywordRequired, None))
  {
  }

  /** Nothing scraped: an empty analysis with zero counts, and the model is not consulted. */
  lemma EmptyScrapeShortCircuits(
    keyword: string,
    scrape: string -> ScrapingResult,
    generate: (string, seq<CommentData>) -> Generation)
    requires keyword != "" && |scrape(keyword).comments| == 0
    ensures var r := Handle(Json(Some(keyword)), scrape, generate);
      && r.status == 200 && r.body.Answer?
      && r.body.analysis.leads == []
      && r.body.analysis.summary == Summary(0.0, 0.0, 0.0, [], NoComments)
  {
  }

  /**
   * A body that cannot be read, a failed model call and an answer outside
   * the schema each give a 500 whose details are the error's message, or
   * "Unknown error" for a thrown value that is not an `Error`.
   */
  lemma FailuresReportTheirCause(
    request: RequestBody,
    scrape: string -> ScrapingResult,
    generate: (string, seq<CommentData>) -> Generation)
    ensures var r := Handle(request, scrape, generate);
      && (request.Malformed? ==> r == Failure(request.cause))
      && (request.Json? && !KeywordMissing(request.keyword) && |scrape(request.keyword.value).comments| > 0 ==>
            var g := generate(request.keyword.value, CommentsData(scrape(request.keyword.value)));
            && (g.Failed? ==> r == Failure(g.cause))
            && (g.Generated? && !ValidAnalysis(g.analysis) ==> r == Failure(ErrorWithMessage(SchemaMismatch))))
    ensures forall m: string :: Failure(ErrorWithMessage(m)).body.details == Some(m)
    ensures Failure(NonError).body.details == Some(UnknownError)
  {
  }

  /** A successful analysis keeps the model's leads and summary, except for the scraping status. */
  lemma AnswerKeepsModelOutput(
    keyword: string,
    scrape: string -> ScrapingResult,
    generate: (string, seq<CommentData>) -> Generation)
    requires keyword != "" && |scrape(keyword).comments| > 0
    requires generate(keyword, CommentsData(scrape(keyword))).Generated?
    requires ValidAnalysis(generate(keyword, CommentsData(scrape(keyword))).analysis)
    ensures var a := generate(keyword, CommentsData(scrape(keyword))).analysis;
      var result := scrape(keyword);
      var r := Handle(Json(Some(keyword)), scrape, generate);
      && r == Response(200, Answer(r.body.analysis))
      && r.body.analysis.leads == a.leads
      && r.body.analysis.summary == a.summary.(scrapingStatus := ScrapingStatus(|result.posts|, |result.comments|))
  {
  }

  /**
   * The k-th record of `commentsData` is numbered k + 1, copies its comment,
   * and takes title, URL and follower count from the first post with the
   * comment's `postId`; with no such post they are "未知帖子", "" and 0.
   */
  lemma CommentsDataJoin(result: ScrapingResult, k: nat)
    requires k < |result.comments|
    ensures var d := CommentsData(result)[k];
      var c := result.comments[k];
      && d.index == k + 1
      && d.username == c.author.username && d.nickname == c.author.nickname
      && d.comment == c.content && d.likes == c.likes && d.replies == c.replies
      && d.createdAt == c.createdAt
      && ((forall i | 0 <= i < |result.posts| :: result.posts[i].id != c.postId) ==>
            d.postTitle == UnknownPost && d.postUrl == "" && d.authorFollowers == 0)
      && (forall i | 0 <= i < |result.posts| && result.posts[i].id == c.postId
            && (forall j | 0 <= j < i :: result.posts[j].id != c.postId) ::
            && d.postTitle == (if result.posts[i].title != "" then result.posts[i].title else UnknownPost)
            && d.postUrl == result.posts[i].url
            && d.authorFollowers == result.posts[i].author.followers)
  {
    var c := result.comments[k];
    var found := FirstWithId(result.posts, c.postId);
    forall i | 0 <= i < |result.posts| && result.posts[i].id == c.postId
      && (forall j | 0 <= j < i :: result.posts[j].id != c.postId)
      ensures found == Some(i)
    {
      assert found.Some?;
    }
  }

  /** Two digit strings followed by text that does not start with a digit split the same way. */
  lemma {:induction false} DigitsSplit(x: string, r1: string, y: string, r2: string)
    requires AllDigits(x) && AllDigits(y) && x + r1 == y + r2
    requires r1 == [] || !IsDigit(r1[0])
    requires r2 == [] || !IsDigit(r2[0])
    ensures x == y && r1 == r2
    decreases |x|
  {
    if x == [] {
      assert r1 == y + r2;
    } else if y == [] {
      DigitsSplit(y, r2, x, r1);
    } else {
      assert x[0] == (x + r1)[0] == (y + r2)[0] == y[0];
      assert x[1..] + r1 == (x + r1)[1..] == (y + r2)[1..] == y[1..] + r2;
      DigitsSplit(x[1..], r1, y[1..], r2);
    }
  }

  /** Two digit strings placed between the same separators, each starting with a non-digit, can be read back. */
  lemma SeparatedDigits(head: string, p: string, mid: string, c: string, tail: string, p': string, c': string)
    requires AllDigits(p) && AllDigits(c) && AllDigits(p') && AllDigits(c')
    requires mid != [] && !IsDigit(mid[0]) && tail != [] && !IsDigit(tail[0])
    requires head + p + mid + c + tail == head + p' + mid + c' + tail
    ensures p == p' && c == c'
  {
    var s, s' := head + p + mid + c + tail, head + p' + mid + c' + tail;
    assert s[|head|..] == p + (mid + c + tail);
    assert s'[|head|..] == p' + (mid + c' + tail);
    DigitsSplit(p, mid + c + tail, p', mid + c' + tail);
    assert c + tail == (mid + c + tail)[|mid|..];
    assert c' + tail == (mid + c' + tail)[|mid|..];
    DigitsSplit(c, tail, c', tail);
  }

  /** The scraping status determines both counts: they can be read back from it. */
  lemma ScrapingStatusDeterminesCounts(posts: nat, comments: nat, posts': nat, comments': nat)
    requires ScrapingStatus(posts, comments) == ScrapingStatus(posts', comments')
    ensures posts == posts' && comments == comments'
  {
    assert StatusMiddle[0] == ' ' && StatusTail[0] == ' ';
    SeparatedDigits(StatusHead, NatToString(posts), StatusMiddle, NatToString(comments), StatusTail,
      NatToString(posts'), NatToString(comments'));
    NatToStringRoundTrip(posts);
    NatToStringRoundTrip(posts');
    NatToStringRoundTrip(comments);
    NatToStringRoundTrip(comments');
  }
}
