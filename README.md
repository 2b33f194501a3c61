# LeadCrush core, modelled in Dafny

LeadCrush finds sales leads on Xiaohongshu (小红书). It has five parts, and
this project models the deterministic logic of each:

- **The scraper.** It searches Xiaohongshu, extracts posts and comments from
  the result page, and parses display counts such as "1.2万".
- **The lead-analysis endpoint.** It validates the keyword, runs the scraper,
  joins every comment with its post for the language model, and rewrites the
  model's summary.
- **The leads page.** It has selection toggles, a favourite flip, a search
  filter and status and score classifiers.
- **The search dashboard.** It handles the state of one search and colours
  the result cards.
- **The authentication middleware.** It decides on redirects and on which
  paths it runs.

The model is organised by module:

| module | file | models |
|---|---|---|
| `Wrappers` | `wrappers.dfy` | `Option`, and the present values of a sequence of options |
| `Text` | `text.dfy` | the JavaScript string operations the code relies on: `trim`, `includes`, ASCII `toLowerCase`, `split("/").pop()`, `replace` of one character, `\|\|` chains, number rendering |
| `Lists` | `lists.dfy` | `filter`, order-preserving sublists, duplicate-free sequences |
| `Counts` | `counts.dfy` | `parseCount` |
| `XhsTypes` | `xhs_types.dfy` | posts, comments, the scraping result, the abstract HTML document, the random and clock values |
| `XhsExtract` | `xhs_extract.dfy` | `extractPostData`, `extractCommentData` |
| `XhsMock` | `xhs_mock.dfy` | `generateMockData`, `generateMockCommentsForPost` |
| `XhsScraper` | `xhs_search.dfy` | `scrapeSearch`, `scrapePostComments` |
| `LeadsPage` | `leads_page.dfy` | the leads page |
| `Middleware` | `middleware.dfy` | the middleware, its path matcher as written, and the matcher corrected (see Findings) |
| `AnalyzeLeads` | `analyze_leads.dfy` | `POST /api/analyze-leads` and the analysis schema |
| `Dashboard` | `dashboard.dfy` | the search dashboard |

**The HTML document.** The fetched page is an abstract value. A
`Document` maps each CSS selector to the elements it selects, in document
order. Each `Element` holds its classes, its attributes, and a map from each
selector to the descendant nodes it finds.

**Randomness and the clock.** Random values and timestamps are inputs. They
come from an `Entropy` record that is indexed by position: the i-th post
element, the e-th element of a comment selector, the k-th synthetic comment.
Each random value has a subset type that carries the source's bound, for
example followers below 10000 and mock likes below 50.

**Imperative code.** Where the source pushes into arrays inside loops, the
model is a `method` with the same loops, proved equal to a specification
function. This covers `scrapeSearch`, `scrapePostComments` and the tag loop of
`extractPostData`. Component state that the pages replace step by step is a
`class`: `LeadsPage.LeadsPageState` and `Dashboard.SearchPage`.

## Model

| member | source | states |
|---|---|---|
| Text.Trim | src/lib/xhsscraper.ts:71 | the trimmed text is a slice of the input with only whitespace before and after it; it starts and ends with non-whitespace, and it is empty exactly when the input is all whitespace |
| Text.ContainsIff | src/app/leads/page.tsx:106-108 | `includes` holds exactly when some slice of the string equals the pattern |
| Text.Lower | src/app/leads/page.tsx:106 | lower-casing keeps the length and maps every character on its own (ASCII only) |
| Text.LastSegment | src/lib/xhsscraper.ts:116 | `split("/").pop()` is the longest suffix without a slash, and the character before it is a slash |
| Text.RemoveFirst | src/lib/xhsscraper.ts:111 | `replace("#", "")` removes the first `#` and keeps everything else in order; without a `#` it changes nothing |
| Text.FirstNonEmpty | src/lib/xhsscraper.ts:70-73 | an `\|\|` chain gives the first non-empty candidate, or the default when every candidate is empty |
| Text.NatToStringRoundTrip | src/app/api/analyze-leads/route.ts:149 | reading a rendered count back as digits gives the count |
| Counts.ParseFloatPrefix | src/lib/xhsscraper.ts:203 | `parseFloat` on the cleaned text reads a number exactly when the text starts with a digit, or with "." and a digit |
| Counts.ParseCount | src/lib/xhsscraper.ts:199-209 | empty text counts 0; the count is NaN exactly when the text contains 万, 千 or k and no number can be read from the cleaned text |
| Counts.FractionParsed | src/lib/xhsscraper.ts:202-203 | "d.f" followed by suffix characters cleans and parses to the exact decimal d.f |
| Counts.Clean | src/lib/xhsscraper.ts:202 | the cleaned text is no longer than the input |
| Counts.CleanMembers | src/lib/xhsscraper.ts:202 | a character survives cleaning exactly when it occurs in the input and is a digit, '.', 万, 千, k or K |
| Counts.CleanIdempotent | src/lib/xhsscraper.ts:202 | cleaning twice is the same as cleaning once |
| Counts.StrippedCharIgnored | src/lib/xhsscraper.ts:199-208 | removing any character other than a digit, '.', 万, 千, k or K leaves the count unchanged, so "1,234" counts like "1234" and a minus sign is ignored |
| Counts.DigitFreeText | src/lib/xhsscraper.ts:200-208 | text without digits, including the empty text, gives NaN when it contains 万, 千 or k, and 0 otherwise |
| Counts.WholeWithSuffix | src/lib/xhsscraper.ts:203-208 | digits followed by suffix characters give the number times 10000 for 万, times 1000 for 千 or lower-case k (万 first), and times 1 otherwise, including for "K" |
| Counts.FractionWithSuffix | src/lib/xhsscraper.ts:203-208 | "d.f" followed by suffix characters gives floor of the exact decimal times the same multiplier |
| Counts.DecimalCount | src/lib/xhsscraper.ts:203-208 | whenever a number parses from the cleaned text, the count is floor of the number times the multiplier |
| Counts.SameCount | src/lib/xhsscraper.ts:199-208 | the count depends only on the cleaned text, on emptiness, and on which of 万, 千 and k occur |
| XhsExtract.Texts | src/lib/xhsscraper.ts:70-103 | one trimmed text per selector of a chain, in chain order |
| XhsExtract.CollectTags | src/lib/xhsscraper.ts:109-113 | the tag loop yields the tag texts in document order, each trimmed with its first "#" removed, with empty ones dropped |
| XhsExtract.NonEmptyKeeps | src/lib/xhsscraper.ts:112 | every non-empty tag text is kept |
| XhsExtract.NonEmptyAppend | src/lib/xhsscraper.ts:110-113 | dropping empty tags commutes with concatenation, so document order is kept |
| XhsExtract.PostIdOf | src/lib/xhsscraper.ts:116 | the id is the href's last path segment when that is non-empty, and otherwise the generated id |
| XhsExtract.AbsoluteUrl | src/lib/xhsscraper.ts:135 | a URL starting with "http" is kept; any other URL is prefixed with the site origin, and the original follows the origin |
| XhsExtract.PostFrom | src/lib/xhsscraper.ts:118-135 | the title, content and author are never empty; username equals nickname; the id follows the rule above and the URL is the href made absolute; the tags are the collected tags; followers are below 10000 and shares below 100 |
| XhsExtract.ExtractPostData | src/lib/xhsscraper.ts:65-141 | the method gives the post that the record function describes |
| XhsExtract.ChainFirst | src/lib/xhsscraper.ts:70-84 | an `\|\|` chain of selectors gives the trimmed text of the first selector whose text is non-empty |
| XhsExtract.PostTitleFirst | src/lib/xhsscraper.ts:70-73 | the title is the text of the first title selector whose text is non-empty |
| XhsExtract.PostContentFirst | src/lib/xhsscraper.ts:75-78 | the content is the text of the first content selector whose text is non-empty |
| XhsExtract.PostAuthorFirst | src/lib/xhsscraper.ts:81-84 | username and nickname are both the text of the first author selector whose text is non-empty |
| XhsExtract.ChainDefault | src/lib/xhsscraper.ts:86-103 | a chain whose selectors all find empty text gives its default |
| XhsExtract.PostDefaults | src/lib/xhsscraper.ts:120-121 | with no title and no content found, the post reads "无标题" and "无内容" |
| XhsExtract.AnonymousAuthor | src/lib/xhsscraper.ts:123-124 | with no author found, username and nickname are both "匿名用户" |
| XhsExtract.CommentFrom | src/lib/xhsscraper.ts:143-197 | no comment exactly when the content or author text is empty; otherwise postId is the argument, content is the non-empty content, username = nickname = author, and isReply holds iff the element has class "reply" or data-reply is "true" |
| XhsExtract.CommentAcceptanceIndependent | src/lib/xhsscraper.ts:175 | whether an element yields a comment does not depend on the post id or on the random values |
| XhsMock.MockCommentsForPost | src/lib/xhsscraper.ts:381-414 | exactly 4 comments, with ids "comment_<post id>_<k>" for k = 0..3, the post's id as postId, not replies, the keyword in the content, likes below 50 and replies below 10 |
| XhsMock.MockCommentsFor | src/lib/xhsscraper.ts:371 | 4 comments per post, and the k-th belongs to post k/4 |
| XhsMock.MockPosts | src/lib/xhsscraper.ts:338-369 | two posts, "post_1" and "post_2", both tagged with the keyword |
| XhsMock.MockData | src/lib/xhsscraper.ts:337-379 | 2 posts and 8 comments, each comment on an existing post; totalCount is 8 and hasMore is false |
| XhsScraper.FirstMatching | src/lib/xhsscraper.ts:236-253 | the first post selector, in list order, that selects at least one element; none exactly when every selector selects nothing |
| XhsScraper.PostsFrom | src/lib/xhsscraper.ts:245-250 | one post per matched element |
| XhsScraper.Search | src/lib/xhsscraper.ts:211-297 | the search result always holds at least one comment, totalCount is the number of comments, and every comment is on one of the returned posts |
| XhsScraper.ScrapeSearch | src/lib/xhsscraper.ts:211-297 | the loop with its flag and break gives the search result that the specification function describes |
| XhsScraper.AssemblePage | src/lib/xhsscraper.ts:261-289 | the comment loops, the mock fill and the result record give the assembled result |
| XhsScraper.CollectPosts | src/lib/xhsscraper.ts:245-250 | the `.each` loop collects one post per matched element, in order |
| XhsScraper.CollectElementComments | src/lib/xhsscraper.ts:266-271 | the `.each` loop pushes exactly the extracted comments, in order |
| XhsScraper.CollectSelectorComments | src/lib/xhsscraper.ts:265-272 | the selector loop appends each selector's comments, in selector order |
| XhsScraper.CollectPostComments | src/lib/xhsscraper.ts:262-273 | the post loop appends, for every post, one pass over the comment selectors |
| XhsScraper.CollectMockComments | src/lib/xhsscraper.ts:278-281 | the mock loop pushes 4 comments per post |
| XhsScraper.SearchFallback | src/lib/xhsscraper.ts:255-259 | a failed fetch, or a page where no post selector matches, gives exactly the mock data |
| XhsScraper.SearchFound | src/lib/xhsscraper.ts:239-253 | posts come from the first matching selector only; later selectors are ignored |
| XhsScraper.ElementCommentsCount | src/lib/xhsscraper.ts:266-271 | one comment per element with non-empty content and author |
| XhsScraper.SelectorCommentsCount | src/lib/xhsscraper.ts:265-272 | a pass over the comment selectors yields the number of accepted elements over all selectors |
| XhsScraper.PostCommentsCount | src/lib/xhsscraper.ts:262-273 | every accepted comment element is appended once per post, so there are \|posts\| times the per-pass count |
| XhsScraper.SelectorCommentsOnPost | src/lib/xhsscraper.ts:267 | comments gathered for a post carry that post's id |
| XhsScraper.PostCommentsOnPosts | src/lib/xhsscraper.ts:262-273 | every gathered comment refers to one of the posts |
| XhsScraper.MockFillOnPosts | src/lib/xhsscraper.ts:276-282 | the fill holds 4 × min(3, \|posts\|) comments, and the k-th is on post k/4 |
| XhsScraper.AssembleNeverEmpty | src/lib/xhsscraper.ts:261-282 | a page with matching posts reports at least one comment, found or synthetic |
| XhsScraper.MockDataOnPosts | src/lib/xhsscraper.ts:337-379 | every mock comment is on one of the two mock posts |
| XhsScraper.PageCommentsCount | src/lib/xhsscraper.ts:262-282 | with accepted comment elements, \|posts\| × per-pass comments; with none, 4 × min(3, \|posts\|) mock comments |
| XhsScraper.PageCommentsOnPosts | src/lib/xhsscraper.ts:262-282 | every reported comment refers to one of the posts found |
| XhsScraper.AssembleFacts | src/lib/xhsscraper.ts:284-289 | one post per matched element, in order; totalCount = \|comments\|; hasMore iff at least 20 elements matched; every comment is on a listed post |
| XhsScraper.PostIdFromUrl | src/lib/xhsscraper.ts:317 | the id is the last path segment when that is non-empty, and "unknown" otherwise; it is never empty |
| XhsScraper.ScrapePostComments | src/lib/xhsscraper.ts:299-335 | the loops give the post-page comments that the specification function describes |
| XhsScraper.PostPageComments | src/lib/xhsscraper.ts:299-335 | a failed fetch gives no comments, and every comment carries the id derived from the URL |
| XhsScraper.PostPageCommentsFacts | src/lib/xhsscraper.ts:316-333 | a failed fetch gives no comments; otherwise one comment per accepted element over the four selectors |
| XhsScraper.CommentFromKeepsPost | src/lib/xhsscraper.ts:181 | an extracted comment carries the post id it was extracted for |
| Lists.Filter | src/app/leads/page.tsx:87 | the kept elements all pass the test, and there are no more of them than in the input |
| Lists.FilterMembers | src/app/leads/page.tsx:87 | an element is kept exactly when it occurs and passes the test |
| Lists.FilterIsSublist | src/app/leads/page.tsx:104 | `filter` keeps the relative order |
| Lists.FilterCount | src/app/leads/page.tsx:104 | every element that passes is kept as many times as it occurs, and nothing else is kept |
| Lists.FilterAll | src/app/leads/page.tsx:104 | a filter that every element passes keeps the whole sequence |
| Lists.NoDupCard | src/app/leads/page.tsx:256 | a duplicate-free sequence has as many distinct elements as its length |
| LeadsPage.Ids | src/app/leads/page.tsx:81 | one id per lead, in lead order |
| LeadsPage.LeadsPageState.constructor | src/app/leads/page.tsx:65-67 | the page starts with the given leads, no selection and an empty query, and it starts valid when the leads have distinct ids |
| LeadsPage.LeadsPageState.ToggleSelectAll | src/app/leads/page.tsx:77-83 | when the selection is as long as the lead list it becomes empty, and otherwise it becomes all lead ids in order; leads and query are unchanged; validity is kept |
| LeadsPage.LeadsPageState.ToggleSelectLead | src/app/leads/page.tsx:85-91 | a selected id has every occurrence removed, and an unselected id is appended; membership of that id flips and no other id changes |
| LeadsPage.LeadsPageState.ToggleFavorite | src/app/leads/page.tsx:93-102 | the leads become the favourite-toggled leads; ids, selection and query are unchanged |
| LeadsPage.Flipped | src/app/leads/page.tsx:97 | the favourite flag is negated, an absent flag becomes true, and every other field of the lead is kept |
| LeadsPage.FavoriteToggled | src/app/leads/page.tsx:94-101 | same length and order; leads with the id are flipped and all others are unchanged |
| LeadsPage.FavoriteTwice | src/app/leads/page.tsx:93-102 | toggling twice restores every favourite flag, and every lead whose flag was set |
| LeadsPage.Filtered | src/app/leads/page.tsx:104-109 | `filteredLeads`, whose properties are stated by FilteredSpec |
| LeadsPage.FilteredSpec | src/app/leads/page.tsx:104-109 | the filtered leads are an order-preserving sublist; a lead is kept iff its lower-cased name, content or some tag contains the lower-cased query, and then as many times as it occurs |
| LeadsPage.EmptyQueryKeepsAll | src/app/leads/page.tsx:104-109 | an empty query keeps every lead |
| LeadsPage.StatusText | src/app/leads/page.tsx:128-143 | `getStatusText`, whose properties are stated by StatusTextSpec |
| LeadsPage.StatusColor | src/app/leads/page.tsx:111-126 | `getStatusColor`, whose properties are stated by StatusColorSpec |
| LeadsPage.StatusTextSpec | src/app/leads/page.tsx:128-143 | "未分类" exactly for statuses outside the five named ones, and the five named statuses get five distinct labels |
| LeadsPage.StatusColorSpec | src/app/leads/page.tsx:111-126 | gray exactly for "lost" and for every unnamed status |
| LeadsPage.ScoreColor | src/app/leads/page.tsx:145-150 | green iff ≥ 90, blue iff in [80, 90), yellow iff in [70, 80), orange iff < 70 |
| LeadsPage.AllCheckedMeansAllSelected | src/app/leads/page.tsx:256 | on a valid state the checkbox is checked iff there are leads and every lead is selected |
| LeadsPage.WithoutKeepsNoDup | src/app/leads/page.tsx:87 | removing an id keeps the selection free of duplicates |
| Middleware.Decide | middleware.ts:5-28 | redirect to "/" iff public and authenticated; redirect to "/login" iff not public and not authenticated; pass through otherwise |
| Middleware.NoRedirectLoop | middleware.ts:19-27 | the target of a redirect, requested with the same cookie, passes through |
| Middleware.Matched | middleware.ts:40 | the matcher as written, with `.` matching any character but a line terminator; its behaviour is stated by MatcherDifference |
| Middleware.MatchedIntended | middleware.ts:40 | the matcher as its comment describes it, skipping the four literal prefixes; compared by MatcherDifference |
| Middleware.MatcherDifference | middleware.ts:40 | the matcher as written and the one its comment describes differ exactly on paths "/favicon?ico…" whose "?" is not a dot |
| Middleware.FaviconLookaheadTooWide | middleware.ts:40 | "/favicon_icons" skips the middleware as written, although without a cookie it should be redirected to "/login" |
| Middleware.Run | middleware.ts:5-40 | a path outside the corrected matcher passes through; a matched path gets the decision of the middleware |
| Middleware.RunNoRedirectLoop | middleware.ts:19-40 | with the corrected matcher in front of the decision, a redirect's target passes through, so a request is redirected at most once |
| Middleware.RunGuardsFaviconLookalike | middleware.ts:40 | with the corrected matcher, a signed-out request for "/favicon_icons" is redirected to "/login" |
| AnalyzeLeads.ValidLead | src/app/api/analyze-leads/route.ts:8-22 | a lead fits the schema: score in [0, 100], engagement, intent and contact levels among the allowed labels |
| AnalyzeLeads.ValidAnalysis | src/app/api/analyze-leads/route.ts:7-31 | every lead of the analysis fits the schema |
| AnalyzeLeads.FirstWithId | src/app/api/analyze-leads/route.ts:63 | the index of the first post with the id, or none exactly when no post has it |
| AnalyzeLeads.CommentsData | src/app/api/analyze-leads/route.ts:62-76 | one record per comment |
| AnalyzeLeads.CommentsDataJoin | src/app/api/analyze-leads/route.ts:62-76 | the k-th record is numbered k + 1 and copies its comment; title, URL and followers come from the first post with the comment's postId, an empty title reads "未知帖子", and with no such post they are "未知帖子", "" and 0 |
| AnalyzeLeads.FinalResult | src/app/api/analyze-leads/route.ts:145-151 | leads and every summary field are kept, except the scraping status, which is built from the post and comment counts |
| AnalyzeLeads.ScrapingStatusDeterminesCounts | src/app/api/analyze-leads/route.ts:149 | two equal status strings have equal post counts and equal comment counts |
| AnalyzeLeads.KeywordIsRequired | src/app/api/analyze-leads/route.ts:37-39 | status 400 with "Keyword is required" exactly for a missing or empty keyword, whatever the scraper and the model would do |
| AnalyzeLeads.EmptyScrapeShortCircuits | src/app/api/analyze-leads/route.ts:48-59 | no scraped comments: 200 with no leads, all counts 0, no keywords and status "未找到相关评论数据" |
| AnalyzeLeads.AnswerKeepsModelOutput | src/app/api/analyze-leads/route.ts:144-155 | a valid model answer is returned with its leads and summary, and only the scraping status replaced |
| AnalyzeLeads.Handle | src/app/api/analyze-leads/route.ts:33-166 | replies are 200, 400 or 500; 200 exactly for an answer, and every answer satisfies the schema; a 500 says "Failed to analyze leads" with details |
| AnalyzeLeads.FailuresReportTheirCause | src/app/api/analyze-leads/route.ts:156-164 | an unreadable body, a failed model call or an answer outside the schema gives a 500 whose details are the error's message, or "Unknown error" |
| Dashboard.SearchPage.constructor | src/app/page.tsx:68-73 | the initial query is "宝宝保险"; not searching, no results, no summary, no error, no search made |
| Dashboard.SearchPage.SetQuery | src/app/page.tsx:68 | only the query changes |
| Dashboard.SearchPage.Begin | src/app/page.tsx:76-80 | a blank trimmed query changes nothing; otherwise searching, no error, and a search made |
| Dashboard.SearchPage.Complete | src/app/page.tsx:82-107 | results and summary are set on success, the error on failure, and searching ends on every path |
| Dashboard.SearchPage.HandleSearch | src/app/page.tsx:75-108 | a no-op for a blank query; otherwise the outcome is shown, the error is cleared before a success, and the page is no longer searching |
| Dashboard.Settle | src/app/page.tsx:82-107 | an ok reply whose body reads shows its leads (none when absent) and its summary; a readable reply that is not ok shows its details, or "Failed to analyze leads" when they are absent or empty; a failed request or an unreadable body shows the caught message |
| Dashboard.NothingShownBeforeSearch | src/app/page.tsx:279-337 | on a valid page, the error banner, the summary panel and the results panel all stay hidden until the first search |
| Dashboard.CaughtMessage | src/app/page.tsx:103 | an Error's message, or "分析失败，请稍后重试" |
| Dashboard.SettleHandlerReplies | src/app/page.tsx:94-101 | an answer from the endpoint shows its leads and summary; an error reply shows its details, or "Failed to analyze leads" when they are absent or empty |
| Dashboard.SearchAgainstHandler | src/app/page.tsx:75-108 | against the endpoint, a query the page sends is never refused as missing; results are shown exactly for a 200, every shown lead fits the schema, and a failure shows the handler's details or the default message |
| Dashboard.ScoreColor | src/app/page.tsx:137-142 | green iff ≥ 90, blue iff in [80, 90), yellow iff in [70, 80), orange iff < 70 |
| Dashboard.ScoreBandsAgree | src/app/page.tsx:137-142 | the dashboard and the leads page put every score in the same band |
| Dashboard.IntentColor | src/app/page.tsx:144-155 | red iff 极高, orange iff 高, yellow iff 中, gray for anything else |
| Dashboard.ContactColor | src/app/page.tsx:157-166 | green iff 高, yellow iff 中, gray for anything else |
| Dashboard.SchemaLevelsColoured | src/app/page.tsx:144-166 | on a schema-valid lead, gray means exactly the level 低 |
| Dashboard.UseMockData | src/app/page.tsx:64-65 | `USE_MOCK_DATA`: the flag is exactly "true", or the backend URL is unset or empty |
| Dashboard.MockFlagDecides | src/app/page.tsx:64-65 | the mock flag "true" turns on the mock labels and styling, an unset backend URL does too, and with a backend URL set only the flag decides |

## Left out

- The network. `fetch`, HTTP status handling and `response.text()` are left
  out. A fetch outcome is an input: `None` stands for any failure, including a
  thrown error in `scrapeSearch`, which ends in the mock data.
- Cheerio and CSS selector matching. The document is an abstract map from
  selectors to elements. `.text()` of a set of matches is the concatenation of
  their texts, and `.attr()` reads the first match.
- Randomness and the clock. `Math.random`, `Date.now` and `toISOString` are
  replaced by positional draws from an `Entropy` record, each within its
  source bound. The generated post id is one draw, so its format is not
  modelled.
- The `delay` sleeps, the `page` parameter, the search URL and the request
  headers are left out.
- Floating point in `parseCount`. Numbers are exact decimals, so a count is
  floor of the exact value times the multiplier. JavaScript's binary floats can
  be one lower on inputs such as "1.15千".
- Unicode `toLowerCase`. Lower-casing is ASCII only.
- The catch blocks of `extractPostData` and `extractCommentData`. Extraction
  is total in the model, so they cannot run.
- The language model, its prompt text and Zod's internals. The model call is a
  parameter. An answer outside the schema becomes a thrown error, whose exact
  message is not modelled.
- AnalyzeLeads.Handle: the request body's `keyword` is a string or absent. A
  non-string JSON value is not modelled, and neither is the failure of
  destructuring a `null` body, which is treated like any unreadable body.
- AnalyzeLeads.FinalResult: a schema-valid answer is assumed to hold only the
  schema's fields. Zod strips any extra fields, and that step is not modelled.
- Dashboard.SearchPage: the page's `Lead` interface declares backend fields
  that the endpoint does not return. The model shows the endpoint's lead
  records instead.
- Dashboard.SearchPage.HandleSearch: the asynchronous gap between `Begin` and
  `Complete` is two method calls. Interleaving with other events is not
  modelled.
- The follow, like, collect and comment buttons of the dashboard call
  `src/lib/xiaohongshu-api.ts`, which is not part of this model.
- The leads page's random initial status, favourite, last contact and
  assignee. The constructor takes the initial leads as given.
- The rendering and JSX of every page, and the analytics and settings pages.
  `USE_MOCK_DATA` only picks the dashboard's mock or live labels and styles
  (src/app/page.tsx:185-400), so only the flag's value is modelled.
- The route's branch for an empty scrape (src/app/api/analyze-leads/route.ts:48-59)
  is modelled, but the modelled scraper never reaches it, because `Search`
  always reports a comment. In the source it is reached only when every post
  element fails in the catch block of `extractPostData`.
- `scrapeSearch` comment extraction is stated for an arbitrary extractor whose
  comments carry the post id they were given. The counting lemmas instantiate
  it with `extractCommentData`.

## Findings

| source | as written | input that shows it | evidently intended | confidence | as-written member | corrected member |
|---|---|---|---|---|---|---|
| middleware.ts:40 | the lookahead alternative `favicon.ico` has an unescaped `.`, which matches any character, so every path starting with "favicon", one character and "ico" skips the middleware | "/favicon_icons" is served without sign-in | skip only "/favicon.ico…", as the comment above the matcher says | medium, not executed | Middleware.FaviconLookaheadTooWide | Middleware.RunGuardsFaviconLookalike |
