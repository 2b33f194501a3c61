/**
 * The search dashboard (the home page): the state `handleSearch` moves
 * through, the colour classifiers of the result cards, and the mock-data
 * flag read from the environment, which picks the page's mock or live
 * labels and styling; the search itself always goes to the endpoint.
 *
 * The page talks to the lead-analysis endpoint; what its `fetch` comes back
 * with is a parameter of the search.
 */
module Dashboard {
  import opened Wrappers
  import opened Text
  import opened AnalyzeLeads
  import XhsTypes
  import LeadsPage

  const InitialQuery: string := "宝宝保险"
  const DefaultFailure: string := "Failed to analyze leads"
  const GenericFailure: string := "分析失败，请稍后重试"

  const Green: string := "bg-green-100 text-green-800"
  const Blue: string := "bg-blue-100 text-blue-800"
  const Yellow: string := "bg-yellow-100 text-yellow-800"
  const Orange: string := "bg-orange-100 text-orange-800"
  const Red: string := "bg-red-100 text-red-800"
  const Gray: string := "bg-gray-100 text-gray-800"

  /** The body of a reply, as `response.json()` reads it: a failure, or the fields the page looks at. */
  datatype ReplyJson =
    | Unreadable(cause: Thrown)
    | Fields(leads: Option<seq<AnalyzedLead>>, summary: Option<Summary>, details: Option<string>)

  /** How the request to the endpoint ends: `fetch` throws, or a reply arrives. */
  datatype FetchOutcome = Threw(cause: Thrown) | Reply(ok: bool, json: ReplyJson)

  /** Where `handleSearch` lands: results to show, or an error message. */
  datatype Settled = Loaded(leads: seq<AnalyzedLead>, summary: Option<Summary>) | Errored(message: string)

  /** The catch block's message: an `Error`'s own message, or the generic one. */
  function CaughtMessage(e: Thrown): (m: string)
    ensures e.ErrorWithMessage? ==> m == e.message
    ensures e.NonError? ==> m == GenericFailure
  {
    if e.ErrorWithMessage? then e.message else GenericFailure
  }

  /**
   * The try block of `handleSearch` after the request: a reply that is not
   * ok throws `details` (or the default when it is empty or absent); an ok
   * reply yields `leads || []` and `summary || null`; anything thrown on the
   * way is caught.
   */
  function Settle(outcome: FetchOutcome): (s: Settled)
    ensures s.Loaded? <==> outcome.Reply? && outcome.ok && outcome.json.Fields?
    ensures outcome.Reply? && outcome.ok && outcome.json.Fields? ==>
      s == Loaded(outcome.json.leads.GetOr([]), outcome.json.summary)
    ensures outcome.Reply? && !outcome.ok && outcome.json.Fields? ==>
      && s.Errored? && s.message != ""
      && s == Errored(
           if outcome.json.details.Some? && outcome.json.details.value != "" then outcome.json.details.value
           else DefaultFailure)
    ensures outcome.Threw? ==> s == Errored(CaughtMessage(outcome.cause))
    ensures outcome.Reply? && outcome.json.Unreadable? ==> s == Errored(CaughtMessage(outcome.json.cause))
  {
    match outcome
    case Threw(e) => Errored(CaughtMessage(e))
    case Reply(ok, json) =>
      match json
      case Unreadable(e) => Errored(CaughtMessage(e))
      case Fields(leads, summary, details) =>
        if !ok then Errored(if details.Some? && details.value != "" then details.value else DefaultFailure)
        else Loaded(leads.GetOr([]), summary)
  }

  /** What the page receives from the endpoint for a reply of the handler. */
  function ReplyOf(r: Response): FetchOutcome {
    Reply(200 <= r.status < 300,
      match r.body
      case Answer(a) => Fields(Some(a.leads), Some(a.summary), None)
      case ErrorReply(_, details) => Fields(None, None, details))
  }

  class SearchPage {
    var searchQuery: string
    var isSearching: bool
    var results: seq<AnalyzedLead>
    var summary: Option<Summary>
    var error: Option<string>
    var hasSearched: bool

    /** Results, a summary or an error appear only once a search has been made. */
    predicate Valid()
      reads this
    {
      !hasSearched ==> results == [] && summary.None? && error.None?
    }

    constructor()
      ensures searchQuery == InitialQuery && !isSearching && results == [] && summary.None?
      ensures error.None? && !hasSearched
      ensures Valid()
    {
      searchQuery := InitialQuery;
      isSearching := false;
      results := [];
      summary := None;
      error := None;
      hasSearched := false;
    }

    /** The input's `onChange`. */
    method SetQuery(q: string)
      modifies this
      ensures searchQuery == q
      ensures isSearching == old(isSearching) && results == old(results) && summary == old(summary)
      ensures error == old(error) && hasSearched == old(hasSearched)
      ensures old(Valid()) ==> Valid()
    {
      searchQuery := q;
    }

    /**
     * The start of `handleSearch`: nothing happens for a blank query;
     * otherwise the page is searching, the old error is gone and a search
     * has been made.
     */
    method Begin() returns (started: bool)
      modifies this
      ensures started <==> Trim(old(searchQuery)) != ""
      ensures !started ==> unchanged(this)
      ensures started ==> isSearching && error.None? && hasSearched
      ensures searchQuery == old(searchQuery) && results == old(results) && summary == old(summary)
      ensures old(Valid()) ==> Valid()
    {
      if Trim(searchQuery) == "" {
        return false;
      }
      isSearching := true;
      error := None;
      hasSearched := true;
      return true;
    }

    /** The end of `handleSearch`: the outcome is shown and the page stops searching. */
    method Complete(outcome: FetchOutcome)
      requires hasSearched
      modifies this
      ensures !isSearching && hasSearched && searchQuery == old(searchQuery)
      ensures Settle(outcome).Loaded? ==>
        results == Settle(outcome).leads && summary == Settle(outcome).summary && error == old(error)
      ensures Settle(outcome).Errored? ==>
        error == Some(Settle(outcome).message) && results == old(results) && summary == old(summary)
      ensures Valid()
    {
      var settled := Settle(outcome);
      if settled.Loaded? {
        results := settled.leads;
        summary := settled.summary;
      } else {
        error := Some(settled.message);
      }
      isSearching := false;
    }

    /** `handleSearch` with the request ending in `outcome`. */
    method HandleSearch(outcome: FetchOutcome)
      modifies this
      ensures Trim(old(searchQuery)) == "" ==> unchanged(this)
      ensures Trim(old(searchQuery)) != "" ==>
        && !isSearching && hasSearched && searchQuery == old(searchQuery)
        && (Settle(outcome).Loaded? ==>
              results == Settle(outcome).leads && summary == Settle(outcome).summary && error.None?)
        && (Settle(outcome).Errored? ==>
              error == Some(Settle(outcome).message) && results == old(results) && summary == old(summary))
      ensures old(!isSearching) ==> !isSearching
      ensures old(Valid()) ==> Valid()
    {
      var started := Begin();
      if started {
        Complete(outcome);
      }
    }
  }

  /**
   * What the page renders: the error banner, the summary panel once the
   * search is over, and the results panel once a search has been made.
   */
  predicate ShowsAnything(p: SearchPage)
    reads p
  {
    p.error.Some? || (p.summary.Some? && !p.isSearching) || (p.hasSearched && !p.isSearching)
  }

  /** A valid page shows nothing until its first search. */
  lemma NothingShownBeforeSearch(p: SearchPage)
    requires p.Valid()
    ensures !p.hasSearched ==> !ShowsAnything(p)
  {
  }

  /**
   * Against the lead-analysis endpoint: a reply with an analysis shows its
   * leads and summary, and an error reply shows its details, or the default
   * message when it has none.
   */
  lemma SettleHandlerReplies(r: Response)
    requires r.status == 200 || r.status == 400 || r.status == 500
    requires r.status == 200 <==> r.body.Answer?
    ensures r.body.Answer? ==> Settle(ReplyOf(r)) == Loaded(r.body.analysis.leads, Some(r.body.analysis.summary))
    ensures r.body.ErrorReply? ==>
      Settle(ReplyOf(r)) == Errored(
        if r.body.details.Some? && r.body.details.value != "" then r.body.details.value else DefaultFailure)
  {
  }

  /**
   * The page against the handler: a query the page sends is never refused as
   * missing, the page shows results exactly when the handler answers, every
   * lead it shows fits the analysis schema, and a failure shows the handler's
   * details.
   */
  lemma SearchAgainstHandler(
    q: string,
    scrape: string -> XhsTypes.ScrapingResult,
    generate: (string, seq<CommentData>) -> Generation)
    requires Trim(q) != ""
    ensures var r := Handle(Json(Some(q)), scrape, generate);
      var shown := Settle(ReplyOf(r));
      && r.status != 400
      && (shown.Loaded? <==> r.status == 200)
      && (shown.Loaded? ==> forall i | 0 <= i < |shown.leads| :: ValidLead(shown.leads[i]))
      && (shown.Errored? ==> shown.message == if r.body.details.value != "" then r.body.details.value else DefaultFailure)
  {
    var r := Handle(Json(Some(q)), scrape, generate);
    assert q != "";
    SettleHandlerReplies(r);
  }

  /** `getScoreColor` of the dashboard: four bands, checked from the top. */
  function ScoreColor(score: real): (c: string)
    ensures c == Green <==> score >= 90.0
    ensures c == Blue <==> 80.0 <= score < 90.0
    ensures c == Yellow <==> 70.0 <= score < 80.0
    ensures c == Orange <==> score < 70.0
  {
    if score >= 90.0 then Green
    else if score >= 80.0 then Blue
    else if score >= 70.0 then Yellow
    else Orange
  }

  /** The dashboard and the leads page put every score in the same band. */
  lemma ScoreBandsAgree(score: real)
    ensures ScoreColor(score) == Green <==> LeadsPage.ScoreColor(score) == "text-green-600"
    ensures ScoreColor(score) == Blue <==> LeadsPage.ScoreColor(score) == "text-blue-600"
    ensures ScoreColor(score) == Yellow <==> LeadsPage.ScoreColor(score) == "text-yellow-600"
    ensures ScoreColor(score) == Orange <==> LeadsPage.ScoreColor(score) == "text-orange-600"
  {
  }

  /** `getIntentColor`. */
  function IntentColor(intent: string): (c: string)
    ensures c == Red <==> intent == "极高"
    ensures c == Orange <==> intent == "高"
    ensures c == Yellow <==> intent == "中"
    ensures c == Gray <==> intent !in {"极高", "高", "中"}
  {
    if intent == "极高" then Red
    else if intent == "高" then Orange
    else if intent == "中" then Yellow
    else Gray
  }

  /** `getContactColor`. */
  function ContactColor(potential: string): (c: string)
    ensures c == Green <==> potential == "高"
    ensures c == Yellow <==> potential == "中"
    ensures c == Gray <==> potential !in {"高", "中"}
  {
    if potential == "高" then Green
    else if potential == "中" then Yellow
    else Gray
  }

  /** On a lead that fits the analysis schema, gray means the lowest level and nothing else. */
  lemma SchemaLevelsColoured(l: AnalyzedLead)
    requires ValidLead(l)
    ensures IntentColor(l.intentLevel) == Gray <==> l.intentLevel == "低"
    ensures ContactColor(l.contactPotential) == Gray <==> l.contactPotential == "低"
  {
  }

  /**
   * `USE_MOCK_DATA`: the mock flag is exactly "true", or the backend URL is
   * unset or empty. `env` holds the variables that are set. The page uses it
   * only to choose between its mock and live labels and styles.
   */
  predicate UseMockData(env: map<string, string>) {
    ("NEXT_PUBLIC_USE_MOCK_DATA" in env && env["NEXT_PUBLIC_USE_MOCK_DATA"] == "true")
    || "NEXT_PUBLIC_XIAOHONGSHU_BACKEND_URL" !in env
    || env["NEXT_PUBLIC_XIAOHONGSHU_BACKEND_URL"] == ""
  }

  /** The mock flag "true" turns the mock labelling on; with a backend URL set, nothing else does. */
  lemma MockFlagDecides(env: map<string, string>)
    ensures "NEXT_PUBLIC_USE_MOCK_DATA" in env && env["NEXT_PUBLIC_USE_MOCK_DATA"] == "true" ==> UseMockData(env)
    ensures "NEXT_PUBLIC_XIAOHONGSHU_BACKEND_URL" in env && env["NEXT_PUBLIC_XIAOHONGSHU_BACKEND_URL"] != "" ==>
      (UseMockData(env) <==> "NEXT_PUBLIC_USE_MOCK_DATA" in env && env["NEXT_PUBLIC_USE_MOCK_DATA"] == "true")
    ensures "NEXT_PUBLIC_XIAOHONGSHU_BACKEND_URL" !in env ==> UseMockData(env)
  {
  }
}
