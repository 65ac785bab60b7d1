/** The answering pipeline of `app.py`: `invoke_llm` asks the model whether the
    query needs live data, runs `websearch` only when the model answers FALSE,
    and passes the scraped text, or "", to `infer_llm`.

    The outside world (the language model, Chrome driven by Selenium, the HTTP
    fetch and the HTML parser) is an `Env` value of abstract functions. The
    ghost `log` of a `World` records the calls that matter for what the
    pipeline does to the world: each model call, opening and quitting a
    browser session, typing the query, and fetching a page. The two browser
    waits and `driver.get` are not recorded. */
module Pipeline {
  import opened Wrappers
  import opened Whitespace
  import opened Prompts
  import opened Scraping

  /** Which of the two five-second `WebDriverWait`s gave up; Selenium raises
      `TimeoutException`, which nothing in the pipeline catches. */
  datatype BrowserFailure = SearchBoxTimeout | FirstResultTimeout

  /** The first organic result's anchor; `href` is what `get_attribute('href')`
      returns, None when the anchor has no such attribute. */
  datatype Link = Link(href: Option<string>)

  /** The behaviour of everything outside the core during one request: a
      sampling model and a live search engine may behave differently on the
      next request, which then has an `Env` of its own. */
  datatype Env = Env(
    // the text-generation pipeline: the content of the turn it appends
    generate: (seq<Turn>, nat) -> string,
    // Google's search box appears within the first wait
    searchBoxAppears: bool,
    // the first organic result for a typed query, None when the second wait times out
    firstResult: string -> Option<Link>,
    // `requests.get` and BeautifulSoup on the first result's URL
    fetch: Option<string> -> Fetched)

  /** A call the pipeline makes into the outside world. */
  datatype Event =
    | Generated(conversation: seq<Turn>, budget: nat)
    | SessionOpened
    | QueryTyped(query: string)
    | SessionClosed
    | PageFetched(url: Option<string>)

  /** A value together with the calls made to produce it. */
  datatype Run<T> = Run(value: T, trace: seq<Event>)

  /** The classifier's raw reply to a query. */
  function Verdict(env: Env, query: string): string {
    env.generate(ClassifierConversation(query), CLASSIFIER_BUDGET)
  }

  /** The `try`/`finally` block of `websearch`: the URL of the first result, or
      the wait that timed out; the session is quit on both paths. */
  ghost function BrowseRun(env: Env, query: string): Run<Result<Option<string>, BrowserFailure>> {
    if !env.searchBoxAppears then
      Run(Failure(SearchBoxTimeout), [SessionOpened, SessionClosed])
    else
      match env.firstResult(query)
      case None => Run(Failure(FirstResultTimeout), [SessionOpened, QueryTyped(query), SessionClosed])
      case Some(link) => Run(Success(link.href), [SessionOpened, QueryTyped(query), SessionClosed])
  }

  /** `websearch(query)`: the scraped content, or the timeout it lets escape. */
  ghost function WebSearchRun(env: Env, query: string): Run<Result<string, BrowserFailure>> {
    var browse := BrowseRun(env, query);
    match browse.value
    case Failure(e) => Run(Failure(e), browse.trace)
    case Success(url) => Run(Success(ScrapedContent(env.fetch(url))), browse.trace + [PageFetched(url)])
  }

  /** `infer_llm(query, context)`. */
  ghost function InferRun(env: Env, query: string, context: string): Run<string> {
    var conv := SynthesisConversation(query, context);
    Run(env.generate(conv, SYNTHESIS_BUDGET), [Generated(conv, SYNTHESIS_BUDGET)])
  }

  /** `invoke_llm(query)`: the answer, or the browser timeout that escaped. */
  ghost function InvokeRun(env: Env, query: string): Run<Result<string, BrowserFailure>> {
    var classify := [Generated(ClassifierConversation(query), CLASSIFIER_BUDGET)];
    if !RequestsRetrieval(Verdict(env, query)) then
      var answer := InferRun(env, query, "");
      Run(Success(answer.value), classify + answer.trace)
    else
      var search := WebSearchRun(env, query);
      match search.value
      case Failure(e) => Run(Failure(e), classify + search.trace)
      case Success(content) =>
        var answer := InferRun(env, query, content);
        Run(Success(answer.value), classify + search.trace + answer.trace)
  }

  /** Replays a trace against a browser that holds at most one session: a
      session is opened only when none is, the query is typed and the session
      quit only inside one, and pages are fetched and the model run only
      outside one. The result says whether a session is open at the end, or is
      None when some call breaks these rules. */
  ghost function SessionAfter(trace: seq<Event>, open: bool): Option<bool>
    decreases |trace|
  {
    if trace == [] then Some(open)
    else
      var ok := match trace[0]
        case SessionOpened => !open
        case QueryTyped(_) => open
        case SessionClosed => open
        case PageFetched(_) => !open
        case Generated(_, _) => !open;
      var next := match trace[0]
        case SessionOpened => true
        case SessionClosed => false
        case _ => open;
      if ok then SessionAfter(trace[1..], next) else None
  }

  /** Every session the trace opens is quit, before any page is fetched or the
      model is run, and none is left open at the end. */
  ghost predicate SessionsReleased(trace: seq<Event>) {
    SessionAfter(trace, false) == Some(false)
  }

  lemma {:induction false} SessionAfterAppend(a: seq<Event>, b: seq<Event>, open: bool)
    ensures SessionAfter(a + b, open) ==
      match SessionAfter(a, open)
      case None => None
      case Some(o) => SessionAfter(b, o)
    decreases |a|
  {
    if a == [] {
      assert a + b == b;
    } else {
      assert (a + b)[0] == a[0];
      assert (a + b)[1..] == a[1..] + b;
      var next := match a[0]
        case SessionOpened => true
        case SessionClosed => false
        case _ => open;
      SessionAfterAppend(a[1..], b, next);
    }
  }

  /** The calls of `websearch` in order: the session is opened, the query typed
      if the search box appeared, the session quit, and the page fetched only
      when both waits succeeded. */
  lemma WebSearchTrace(env: Env, query: string)
    ensures WebSearchRun(env, query).trace ==
      [SessionOpened] + (if env.searchBoxAppears then [QueryTyped(query)] else []) + [SessionClosed] +
      (match WebSearchRun(env, query).value
       case Failure(_) => []
       case Success(_) => [PageFetched(env.firstResult(query).value.href)])
    ensures WebSearchRun(env, query).value.Failure? <==>
      !env.searchBoxAppears || env.firstResult(query).None?
  {
  }

  /** `websearch` opens a browser session first and quits it on every path
      before any page is fetched, leaving none open. */
  lemma WebSearchReleasesSession(env: Env, query: string)
    ensures SessionsReleased(WebSearchRun(env, query).trace)
    ensures WebSearchRun(env, query).trace[0] == SessionOpened
  {
    WebSearchTrace(env, query);
    var typed := if env.searchBoxAppears then [QueryTyped(query)] else [];
    var fetched := match WebSearchRun(env, query).value
       case Failure(_) => []
       case Success(_) => [PageFetched(env.firstResult(query).value.href)];
    var head := [SessionOpened] + typed + [SessionClosed];
    assert SessionAfter(head, false) == Some(false) by {
      assert head[1..] == typed + [SessionClosed];
      SessionAfterAppend(typed, [SessionClosed], true);
      assert SessionAfter([SessionClosed], true) == Some(false);
      assert SessionAfter(typed, true) == Some(true) by {
        if typed != [] {
          assert typed[1..] == [];
        }
      }
    }
    SessionAfterAppend(head, fetched, false);
    assert SessionAfter(fetched, false) == Some(false) by {
      if fetched != [] {
        assert fetched[1..] == [];
      }
    }
  }

  /** `websearch` opens exactly one browser session and quits it exactly once. */
  lemma WebSearchOneSession(env: Env, query: string)
    ensures multiset(WebSearchRun(env, query).trace)[SessionOpened] == 1
    ensures multiset(WebSearchRun(env, query).trace)[SessionClosed] == 1
  {
    WebSearchTrace(env, query);
    var typed := if env.searchBoxAppears then [QueryTyped(query)] else [];
    var fetched := match WebSearchRun(env, query).value
       case Failure(_) => []
       case Success(_) => [PageFetched(env.firstResult(query).value.href)];
    assert multiset(WebSearchRun(env, query).trace)
      == multiset([SessionOpened]) + multiset(typed) + multiset([SessionClosed]) + multiset(fetched);
  }

  /** The page is fetched, once, exactly when both waits succeeded. */
  lemma WebSearchFetchesOnSuccess(env: Env, query: string)
    ensures WebSearchRun(env, query).value.Success? <==>
      exists e <- WebSearchRun(env, query).trace :: e.PageFetched?
    ensures WebSearchRun(env, query).value.Success? ==>
      multiset(WebSearchRun(env, query).trace)[PageFetched(env.firstResult(query).value.href)] == 1
  {
    WebSearchTrace(env, query);
    var t := WebSearchRun(env, query).trace;
    var head := [SessionOpened] + (if env.searchBoxAppears then [QueryTyped(query)] else []) + [SessionClosed];
    assert forall e <- head :: !e.PageFetched?;
    if WebSearchRun(env, query).value.Success? {
      assert t[|t| - 1].PageFetched?;
    } else {
      assert t == head;
    }
  }

  /** Over the whole request, every browser session is quit before the answer
      is generated or the request fails. */
  lemma InvokeReleasesSession(env: Env, query: string)
    ensures SessionsReleased(InvokeRun(env, query).trace)
  {
    var classify := [Generated(ClassifierConversation(query), CLASSIFIER_BUDGET)];
    assert SessionAfter(classify, false) == Some(false);
    if !RequestsRetrieval(Verdict(env, query)) {
      var answer := InferRun(env, query, "");
      SessionAfterAppend(classify, answer.trace, false);
    } else {
      var search := WebSearchRun(env, query);
      WebSearchReleasesSession(env, query);
      SessionAfterAppend(classify, search.trace, false);
      if search.value.Success? {
        var answer := InferRun(env, query, search.value.value);
        SessionAfterAppend(classify + search.trace, answer.trace, false);
      }
    }
  }

  /** The web is searched, once, exactly when the classifier replies FALSE in
      some mix of cases; otherwise nothing is fetched and the answer comes
      from the open-domain prompt with context "". */
  lemma SearchExactlyOnFalse(env: Env, query: string)
    ensures multiset(InvokeRun(env, query).trace)[SessionOpened] ==
      if RequestsRetrieval(Verdict(env, query)) then 1 else 0
    ensures !RequestsRetrieval(Verdict(env, query)) ==>
      && InvokeRun(env, query).value == Success(env.generate(SynthesisConversation(query, ""), SYNTHESIS_BUDGET))
      && (forall e <- InvokeRun(env, query).trace :: !e.PageFetched? && !e.QueryTyped?)
  {
    var classify := [Generated(ClassifierConversation(query), CLASSIFIER_BUDGET)];
    if RequestsRetrieval(Verdict(env, query)) {
      WebSearchOneSession(env, query);
      var search := WebSearchRun(env, query);
      if search.value.Success? {
        var answer := InferRun(env, query, search.value.value);
        assert multiset(classify + search.trace + answer.trace)
          == multiset(classify) + multiset(search.trace) + multiset(answer.trace);
      }
    }
  }

  /** A browser timeout ends the request: nothing is fetched and no answer is
      generated, the classifier's call being the only one made to the model. */
  lemma TimeoutEndsRequest(env: Env, query: string)
    ensures InvokeRun(env, query).value.Failure? <==>
      RequestsRetrieval(Verdict(env, query)) && (!env.searchBoxAppears || env.firstResult(query).None?)
    ensures InvokeRun(env, query).value.Failure? ==>
      forall e <- InvokeRun(env, query).trace ::
        !e.PageFetched? && (e.Generated? ==> e == Generated(ClassifierConversation(query), CLASSIFIER_BUDGET))
  {
    if RequestsRetrieval(Verdict(env, query)) {
      WebSearchTrace(env, query);
    }
  }

  /** When the search finds a page, the answer is generated from the scraped
      content exactly as `websearch` returned it; a failed fetch or parse puts
      the error sentence there, which always selects the knowledge-base prompt. */
  lemma ScrapedContentReachesSynthesis(env: Env, query: string, link: Link)
    requires RequestsRetrieval(Verdict(env, query))
    requires env.searchBoxAppears && env.firstResult(query) == Some(link)
    ensures var content := ScrapedContent(env.fetch(link.href));
      && InvokeRun(env, query).value == Success(env.generate(SynthesisConversation(query, content), SYNTHESIS_BUDGET))
      && InvokeRun(env, query).trace[|InvokeRun(env, query).trace| - 1]
         == Generated(SynthesisConversation(query, content), SYNTHESIS_BUDGET)
    ensures FailureDetail(env.fetch(link.href)).Some? ==>
      SynthesisConversation(query, ScrapedContent(env.fetch(link.href)))[0].content != OPEN_DOMAIN_INSTRUCTION
  {
  }

  /** A page without visible text scrapes to "", so the answer falls back to
      the open-domain prompt even though a search was made. */
  lemma BlankPageAnswersOpenDomain(env: Env, query: string, link: Link, text: string)
    requires RequestsRetrieval(Verdict(env, query))
    requires env.searchBoxAppears && env.firstResult(query) == Some(link)
    requires env.fetch(link.href) == Page(Some(text)) && Visible(text) == ""
    ensures InvokeRun(env, query).value == Success(env.generate(SynthesisConversation(query, ""), SYNTHESIS_BUDGET))
  {
    ScrapedContentEmpty(env.fetch(link.href));
  }

  /** A page whose text reads like the error sentence reaches the model as
      exactly the same prompt as a real failure: the answer step cannot tell
      scraped content from a reported error. */
  lemma ErrorIndistinguishableFromContent(query: string, detail: string)
    requires IsNormalized(detail) && detail != ""
    ensures SynthesisConversation(query, ScrapedContent(Page(Some(ERROR_PREFIX + detail))))
         == SynthesisConversation(query, ScrapedContent(Raised(detail)))
  {
    ErrorSentenceLooksLikeContent(detail);
  }

  /** The outside world as one request sees it, and the record of what that
      request asked of it; each request gets a `World` of its own. */
  class World {
    const env: Env
    ghost var log: seq<Event>

    constructor (env: Env)
      ensures this.env == env && log == []
    {
      this.env := env;
      log := [];
    }

    /** `pipeline(messages, max_new_tokens=budget)`, keeping the last turn's content. */
    method Generate(conversation: seq<Turn>, budget: nat) returns (text: string)
      modifies this
      ensures text == env.generate(conversation, budget)
      ensures log == old(log) + [Generated(conversation, budget)]
    {
      text := env.generate(conversation, budget);
      log := log + [Generated(conversation, budget)];
    }

    /** `requests.get(url, headers=...)` and `BeautifulSoup(...).body`. */
    method Fetch(url: Option<string>) returns (page: Fetched)
      modifies this
      ensures page == env.fetch(url)
      ensures log == old(log) + [PageFetched(url)]
    {
      page := env.fetch(url);
      log := log + [PageFetched(url)];
    }

    /** `query_analysis(user_query)`: the classifier's raw reply. */
    method QueryAnalysis(query: string) returns (report: string)
      modifies this
      ensures report == Verdict(env, query)
      ensures log == old(log) + [Generated(ClassifierConversation(query), CLASSIFIER_BUDGET)]
    {
      report := Generate(ClassifierConversation(query), CLASSIFIER_BUDGET);
    }

    /** `infer_llm(user_query, scraped_data)`. */
    method InferLlm(query: string, context: string) returns (answer: string)
      modifies this
      ensures answer == InferRun(env, query, context).value
      ensures log == old(log) + InferRun(env, query, context).trace
    {
      var messages := SynthesisConversation(query, context);
      answer := Generate(messages, SYNTHESIS_BUDGET);
    }

    /** `websearch(query)`: drive Chrome to the first result, quit the driver in
        `finally`, then fetch and clean the page, degrading any fetch or parse
        exception to an error sentence. A wait timeout escapes as Failure. */
    method WebSearch(query: string) returns (r: Result<string, BrowserFailure>)
      modifies this
      ensures r == WebSearchRun(env, query).value
      ensures log == old(log) + WebSearchRun(env, query).trace
    {
      var driver := new Driver(this);
      var failure: Option<BrowserFailure> := None;
      var firstUrl: Option<string> := None;
      // try:
      var found := driver.AwaitSearchBox();
      if !found {
        failure := Some(SearchBoxTimeout);
      } else {
        driver.SubmitQuery(query);
        var first := driver.AwaitFirstResult();
        if first.None? {
          failure := Some(FirstResultTimeout);
        } else {
          firstUrl := first.value.href;
        }
      }
      // finally:
      driver.Quit();
      if failure.Some? {
        return Failure(failure.value);
      }
      var page := Fetch(firstUrl);
      r := Success(ScrapedContent(page));
    }

    /** `invoke_llm(user_query)`. */
    method InvokeLlm(query: string) returns (r: Result<string, BrowserFailure>)
      modifies this
      ensures r == InvokeRun(env, query).value
      ensures log == old(log) + InvokeRun(env, query).trace
    {
      var scraped := "";
      var report := QueryAnalysis(query);
      if RequestsRetrieval(report) {
        var search := WebSearch(query);
        if search.Failure? {
          return Failure(search.error);
        }
        scraped := search.value;
      }
      var answer := InferLlm(query, scraped);
      r := Success(answer);
    }
  }

  /** One headless Chrome session, from `webdriver.Chrome(...)` to `driver.quit()`.
      The session events `SessionOpened`, `QueryTyped` and `SessionClosed` reach
      a `World`'s log only through a `Driver`'s constructor and methods, which
      keep `open` in step with them; `World.WebSearch` never appends them itself. */
  class Driver {
    const world: World
    ghost var open: bool
    var typed: Option<string>

    /** `webdriver.Chrome(service=service, options=chrome_options)`. */
    constructor (world: World)
      modifies world
      ensures this.world == world && open && typed == None
      ensures world.log == old(world.log) + [SessionOpened]
    {
      this.world := world;
      open := true;
      typed := None;
      new;
      world.log := world.log + [SessionOpened];
    }

    /** `driver.get('https://www.google.com')` and the first five-second wait,
        for the element named `q`. */
    method AwaitSearchBox() returns (found: bool)
      requires open
      ensures found == world.env.searchBoxAppears
    {
      found := world.env.searchBoxAppears;
    }

    /** `send_keys(query)` and `send_keys(Keys.RETURN)` on the search box. */
    method SubmitQuery(query: string)
      requires open
      modifies this, world
      ensures open && typed == Some(query)
      ensures world.log == old(world.log) + [QueryTyped(query)]
    {
      typed := Some(query);
      world.log := world.log + [QueryTyped(query)];
    }

    /** The second five-second wait, for the first organic result's anchor. */
    method AwaitFirstResult() returns (link: Option<Link>)
      requires open && typed.Some?
      ensures link == world.env.firstResult(typed.value)
    {
      link := world.env.firstResult(typed.value);
    }

    /** `driver.quit()`. */
    method Quit()
      requires open
      modifies this, world
      ensures !open
      ensures world.log == old(world.log) + [SessionClosed]
    {
      open := false;
      world.log := world.log + [SessionClosed];
    }
  }
}
