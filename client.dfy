/**
 * FsspClient.fetch: open a browser, load the search page, solve the captcha,
 * submit it, read the results. Each browser call's outcome is part of a
 * Script supplied by the environment. Fetch performs the calls on a Browser
 * in the source's order and handles failures as its except clauses and its
 * finally clause do; FetchTrace and FetchResult state, as functions of the
 * script, which calls it makes and what it returns or raises.
 */
module Client {
  import opened Wrappers
  import opened Errors
  import opened Config
  import opened Captcha
  import opened Playwright

  /** What page.goto does: return no response, return one with an optional
      HTTP status, or raise. */
  datatype Navigation = NoResponse | Responded(status: Option<int>) | NavigationRaises(fault: Fault)

  /** The environment's answer to every call fetch can make. `start` is
      entering `async with async_playwright()`, which happens outside the try
      block: when it raises, fetch raises that exception unchanged, before any
      browser call. */
  datatype Script = Script(
    start: Call,
    launch: Call,
    newContext: Call,
    newPage: Call,
    navigation: Navigation,
    firstShot: Call,
    captcha: Lookup,
    clearTimers: Call,
    captchaShot: Call,
    provider: ProviderOutcome,
    clickCode: Call,
    fill: Call,
    secondShot: Call,
    submit: Call,
    results: Lookup,
    thirdShot: Call,
    readHtml: Call,
    markup: string,
    errorShot: Call,
    closePage: Call,
    closeContext: Call,
    closeBrowser: Call)

  const NavigationMessage := "Страница ФССП не открылась или вернула ошибку"
  const NoCaptchaMessage := "Капча не появилась на странице"
  const TimeoutMessage := "Таймаут при работе с ФССП"
  const NoResultsMessage := "Не удалось получить результаты из ФССП"

  /** No response, or a response whose status is 400 or more. */
  predicate Refused(n: Navigation) {
    n.NoResponse? || (n.Responded? && n.status.Some? && n.status.value >= 400)
  }

  function NavigationFault(n: Navigation): Option<Exc> {
    if n.NavigationRaises? then Some(Raw(n.fault))
    else if Refused(n) then Some(Domain(FsspUnavailable(NavigationMessage)))
    else None
  }

  function CaptchaFault(l: Lookup): Option<Exc> {
    match l
    case LookupRaises(f) => Some(Raw(f))
    case NotFound => Some(Domain(CaptchaError(NoCaptchaMessage)))
    case Found => None
  }

  function SolverFault(p: ProviderOutcome): Option<Exc> {
    var r := Solve(p);
    if r.Failure? then Some(Domain(r.error)) else None
  }

  /** The code typed into the form; only used once the solver has succeeded. */
  function SolvedCode(p: ProviderOutcome): string {
    var r := Solve(p);
    if r.Success? then r.value else ""
  }

  /** The results wait returns None without raising; reading the inner HTML of
      None then raises AttributeError. */
  function ResultsFault(l: Lookup): Option<Exc> {
    if l.LookupRaises? then Some(Raw(l.fault)) else None
  }

  function ReadFault(script: Script): Option<Exc> {
    if script.results.NotFound? then Some(Raw(OtherFault)) else CallFault(script.readHtml)
  }

  /** The number of calls in the try block when none raises. */
  const Steps := 16

  /** The k-th call of the try block. */
  function PlanAction(url: string, s: Settings, script: Script, k: nat): Action {
    var cfg := s.browser;
    if k == 0 then Launch(cfg.headless)
    else if k == 1 then NewContext(cfg.userAgent)
    else if k == 2 then NewPage
    else if k == 3 then Goto(url, cfg.navigationTimeoutMs)
    else if k == 4 then PageShot(AfterNavigation)
    else if k == 5 then WaitFor(cfg.captchaSelector, cfg.navigationTimeoutMs)
    else if k == 6 then ClearTimers
    else if k == 7 then ElementShot(CaptchaFile(s))
    else if k == 8 then AskSolver(CaptchaFile(s), Numeric)
    else if k == 9 then ClickCode
    else if k == 10 then FillCode(SolvedCode(script.provider))
    else if k == 11 then PageShot(AfterFill)
    else if k == 12 then Submit
    else if k == 13 then WaitFor(cfg.resultsSelector, cfg.resultsWaitMs)
    else if k == 14 then PageShot(AfterResults)
    else ReadHtml
  }

  /** The calls of the try block, in order. */
  function Plan(url: string, s: Settings, script: Script): (p: seq<Action>)
    ensures |p| == Steps && forall k :: 0 <= k < Steps ==> p[k] == PlanAction(url, s, script, k)
  {
    seq(Steps, k requires 0 <= k => PlanAction(url, s, script, k))
  }

  /** The exception the k-th call of the plan raises, checks after it included. */
  function StepFault(script: Script, k: nat): Option<Exc> {
    if k == 0 then CallFault(script.launch)
    else if k == 1 then CallFault(script.newContext)
    else if k == 2 then CallFault(script.newPage)
    else if k == 3 then NavigationFault(script.navigation)
    else if k == 4 then CallFault(script.firstShot)
    else if k == 5 then CaptchaFault(script.captcha)
    else if k == 6 then CallFault(script.clearTimers)
    else if k == 7 then CallFault(script.captchaShot)
    else if k == 8 then SolverFault(script.provider)
    else if k == 9 then CallFault(script.clickCode)
    else if k == 10 then CallFault(script.fill)
    else if k == 11 then CallFault(script.secondShot)
    else if k == 12 then CallFault(script.submit)
    else if k == 13 then ResultsFault(script.results)
    else if k == 14 then CallFault(script.thirdShot)
    else if k == 15 then ReadFault(script)
    else None
  }

  /** The exception of every call of the plan. */
  function Faults(script: Script): (f: seq<Option<Exc>>)
    ensures |f| == Steps && forall k :: 0 <= k < Steps ==> f[k] == StepFault(script, k)
  {
    seq(Steps, k requires 0 <= k => StepFault(script, k))
  }

  /** The position of the call that raises, or Steps when none does. */
  function FailIndex(script: Script): (n: nat)
    ensures n <= Steps && forall j :: 0 <= j < n ==> StepFault(script, j).None?
    ensures n < Steps ==> StepFault(script, n).Some?
  {
    var f := Faults(script);
    var n := FirstFault(f);
    assert NoFaultBefore(f, n);
    n
  }

  /** The calls made inside the try block. */
  function TryTrace(url: string, s: Settings, script: Script): (t: seq<Action>)
    ensures t == Plan(url, s, script)[..if FailIndex(script) < Steps then FailIndex(script) + 1 else Steps]
  {
    Attempted(Plan(url, s, script), Faults(script))
  }

  /** The exception that leaves the try block, if any. */
  function TryError(script: Script): (e: Option<Exc>)
    ensures e == if FailIndex(script) < Steps then StepFault(script, FailIndex(script)) else None
  {
    Raised(Faults(script))
  }

  /** The resources assigned before the try block stopped, in opening order. */
  function Opened(script: Script): (r: seq<Resource>)
    ensures |r| <= 3
  {
    var n := FailIndex(script);
    [BrowserResource, ContextResource, PageResource][..if n < 3 then n else 3]
  }

  /** The except clauses: domain errors of the captcha and availability kinds
      pass unchanged, a Playwright timeout and every other exception become
      FsspUnavailable with their own messages. */
  function Classify(e: Exc): (r: Exc)
    ensures r.Domain? && (r.error.CaptchaError? || r.error.FsspUnavailable?)
    ensures e.Domain? && (e.error.CaptchaError? || e.error.FsspUnavailable?) ==> r == e
    ensures e == Raw(Timeout) ==> r == Domain(FsspUnavailable(TimeoutMessage))
    ensures e == Raw(OtherFault) ==> r == Domain(FsspUnavailable(NoResultsMessage))
  {
    match e
    case Domain(CaptchaError(_)) => e
    case Domain(FsspUnavailable(_)) => e
    case Raw(Timeout) => Domain(FsspUnavailable(TimeoutMessage))
    case _ => Domain(FsspUnavailable(NoResultsMessage))
  }

  predicate PageAssigned(script: Script) {
    FailIndex(script) > 2
  }

  /** The except clause: the error screenshot when a page exists (an exception
      it raises replaces the classified one) and the exception raised. */
  function Handling(script: Script): (seq<Action>, Option<Exc>) {
    var e := TryError(script);
    if e.None? then ([], None)
    else if !PageAssigned(script) then ([], Some(Classify(e.value)))
    else if script.errorShot.Raises? then ([PageShot(OnError)], CallFault(script.errorShot))
    else ([PageShot(OnError)], Some(Classify(e.value)))
  }

  function CloseCall(script: Script, r: Resource): Call {
    match r
    case PageResource => script.closePage
    case ContextResource => script.closeContext
    case BrowserResource => script.closeBrowser
  }

  function Reverse<T>(s: seq<T>): (r: seq<T>)
    ensures |r| == |s|
    ensures forall i :: 0 <= i < |s| ==> r[i] == s[|s| - 1 - i]
  {
    if s == [] then [] else Reverse(s[1..]) + [s[0]]
  }

  /** Closing rs in order; the first close that raises ends the finally clause. */
  function CloseRun(script: Script, rs: seq<Resource>): (seq<Action>, Option<Exc>) {
    if rs == [] then ([], None)
    else
      var f := CallFault(CloseCall(script, rs[0]));
      if f.Some? then ([Close(rs[0])], f)
      else
        var rest := CloseRun(script, rs[1..]);
        ([Close(rs[0])] + rest.0, rest.1)
  }

  /** The order of the finally clause: page, context, browser, each if assigned. */
  function ClosingOrder(script: Script): seq<Resource> {
    var n := FailIndex(script);
    (if n > 2 then [PageResource] else []) + (if n > 1 then [ContextResource] else [])
    + (if n > 0 then [BrowserResource] else [])
  }

  /** The finally clause closes exactly what was opened, the last opened first. */
  lemma ClosingReversesOpening(script: Script)
    ensures ClosingOrder(script) == Reverse(Opened(script))
  {
    var all := [BrowserResource, ContextResource, PageResource];
    var n := FailIndex(script);
    if n == 0 {
      assert Opened(script) == [];
    } else if n == 1 {
      assert Opened(script) == [BrowserResource];
    } else if n == 2 {
      assert Opened(script) == [BrowserResource, ContextResource];
    } else {
      assert Opened(script) == all;
    }
  }

  /** The finally clause: the closes made, and the exception of the first that
      raises. */
  function Teardown(script: Script): (seq<Action>, Option<Exc>) {
    CloseRun(script, ClosingOrder(script))
  }

  /** Every call fetch makes: none when Playwright does not start. */
  function FetchTrace(url: string, s: Settings, script: Script): seq<Action> {
    if script.start.Raises? then []
    else TryTrace(url, s, script) + Handling(script).0 + Teardown(script).0
  }

  /** What fetch returns or raises: the exception of a Playwright that does not
      start, unchanged; otherwise an exception from the finally clause wins,
      then the one from the except clause, else the results' inner HTML. */
  function FetchResult(script: Script): Result<string, Exc> {
    var closing := Teardown(script).1;
    var handled := Handling(script).1;
    if script.start.Raises? then Failure(Raw(script.start.fault))
    else if closing.Some? then Failure(closing.value)
    else if handled.Some? then Failure(handled.value)
    else Success(script.markup)
  }

  /** The resources still open after fetch: those opened and not closed. */
  function Leaked(script: Script): set<Resource> {
    var closes := Teardown(script).0;
    if script.start.Raises? then {}
    else set r | r in FirstResources(FailIndex(script)) && !(Close(r) in closes && CloseCall(script, r).Ok?)
  }

  /** Where fetch stands after the first k calls of the try block were due. */
  ghost predicate TryState(url: string, s: Settings, script: Script, b: Browser,
                           raised: Option<Exc>, k: nat)
    reads b
  {
    RunState(b, Plan(url, s, script), Faults(script), raised, k)
  }

  /** The k-th call of the plan opens the k-th resource, if it opens one. */
  lemma PlanEffect(url: string, s: Settings, script: Script, k: nat)
    requires k < Steps
    ensures Effect(FirstResources(k), Plan(url, s, script)[k], None) == FirstResources(k + 1)
  {
  }

  /** The first n calls of the plan leave the first n resources open. */
  lemma {:induction false} PlanLive(url: string, s: Settings, script: Script, n: nat)
    requires n <= Steps
    ensures LiveAfter(Plan(url, s, script)[..n]) == FirstResources(n)
  {
    if n > 0 {
      PlanLive(url, s, script, n - 1);
      LiveStep(Plan(url, s, script), n);
      PlanEffect(url, s, script, n - 1);
    }
  }

  /** One awaited call of the try block: made only while nothing has raised. */
  method Step(b: Browser, ghost url: string, ghost s: Settings, ghost script: Script,
              raised0: Option<Exc>, ghost k: nat, a: Action, outcome: Option<Exc>)
    returns (raised: Option<Exc>)
    requires TryState(url, s, script, b, raised0, k) && k < Steps
    requires raised0.None? ==> a == Plan(url, s, script)[k] && outcome == StepFault(script, k)
    modifies b
    ensures TryState(url, s, script, b, raised, k + 1)
  {
    raised := PerformStep(b, Plan(url, s, script), Faults(script), raised0, k, a, outcome);
  }

  /** The try block of fetch: the calls of the plan up to the first that
      raises, and which of browser, context and page got assigned. */
  method TryBlock(b: Browser, url: string, s: Settings, script: Script)
    returns (raised: Option<Exc>, browser: bool, context: bool, page: bool, html: string)
    requires b.trace == [] && b.live == {}
    modifies b
    ensures raised == TryError(script) && b.trace == TryTrace(url, s, script)
    ensures b.live == FirstResources(FailIndex(script))
    ensures browser == (FailIndex(script) > 0) && context == (FailIndex(script) > 1)
    ensures page == PageAssigned(script)
    ensures raised.None? ==> html == script.markup
  {
    html := "";
    raised, browser, context, page := OpenPage(b, url, s, script);
    raised := LoadSearchPage(b, url, s, script, raised);
    var code;
    raised, code := SolvePageCaptcha(b, url, s, script, raised);
    raised := EnterCode(b, url, s, script, raised, code);
    raised := SubmitForm(b, url, s, script, raised);
    raised := AwaitResults(b, url, s, script, raised);
    raised := ReadResults(b, url, s, script, raised);
    if raised.None? {
      html := script.markup;
    }
    PlanLive(url, s, script, FailIndex(script));
  }

  /** Launch the browser, then open a context and a page in it. */
  method OpenPage(b: Browser, url: string, s: Settings, script: Script)
    returns (raised: Option<Exc>, browser: bool, context: bool, page: bool)
    requires b.trace == [] && b.live == {}
    modifies b
    ensures TryState(url, s, script, b, raised, 3)
    ensures browser == (FailIndex(script) > 0) && context == (FailIndex(script) > 1)
    ensures page == PageAssigned(script)
  {
    var cfg := s.browser;
    raised := Step(b, url, s, script, None, 0, Launch(cfg.headless), CallFault(script.launch));
    browser := raised.None?;
    raised := Step(b, url, s, script, raised, 1, NewContext(cfg.userAgent), CallFault(script.newContext));
    context := raised.None?;
    raised := Step(b, url, s, script, raised, 2, NewPage, CallFault(script.newPage));
    page := raised.None?;
  }

  /** Go to the search URL, refuse a missing or failed response, take the first
      screenshot and wait for the captcha image. */
  method LoadSearchPage(b: Browser, url: string, s: Settings, script: Script, raised0: Option<Exc>)
    returns (raised: Option<Exc>)
    requires TryState(url, s, script, b, raised0, 3)
    modifies b
    ensures TryState(url, s, script, b, raised, 6)
  {
    var cfg := s.browser;
    raised := Step(b, url, s, script, raised0, 3, Goto(url, cfg.navigationTimeoutMs),
                          NavigationFault(script.navigation));
    raised := Step(b, url, s, script, raised, 4, PageShot(AfterNavigation), CallFault(script.firstShot));
    raised := Step(b, url, s, script, raised, 5, WaitFor(cfg.captchaSelector, cfg.navigationTimeoutMs),
                          CaptchaFault(script.captcha));
  }

  /** Stop the page's timers, capture the captcha image and have it solved. */
  method SolvePageCaptcha(b: Browser, url: string, s: Settings, script: Script, raised0: Option<Exc>)
    returns (raised: Option<Exc>, code: string)
    requires TryState(url, s, script, b, raised0, 6)
    modifies b
    ensures TryState(url, s, script, b, raised, 9)
    ensures code == SolvedCode(script.provider)
  {
    var captchaFile := CaptchaFile(s);
    raised := Step(b, url, s, script, raised0, 6, ClearTimers, CallFault(script.clearTimers));
    raised := Step(b, url, s, script, raised, 7, ElementShot(captchaFile), CallFault(script.captchaShot));
    var solved := Solve(script.provider);
    raised := Step(b, url, s, script, raised, 8, AskSolver(captchaFile, Numeric),
                          if solved.Failure? then Some(Domain(solved.error)) else None);
    code := if solved.Success? then solved.value else "";
  }

  /** Click the code field and type the code into it. */
  method EnterCode(b: Browser, url: string, s: Settings, script: Script, raised0: Option<Exc>, code: string)
    returns (raised: Option<Exc>)
    requires TryState(url, s, script, b, raised0, 9)
    requires code == SolvedCode(script.provider)
    modifies b
    ensures TryState(url, s, script, b, raised, 11)
  {
    raised := Step(b, url, s, script, raised0, 9, ClickCode, CallFault(script.clickCode));
    raised := Step(b, url, s, script, raised, 10, FillCode(code), CallFault(script.fill));
  }

  /** Take the second screenshot and submit the form. */
  method SubmitForm(b: Browser, url: string, s: Settings, script: Script, raised0: Option<Exc>)
    returns (raised: Option<Exc>)
    requires TryState(url, s, script, b, raised0, 11)
    modifies b
    ensures TryState(url, s, script, b, raised, 13)
  {
    raised := Step(b, url, s, script, raised0, 11, PageShot(AfterFill), CallFault(script.secondShot));
    raised := Step(b, url, s, script, raised, 12, Submit, CallFault(script.submit));
  }

  /** Wait for the results and take the third screenshot. */
  method AwaitResults(b: Browser, url: string, s: Settings, script: Script, raised0: Option<Exc>)
    returns (raised: Option<Exc>)
    requires TryState(url, s, script, b, raised0, 13)
    modifies b
    ensures TryState(url, s, script, b, raised, 15)
  {
    var cfg := s.browser;
    raised := Step(b, url, s, script, raised0, 13, WaitFor(cfg.resultsSelector, cfg.resultsWaitMs),
                          ResultsFault(script.results));
    raised := Step(b, url, s, script, raised, 14, PageShot(AfterResults), CallFault(script.thirdShot));
  }

  /** Read the results' inner HTML. */
  method ReadResults(b: Browser, url: string, s: Settings, script: Script, raised0: Option<Exc>)
    returns (raised: Option<Exc>)
    requires TryState(url, s, script, b, raised0, 15)
    modifies b
    ensures TryState(url, s, script, b, raised, Steps)
  {
    raised := Step(b, url, s, script, raised0, 15, ReadHtml, ReadFault(script));
  }

  /** The except clauses of fetch. */
  method ExceptClause(b: Browser, script: Script, raised: Option<Exc>, page: bool)
    returns (error: Option<Exc>)
    requires raised == TryError(script) && page == PageAssigned(script)
    modifies b
    ensures b.trace == old(b.trace) + Handling(script).0
    ensures error == Handling(script).1
    ensures b.live == old(b.live)
  {
    error := None;
    if raised.Some? {
      error := Some(Classify(raised.value));
      if page {
        var shot := b.Perform(PageShot(OnError), CallFault(script.errorShot));
        if shot.Some? {
          error := shot;
        }
      }
    }
  }

  /** The finally clause spelled out for each number of assigned resources. */
  lemma CloseRunUnfolded(script: Script)
    ensures var n := FailIndex(script);
            var page, context, browser := CallFault(script.closePage), CallFault(script.closeContext),
                                          CallFault(script.closeBrowser);
            var toBrowser := if browser.Some? then ([Close(BrowserResource)], browser)
                             else ([Close(BrowserResource)], None);
            var toContext := if context.Some? then ([Close(ContextResource)], context)
                             else ([Close(ContextResource)] + toBrowser.0, toBrowser.1);
            var toPage := if page.Some? then ([Close(PageResource)], page)
                          else ([Close(PageResource)] + toContext.0, toContext.1);
            Teardown(script) == if n == 0 then ([], None) else if n == 1 then toBrowser
                                else if n == 2 then toContext else toPage
  {
    var order := ClosingOrder(script);
    var n := FailIndex(script);
    var b := [BrowserResource];
    var cb := [ContextResource, BrowserResource];
    assert CloseRun(script, b[1..]) == ([], None);
    assert cb[1..] == b;
    ghost var runB := CloseRun(script, b);
    assert runB.0 == [Close(BrowserResource)] && runB.1 == CallFault(script.closeBrowser);
    ghost var runCB := CloseRun(script, cb);
    assert runCB == if CallFault(script.closeContext).Some? then ([Close(ContextResource)], CallFault(script.closeContext))
                    else ([Close(ContextResource)] + runB.0, runB.1);
    if n > 2 {
      assert order == [PageResource] + cb;
      assert order[1..] == cb;
    } else if n == 2 {
      assert order == cb;
    } else if n == 1 {
      assert order == b;
    } else {
      assert order == [];
    }
  }

  /** The finally clause of fetch: close the page, the context and the browser,
      those that were assigned, until a close raises. */
  method FinallyClause(b: Browser, script: Script, browser: bool, context: bool, page: bool)
    returns (closing: Option<Exc>)
    requires browser == (FailIndex(script) > 0) && context == (FailIndex(script) > 1)
    requires page == PageAssigned(script)
    requires b.live == FirstResources(FailIndex(script))
    modifies b
    requires script.start.Ok?
    ensures b.trace == old(b.trace) + Teardown(script).0
    ensures closing == Teardown(script).1
    ensures b.live == Leaked(script)
  {
    CloseRunUnfolded(script);
    closing := None;
    if page {
      closing := b.Perform(Close(PageResource), CallFault(script.closePage));
    }
    if context && closing.None? {
      closing := b.Perform(Close(ContextResource), CallFault(script.closeContext));
    }
    if browser && closing.None? {
      closing := b.Perform(Close(BrowserResource), CallFault(script.closeBrowser));
    }
  }

  /** FsspClient.fetch on a fresh Playwright session. */
  method Fetch(b: Browser, url: string, s: Settings, script: Script) returns (r: Result<string, Exc>)
    requires b.trace == [] && b.live == {}
    modifies b
    ensures b.trace == FetchTrace(url, s, script)
    ensures r == FetchResult(script)
    ensures b.live == Leaked(script)
  {
    if script.start.Raises? {
      return Failure(Raw(script.start.fault));
    }
    var raised, browser, context, page, html := TryBlock(b, url, s, script);
    var error := ExceptClause(b, script, raised, page);
    var closing := FinallyClause(b, script, browser, context, page);
    if closing.Some? {
      r := Failure(closing.value);
    } else if error.Some? {
      r := Failure(error.value);
    } else {
      r := Success(html);
    }
  }

  // ---------------------------------------------------------------------------
  // Properties of fetch
  // ---------------------------------------------------------------------------

  predicate ClosesSucceed(script: Script) {
    script.closePage.Ok? && script.closeContext.Ok? && script.closeBrowser.Ok?
  }

  lemma {:induction false} CloseRunCloses(script: Script, rs: seq<Resource>)
    ensures |CloseRun(script, rs).0| <= |rs|
    ensures forall i :: 0 <= i < |CloseRun(script, rs).0| ==> CloseRun(script, rs).0[i] == Close(rs[i])
  {
    if rs != [] {
      CloseRunCloses(script, rs[1..]);
    }
  }

  /** After the try block, fetch only takes the error screenshot and closes
      resources. */
  lemma AfterTry(url: string, s: Settings, script: Script)
    requires script.start.Ok?
    ensures FetchTrace(url, s, script)[..|TryTrace(url, s, script)|] == TryTrace(url, s, script)
    ensures forall i :: |TryTrace(url, s, script)| <= i < |FetchTrace(url, s, script)| ==>
              FetchTrace(url, s, script)[i] == PageShot(OnError) || FetchTrace(url, s, script)[i].Close?
  {
    var t := FetchTrace(url, s, script);
    var n := |TryTrace(url, s, script)|;
    var h := Handling(script).0;
    var c := Teardown(script).0;
    CloseRunCloses(script, ClosingOrder(script));
    forall i | n <= i < |t|
      ensures t[i] == PageShot(OnError) || t[i].Close?
    {
      if i < n + |h| {
        assert t[i] == h[i - n];
      } else {
        assert t[i] == c[i - n - |h|];
      }
    }
  }

  /** When the captcha cannot be solved, the code is neither typed nor
      submitted: nothing after the solver request is done on the form. */
  lemma SolverFailureStopsForm(url: string, s: Settings, script: Script)
    requires Solve(script.provider).Failure?
    ensures forall i :: 0 <= i < |FetchTrace(url, s, script)| ==>
              !FetchTrace(url, s, script)[i].FillCode? && FetchTrace(url, s, script)[i] != Submit
              && FetchTrace(url, s, script)[i] != ClickCode
  {
    if script.start.Ok? {
      assert StepFault(script, 8).Some?;
      var t := FetchTrace(url, s, script);
      var tt := TryTrace(url, s, script);
      var plan := Plan(url, s, script);
      AfterTry(url, s, script);
      assert |tt| <= 9;
      forall i | 0 <= i < |t|
        ensures !t[i].FillCode? && t[i] != Submit && t[i] != ClickCode
      {
        if i < |tt| {
          assert t[i] == tt[i] == plan[i];
        }
      }
    }
  }

  /** Whenever the solver was asked, the captcha image had appeared, the page's
      timers had been cleared and the captcha image had been captured, in that
      order, immediately before. */
  lemma CaptchaSequence(url: string, s: Settings, script: Script)
    requires AskSolver(CaptchaFile(s), Numeric) in FetchTrace(url, s, script)
    ensures var t := FetchTrace(url, s, script);
            |t| >= 9
            && t[5..9] == [WaitFor(s.browser.captchaSelector, s.browser.navigationTimeoutMs), ClearTimers,
                           ElementShot(CaptchaFile(s)), AskSolver(CaptchaFile(s), Numeric)]
  {
    var t := FetchTrace(url, s, script);
    var k :| 0 <= k < |t| && t[k] == AskSolver(CaptchaFile(s), Numeric);
    InTryBlock(url, s, script, k);
    CaptchaWindow(url, s, script);
  }

  /** A call of fetch other than the error screenshot and the closes was made
      in the try block, at the same position. */
  lemma InTryBlock(url: string, s: Settings, script: Script, k: int)
    requires 0 <= k < |FetchTrace(url, s, script)|
    requires !FetchTrace(url, s, script)[k].Close? && FetchTrace(url, s, script)[k] != PageShot(OnError)
    ensures script.start.Ok? && k < |TryTrace(url, s, script)|
    ensures FetchTrace(url, s, script)[k] == Plan(url, s, script)[k]
  {
    AfterTry(url, s, script);
  }

  /** Once the try block got past the solver request, the four calls ending
      with it are the captcha wait, the timer clearing, the captcha screenshot
      and the request. */
  lemma CaptchaWindow(url: string, s: Settings, script: Script)
    requires script.start.Ok? && |TryTrace(url, s, script)| >= 9
    ensures var t := FetchTrace(url, s, script);
            |t| >= 9
            && t[5..9] == [WaitFor(s.browser.captchaSelector, s.browser.navigationTimeoutMs), ClearTimers,
                           ElementShot(CaptchaFile(s)), AskSolver(CaptchaFile(s), Numeric)]
  {
    var t := FetchTrace(url, s, script);
    var tt := TryTrace(url, s, script);
    var plan := Plan(url, s, script);
    AfterTry(url, s, script);
    assert t[5..9] == tt[5..9];
    assert tt[5..9] == plan[5..9];
    assert plan[5..9] == [plan[5], plan[6], plan[7], plan[8]];
  }

  /** The form is only ever filled right after the code field is clicked, and
      with the code the solver returned. */
  lemma FillFollowsClick(url: string, s: Settings, script: Script)
    ensures forall i :: 0 <= i < |FetchTrace(url, s, script)| && FetchTrace(url, s, script)[i].FillCode? ==>
              i == 10 && FetchTrace(url, s, script)[9] == ClickCode
              && Solve(script.provider) == Success(FetchTrace(url, s, script)[i].code)
  {
    var t := FetchTrace(url, s, script);
    var tt := TryTrace(url, s, script);
    var plan := Plan(url, s, script);
    if script.start.Ok? {
      AfterTry(url, s, script);
      forall i | 0 <= i < |t| && t[i].FillCode?
        ensures i == 10 && t[9] == ClickCode && Solve(script.provider) == Success(t[i].code)
      {
        assert i < |tt|;
        assert t[i] == plan[i];
        assert StepFault(script, 8).None?;
      }
    }
  }

  /** With closes that succeed, the finally clause closes every resource the
      try block opened, the last opened first, and nothing is left open. */
  lemma ClosesEverythingOpened(script: Script)
    requires ClosesSucceed(script)
    ensures var started := Opened(script);
            var closes := Teardown(script).0;
            |closes| == |started| && forall i :: 0 <= i < |started| ==> closes[i] == Close(started[|started| - 1 - i])
    ensures Teardown(script).1 == None
    ensures Leaked(script) == {}
  {
    CloseRunUnfolded(script);
    ClosingReversesOpening(script);
    CloseRunCloses(script, ClosingOrder(script));
    var n := FailIndex(script);
    assert n > 2 ==> FirstResources(n) == {BrowserResource, ContextResource, PageResource};
  }

  /** When neither the error screenshot nor a close raises, every failure of
      fetch is a CaptchaError or an FsspUnavailable: domain errors of those
      kinds unchanged, a timeout and anything else with their fixed messages. */
  lemma FailureKinds(url: string, s: Settings, script: Script)
    requires script.start.Ok? && ClosesSucceed(script) && script.errorShot.Ok?
    ensures FetchResult(script).Failure? <==> TryError(script).Some?
    ensures FetchResult(script).Failure? ==> FetchResult(script).error == Classify(TryError(script).value)
    ensures FetchResult(script).Failure? ==>
              FetchResult(script).error.Domain?
              && (FetchResult(script).error.error.CaptchaError? || FetchResult(script).error.error.FsspUnavailable?)
    ensures TryError(script) == Some(Raw(Timeout)) ==>
              FetchResult(script) == Failure(Domain(FsspUnavailable(TimeoutMessage)))
    ensures TryError(script) == Some(Raw(OtherFault)) ==>
              FetchResult(script) == Failure(Domain(FsspUnavailable(NoResultsMessage)))
  {
    ClosesEverythingOpened(script);
  }

  /** A Playwright that does not start makes fetch raise its exception as it
      is, not as a domain error: no browser call is made and nothing is left
      open. */
  lemma StartFailureEscapes(url: string, s: Settings, script: Script)
    requires script.start.Raises?
    ensures FetchResult(script) == Failure(Raw(script.start.fault))
    ensures !FetchResult(script).error.Domain?
    ensures FetchTrace(url, s, script) == [] && Leaked(script) == {}
  {
  }

  /** fetch returns exactly when no call raises, and then returns the inner HTML
      of the results element, which it awaited with the results timeout rather
      than the navigation one. */
  lemma SuccessIff(url: string, s: Settings, script: Script)
    ensures FetchResult(script).Success? <==> script.start.Ok? && FailIndex(script) == Steps && ClosesSucceed(script)
    ensures FetchResult(script).Success? ==>
              FetchResult(script).value == script.markup
              && FetchTrace(url, s, script)[13] == WaitFor(s.browser.resultsSelector, s.browser.resultsWaitMs)
  {
    CloseRunUnfolded(script);
    if FetchResult(script).Success? {
      assert TryTrace(url, s, script) == Plan(url, s, script);
      AfterTry(url, s, script);
    }
  }

  /** A refused navigation (no response, or status 400 and above) after a
      normal start ends as FsspUnavailable with the navigation message, with
      every resource closed. */
  lemma RefusedNavigationReported(url: string, s: Settings, script: Script)
    requires script.start.Ok? && script.launch.Ok? && script.newContext.Ok? && script.newPage.Ok?
    requires Refused(script.navigation)
    requires script.errorShot.Ok? && ClosesSucceed(script)
    ensures FetchResult(script) == Failure(Domain(FsspUnavailable(NavigationMessage)))
    ensures Leaked(script) == {}
  {
    assert StepFault(script, 3).Some?;
    assert FailIndex(script) == 3;
    FailureKinds(url, s, script);
    ClosesEverythingOpened(script);
  }

  /** The captcha wait timing out after a normal start ends as FsspUnavailable
      with the timeout message; the error screenshot is taken, and the page,
      the context and the browser are closed in that order. */
  lemma CaptchaTimeoutScenario(url: string, s: Settings, script: Script)
    requires script.start.Ok? && script.launch.Ok? && script.newContext.Ok? && script.newPage.Ok?
    requires script.navigation == Responded(Some(200)) && script.firstShot.Ok?
    requires script.captcha == LookupRaises(Timeout)
    requires script.errorShot.Ok? && ClosesSucceed(script)
    ensures FetchResult(script) == Failure(Domain(FsspUnavailable(TimeoutMessage)))
    ensures FetchTrace(url, s, script)[6..] ==
              [PageShot(OnError), Close(PageResource), Close(ContextResource), Close(BrowserResource)]
    ensures Leaked(script) == {}
  {
    assert forall j :: 0 <= j < 5 ==> StepFault(script, j).None?;
    assert StepFault(script, 5).Some?;
    assert FailIndex(script) == 5;
    FailureKinds(url, s, script);
    ClosesEverythingOpened(script);
    ErrorPathTail(url, s, script);
  }

  /** After a failure with a page assigned, when the error screenshot and the
      closes succeed, fetch ends with that screenshot and the closes of page,
      context and browser. */
  lemma ErrorPathTail(url: string, s: Settings, script: Script)
    requires script.start.Ok? && PageAssigned(script) && FailIndex(script) < Steps
    requires script.errorShot.Ok? && ClosesSucceed(script)
    ensures FetchTrace(url, s, script)[|TryTrace(url, s, script)|..] ==
              [PageShot(OnError), Close(PageResource), Close(ContextResource), Close(BrowserResource)]
  {
    TeardownAfterPage(script);
    assert Handling(script).0 == [PageShot(OnError)];
  }

  /** With closes that succeed and a page assigned, the finally clause closes
      page, context and browser. */
  lemma TeardownAfterPage(script: Script)
    requires ClosesSucceed(script) && PageAssigned(script)
    ensures Teardown(script) == ([Close(PageResource), Close(ContextResource), Close(BrowserResource)], None)
  {
    CloseRunUnfolded(script);
    assert [Close(PageResource)] + ([Close(ContextResource)] + [Close(BrowserResource)])
        == [Close(PageResource), Close(ContextResource), Close(BrowserResource)];
  }

  /** A captcha image that never appears (the wait returns None) ends as
      CaptchaError with its own message. */
  lemma MissingCaptchaReported(url: string, s: Settings, script: Script)
    requires script.start.Ok? && script.launch.Ok? && script.newContext.Ok? && script.newPage.Ok?
    requires !Refused(script.navigation) && !script.navigation.NavigationRaises? && script.firstShot.Ok?
    requires script.captcha == NotFound
    requires script.errorShot.Ok? && ClosesSucceed(script)
    ensures FetchResult(script) == Failure(Domain(CaptchaError(NoCaptchaMessage)))
  {
    assert forall j :: 0 <= j < 5 ==> StepFault(script, j).None?;
    assert StepFault(script, 5).Some?;
    assert FailIndex(script) == 5;
    FailureKinds(url, s, script);
  }
}
