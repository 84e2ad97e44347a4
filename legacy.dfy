/**
 * The older scraper of src/service.py, still reachable: get_browser_data
 * drives the same search form without checking the navigation response,
 * without diagnostic page screenshots and without any exception handling, so
 * the first call that raises ends it, and the browser is closed only when
 * everything succeeded. The three get_fssp_data_by_* functions fill the URL
 * templates, run it and validate the rows as a DebItemList.
 */
module Legacy {
  import opened Wrappers
  import opened Errors
  import opened Text
  import opened Config
  import opened Captcha
  import opened Playwright
  import Parser
  import Schemas
  import Models
  import Service

  /** The settings the older code reads. */
  datatype LegacySettings = LegacySettings(tempPath: string, apiKey: string, urls: FsspUrls)

  /** The environment's answer to every call get_browser_data can make;
      `start` is entering `async with async_playwright()`. */
  datatype LegacyScript = LegacyScript(
    start: Call,
    launch: Call,
    newContext: Call,
    newPage: Call,
    navigation: Call,
    firstWait: Call,
    clearTimers: Call,
    captcha: Lookup,
    captchaShot: Call,
    provider: ProviderOutcome,
    clickCode: Call,
    fill: Call,
    submit: Call,
    results: Lookup,
    resultsShot: Call,
    readHtml: Call,
    document: Parser.Document,
    closePage: Call,
    closeContext: Call,
    closeBrowser: Call)

  const CaptchaSelector := "img#capchaVisualImage"
  const ResultsSelector := ".results"
  const NavigationTimeoutMs := 60000
  const ResultsWaitMs := 5000

  /** `temp_path / name` for the two files the older code writes. */
  function TempFile(s: LegacySettings, name: string): string {
    s.tempPath + "/" + name
  }

  /** The text typed into the captcha field: `str(result['code'])`, so "None"
      when the recognition service failed. */
  function TypedCode(p: ProviderOutcome): (code: string)
    ensures p.ProviderRaises? ==> code == "None"
    ensures p.Reply? && p.code.Code? ==> code == p.code.text
  {
    var r := SolveCaptcha(p);
    if r.Success? then PyStr(r.value) else ""
  }

  /** The number of calls when none raises. */
  const LegacySteps := 18

  /** The k-th call of get_browser_data. */
  function LegacyAction(url: string, s: LegacySettings, script: LegacyScript, k: nat): Action {
    if k == 0 then Launch(true)
    else if k == 1 then NewContext(None)
    else if k == 2 then NewPage
    else if k == 3 then Goto(url, NavigationTimeoutMs)
    else if k == 4 then WaitFor(CaptchaSelector, NavigationTimeoutMs)
    else if k == 5 then ClearTimers
    else if k == 6 then WaitFor(CaptchaSelector, NavigationTimeoutMs)
    else if k == 7 then ElementShot(TempFile(s, DefaultCaptchaFilename))
    else if k == 8 then AskSolver(TempFile(s, DefaultCaptchaFilename), Numeric)
    else if k == 9 then ClickCode
    else if k == 10 then FillCode(TypedCode(script.provider))
    else if k == 11 then Submit
    else if k == 12 then WaitFor(ResultsSelector, ResultsWaitMs)
    else if k == 13 then ElementShot(TempFile(s, "fullpage.png"))
    else if k == 14 then ReadHtml
    else if k == 15 then Close(PageResource)
    else if k == 16 then Close(ContextResource)
    else Close(BrowserResource)
  }

  /** Every call of get_browser_data, in order. */
  function LegacyPlan(url: string, s: LegacySettings, script: LegacyScript): (p: seq<Action>)
    ensures |p| == LegacySteps && forall k :: 0 <= k < LegacySteps ==> p[k] == LegacyAction(url, s, script, k)
  {
    seq(LegacySteps, k requires 0 <= k => LegacyAction(url, s, script, k))
  }

  /** A wait that raises; a wait that returns None fails later, on first use of
      the element. */
  function LookupFault(l: Lookup): Option<Exc> {
    if l.LookupRaises? then Some(Raw(l.fault)) else None
  }

  /** Using an element that is None raises AttributeError. */
  function ElementFault(l: Lookup, c: Call): Option<Exc> {
    if l.NotFound? then Some(Raw(OtherFault)) else CallFault(c)
  }

  function SolverFault(p: ProviderOutcome): Option<Exc> {
    var r := SolveCaptcha(p);
    if r.Failure? then Some(r.error) else None
  }

  /** Reading the results' HTML, with the parsing that follows it. */
  function ReadFault(script: LegacyScript): Option<Exc> {
    var parsed := Parser.LegacyParseSpec(script.document);
    if script.results.NotFound? then Some(Raw(OtherFault))
    else if script.readHtml.Raises? then CallFault(script.readHtml)
    else if parsed.Failure? then Some(parsed.error)
    else None
  }

  /** The exception the k-th call raises, the work before the next call
      included. */
  function StepFault(script: LegacyScript, k: nat): Option<Exc> {
    if k == 0 then CallFault(script.launch)
    else if k == 1 then CallFault(script.newContext)
    else if k == 2 then CallFault(script.newPage)
    else if k == 3 then CallFault(script.navigation)
    else if k == 4 then CallFault(script.firstWait)
    else if k == 5 then CallFault(script.clearTimers)
    else if k == 6 then LookupFault(script.captcha)
    else if k == 7 then ElementFault(script.captcha, script.captchaShot)
    else if k == 8 then SolverFault(script.provider)
    else if k == 9 then CallFault(script.clickCode)
    else if k == 10 then CallFault(script.fill)
    else if k == 11 then CallFault(script.submit)
    else if k == 12 then LookupFault(script.results)
    else if k == 13 then ElementFault(script.results, script.resultsShot)
    else if k == 14 then ReadFault(script)
    else if k == 15 then CallFault(script.closePage)
    else if k == 16 then CallFault(script.closeContext)
    else if k == 17 then CallFault(script.closeBrowser)
    else None
  }

  function Faults(script: LegacyScript): (f: seq<Option<Exc>>)
    ensures |f| == LegacySteps && forall k :: 0 <= k < LegacySteps ==> f[k] == StepFault(script, k)
  {
    seq(LegacySteps, k requires 0 <= k => StepFault(script, k))
  }

  /** The position of the call that raises, or LegacySteps when none does. */
  function FailIndex(script: LegacyScript): (n: nat)
    ensures n <= LegacySteps && forall j :: 0 <= j < n ==> StepFault(script, j).None?
    ensures n < LegacySteps ==> StepFault(script, n).Some?
  {
    var f := Faults(script);
    var n := FirstFault(f);
    assert NoFaultBefore(f, n);
    n
  }

  /** Every call get_browser_data makes: none when Playwright does not start. */
  function BrowserDataTrace(url: string, s: LegacySettings, script: LegacyScript): (t: seq<Action>)
    ensures script.start.Raises? ==> t == []
    ensures script.start.Ok? ==>
              t == LegacyPlan(url, s, script)[..if FailIndex(script) < LegacySteps then FailIndex(script) + 1
                                              else LegacySteps]
  {
    if script.start.Raises? then [] else Attempted(LegacyPlan(url, s, script), Faults(script))
  }

  /** What get_browser_data returns or raises: the exception of a Playwright
      that does not start, or of the first call that raises, unchanged; else
      the parsed rows. */
  function BrowserDataResult(script: LegacyScript): (r: Result<seq<Parser.CaseRow>, Exc>)
    ensures r.Failure? <==> script.start.Raises? || FailIndex(script) < LegacySteps
    ensures script.start.Raises? ==> r == Failure(Raw(script.start.fault))
    ensures script.start.Ok? && r.Failure? ==> Some(r.error) == StepFault(script, FailIndex(script))
    ensures r.Success? ==> Parser.LegacyParseSpec(script.document) == Success(r.value)
  {
    var e := Raised(Faults(script));
    if script.start.Raises? then Failure(Raw(script.start.fault))
    else if e.Some? then Failure(e.value)
    else
      assert StepFault(script, 14).None?;
      Success(Parser.LegacyParseSpec(script.document).value)
  }

  /** The resources get_browser_data leaves open. */
  function BrowserDataLive(url: string, s: LegacySettings, script: LegacyScript): set<Resource> {
    if script.start.Raises? then {} else LiveAfter(LegacyPlan(url, s, script)[..FailIndex(script)])
  }

  ghost predicate LegacyState(url: string, s: LegacySettings, script: LegacyScript, b: Browser,
                              raised: Option<Exc>, k: nat)
    reads b
  {
    RunState(b, LegacyPlan(url, s, script), Faults(script), raised, k)
  }

  method Step(b: Browser, ghost url: string, ghost s: LegacySettings, ghost script: LegacyScript,
              raised0: Option<Exc>, ghost k: nat, a: Action, outcome: Option<Exc>)
    returns (raised: Option<Exc>)
    requires LegacyState(url, s, script, b, raised0, k) && k < LegacySteps
    requires raised0.None? ==> a == LegacyPlan(url, s, script)[k] && outcome == StepFault(script, k)
    modifies b
    ensures LegacyState(url, s, script, b, raised, k + 1)
  {
    raised := PerformStep(b, LegacyPlan(url, s, script), Faults(script), raised0, k, a, outcome);
  }

  /** get_browser_data on a fresh Playwright session. */
  method GetBrowserData(b: Browser, url: string, s: LegacySettings, script: LegacyScript)
    returns (r: Result<seq<Parser.CaseRow>, Exc>)
    requires b.trace == [] && b.live == {}
    modifies b
    ensures b.trace == BrowserDataTrace(url, s, script)
    ensures r == BrowserDataResult(script)
    ensures b.live == BrowserDataLive(url, s, script)
  {
    if script.start.Raises? {
      return Failure(Raw(script.start.fault));
    }
    var raised := OpenPage(b, url, s, script);
    raised := LoadPage(b, url, s, script, raised);
    var code;
    raised, code := CaptureCaptcha(b, url, s, script, raised);
    raised := SubmitCode(b, url, s, script, raised, code);
    var rows;
    raised, rows := ReadResults(b, url, s, script, raised);
    raised := CloseAll(b, url, s, script, raised);
    if raised.Some? {
      r := Failure(raised.value);
    } else {
      r := Success(rows);
    }
  }

  /** Launch the browser and open a context and a page. */
  method OpenPage(b: Browser, url: string, s: LegacySettings, script: LegacyScript)
    returns (raised: Option<Exc>)
    requires b.trace == [] && b.live == {}
    modifies b
    ensures LegacyState(url, s, script, b, raised, 3)
  {
    raised := Step(b, url, s, script, None, 0, Launch(true), CallFault(script.launch));
    raised := Step(b, url, s, script, raised, 1, NewContext(None), CallFault(script.newContext));
    raised := Step(b, url, s, script, raised, 2, NewPage, CallFault(script.newPage));
  }

  /** Go to the URL, wait for the captcha and stop the page's timers. */
  method LoadPage(b: Browser, url: string, s: LegacySettings, script: LegacyScript, raised0: Option<Exc>)
    returns (raised: Option<Exc>)
    requires LegacyState(url, s, script, b, raised0, 3)
    modifies b
    ensures LegacyState(url, s, script, b, raised, 6)
  {
    raised := Step(b, url, s, script, raised0, 3, Goto(url, NavigationTimeoutMs), CallFault(script.navigation));
    raised := Step(b, url, s, script, raised, 4, WaitFor(CaptchaSelector, NavigationTimeoutMs),
                   CallFault(script.firstWait));
    raised := Step(b, url, s, script, raised, 5, ClearTimers, CallFault(script.clearTimers));
  }

  /** Look the captcha up again, capture it and have it recognised. */
  method CaptureCaptcha(b: Browser, url: string, s: LegacySettings, script: LegacyScript, raised0: Option<Exc>)
    returns (raised: Option<Exc>, code: string)
    requires LegacyState(url, s, script, b, raised0, 6)
    modifies b
    ensures LegacyState(url, s, script, b, raised, 9)
    ensures code == TypedCode(script.provider)
  {
    var captchaFile := TempFile(s, DefaultCaptchaFilename);
    raised := Step(b, url, s, script, raised0, 6, WaitFor(CaptchaSelector, NavigationTimeoutMs),
                   LookupFault(script.captcha));
    raised := Step(b, url, s, script, raised, 7, ElementShot(captchaFile),
                   ElementFault(script.captcha, script.captchaShot));
    var solved := SolveCaptcha(script.provider);
    raised := Step(b, url, s, script, raised, 8, AskSolver(captchaFile, Numeric),
                   if solved.Failure? then Some(solved.error) else None);
    code := if solved.Success? then PyStr(solved.value) else "";
  }

  /** Type the code into the form and submit it. */
  method SubmitCode(b: Browser, url: string, s: LegacySettings, script: LegacyScript, raised0: Option<Exc>,
                    code: string)
    returns (raised: Option<Exc>)
    requires LegacyState(url, s, script, b, raised0, 9)
    requires code == TypedCode(script.provider)
    modifies b
    ensures LegacyState(url, s, script, b, raised, 12)
  {
    raised := Step(b, url, s, script, raised0, 9, ClickCode, CallFault(script.clickCode));
    raised := Step(b, url, s, script, raised, 10, FillCode(code), CallFault(script.fill));
    raised := Step(b, url, s, script, raised, 11, Submit, CallFault(script.submit));
  }

  /** Wait for the results, capture them, read their HTML and parse it. */
  method ReadResults(b: Browser, url: string, s: LegacySettings, script: LegacyScript, raised0: Option<Exc>)
    returns (raised: Option<Exc>, rows: seq<Parser.CaseRow>)
    requires LegacyState(url, s, script, b, raised0, 12)
    modifies b
    ensures LegacyState(url, s, script, b, raised, 15)
    ensures raised.None? ==> Parser.LegacyParseSpec(script.document) == Success(rows)
  {
    raised := Step(b, url, s, script, raised0, 12, WaitFor(ResultsSelector, ResultsWaitMs),
                   LookupFault(script.results));
    raised := Step(b, url, s, script, raised, 13, ElementShot(TempFile(s, "fullpage.png")),
                   ElementFault(script.results, script.resultsShot));
    raised := Step(b, url, s, script, raised, 14, ReadHtml, ReadFault(script));
    rows := [];
    if raised.None? {
      rows := Parser.LegacyParseSpec(script.document).value;
    }
  }

  /** Close the page, the context and the browser. */
  method CloseAll(b: Browser, url: string, s: LegacySettings, script: LegacyScript, raised0: Option<Exc>)
    returns (raised: Option<Exc>)
    requires LegacyState(url, s, script, b, raised0, 15)
    modifies b
    ensures LegacyState(url, s, script, b, raised, LegacySteps)
  {
    raised := Step(b, url, s, script, raised0, 15, Close(PageResource), CallFault(script.closePage));
    raised := Step(b, url, s, script, raised, 16, Close(ContextResource), CallFault(script.closeContext));
    raised := Step(b, url, s, script, raised, 17, Close(BrowserResource), CallFault(script.closeBrowser));
  }

  // ---------------------------------------------------------------------------
  // The three searches
  // ---------------------------------------------------------------------------

  /** get_fssp_data_by_person's arguments: a missing patronymic is passed to
      str.format as None and so rendered as the text "None". */
  function PersonArgs(p: Models.Person): map<string, string> {
    Service.PersonFields(p.lastName, p.firstName, PyStr(p.patronymic), p.birthday)
  }

  /** A person without a patronymic is searched for with the patronymic "None". */
  lemma MissingPatronymicSentAsNone(p: Models.Person)
    requires p.patronymic.None?
    ensures Contains(Format(PersonTemplate, PersonArgs(p)).value, "&is%5Bpatronymic%5D=None&is%5Bdate%5D=")
  {
    Service.PatronymicField(p.lastName, p.firstName, "None", p.birthday);
    assert "&is%5Bpatronymic%5D=" + "None" + "&is%5Bdate%5D=" == "&is%5Bpatronymic%5D=None&is%5Bdate%5D=";
  }

  /** What a get_fssp_data_by_* function returns or raises: KeyError for a
      template field it does not supply, the scraper's exception unchanged,
      a ValidationError when a row has no region, else the validated items. */
  function FsspDataResult(t: Template, args: map<string, string>, script: LegacyScript)
    : (r: Result<seq<Schemas.DebItem>, Exc>)
    ensures !Binds(t, args) ==> r == Failure(Raw(OtherFault))
    ensures Binds(t, args) && BrowserDataResult(script).Failure? ==> r == Failure(BrowserDataResult(script).error)
    ensures r.Success? <==>
              Binds(t, args) && BrowserDataResult(script).Success?
              && Schemas.DebItemList(BrowserDataResult(script).value).Some?
    ensures r.Success? ==>
              var rows := BrowserDataResult(script).value;
              |r.value| == |rows| && forall i :: 0 <= i < |rows| ==> Schemas.ItemRow(r.value[i]) == rows[i]
  {
    if !Binds(t, args) then Failure(Raw(OtherFault))
    else
      var data := BrowserDataResult(script);
      if data.Failure? then Failure(data.error)
      else
        var items := Schemas.DebItemList(data.value);
        if items.None? then Failure(Raw(OtherFault)) else Success(items.value)
  }

  /** The body shared by the three get_fssp_data_by_* functions. */
  method GetFsspData(b: Browser, t: Template, args: map<string, string>, s: LegacySettings,
                     script: LegacyScript)
    returns (r: Result<seq<Schemas.DebItem>, Exc>)
    requires b.trace == [] && b.live == {}
    modifies b
    ensures r == FsspDataResult(t, args, script)
    ensures !Binds(t, args) ==> b.trace == []
    ensures Binds(t, args) ==> b.trace == BrowserDataTrace(Format(t, args).value, s, script)
  {
    var url := Format(t, args);
    if url.Failure? {
      return Failure(Raw(OtherFault));
    }
    var data := GetBrowserData(b, url.value, s, script);
    if data.Failure? {
      return Failure(data.error);
    }
    var items := Schemas.DebItemList(data.value);
    if items.None? {
      r := Failure(Raw(OtherFault));
    } else {
      r := Success(items.value);
    }
  }

  /** get_fssp_data_by_ip. */
  method GetFsspDataByIp(b: Browser, s: LegacySettings, ip: string, script: LegacyScript)
    returns (r: Result<seq<Schemas.DebItem>, Exc>)
    requires b.trace == [] && b.live == {}
    modifies b
    ensures r == FsspDataResult(s.urls.ip, Service.IpArgs(ip), script)
    ensures Binds(s.urls.ip, Service.IpArgs(ip)) ==>
              b.trace == BrowserDataTrace(Format(s.urls.ip, Service.IpArgs(ip)).value, s, script)
  {
    r := GetFsspData(b, s.urls.ip, Service.IpArgs(ip), s, script);
  }

  /** get_fssp_data_by_person. */
  method GetFsspDataByPerson(b: Browser, s: LegacySettings, p: Models.Person, script: LegacyScript)
    returns (r: Result<seq<Schemas.DebItem>, Exc>)
    requires b.trace == [] && b.live == {}
    modifies b
    ensures r == FsspDataResult(s.urls.person, PersonArgs(p), script)
    ensures Binds(s.urls.person, PersonArgs(p)) ==>
              b.trace == BrowserDataTrace(Format(s.urls.person, PersonArgs(p)).value, s, script)
  {
    r := GetFsspData(b, s.urls.person, PersonArgs(p), s, script);
  }

  /** get_fssp_data_by_inn. */
  method GetFsspDataByInn(b: Browser, s: LegacySettings, inn: string, script: LegacyScript)
    returns (r: Result<seq<Schemas.DebItem>, Exc>)
    requires b.trace == [] && b.live == {}
    modifies b
    ensures r == FsspDataResult(s.urls.inn, Service.InnArgs(inn), script)
    ensures Binds(s.urls.inn, Service.InnArgs(inn)) ==>
              b.trace == BrowserDataTrace(Format(s.urls.inn, Service.InnArgs(inn)).value, s, script)
  {
    r := GetFsspData(b, s.urls.inn, Service.InnArgs(inn), s, script);
  }

  // ---------------------------------------------------------------------------
  // Properties of the older scraper
  // ---------------------------------------------------------------------------

  /** Before the closes, the k-th call opens the k-th resource, if it opens one. */
  lemma LegacyPlanEffect(url: string, s: LegacySettings, script: LegacyScript, k: nat)
    requires k < 15
    ensures Effect(FirstResources(k), LegacyPlan(url, s, script)[k], None) == FirstResources(k + 1)
  {
  }

  lemma {:induction false} LegacyPlanLive(url: string, s: LegacySettings, script: LegacyScript, n: nat)
    requires n <= 15
    ensures LiveAfter(LegacyPlan(url, s, script)[..n]) == FirstResources(n)
  {
    if n > 0 {
      LegacyPlanLive(url, s, script, n - 1);
      LiveStep(LegacyPlan(url, s, script), n);
      LegacyPlanEffect(url, s, script, n - 1);
    }
  }

  /** A call that raises before the closes ends the scraper with no close made:
      the browser, context and page opened so far are all left open. */
  lemma FailureLeavesResourcesOpen(url: string, s: LegacySettings, script: LegacyScript)
    requires script.start.Ok? && FailIndex(script) < 15
    ensures forall i :: 0 <= i < |BrowserDataTrace(url, s, script)| ==> !BrowserDataTrace(url, s, script)[i].Close?
    ensures BrowserDataLive(url, s, script) == FirstResources(FailIndex(script))
    ensures FailIndex(script) >= 3 ==>
              BrowserDataLive(url, s, script) == {BrowserResource, ContextResource, PageResource}
  {
    var plan := LegacyPlan(url, s, script);
    var t := BrowserDataTrace(url, s, script);
    forall i | 0 <= i < |t|
      ensures !t[i].Close?
    {
      assert t[i] == plan[i];
    }
    LegacyPlanLive(url, s, script, FailIndex(script));
  }

  /** When nothing raises, the scraper returns the parsed rows, and it has
      closed the page, the context and the browser, in that order, leaving
      nothing open. */
  lemma SuccessClosesAll(url: string, s: LegacySettings, script: LegacyScript)
    requires BrowserDataResult(script).Success?
    ensures BrowserDataTrace(url, s, script)[15..] ==
              [Close(PageResource), Close(ContextResource), Close(BrowserResource)]
    ensures BrowserDataLive(url, s, script) == {}
  {
    var plan := LegacyPlan(url, s, script);
    LegacyPlanLive(url, s, script, 15);
    assert FailIndex(script) == LegacySteps;
    var open3 := {BrowserResource, ContextResource, PageResource};
    assert LiveAfter(plan[..15]) == open3;
    LiveStep(plan, 16);
    assert LiveAfter(plan[..16]) == open3 - {PageResource};
    LiveStep(plan, 17);
    assert LiveAfter(plan[..17]) == {BrowserResource};
    LiveStep(plan, 18);
    assert LiveAfter(plan[..18]) == {};
  }

  /** When the recognition service fails, the scraper still types a code: the
      text "None". */
  lemma ProviderFailureTypesNone(url: string, s: LegacySettings, script: LegacyScript)
    requires script.start.Ok? && script.provider == ProviderRaises && FailIndex(script) > 10
    ensures BrowserDataTrace(url, s, script)[10] == FillCode("None")
  {
  }

  /** A reply without a code raises KeyError right after the request: nothing is
      typed into the form, and no close is made. */
  lemma MissingCodeRaises(url: string, s: LegacySettings, script: LegacyScript)
    requires script.start.Ok? && script.provider == Reply(Missing)
    requires forall k :: 0 <= k < 8 ==> StepFault(script, k).None?
    ensures BrowserDataResult(script) == Failure(Raw(OtherFault))
    ensures BrowserDataTrace(url, s, script) == LegacyPlan(url, s, script)[..9]
    ensures BrowserDataTrace(url, s, script)[8] == AskSolver(TempFile(s, DefaultCaptchaFilename), Numeric)
  {
    assert StepFault(script, 8).Some?;
    assert FailIndex(script) == 8;
  }

  /** A results page without a results table is an empty list for the older
      code, where FsspService raises FsspUnavailable. */
  lemma EmptyResultAccepted(t: Template, args: map<string, string>, script: LegacyScript)
    requires Binds(t, args) && script.start.Ok?
    requires forall k :: 0 <= k < 14 ==> StepFault(script, k).None?
    requires script.results.Found? && script.readHtml.Ok?
    requires script.document.Page? && script.document.table.None?
    requires script.closePage.Ok? && script.closeContext.Ok? && script.closeBrowser.Ok?
    ensures FsspDataResult(t, args, script) == Success([])
  {
    assert forall k :: 0 <= k < LegacySteps ==> StepFault(script, k).None?;
    assert FailIndex(script) == LegacySteps;
  }

  /** A proceeding listed before any region title has no region, and the older
      code then fails validation of the whole list. */
  lemma RowWithoutRegionRejected(t: Template, args: map<string, string>, script: LegacyScript, i: nat)
    requires Binds(t, args) && BrowserDataResult(script).Success?
    requires i < |BrowserDataResult(script).value| && BrowserDataResult(script).value[i].region.None?
    ensures FsspDataResult(t, args, script) == Failure(Raw(OtherFault))
  {
  }
}
