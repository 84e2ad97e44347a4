# FSSP debtor search: a verified model

This project models the deterministic core of a service that looks up
enforcement proceedings on the website of the Russian Federal Bailiff
Service (ФССП). The service:

- validates the query (an INN, a proceeding number, or a person with a
  birthday);
- fills one of three search-URL templates;
- drives a headless browser through the site's search form and its captcha;
- reads the results table into rows and turns them into domain cases.

Both generations of the code are modelled:

- the current layered one: `FsspHtmlParser`, `FsspService`, `FsspClient`,
  `CaptchaSolver` and the domain validators;
- the older `src/service.py` and `src/schemas.py`, which are still part of
  the repository.

The files:

- `wrappers.dfy`, `errors.dfy`: Option and Result. The domain errors,
  including `CaptchaLimitExceeded`, and the non-domain exceptions (a
  Playwright timeout, or anything else). It also holds the import of the
  parser's error classes, which fails as written (see Findings).
- `text.dfy`: the Python string primitives the core relies on:
  - `str.isspace`, `strip` and BeautifulSoup's `stripped_strings`;
  - `str.join` and `in`;
  - the regular-expression class `\d`, over the Unicode decimal digits;
  - `int()`, and `str.format` over a template whose fields are located.
- `parser.dfy`: `parse_cases` and the older `parse_fssp_ip_data`. The
  document is what the parser looks at:
  - the optional `.results .empty` block;
  - the optional results table, whose rows each have a header-cell flag,
    classes, text nodes and cells.

  The row loop is a method with a loop invariant, proved equal to a fold
  (`Walk`) whose properties are lemmas.
- `models.dfy`: `validate_inn`, `validate_birthday` (the current date is a
  parameter), `validate_ip_number`, `DebtorCase` and
  `DebtorCaseList.from_rows`. The validators in `src/schemas.py` (lines 5-34) are the
  same code and are modelled once, here.
- `schemas.dfy`: the older `DebItem` / `DebItemList` result schema.
- `config.dfy`: the settings defaults, the captcha file path and
  `populate_captcha`. The latter is the one settings validator that bears on
  the core: it decides whether fetch sees captcha settings at all, and
  `PopulatedCaptchaFile` shows that this never changes the file the captcha
  image is written to.
- `captcha.dfy`: `CaptchaSolver.solve`, and the older `request_to_rucaptcha`
  / `solve_captcha`.
- `browser.dfy`: the browser as a class.
  - Every call is appended to its `trace`.
  - The browser, context and page that are open form its `live` set.
  - A call's outcome (it returns, or what it raises) is an input.
  - It also holds the generic machinery for a run of calls that stops at
    the first one that raises.
- `client.dfy`: `FsspClient.fetch` as a method on that class. Its try
  block is stage methods over a fixed plan of sixteen calls, followed by
  its except clauses and its finally clause. `FetchTrace`, `FetchResult`
  and `Leaked` state, as functions of the environment's script, what it
  does.
- `service.dfy`: the `FsspService` facade. The client and the parser enter
  as functions (`fetch`, `read`), or as the client's own model.
- `legacy.dfy`: the older `get_browser_data` scraper, with its eighteen
  calls and no exception handling, and the three `get_fssp_data_by_*`
  functions.

## Model

| member | source | states |
|---|---|---|
| Text.Strip | src/infrastructure/parser.py:21 | the stripped text has no whitespace at either end, and is empty exactly when the text is all whitespace |
| Text.StripWindow | src/infrastructure/parser.py:40 | the stripped text is a window of the original with only whitespace on either side |
| Text.StripKeeps | src/infrastructure/parser.py:21 | stripping an already stripped text changes nothing |
| Text.StrippedStrings | src/infrastructure/parser.py:50 | stripped_strings yields at most one piece per text node, each non-blank and stripped |
| Text.StrippedStringsKeeps | src/infrastructure/parser.py:50 | non-blank stripped text nodes come through unchanged |
| Text.JoinSpaceStripped | src/infrastructure/parser.py:50-56 | joining clean pieces with one space gives a stripped text, empty only when there are no pieces, starting with the first piece's first character |
| Text.ContainsIff | src/infrastructure/parser.py:22 | `pat in s` holds exactly when pat occurs at some position of s (both directions) |
| Text.ContainsSurrounded | src/infrastructure/parser.py:22 | a text contains every piece it is built around |
| Text.Format | src/application/fssp_service.py:17 | str.format succeeds exactly when every field of the template has an argument; otherwise it fails naming a field that has none |
| Text.FormatField | src/application/fssp_service.py:17 | a template that is a single field gives that field's argument verbatim |
| Text.FormatAppend | src/application/fssp_service.py:25-31 | formatting the concatenation of two templates concatenates their formattings |
| Errors.ImportFailure | src/infrastructure/parser.py:3 | `from m import ...` fails exactly when some imported name is not defined by m, and then names one of them |
| Errors.ParserImportFails | src/infrastructure/parser.py:3 | as written: the parser's import of the error classes fails on CaptchaLimitExceeded |
| Errors.ParserImportResolves | src/domain/errors.py:1-14 | corrected: with CaptchaLimitExceeded defined, every name the parser imports resolves |
| Playwright.Browser.constructor | src/infrastructure/fssp_client.py:29 | a fresh Playwright session has made no call and holds nothing open |
| Playwright.Browser.Perform | src/infrastructure/fssp_client.py:31-36 | a call is appended to the trace; launch, new_context and new_page open their resource and close releases one, only when the call returns |
| Playwright.FirstFault | src/infrastructure/fssp_client.py:30-72 | the position of the first call that raises: every call before it returns normally, and the one at it raises |
| Playwright.PerformStep | src/infrastructure/fssp_client.py:30-72 | a call is made only while nothing has raised; afterwards the trace is the plan's prefix through the raising call, and the open resources are those opened before it |
| Captcha.Solve | src/infrastructure/captcha.py:15-24 | succeeds exactly on a reply with a non-empty code, returning that code; every other outcome is CaptchaError with the generic message |
| Captcha.SolveFailuresAlike | src/infrastructure/captcha.py:19-24 | a provider exception, a missing, a null and an empty code all give the same error |
| Captcha.RequestToRucaptcha | src/service.py:48-65 | a provider exception is swallowed into the default reply whose code is None; any other reply is returned as is |
| Captcha.SolveCaptcha | src/service.py:67-69 | raises KeyError exactly for a reply without a code; returns None when the provider raised; a code it returns is the provider's |
| Captcha.AdaptersAgree | src/service.py:67-69 | where the current solver succeeds the older one returns the same code; an empty code passes the older one and is refused by the current one |
| Captcha.PyStr | src/service.py:115 | `str()` of a text is the text, and of None is "None" |
| Config.JoinPath | src/infrastructure/fssp_client.py:23 | POSIX `dir / name`: a relative name is appended after "/", an absolute one replaces the directory |
| Config.CaptchaFile | src/infrastructure/fssp_client.py:21-23 | the captcha image is the configured file name inside TEMP_PATH, or captcha.png there when no captcha settings exist |
| Config.PopulateCaptcha | src/infrastructure/config.py:77-84 | missing captcha settings are filled from a non-empty RuCaptcha key with the default file name; present ones are kept; with no key they stay absent |
| Config.PopulatedCaptchaFile | src/infrastructure/config.py:77-84 | filling in the captcha settings never moves the captcha image file |
| Client.FailIndex | src/infrastructure/fssp_client.py:30-72 | every call of the try block before this position returns normally; the one at it raises |
| Client.TryTrace | src/infrastructure/fssp_client.py:30-72 | the calls made in the try block are the plan's prefix up to and including the first that raises |
| Client.TryError | src/infrastructure/fssp_client.py:30-72 | the exception leaving the try block is that of the first call that raises, or none |
| Client.Classify | src/infrastructure/fssp_client.py:73-88 | CaptchaError and FsspUnavailable pass unchanged; a timeout and any other exception become FsspUnavailable with their own messages; the result is always one of the two |
| Client.PlanLive | src/infrastructure/fssp_client.py:31-36 | after n calls of the plan, the first min(n, 3) of browser, context and page are open |
| Client.OpenPage | src/infrastructure/fssp_client.py:31-36 | launches, opens a context and a page; reports which of browser, context and page got assigned |
| Client.LoadSearchPage | src/infrastructure/fssp_client.py:39-55 | goto with the navigation timeout, refusal of a missing or failed response, first screenshot, captcha wait (None raises CaptchaError) |
| Client.SolvePageCaptcha | src/infrastructure/fssp_client.py:58-62 | clears the page's timers, captures the captcha image, asks the solver (numeric) and returns the solver's code |
| Client.EnterCode | src/infrastructure/fssp_client.py:64-65 | clicks the code field, then fills it with the solved code |
| Client.SubmitForm | src/infrastructure/fssp_client.py:66-67 | takes the second screenshot, then submits |
| Client.AwaitResults | src/infrastructure/fssp_client.py:70-71 | waits for the results with the results timeout, then takes the third screenshot |
| Client.ReadResults | src/infrastructure/fssp_client.py:72 | reads the inner HTML, which raises when the results wait returned None |
| Client.TryBlock | src/infrastructure/fssp_client.py:30-72 | the try block's trace, its exception and its open resources are exactly those of the plan run to its first raising call |
| Client.ExceptClause | src/infrastructure/fssp_client.py:73-88 | classifies the exception; when a page exists it takes the error screenshot, whose own exception replaces the classified one |
| Client.CloseRunUnfolded | src/infrastructure/fssp_client.py:89-95 | the finally clause spelled out for 0 to 3 assigned resources, stopping at the first close that raises |
| Client.FinallyClause | src/infrastructure/fssp_client.py:89-95 | closes page, context and browser, those assigned, in that order, until one raises; leaves open exactly what was not closed |
| Client.Fetch | src/infrastructure/fssp_client.py:19-97 | every call made, the result or exception, and what is left open are FetchTrace, FetchResult and Leaked of the script; a Playwright that does not start raises before any browser call |
| Client.StartFailureEscapes | src/infrastructure/fssp_client.py:29-30 | entering `async_playwright()` sits outside the try: its exception leaves fetch unchanged, not as a domain error, with no call made and nothing open |
| Client.ClosingReversesOpening | src/infrastructure/fssp_client.py:89-95 | the closing order is the reverse of the opening order |
| Client.CloseRunCloses | src/infrastructure/fssp_client.py:89-95 | the finally clause only closes, in the given order |
| Client.AfterTry | src/infrastructure/fssp_client.py:73-95 | after the try block, fetch only takes the error screenshot and closes |
| Client.SolverFailureStopsForm | src/infrastructure/fssp_client.py:62-67 | when the captcha cannot be solved, no click on the code field, no fill and no submit is ever made |
| Client.CaptchaSequence | src/infrastructure/fssp_client.py:50-62 | whenever the solver is asked, the four calls right before it are the captcha wait, clearing the timers and the captcha screenshot, then the request |
| Client.FillFollowsClick | src/infrastructure/fssp_client.py:62-65 | the form is filled only right after the click on the code field, and with the code the solver returned |
| Client.ClosesEverythingOpened | src/infrastructure/fssp_client.py:89-95 | with closes that succeed, every opened resource is closed, the last opened first, and nothing is left open |
| Client.FailureKinds | src/infrastructure/fssp_client.py:73-88 | once Playwright has started, fetch fails exactly when the try block raised, and then with the classified error, which is always a CaptchaError or an FsspUnavailable |
| Client.SuccessIff | src/infrastructure/fssp_client.py:29-97 | fetch returns exactly when Playwright starts and no call raises, and then returns the results' inner HTML, awaited with the results timeout |
| Client.RefusedNavigationReported | src/infrastructure/fssp_client.py:44-45 | no response, or status 400 and above, ends as FsspUnavailable with the navigation message, with everything closed |
| Client.CaptchaTimeoutScenario | src/infrastructure/fssp_client.py:81-84 | a captcha wait that times out ends as FsspUnavailable with the timeout message, after the error screenshot and the closes of page, context and browser |
| Client.ErrorPathTail | src/infrastructure/fssp_client.py:73-95 | after a failure with a page assigned, and with the error screenshot and closes succeeding, fetch ends with the error screenshot, then closes page, context and browser |
| Client.CaptchaWindow | src/infrastructure/fssp_client.py:50-62 | once the try block has passed the solver request, calls 5 to 8 are the captcha wait, clearing the timers, the captcha screenshot and the request |
| Client.TeardownAfterPage | src/infrastructure/fssp_client.py:89-95 | with a page assigned and closes that succeed, the finally clause closes page, context, browser |
| Client.MissingCaptchaReported | src/infrastructure/fssp_client.py:54-55 | a captcha wait that returns None ends as CaptchaError with its message |
| Parser.CellTextStripped | src/infrastructure/parser.py:50-56 | a cell's text is stripped, and empty exactly when all of its text nodes are blank |
| Parser.ServiceColumnIgnored | src/infrastructure/parser.py:47-57 | cell 4 has no influence on the record |
| Parser.Walk | src/infrastructure/parser.py:34-58 | the row loop yields at most one record per row |
| Parser.WalkRegion | src/infrastructure/parser.py:34-41 | the current region is None exactly until a region-title row is seen, and then the text of the latest one |
| Parser.DataIndices | src/infrastructure/parser.py:36-45 | lists exactly the data rows (no header cell, not a region title, eight cells), in increasing order |
| Parser.WalkRecords | src/infrastructure/parser.py:36-58 | one record per data row, in document order, each mapped from its cells with the region current at that row |
| Parser.HeaderRowSkipped | src/infrastructure/parser.py:37-38 | a row with a header cell changes nothing, even when it is also a region title |
| Parser.HeaderOnlyTable | src/infrastructure/parser.py:37-45 | a table of header rows yields no record and no region |
| Parser.ParseSpec | src/infrastructure/parser.py:12-60 | ParsingError exactly for an unparseable document; the attempts-limit sentinel raises CaptchaLimitExceeded even with a table present; no table gives []; otherwise at most one record per row |
| Parser.ParseCases | src/infrastructure/parser.py:12-60 | the parser's code returns or raises exactly what ParseSpec states |
| Parser.WalkTable | src/infrastructure/parser.py:34-58 | the loop with its region accumulator computes the records of Walk |
| Parser.LegacyParseSpec | src/service.py:12-46 | fails only when lxml cannot build a document, with a raw exception; no sentinel check; no table gives [] |
| Parser.ParseFsspIpData | src/service.py:12-46 | the older parser's code returns or raises exactly what LegacyParseSpec states |
| Parser.LegacyAgrees | src/service.py:12-46 | where the current parser returns records the older one returns the same; where the current one reports the attempts limit the older one returns the table's rows |
| Parser.HeaderRegionData | src/infrastructure/parser.py:36-58 | a header row, a region row and a data row give exactly the data row's record under the region's text |
| Parser.SampleParses | tests/test_parser.py:6-44 | `<html></html>` gives []; the sample table gives exactly one record, region "Краснодарский край", debtor "Иванов Иван", ip "123/45/67890-ИП", debt "1000" |
| Models.ValidateInn | src/domain/models.py:10-14 | the pattern `\d{10}(\d{2})?` matches exactly the texts of 10 or 12 decimal digits, which are returned unchanged; everything else fails with the INN message |
| Models.InnPatternDigits | src/domain/models.py:12 | ten digits followed by nothing or by a group of two digits is the same as ten or twelve digits, in both directions |
| Models.InnExamples | src/domain/models.py:10-14 | a ten-digit and a twelve-digit INN pass |
| Models.InnCounterExamples | src/domain/models.py:10-14 | eleven digits fail, and so does a letter in place of a digit |
| Models.ParseDate | src/domain/models.py:23 | strptime's %d.%m.%Y fails to match exactly when the day or month field is outside strptime's alternatives; a date it yields is a calendar date |
| Models.ValidateBirthday | src/domain/models.py:17-35 | the format message exactly for a text not shaped DD.MM.YYYY; success exactly for a calendar date not later than today from 1900 on, returning the input; the future is checked before 1900; a well-shaped text naming no date fails with datetime's own message, "year 0 is out of range" for year 0 and "day is out of range for month" otherwise |
| Models.RenderingParses | src/domain/models.py:23 | strptime reads a DD.MM.YYYY rendering back as its date, or as a range error when it names none |
| Models.AcceptsEveryPastDate | src/domain/models.py:17-35 | every calendar date from 1900 up to today, written DD.MM.YYYY, is accepted |
| Models.AcceptedIsRendering | src/domain/models.py:17-35 | an accepted ASCII birthday is exactly the rendering of the date it names |
| Models.ImpossibleDayEscapes | src/domain/models.py:30-33 | as written: "31.02.2000" fails with datetime's own "day is out of range for month" |
| Models.YearZeroEscapes | src/domain/models.py:30-33 | as written: "01.01.0000" fails with datetime's own "year 0 is out of range" |
| Models.ValidateBirthdayIntended | src/domain/models.py:30-33 | corrected: accepts exactly what the original accepts, and reports every well-shaped non-date, year 0 included, as "Некорректная дата рождения" |
| Models.ValidateIpNumber | src/domain/models.py:38-42 | accepts exactly the texts of the proceeding-number pattern and returns them unchanged; otherwise fails with its message |
| Models.RenderedAccepted | src/domain/models.py:40 | every number assembled from well-formed parts (1–7 digits, 2 digits, then 2–3 and 2 digits, or 5 digits and ИП/СД/СВ) is accepted |
| Models.Decompose | src/domain/models.py:40 | every accepted number is assembled from well-formed parts |
| Models.IpNumberExamples | src/domain/models.py:38-42 | "12345/22/77001-ИП" and "1/21/123/45" pass |
| Models.LongSerialRejected | src/domain/models.py:40 | an eight-digit serial fails |
| Models.MarkerDecides | src/domain/models.py:40 | after five digits and a dash, the number is accepted exactly when the marker is ИП, СД or СВ |
| Models.FromRows | src/domain/models.py:101-103 | one case per row, in order, carrying the row's values unchanged, with an end reason always present |
| Schemas.DebItemList | src/schemas.py:69-83 | validation fails exactly when some row has no region; otherwise one item per row, in order, with the row's values |
| Service.RunSearch | src/application/fssp_service.py:16-22 | a template field without an argument raises before any fetch; otherwise exactly one fetch of the filled URL; a success is never empty |
| Service.SearchOutcome | src/application/fssp_service.py:18-22 | fetch errors pass unchanged, parser errors pass unchanged, an empty parse raises FsspUnavailable with the search's message; success exactly for a non-empty parse, with one case per row in order |
| Service.ByIp | src/application/fssp_service.py:16-22 | fetches the ip template filled with the number; an empty result is FsspUnavailable with the number message |
| Service.ByPerson | src/application/fssp_service.py:24-36 | fetches the person template filled with the person's fields; an empty result is FsspUnavailable with the person message |
| Service.ByInn | src/application/fssp_service.py:38-44 | fetches the inn template filled with the INN; an empty result is FsspUnavailable with the INN message |
| Service.IpUrl | src/application/fssp_service.py:17 | the default number URL ends with the number verbatim, not URL-encoded |
| Service.InnUrl | src/application/fssp_service.py:39 | the default INN URL ends with the INN verbatim |
| Service.PersonUrl | src/application/fssp_service.py:25-31 | the default person URL carries surname, first name, patronymic and birthday verbatim, and region_id -1 |
| Service.PatronymicField | src/application/fssp_service.py:28 | the person URL's patronymic field holds exactly the given text |
| Service.MissingPatronymicEmpty | src/application/fssp_service.py:28 | corrected: a person without a patronymic is searched with the field empty |
| Service.DomainErrorsOnly | src/application/fssp_service.py:18-19 | over FsspClient.fetch, once Playwright has started, every exception a search raises is a domain error |
| Service.StartFailureNotDomain | src/application/fssp_service.py:18-19 | over FsspClient.fetch, a Playwright that does not start makes the search raise that exception unchanged, not a domain error |
| Legacy.TypedCode | src/service.py:111-115 | the typed code is `str(result['code'])`: "None" after a provider failure, else the provider's text |
| Legacy.FailIndex | src/service.py:84-130 | every call before this position returns normally; the one at it raises |
| Legacy.BrowserDataTrace | src/service.py:84-130 | no call when Playwright does not start; otherwise the calls made are the eighteen-call plan's prefix through the first that raises |
| Legacy.BrowserDataResult | src/service.py:71-132 | fails exactly when Playwright does not start or a call raises, with that exception unchanged; otherwise returns the older parser's rows |
| Legacy.OpenPage | src/service.py:86-90 | launches headless, opens a context without a user agent, and a page |
| Legacy.LoadPage | src/service.py:93-103 | goes to the URL with the 60 s timeout, waits for the captcha, clears the timers |
| Legacy.CaptureCaptcha | src/service.py:106-111 | looks the captcha up again, screenshots it (a None element raises), asks the solver; returns the text to type |
| Legacy.SubmitCode | src/service.py:114-116 | clicks, fills the code and submits |
| Legacy.ReadResults | src/service.py:119-124 | waits 5 s for the results, screenshots them, reads and parses them; returns the parsed rows |
| Legacy.CloseAll | src/service.py:128-130 | closes page, context and browser, only if nothing raised before |
| Legacy.GetBrowserData | src/service.py:71-132 | every call made, the result and the open resources are BrowserDataTrace, BrowserDataResult and the plan's effect up to the raising call (nothing when Playwright does not start) |
| Legacy.LegacyPlanLive | src/service.py:86-90 | after n calls before the closes, the first min(n, 3) resources are open |
| Legacy.FailureLeavesResourcesOpen | src/service.py:127-130 | a call that raises before the closes ends the scraper with no close made and its opened resources still open |
| Legacy.SuccessClosesAll | src/service.py:127-130 | on success, the last three calls close page, context and browser, and nothing is left open |
| Legacy.ProviderFailureTypesNone | src/service.py:111-115 | when the provider fails, the text "None" is typed into the form |
| Legacy.MissingCodeRaises | src/service.py:67-69 | a reply without a code raises KeyError right after the request; nothing is typed and nothing is closed |
| Legacy.EmptyResultAccepted | src/service.py:16-18 | a page without a results table is an empty list, not an error |
| Legacy.RowWithoutRegionRejected | src/schemas.py:71 | a row without a region makes the whole result fail validation |
| Legacy.MissingPatronymicSentAsNone | src/service.py:154 | as written: a person without a patronymic is searched with the patronymic "None" |
| Legacy.FsspDataResult | src/service.py:134-168 | KeyError for an unsupplied template field; the scraper's exception unchanged; a validation error when a row has no region; otherwise one item per row, in order |
| Legacy.GetFsspData | src/service.py:142-144 | no browser call when the template cannot be filled, else the scraper's calls for the filled URL; the result is FsspDataResult |
| Legacy.GetFsspDataByIp | src/service.py:134-144 | the number search over the ip template |
| Legacy.GetFsspDataByPerson | src/service.py:146-156 | the person search, with the patronymic passed unchanged |
| Legacy.GetFsspDataByInn | src/service.py:158-168 | the INN search over the inn template |

## Left out

- HTML and CSS: the document is the reduced structure described above. lxml failing on the markup is an input flag (`Unparseable`). Which element a selector matches is not modelled.
- Playwright itself. Entering `async_playwright()` is the script's `start` outcome. Every awaited call on the browser, context or page is an action whose outcome the environment supplies: it returns, returns None (a wait), or raises (a timeout, or anything else). Some details are not part of the model:
  - the launch arguments;
  - `wait_until`;
  - the JavaScript of the timer clearing;
  - the button lookup by role.
- Client.Fetch: the exit of the `async_playwright()` context manager is not modelled. It stops a browser left running, and an exception it raised would replace fetch's result. `Client.Leaked` reports what the code itself did not close.
- Legacy.GetBrowserData: the same exit is not modelled, for the same reason. `Legacy.BrowserDataLive` reports what the code itself did not close.
- The screenshots are recorded by kind (a page shot after navigation, fill, results or an error, and element shots with their path). Their contents and the `fullpage*.png` paths of the current client are not modelled.
- The captcha provider (twocaptcha): its reply, or the fact that it raised, is an input.
- async scheduling and concurrency: each run is one sequential run on its own browser, and the shared captcha file name plays no part.
- Loading the settings from the environment, `mkdir` of TEMP_PATH and logging. The defaults are constants, and the settings are a value.
- The `screenshot_results` browser option: the fetch code never reads it.
- `str.format` template parsing (braces, conversions, format specs): templates are given already split into literal text and named fields.
- Path normalisation: `Config.JoinPath` joins POSIX strings without normalising them.
- The pydantic input models `Person`, `Inn` and `IpNumber` only call the validators. The model takes already-validated values as inputs (`Models.Person` is the person record).
- The CLI, the HTTP API, the MCP server, `main.py` and `script1.py`: presentation and transport, outside this core.
- Client.ClosesEverythingOpened: requires every close to succeed, because in the source a close that raises skips the later ones. What happens then is stated exactly by `Client.FinallyClause` and `Client.Leaked`.
- Client.FailureKinds: requires that Playwright starts, because its start is outside the try and its exception escapes unclassified (`Client.StartFailureEscapes`). It also requires that the error screenshot and the closes do not raise. An exception from either replaces the classified one, as `Client.Handling` and `Client.FetchResult` state.
- Service.DomainErrorsOnly: under the same three conditions, for the same reasons (`Service.StartFailureNotDomain` states the start case).
- Service.ByIp: its own contract states the URL fetched and the empty-result error. The whole outcome is stated once, for `Service.RunSearch`, by `Service.SearchOutcome`.
- Service.ByPerson: as for `Service.ByIp`.
- Service.ByInn: as for `Service.ByIp`.
- Legacy.LegacyPlanLive: stated for the calls before the three closes. The closes are covered by `Legacy.SuccessClosesAll`.
- Models.ValidateBirthday: "now" is the current date, a parameter. The source compares the birthday at midnight with the current moment, which is later exactly when the day is later. So a birthday of today is accepted in both.

## Findings

| source | as written | input that shows it | evidently intended | confidence | as-written member | corrected member |
|---|---|---|---|---|---|---|
| src/domain/models.py:30-33 | a well-shaped text naming no calendar date raises datetime's own ValueError ("day is out of range for month", or "year 0 is out of range" for "01.01.0000"), because only "time data" and "unconverted data" messages are translated | "31.02.2000" | "Некорректная дата рождения" for every well-shaped text that names no date | high; not executed | Models.ImpossibleDayEscapes | Models.ValidateBirthdayIntended |
| src/service.py:154 | a missing patronymic is passed to str.format as None and appears in the URL as the text "None" | a person with no patronymic | the field left empty, as the current service does with `or ""` | high; not executed | Legacy.MissingPatronymicSentAsNone | Service.MissingPatronymicEmpty |
| src/domain/errors.py:1-14 | `CaptchaLimitExceeded` is not defined, yet src/infrastructure/parser.py:3 imports it, so importing the parser, and the service and entry points that import it, raises ImportError | `from src.domain.errors import ParsingError, CaptchaLimitExceeded` | a DomainError subclass `CaptchaLimitExceeded`, as the parser, the CLI and the HTTP layer use it | high; not executed | Errors.ParserImportFails | Errors.ParserImportResolves |
