/**
 * FsspService: build the search URL from the settings' template, fetch the
 * page, parse it, and turn the rows into domain cases, refusing an empty
 * result. The client and the parser are inputs: `fetch` is what
 * FsspClient.fetch returns or raises for a URL, and `read` is the document
 * lxml builds from a page's markup.
 */
module Service {
  import opened Wrappers
  import opened Errors
  import opened Text
  import opened Config
  import Parser
  import Client
  import Models

  const EmptyIpMessage := "ФССП вернул пустой ответ по номеру ИП"
  const EmptyPersonMessage := "ФССП вернул пустой ответ по человеку"
  const EmptyInnMessage := "ФССП вернул пустой ответ по ИНН"

  /** The region_id argument of a person search: all regions. */
  const AllRegions := "-1"

  function IpArgs(ip: string): map<string, string> {
    map["ip_number" := ip]
  }

  /** The arguments of a person search over every region. */
  function PersonFields(lastName: string, firstName: string, patronymic: string, birthday: string)
    : map<string, string>
  {
    map["last_name" := lastName, "first_name" := firstName, "patronymic" := patronymic,
        "birthday" := birthday, "region_id" := AllRegions]
  }

  /** The person search's arguments; a missing patronymic is sent empty. */
  function PersonArgs(p: Models.Person): map<string, string> {
    PersonFields(p.lastName, p.firstName, p.patronymic.GetOr(""), p.birthday)
  }

  function InnArgs(inn: string): map<string, string> {
    map["inn" := inn]
  }

  /** What one search did: the URLs it fetched (none when its template names a
      field it does not supply) and what it returned or raised. */
  datatype Search = Search(requested: seq<string>, outcome: Result<seq<Models.DebtorCase>, Exc>)

  /** The body shared by by_ip, by_person and by_inn. */
  function RunSearch(t: Template, args: map<string, string>, emptyMessage: string,
                     fetch: string -> Result<string, Exc>, read: string -> Parser.Document): (r: Search)
    ensures !Binds(t, args) <==> r == Search([], Failure(Raw(OtherFault)))
    ensures Binds(t, args) ==> r.requested == [Format(t, args).value]
    ensures r.outcome.Success? ==> r.outcome.value != []
  {
    var url := Format(t, args);
    if url.Failure? then Search([], Failure(Raw(OtherFault)))
    else
      var html := fetch(url.value);
      var outcome :=
        if html.Failure? then Failure(html.error)
        else
          var cases := Parser.ParseSpec(read(html.value));
          if cases.Failure? then Failure(Domain(cases.error))
          else if cases.value == [] then Failure(Domain(FsspUnavailable(emptyMessage)))
          else Success(Models.FromRows(cases.value));
      Search([url.value], outcome)
  }

  /** A search succeeds exactly when the page was fetched and parsed into at
      least one row, and then reports one case per row, in order and with the
      row's values; otherwise it raises the client's exception unchanged, the
      parser's error, or FsspUnavailable with the search's own message when
      the page held no rows. */
  lemma SearchOutcome(t: Template, args: map<string, string>, emptyMessage: string,
                      fetch: string -> Result<string, Exc>, read: string -> Parser.Document)
    requires Binds(t, args)
    ensures var r := RunSearch(t, args, emptyMessage, fetch, read).outcome;
            var html := fetch(Format(t, args).value);
            && (html.Failure? ==> r == Failure(html.error))
            && (html.Success? && Parser.ParseSpec(read(html.value)).Failure? ==>
                  r == Failure(Domain(Parser.ParseSpec(read(html.value)).error)))
            && (html.Success? && Parser.ParseSpec(read(html.value)) == Success([]) ==>
                  r == Failure(Domain(FsspUnavailable(emptyMessage))))
            && (r.Success? <==>
                  html.Success? && Parser.ParseSpec(read(html.value)).Success?
                  && Parser.ParseSpec(read(html.value)).value != [])
            && (r.Success? ==>
                  var rows := Parser.ParseSpec(read(html.value)).value;
                  |r.value| == |rows| && forall i :: 0 <= i < |rows| ==> Models.AsRow(r.value[i]) == rows[i])
  {
  }

  /** FsspService.by_ip. */
  function ByIp(s: Settings, ip: string, fetch: string -> Result<string, Exc>,
                read: string -> Parser.Document): (r: Search)
    ensures Binds(s.urls.ip, IpArgs(ip)) ==> r.requested == [Format(s.urls.ip, IpArgs(ip)).value]
    ensures Binds(s.urls.ip, IpArgs(ip)) && fetch(Format(s.urls.ip, IpArgs(ip)).value).Success?
            && Parser.ParseSpec(read(fetch(Format(s.urls.ip, IpArgs(ip)).value).value)) == Success([]) ==>
              r.outcome == Failure(Domain(FsspUnavailable(EmptyIpMessage)))
  {
    RunSearch(s.urls.ip, IpArgs(ip), EmptyIpMessage, fetch, read)
  }

  /** FsspService.by_person. */
  function ByPerson(s: Settings, p: Models.Person, fetch: string -> Result<string, Exc>,
                    read: string -> Parser.Document): (r: Search)
    ensures Binds(s.urls.person, PersonArgs(p)) ==> r.requested == [Format(s.urls.person, PersonArgs(p)).value]
    ensures Binds(s.urls.person, PersonArgs(p)) && fetch(Format(s.urls.person, PersonArgs(p)).value).Success?
            && Parser.ParseSpec(read(fetch(Format(s.urls.person, PersonArgs(p)).value).value)) == Success([]) ==>
              r.outcome == Failure(Domain(FsspUnavailable(EmptyPersonMessage)))
  {
    RunSearch(s.urls.person, PersonArgs(p), EmptyPersonMessage, fetch, read)
  }

  /** FsspService.by_inn. */
  function ByInn(s: Settings, inn: string, fetch: string -> Result<string, Exc>,
                 read: string -> Parser.Document): (r: Search)
    ensures Binds(s.urls.inn, InnArgs(inn)) ==> r.requested == [Format(s.urls.inn, InnArgs(inn)).value]
    ensures Binds(s.urls.inn, InnArgs(inn)) && fetch(Format(s.urls.inn, InnArgs(inn)).value).Success?
            && Parser.ParseSpec(read(fetch(Format(s.urls.inn, InnArgs(inn)).value).value)) == Success([]) ==>
              r.outcome == Failure(Domain(FsspUnavailable(EmptyInnMessage)))
  {
    RunSearch(s.urls.inn, InnArgs(inn), EmptyInnMessage, fetch, read)
  }

  // ---------------------------------------------------------------------------
  // The URLs of the default settings
  // ---------------------------------------------------------------------------

  /** The default proceeding-number URL carries the number verbatim at its end. */
  lemma IpUrl(ip: string)
    ensures Format(IpTemplate, IpArgs(ip)) == Success(SearchBase + "3&is%5Bip_number%5D=" + ip)
  {
    assert IpTemplate[1..] == [Field("ip_number")];
    FormatField("ip_number", IpArgs(ip));
  }

  /** The default INN URL carries the INN verbatim at its end. */
  lemma InnUrl(inn: string)
    ensures Format(InnTemplate, InnArgs(inn)) == Success(SearchBase + "5&is%5Binn%5D=" + inn)
  {
    assert InnTemplate[1..] == [Field("inn")];
    FormatField("inn", InnArgs(inn));
  }

  /** The default person URL: surname, first name, patronymic, birthday and
      every region, each verbatim. */
  lemma PersonUrl(lastName: string, firstName: string, patronymic: string, birthday: string)
    ensures Format(PersonTemplate, PersonFields(lastName, firstName, patronymic, birthday)) ==
              Success(SearchBase + "1&is%5Blast_name%5D=" + lastName
                      + "&is%5Bfirst_name%5D=" + firstName
                      + "&is%5Bpatronymic%5D=" + patronymic
                      + "&is%5Bdate%5D=" + birthday
                      + "&is%5Bregion_id%5D%5B0%5D=-1")
  {
    PersonUrlNested(lastName, firstName, patronymic, birthday);
    Regroup(SearchBase + "1&is%5Blast_name%5D=", lastName, "&is%5Bfirst_name%5D=", firstName,
            "&is%5Bpatronymic%5D=", patronymic, "&is%5Bdate%5D=", birthday,
            "&is%5Bregion_id%5D%5B0%5D=-1");
  }

  /** The default person URL's patronymic field holds exactly the given text:
      the URL reads "...&is%5Bpatronymic%5D=" + patronymic + "&is%5Bdate%5D=...". */
  lemma PatronymicField(lastName: string, firstName: string, patronymic: string, birthday: string)
    ensures Contains(Format(PersonTemplate, PersonFields(lastName, firstName, patronymic, birthday)).value,
                     "&is%5Bpatronymic%5D=" + patronymic + "&is%5Bdate%5D=")
  {
    PersonUrl(lastName, firstName, patronymic, birthday);
    var head := SearchBase + "1&is%5Blast_name%5D=" + lastName + "&is%5Bfirst_name%5D=" + firstName;
    var field := "&is%5Bpatronymic%5D=" + patronymic + "&is%5Bdate%5D=";
    var tail := birthday + "&is%5Bregion_id%5D%5B0%5D=-1";
    Regroup(head, "&is%5Bpatronymic%5D=", patronymic, "&is%5Bdate%5D=", birthday,
            "&is%5Bregion_id%5D%5B0%5D=-1", "", "", "");
    assert Format(PersonTemplate, PersonFields(lastName, firstName, patronymic, birthday)).value
           == head + field + tail;
    ContainsSurrounded(head, field, tail);
  }

  /** A person without a patronymic is searched with that field left empty. */
  lemma MissingPatronymicEmpty(p: Models.Person)
    requires p.patronymic.None?
    ensures Contains(Format(PersonTemplate, PersonArgs(p)).value, "&is%5Bpatronymic%5D=&is%5Bdate%5D=")
  {
    PatronymicField(p.lastName, p.firstName, "", p.birthday);
    assert "&is%5Bpatronymic%5D=" + "" + "&is%5Bdate%5D=" == "&is%5Bpatronymic%5D=&is%5Bdate%5D=";
  }

  lemma Regroup(a: string, b: string, c: string, d: string, e: string, f: string, g: string,
                h: string, i: string)
    ensures a + (b + (c + (d + (e + (f + (g + (h + i))))))) == a + b + c + d + e + f + g + h + i
  {
    AppendAssoc(a, b, c + (d + (e + (f + (g + (h + i))))));
    AppendAssoc(a + b, c, d + (e + (f + (g + (h + i)))));
    AppendAssoc(a + b + c, d, e + (f + (g + (h + i))));
    AppendAssoc(a + b + c + d, e, f + (g + (h + i)));
    AppendAssoc(a + b + c + d + e, f, g + (h + i));
    AppendAssoc(a + b + c + d + e + f, g, h + i);
    AppendAssoc(a + b + c + d + e + f + g, h, i);
  }

  /** PersonUrl with the pieces grouped from the right, as formatting builds them. */
  lemma PersonUrlNested(lastName: string, firstName: string, patronymic: string, birthday: string)
    ensures var f7 := birthday + "&is%5Bregion_id%5D%5B0%5D=-1";
            var f5 := patronymic + ("&is%5Bdate%5D=" + f7);
            var f3 := firstName + ("&is%5Bpatronymic%5D=" + f5);
            var f1 := lastName + ("&is%5Bfirst_name%5D=" + f3);
            Format(PersonTemplate, PersonFields(lastName, firstName, patronymic, birthday))
            == Success(SearchBase + "1&is%5Blast_name%5D=" + f1)
  {
    var args := PersonFields(lastName, firstName, patronymic, birthday);
    var t := PersonTemplate;
    assert t[9..] == [Field("region_id")];
    FormatField("region_id", args);
    assert t[8..][1..] == t[9..];
    assert t[7..][1..] == t[8..];
    assert t[6..][1..] == t[7..];
    assert t[5..][1..] == t[6..];
    assert t[4..][1..] == t[5..];
    assert t[3..][1..] == t[4..];
    assert t[2..][1..] == t[3..];
    assert t[1..][1..] == t[2..];
    var region := "&is%5Bregion_id%5D%5B0%5D=" + AllRegions;
    assert region == "&is%5Bregion_id%5D%5B0%5D=-1";
    var f7 := birthday + region;
    var f5 := patronymic + ("&is%5Bdate%5D=" + f7);
    var f3 := firstName + ("&is%5Bpatronymic%5D=" + f5);
    var f1 := lastName + ("&is%5Bfirst_name%5D=" + f3);
    assert Format(t[8..], args) == Success(region);
    assert Format(t[7..], args) == Success(f7);
    assert Format(t[5..], args) == Success(f5);
    assert Format(t[3..], args) == Success(f3);
    assert Format(t[1..], args) == Success(f1);
  }

  // ---------------------------------------------------------------------------
  // The service over the client
  // ---------------------------------------------------------------------------

  /** Over FsspClient.fetch, when Playwright starts and the error screenshot
      and the closes do not raise, every exception a search raises (its
      template filled) is a domain error: CaptchaError or FsspUnavailable from
      the client, ParsingError or CaptchaLimitExceeded from the parser, or
      FsspUnavailable for an empty result. */
  lemma DomainErrorsOnly(t: Template, args: map<string, string>, emptyMessage: string,
                         script: Client.Script, read: string -> Parser.Document)
    requires Binds(t, args)
    requires script.start.Ok? && Client.ClosesSucceed(script) && script.errorShot.Ok?
    ensures var r := RunSearch(t, args, emptyMessage, _ => Client.FetchResult(script), read).outcome;
            r.Failure? ==> r.error.Domain?
  {
    var url := Format(t, args).value;
    Client.FailureKinds(url, Settings("", "", DefaultBrowser, DefaultUrls, None), script);
  }

  /** A Playwright that does not start is the one failure of the client that
      reaches the caller of a search as a non-domain exception, unchanged. */
  lemma StartFailureNotDomain(t: Template, args: map<string, string>, emptyMessage: string,
                              script: Client.Script, read: string -> Parser.Document)
    requires Binds(t, args) && script.start.Raises?
    ensures var r := RunSearch(t, args, emptyMessage, _ => Client.FetchResult(script), read).outcome;
            r == Failure(Raw(script.start.fault)) && !r.error.Domain?
  {
    Client.StartFailureEscapes(Format(t, args).value, Settings("", "", DefaultBrowser, DefaultUrls, None), script);
  }
}
