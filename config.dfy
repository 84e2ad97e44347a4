/**
 * The settings the core reads: the browser options, the captcha options, the
 * three search URL templates and the temporary directory, with the defaults
 * the settings classes declare. Loading them from the environment is not part
 * of this model.
 */
module Config {
  import opened Wrappers
  import opened Text

  datatype BrowserConfig = BrowserConfig(
    headless: bool,
    navigationTimeoutMs: int,
    resultsWaitMs: int,
    userAgent: Option<string>,
    captchaSelector: string,
    resultsSelector: string)

  const DefaultBrowser := BrowserConfig(true, 60000, 5000, None, "img#capchaVisualImage", ".results")

  datatype CaptchaConfig = CaptchaConfig(apiKey: string, tempFilename: string)

  const DefaultCaptchaFilename := "captcha.png"

  /** The search pages of the bailiffs' site, one per kind of query. */
  datatype FsspUrls = FsspUrls(ip: Template, person: Template, inn: Template)

  const SearchBase := "https://fssp.gov.ru/iss/ip/?is%5Bvariant%5D="

  const IpTemplate: Template :=
    [Literal(SearchBase + "3&is%5Bip_number%5D="), Field("ip_number")]

  const PersonTemplate: Template :=
    [Literal(SearchBase + "1&is%5Blast_name%5D="), Field("last_name"),
     Literal("&is%5Bfirst_name%5D="), Field("first_name"),
     Literal("&is%5Bpatronymic%5D="), Field("patronymic"),
     Literal("&is%5Bdate%5D="), Field("birthday"),
     Literal("&is%5Bregion_id%5D%5B0%5D="), Field("region_id")]

  const InnTemplate: Template :=
    [Literal(SearchBase + "5&is%5Binn%5D="), Field("inn")]

  const DefaultUrls := FsspUrls(IpTemplate, PersonTemplate, InnTemplate)

  datatype Settings = Settings(
    tempPath: string,
    apiKey: string,
    browser: BrowserConfig,
    urls: FsspUrls,
    captcha: Option<CaptchaConfig>)

  /** `dir / name` for POSIX paths: an absolute name replaces the directory, an
      empty one leaves it as it is. */
  function JoinPath(dir: string, name: string): (p: string)
    ensures name != [] && name[0] != '/' ==> p == dir + "/" + name
    ensures name != [] && name[0] == '/' ==> p == name
    ensures name == [] ==> p == dir
  {
    if name == [] then dir else if name[0] == '/' then name else dir + "/" + name
  }

  /** The captcha image file: the configured file name inside the temporary
      directory, or captcha.png there when no captcha settings exist. */
  function CaptchaFile(s: Settings): (p: string)
    ensures s.captcha.None? ==> p == s.tempPath + "/" + DefaultCaptchaFilename
    ensures s.captcha.Some? ==> p == JoinPath(s.tempPath, s.captcha.value.tempFilename)
  {
    JoinPath(s.tempPath, if s.captcha.Some? then s.captcha.value.tempFilename else DefaultCaptchaFilename)
  }

  /** The captcha settings after validation: absent ones are filled in from a
      non-empty RuCaptcha key, with the default file name. */
  function PopulateCaptcha(v: Option<CaptchaConfig>, apiKey: string): (r: Option<CaptchaConfig>)
    ensures v.Some? ==> r == v
    ensures v.None? && apiKey != "" ==> r == Some(CaptchaConfig(apiKey, DefaultCaptchaFilename))
    ensures v.None? && apiKey == "" ==> r == None
  {
    if v.None? && apiKey != "" then Some(CaptchaConfig(apiKey, DefaultCaptchaFilename)) else v
  }

  /** Filling in the captcha settings never moves the captcha image file. */
  lemma PopulatedCaptchaFile(s: Settings)
    ensures CaptchaFile(s.(captcha := PopulateCaptcha(s.captcha, s.apiKey))) == CaptchaFile(s)
  {
  }
}
