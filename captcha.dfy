/**
 * The captcha adapters: CaptchaSolver.solve of the current client, and the
 * legacy request_to_rucaptcha / solve_captcha pair. The recognition service
 * itself is an input: it either answers with a reply whose "code" field is
 * missing, null or a text, or raises.
 */
module Captcha {
  import opened Wrappers
  import opened Errors

  /** The "code" entry of the provider's reply. */
  datatype CodeField = Missing | NullCode | Code(text: string)

  datatype ProviderOutcome = Reply(code: CodeField) | ProviderRaises

  /** The provider is asked for digits only. */
  const Numeric := 1

  const UnrecognisedMessage := "Не удалось распознать капчу"

  /** A code Python treats as true: present, not None, not empty. */
  predicate Truthy(c: CodeField) {
    c.Code? && c.text != []
  }

  /** CaptchaSolver.solve: the provider's code when it is non-empty; every other
      outcome, including the empty-code error raised inside the same try, ends
      as CaptchaError with the generic message. */
  function Solve(outcome: ProviderOutcome): (r: Result<string, DomainError>)
    ensures r.Success? <==> outcome.Reply? && Truthy(outcome.code)
    ensures r.Success? ==> r.value == outcome.code.text && r.value != []
    ensures r.Failure? ==> r.error == CaptchaError(UnrecognisedMessage)
  {
    match outcome
    case ProviderRaises => Failure(CaptchaError(UnrecognisedMessage))
    case Reply(c) =>
      if Truthy(c) then Success(c.text) else Failure(CaptchaError(UnrecognisedMessage))
  }

  /** The three shapes of a failed recognition all surface identically. */
  lemma SolveFailuresAlike()
    ensures Solve(ProviderRaises) == Solve(Reply(Missing)) == Solve(Reply(NullCode))
            == Solve(Reply(Code("")))
  {
  }

  /** request_to_rucaptcha: the provider's reply, or the default reply whose code
      is None when the provider raised. */
  function RequestToRucaptcha(outcome: ProviderOutcome): (c: CodeField)
    ensures outcome.ProviderRaises? ==> c == NullCode
    ensures outcome.Reply? ==> c == outcome.code
  {
    match outcome
    case ProviderRaises => NullCode
    case Reply(c) => c
  }

  /** solve_captcha: `result['code']`, which is None for a null code and raises
      KeyError for a reply without one. */
  function SolveCaptcha(outcome: ProviderOutcome): (r: Result<Option<string>, Exc>)
    ensures r.Failure? <==> outcome == Reply(Missing)
    ensures r.Failure? ==> r.error == Raw(OtherFault)
    ensures outcome.ProviderRaises? ==> r == Success(None)
    ensures r.Success? && r.value.Some? ==> outcome == Reply(Code(r.value.value))
  {
    match RequestToRucaptcha(outcome)
    case Missing => Failure(Raw(OtherFault))
    case NullCode => Success(None)
    case Code(t) => Success(Some(t))
  }

  /** Where both adapters produce a code they produce the same one; the legacy
      one also passes on an empty code that the current one refuses. */
  lemma AdaptersAgree(outcome: ProviderOutcome)
    ensures Solve(outcome).Success? ==> SolveCaptcha(outcome) == Success(Some(Solve(outcome).value))
    ensures SolveCaptcha(outcome) == Success(Some("")) ==> Solve(outcome).Failure?
  {
  }

  /** Python's `str()` of an optional text. */
  function PyStr(s: Option<string>): (r: string)
    ensures s.Some? ==> r == s.value
    ensures s.None? ==> r == "None"
  {
    match s
    case Some(t) => t
    case None => "None"
  }
}
