/**
 * The domain error taxonomy of src/domain/errors.py, plus the exceptions that
 * are not domain errors (a Playwright timeout, any other raw exception).
 */
module Errors {
  import opened Wrappers


  /** The DomainError subclasses the core raises. CaptchaLimitExceeded is
      imported by the parser, the CLI and the HTTP layer but is not defined in
      errors.py (see ParserImportFails); it is its own kind here, beside
      CaptchaError, as its uses intend. */
  datatype DomainError =
    | CaptchaError(message: string)
    | ParsingError(message: string)
    | FsspUnavailable(message: string)
    | CaptchaLimitExceeded(message: string)

  /** A non-domain exception: Playwright's TimeoutError, or anything else. */
  datatype Fault = Timeout | OtherFault

  /** Any exception leaving a call. */
  datatype Exc = Domain(error: DomainError) | Raw(fault: Fault)

  /** The classes src/domain/errors.py defines, as written. */
  const ErrorsModuleAsWritten: set<string> := {"DomainError", "CaptchaError", "ParsingError", "FsspUnavailable"}

  /** The same module with the class its importers rely on, as this model has it. */
  const ErrorsModule: set<string> := ErrorsModuleAsWritten + {"CaptchaLimitExceeded"}

  /** The names the parser imports from it. */
  const ParserImports: seq<string> := ["ParsingError", "CaptchaLimitExceeded"]

  /** `from m import a, b, ...`: ImportError naming the first name m does not
      define, if any. */
  function ImportFailure(defined: set<string>, names: seq<string>): (r: Option<string>)
    ensures r.None? <==> forall i :: 0 <= i < |names| ==> names[i] in defined
    ensures r.Some? ==> r.value in names && r.value !in defined
  {
    if names == [] then None
    else if names[0] !in defined then Some(names[0])
    else ImportFailure(defined, names[1..])
  }

  /** As written, importing the parser fails on CaptchaLimitExceeded, so neither
      the parser nor the service that imports it can be loaded. */
  lemma ParserImportFails()
    ensures ImportFailure(ErrorsModuleAsWritten, ParserImports) == Some("CaptchaLimitExceeded")
  {
    assert ParserImports[0] in ErrorsModuleAsWritten;
    assert ParserImports[1..] == ["CaptchaLimitExceeded"];
  }

  /** With the class defined, every name the parser imports resolves. */
  lemma ParserImportResolves()
    ensures ImportFailure(ErrorsModule, ParserImports).None?
  {
    assert forall i :: 0 <= i < |ParserImports| ==> ParserImports[i] in ErrorsModule;
  }
}
