/**
 * The browser the scrapers drive, seen from outside: every call made on it is
 * appended to a trace, and the browser, context and page it has opened and not
 * yet closed are its live resources. What a call does (succeed or raise) is
 * decided by the environment and passed in.
 */
module Playwright {
  import opened Wrappers
  import opened Errors

  datatype Resource = BrowserResource | ContextResource | PageResource

  /** The full-page screenshots taken for diagnosis. */
  datatype Shot = AfterNavigation | AfterFill | AfterResults | OnError

  datatype Action =
    | Launch(headless: bool)
    | NewContext(userAgent: Option<string>)
    | NewPage
    | Goto(url: string, timeoutMs: int)
    | PageShot(shot: Shot)
    | WaitFor(selector: string, timeoutMs: int)
    | ClearTimers
    | ElementShot(path: string)
    | AskSolver(path: string, numeric: int)
    | ClickCode
    | FillCode(code: string)
    | Submit
    | ReadHtml
    | Close(resource: Resource)

  /** The live resources after an action that raised or returned. */
  function Effect(live: set<Resource>, a: Action, raised: Option<Exc>): set<Resource> {
    if raised.Some? then live
    else match a
      case Launch(_) => live + {BrowserResource}
      case NewContext(_) => live + {ContextResource}
      case NewPage => live + {PageResource}
      case Close(r) => live - {r}
      case _ => live
  }

  /** What an awaited call does: return normally or raise. */
  datatype Call = Ok | Raises(fault: Fault)

  /** What wait_for_selector does: return the element, return None, or raise. */
  datatype Lookup = Found | NotFound | LookupRaises(fault: Fault)

  function CallFault(c: Call): Option<Exc> {
    if c.Raises? then Some(Raw(c.fault)) else None
  }

  /** The first min(n, 3) of browser, context and page: what a run that
      opens them first has open after n calls. */
  function FirstResources(n: nat): set<Resource> {
    (if n > 0 then {BrowserResource} else {}) + (if n > 1 then {ContextResource} else {})
    + (if n > 2 then {PageResource} else {})
  }

  class Browser {
    var trace: seq<Action>
    var live: set<Resource>

    /** A fresh Playwright session: nothing done, nothing open. */
    constructor()
      ensures trace == [] && live == {}
    {
      trace := [];
      live := {};
    }

    /** Make one call; `outcome` is the exception the environment makes it
        raise, if any. */
    method Perform(a: Action, outcome: Option<Exc>) returns (raised: Option<Exc>)
      modifies this
      ensures raised == outcome
      ensures trace == old(trace) + [a]
      ensures live == Effect(old(live), a, outcome)
    {
      trace := trace + [a];
      live := Effect(live, a, outcome);
      raised := outcome;
    }
  }

  /** The live resources after the given calls, all returning normally. */
  function LiveAfter(actions: seq<Action>): set<Resource> {
    if actions == [] then {}
    else Effect(LiveAfter(actions[..|actions| - 1]), actions[|actions| - 1], None)
  }

  /** The calls of a plan up to n leave open what those up to n - 1 left, as
      changed by the n-th. */
  lemma LiveStep(plan: seq<Action>, n: nat)
    requires 0 < n <= |plan|
    ensures LiveAfter(plan[..n]) == Effect(LiveAfter(plan[..n - 1]), plan[n - 1], None)
  {
    assert plan[..n][..n - 1] == plan[..n - 1];
  }

  // A run is a fixed sequence of calls (a plan) made one after another until
  // one raises; faults[k] is the exception the k-th call raises, if any.

  predicate NoFaultBefore(faults: seq<Option<Exc>>, k: nat) {
    forall j :: 0 <= j < k && j < |faults| ==> faults[j].None?
  }

  function FirstFaultFrom(faults: seq<Option<Exc>>, k: nat): (n: nat)
    requires k <= |faults| && NoFaultBefore(faults, k)
    ensures k <= n <= |faults| && NoFaultBefore(faults, n)
    ensures n < |faults| ==> faults[n].Some?
    decreases |faults| - k
  {
    if k == |faults| || faults[k].Some? then k else FirstFaultFrom(faults, k + 1)
  }

  /** The position of the call that raises, or the length of the plan when
      none does. */
  function FirstFault(faults: seq<Option<Exc>>): (n: nat)
    ensures n <= |faults| && NoFaultBefore(faults, n)
    ensures n < |faults| ==> faults[n].Some?
  {
    FirstFaultFrom(faults, 0)
  }

  /** The calls a run makes: the plan up to and including the one that raises. */
  function Attempted(plan: seq<Action>, faults: seq<Option<Exc>>): seq<Action>
    requires |plan| == |faults|
  {
    var n := FirstFault(faults);
    plan[..if n < |plan| then n + 1 else |plan|]
  }

  /** The exception a run ends with, if any. */
  function Raised(faults: seq<Option<Exc>>): Option<Exc> {
    var n := FirstFault(faults);
    if n < |faults| then faults[n] else None
  }

  /** Where a run on a fresh browser stands once its first k calls were due:
      still going, with the plan's first k calls made, or stopped by the
      exception that ends the run. */
  ghost predicate RunState(b: Browser, plan: seq<Action>, faults: seq<Option<Exc>>,
                           raised: Option<Exc>, k: nat)
    reads b
  {
    && |plan| == |faults| && k <= |plan|
    && (raised.None? ==>
          NoFaultBefore(faults, k) && b.trace == plan[..k] && b.live == LiveAfter(plan[..k]))
    && (raised.Some? ==>
          FirstFault(faults) < k && raised == Raised(faults)
          && b.trace == Attempted(plan, faults) && b.live == LiveAfter(plan[..FirstFault(faults)]))
  }

  /** The k-th call of a run: made only while nothing has raised. */
  method PerformStep(b: Browser, ghost plan: seq<Action>, ghost faults: seq<Option<Exc>>,
                     raised0: Option<Exc>, ghost k: nat, a: Action, outcome: Option<Exc>)
    returns (raised: Option<Exc>)
    requires RunState(b, plan, faults, raised0, k) && k < |plan|
    requires raised0.None? ==> a == plan[k] && outcome == faults[k]
    modifies b
    ensures RunState(b, plan, faults, raised, k + 1)
  {
    raised := raised0;
    if raised.None? {
      raised := b.Perform(a, outcome);
      assert plan[..k + 1] == plan[..k] + [a];
      assert plan[..k + 1][..k] == plan[..k];
    }
  }
}
