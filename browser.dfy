/** The browser as the services see it: a page state they read (URL, title,
    body text, the elements a selector matches), the outcome of an action
    the driver performs on it, and the handles whose lifetime a session owns. */
module Browser {
  import opened Js

  /** What a selector currently matches on the page. */
  datatype Element = Element(visible: bool, value: string, text: string)

  datatype PageState = PageState(
    url: string,
    title: string,
    bodyText: string,
    elements: map<string, Element>,
    consoleErrors: seq<string>)

  /** A driver call either returns or throws; either way the page may have moved on. */
  datatype Attempt = Done(page: PageState) | Threw(page: PageState, message: string)
  {
    function Page(): PageState {
      match this
      case Done(p) => p
      case Threw(p, _) => p
    }
  }

  /** `locator(sel).count() > 0` / `page.$(sel) != null`. */
  predicate Present(page: PageState, selector: string) {
    selector in page.elements
  }

  /** `inputValue(sel)`: the value of the matched element, or `None` when the call throws. */
  function ReadBack(page: PageState, selector: string): (r: Option<string>)
    ensures r.Some? <==> Present(page, selector)
  {
    if selector in page.elements then Some(page.elements[selector].value) else None
  }

  /** What an in-page script came to: its result, as a list of serialised
      items, or the exception it raised; either way the page may have changed. */
  datatype Evaluated = Returned(page: PageState, items: seq<string>) | ScriptThrew(page: PageState, message: string)

  /** The page calls of the two Puppeteer-based services, as an oracle. */
  datatype PageDriver = PageDriver(
    goto: (PageState, string, string, int) -> Attempt,            // url, waitUntil, timeout
    waitForSelector: (PageState, string, bool, int) -> Attempt,   // selector, visible, timeout
    click: (PageState, string) -> Attempt,
    typeInto: (PageState, string, string) -> Attempt,             // selector, text
    elapse: (PageState, int) -> PageState,
    evaluate: (PageState, string, string) -> Evaluated,           // in-page script by name, its argument
    capture: (PageState, string, string) -> Result<nat>,          // "screenshot" or "pdf", file path; the file size
    detached: string)                                             // what a call on a missing or detached node throws

  // ---------------------------------------------------------------------
  // Running a plan step by step

  /** What running steps in order came to: the result of each step reached,
      and the page the last one left behind. */
  datatype Run<R> = Run(results: seq<R>, page: PageState)

  /** Run `steps` in order, each on the page the previous one left, up to and
      including the first step whose result `stop`s the run. */
  function RunUntil<S, R>(run: (PageState, S) -> (R, PageState), stop: (R, S) -> bool,
                          page: PageState, steps: seq<S>): (c: Run<R>)
    ensures |c.results| <= |steps|
    decreases |steps|
  {
    if steps == [] then Run([], page)
    else
      var first := run(page, steps[0]);
      if stop(first.0, steps[0]) then Run([first.0], first.1)
      else
        var rest := RunUntil(run, stop, first.1, steps[1..]);
        Run([first.0] + rest.results, rest.page)
  }

  /** The run reaches the first step when there is one, stops early only
      right after a stopping result, and no earlier result stopped it. */
  lemma {:induction false} RunUntilShape<S, R>(run: (PageState, S) -> (R, PageState), stop: (R, S) -> bool,
                                             page: PageState, steps: seq<S>)
    ensures var rs := RunUntil(run, stop, page, steps).results;
      && (steps != [] ==> |rs| > 0 && rs[0] == run(page, steps[0]).0)
      && (forall i :: 0 <= i < |rs| - 1 ==> !stop(rs[i], steps[i]))
      && (|rs| < |steps| ==> |rs| > 0 && stop(rs[|rs| - 1], steps[|rs| - 1]))
    decreases |steps|
  {
    if steps != [] {
      var first := run(page, steps[0]);
      if !stop(first.0, steps[0]) {
        RunUntilShape(run, stop, first.1, steps[1..]);
        var rest := RunUntil(run, stop, first.1, steps[1..]).results;
        var rs := RunUntil(run, stop, page, steps).results;
        assert rs == [first.0] + rest;
        forall i | 0 < i < |rs|
          ensures rs[i] == rest[i - 1] && steps[i] == steps[1..][i - 1]
        {
        }
      }
    }
  }

  /** A relation every single step establishes between its step and its
      result holds of every result of the run, at its own step. */
  lemma {:induction false} RunUntilKeeps<S, R>(run: (PageState, S) -> (R, PageState), stop: (R, S) -> bool,
                                             page: PageState, steps: seq<S>, keeps: (R, S) -> bool)
    requires forall p, s :: keeps(run(p, s).0, s)
    ensures var rs := RunUntil(run, stop, page, steps).results;
      forall i :: 0 <= i < |rs| ==> keeps(rs[i], steps[i])
    decreases |steps|
  {
    if steps != [] {
      var first := run(page, steps[0]);
      assert keeps(first.0, steps[0]);
      if !stop(first.0, steps[0]) {
        RunUntilKeeps(run, stop, first.1, steps[1..], keeps);
        var rest := RunUntil(run, stop, first.1, steps[1..]).results;
        var rs := RunUntil(run, stop, page, steps).results;
        assert rs == [first.0] + rest;
        forall i | 0 < i < |rs|
          ensures rs[i] == rest[i - 1] && steps[i] == steps[1..][i - 1]
        {
        }
      }
    }
  }

  /** Midway through the steps: the results so far, followed by the run of
      the remaining steps from the current page, make up the whole run. */
  ghost predicate RunPending<S, R>(run: (PageState, S) -> (R, PageState), stop: (R, S) -> bool,
                                   page: PageState, steps: seq<S>, k: nat, results: seq<R>, p: PageState)
    requires k <= |steps|
  {
    var c := RunUntil(run, stop, p, steps[k..]);
    RunUntil(run, stop, page, steps) == Run(results + c.results, c.page)
  }

  lemma RunPendingStart<S, R>(run: (PageState, S) -> (R, PageState), stop: (R, S) -> bool,
                              page: PageState, steps: seq<S>)
    ensures RunPending(run, stop, page, steps, 0, [], page)
  {
    assert steps[0..] == steps;
  }

  /** One step of the run, seen from the middle of the steps. */
  lemma RunPendingStep<S, R>(run: (PageState, S) -> (R, PageState), stop: (R, S) -> bool,
                             page: PageState, steps: seq<S>, k: nat, results: seq<R>, p: PageState)
    requires k < |steps| && RunPending(run, stop, page, steps, k, results, p)
    ensures var o := run(p, steps[k]);
      if stop(o.0, steps[k]) then RunUntil(run, stop, page, steps) == Run(results + [o.0], o.1)
      else RunPending(run, stop, page, steps, k + 1, results + [o.0], o.1)
  {
    var rest := steps[k..];
    assert rest[0] == steps[k] && rest[1..] == steps[k + 1..];
    var o := run(p, steps[k]);
    if !stop(o.0, steps[k]) {
      var after := RunUntil(run, stop, o.1, rest[1..]);
      assert results + [o.0] + after.results == results + ([o.0] + after.results);
    }
  }

  /** At the end of the steps the results so far are the whole run. */
  lemma RunPendingEnd<S, R>(run: (PageState, S) -> (R, PageState), stop: (R, S) -> bool,
                            page: PageState, steps: seq<S>, results: seq<R>, p: PageState)
    requires RunPending(run, stop, page, steps, |steps|, results, p)
    ensures RunUntil(run, stop, page, steps) == Run(results, p)
  {
    assert steps[|steps|..] == [];
    assert results + [] == results;
  }

  // ---------------------------------------------------------------------
  // Counting results by status

  /** How many results have the wanted status (a summary's
      `results.filter(r => r.status === wanted).length`), for any result
      type whose status `statusOf` reads. */
  function CountStatus<R, S(==)>(results: seq<R>, statusOf: R -> S, wanted: S): (n: nat)
    ensures n <= |results|
  {
    if results == [] then 0
    else CountStatus(results[..|results| - 1], statusOf, wanted) + (if statusOf(results[|results| - 1]) == wanted then 1 else 0)
  }

  /** When every result has one of two distinct statuses, their counts add
      up to the number of results. */
  lemma {:induction false} CountsPartition<R, S>(results: seq<R>, statusOf: R -> S, one: S, other: S)
    requires one != other
    requires forall r :: statusOf(r) == one || statusOf(r) == other
    ensures CountStatus(results, statusOf, one) + CountStatus(results, statusOf, other) == |results|
  {
    if results != [] {
      CountsPartition(results[..|results| - 1], statusOf, one, other);
    }
  }

  /** A browser process: launched by the session, or attached to over the
      DevTools protocol. */
  class BrowserHandle {
    const overCdp: bool
    var isOpen: bool

    constructor (overCdp: bool)
      ensures this.overCdp == overCdp && isOpen
    {
      this.overCdp := overCdp;
      isOpen := true;
    }

    /** `browser.close()`; `fails` is the driver refusing, which throws. */
    method Close(fails: bool) returns (ok: bool)
      modifies this
      ensures ok == !fails
      ensures isOpen == (old(isOpen) && fails)
    {
      ok := !fails;
      if ok {
        isOpen := false;
      }
    }
  }

  /** A browser context (its cookies and storage): either one the session
      created, or one it found in a browser it attached to. */
  class ContextHandle {
    const createdBySession: bool
    var isOpen: bool

    constructor (createdBySession: bool)
      ensures this.createdBySession == createdBySession && isOpen
    {
      this.createdBySession := createdBySession;
      isOpen := true;
    }

    method Close(fails: bool) returns (ok: bool)
      modifies this
      ensures ok == !fails
      ensures isOpen == (old(isOpen) && fails)
    {
      ok := !fails;
      if ok {
        isOpen := false;
      }
    }
  }

  /** What opening and preparing a Puppeteer tab came to: `newPage` may
      throw, and so may `setViewport` and `setUserAgent` on the new tab
      (`None` where the call returns). */
  datatype TabSetup = TabSetup(newPage: Option<string>, viewport: Option<string>, userAgent: Option<string>)

  /** The error that ends the preparation of an opened tab: the viewport
      call runs first, so its error wins. */
  function SetupError(s: TabSetup): (e: Option<string>)
    ensures e.None? <==> s.viewport.None? && s.userAgent.None?
    ensures s.viewport.Some? ==> e == s.viewport
    ensures s.viewport.None? ==> e == s.userAgent
  {
    if s.viewport.Some? then s.viewport else s.userAgent
  }

  /** One tab. */
  class TabHandle {
    var isOpen: bool

    constructor ()
      ensures isOpen
    {
      isOpen := true;
    }

    method Close(fails: bool) returns (ok: bool)
      modifies this
      ensures ok == !fails
      ensures isOpen == (old(isOpen) && fails)
    {
      ok := !fails;
      if ok {
        isOpen := false;
      }
    }
  }
}
