/** How the Playwright service executes a plan: one handler per action, the
    selector fallback chains for clicking and typing, the login-success
    decision, the run loop that stops at the first failed high-priority
    step, its summary, and the session that owns the browser. */
module PlaywrightRun {
  import opened Js
  import opened Browser
  import opened PlaywrightPlan

  /** The `state` option of `waitForSelector`; the library waits for `Visible` when none is given. */
  datatype WaitState = Visible | Attached

  /** The three ways `performType` tries to enter a value into a candidate. */
  datatype TypingMethod = Fill | ClickAndKeyboard | FocusAndType

  /** The browser driver. Each entry is one driver call; time passing
      (`waitForTimeout`) is `elapse`. */
  datatype Driver = Driver(
    goto: (PageState, string, string, int) -> Attempt,      // url, waitUntil, timeout
    waitForSelector: (PageState, string, WaitState, int) -> Attempt,
    click: (PageState, string, bool) -> Attempt,            // selector, force
    typeWith: (PageState, string, TypingMethod, string) -> Attempt,
    elapse: (PageState, int) -> PageState,
    screenshot: PageState -> Result<string>,                // path of the file written
    scrapeForms: PageState -> Result<string>,               // the form analysis, kept opaque
    content: PageState -> Result<string>)                   // the page's HTML

  // ---------------------------------------------------------------------
  // Navigation and waiting

  /** `performNavigation`: refuse an absent URL, else go there and let the page settle for 2 s. */
  function Navigation(d: Driver, page: PageState, step: Step, targetUrl: string): (r: Attempt)
    ensures targetUrl == "" ==> r == Threw(page, "No target URL provided for navigation")
    ensures targetUrl != "" ==>
      var g := d.goto(page, targetUrl, if step.waitFor != "" then step.waitFor else "domcontentloaded",
                      if step.timeout != 0 then step.timeout else 120000);
      && (r.Done? <==> g.Done?)
      && (r.Done? ==> r.page == d.elapse(g.page, 2000))
      && (r.Threw? ==> r == g)
  {
    if targetUrl == "" then Threw(page, "No target URL provided for navigation")
    else
      var waitUntil := if step.waitFor != "" then step.waitFor else "domcontentloaded";
      var g := d.goto(page, targetUrl, waitUntil, if step.timeout != 0 then step.timeout else 120000);
      if g.Threw? then g else Done(d.elapse(g.page, 2000))
  }

  /** The sleep `performWait` uses: `parseInt(value) || 1000`. */
  function WaitTime(value: string): (ms: int)
    ensures ms != 0
    ensures ParseInt(value).None? || ParseInt(value) == Some(0) ==> ms == 1000
    ensures ParseInt(value).Some? && ParseInt(value).value != 0 ==> ms == ParseInt(value).value
  {
    ParseIntOr(value, 1000)
  }

  /** A positive numeral waits exactly that long; "0" waits the default second. */
  lemma WaitTimeOfNumeral(n: nat)
    ensures WaitTime(NatToString(n)) == if n == 0 then 1000 else n
  {
    ParseIntNatToString(n);
  }

  /** `performWait`: an element wait when asked for one, else a sleep. */
  function Wait(d: Driver, page: PageState, step: Step): (r: Attempt)
    ensures !(step.waitFor == "element" && step.selector != "") ==> r == Done(d.elapse(page, WaitTime(step.value)))
    ensures step.waitFor == "element" && step.selector != "" ==>
      r == d.waitForSelector(page, step.selector, Visible, if step.timeout != 0 then step.timeout else 10000)
  {
    if step.waitFor == "element" && step.selector != "" then
      d.waitForSelector(page, step.selector, Visible, if step.timeout != 0 then step.timeout else 10000)
    else Done(d.elapse(page, WaitTime(step.value)))
  }

  // ---------------------------------------------------------------------
  // Typing: candidates in split order, three methods each, accepted only on read-back equality

  /** What one typing candidate came to: not visible (with the wait's error),
      or the values read back after each method that was tried. */
  datatype TypeOutcome = Hidden(error: string) | Typed(readBacks: seq<Option<string>>)

  predicate Accepted(o: TypeOutcome, value: string) {
    o.Typed? && |o.readBacks| > 0 && o.readBacks[|o.readBacks| - 1] == Some(value)
  }

  /** The methods in order, each followed by a read-back; stop at the first that reads back `value`. */
  function TypeMethods(d: Driver, page: PageState, sel: string, value: string, methods: seq<TypingMethod>)
    : (r: (seq<Option<string>>, PageState))
    ensures |r.0| <= |methods|
    ensures forall i :: 0 <= i < |r.0| - 1 ==> r.0[i] != Some(value)
    ensures |r.0| > 0 && r.0[|r.0| - 1] == Some(value) ==> ReadBack(r.1, sel) == Some(value)
    ensures methods != [] ==> |r.0| > 0
    ensures |r.0| < |methods| ==> r.0[|r.0| - 1] == Some(value)
    decreases |methods|
  {
    if methods == [] then ([], page)
    else
      var a := d.typeWith(page, sel, methods[0], value);
      var rb := if a.Done? then ReadBack(a.page, sel) else None;
      if rb == Some(value) then ([rb], a.Page())
      else
        var rest := TypeMethods(d, a.Page(), sel, value, methods[1..]);
        ([rb] + rest.0, rest.1)
  }

  const TypingMethods: seq<TypingMethod> := [Fill, ClickAndKeyboard, FocusAndType]

  /** One candidate of `performType`: wait until it is visible, then try the methods. */
  function TryTypeCandidate(d: Driver, page: PageState, sel: string, value: string): (r: (TypeOutcome, PageState))
    ensures r.0.Typed? ==> 1 <= |r.0.readBacks| <= 3
    ensures Accepted(r.0, value) ==> ReadBack(r.1, sel) == Some(value)
    ensures r.0.Typed? && !Accepted(r.0, value) ==> |r.0.readBacks| == 3
  {
    var w := d.waitForSelector(page, sel, Visible, 5000);
    if w.Threw? then (Hidden(w.message), w.page)
    else
      var t := TypeMethods(d, w.page, sel, value, TypingMethods);
      (Typed(t.0), t.1)
  }

  /** The candidates of a fallback chain: the selector split at `", "`, each part trimmed. */
  function Candidates(selector: string): (r: seq<string>)
    ensures |r| > 0
    ensures var parts := Split(selector, SelectorSeparator);
      |r| == |parts| && forall i :: 0 <= i < |r| ==> r[i] == Trim(parts[i])
  {
    var parts := Split(selector, SelectorSeparator);
    seq(|parts|, i requires 0 <= i < |parts| => Trim(parts[i]))
  }

  /** What a fallback chain tried, candidate by candidate, and the page it left behind. */
  datatype Chain<T> = Chain(tried: seq<T>, page: PageState)

  /** The whole typing chain: candidates in order until one is accepted. */
  function TypeChain(d: Driver, page: PageState, cands: seq<string>, value: string): Chain<TypeOutcome>
    decreases |cands|
  {
    if cands == [] then Chain([], page)
    else
      var o := TryTypeCandidate(d, page, cands[0], value);
      if Accepted(o.0, value) then Chain([o.0], o.1)
      else
        var rest := TypeChain(d, o.1, cands[1..], value);
        Chain([o.0] + rest.tried, rest.page)
  }

  /** The typing chain tries at most every candidate, at least one when there
      is one, and stops early only at an accepted candidate. */
  lemma {:induction false} TypeChainLength(d: Driver, page: PageState, cands: seq<string>, value: string)
    ensures |TypeChain(d, page, cands, value).tried| <= |cands|
    ensures cands != [] ==> |TypeChain(d, page, cands, value).tried| > 0
    ensures var t := TypeChain(d, page, cands, value).tried;
      |t| < |cands| ==> Accepted(t[|t| - 1], value)
    decreases |cands|
  {
    if cands != [] {
      var o := TryTypeCandidate(d, page, cands[0], value);
      if !Accepted(o.0, value) {
        TypeChainLength(d, o.1, cands[1..], value);
        var rest := TypeChain(d, o.1, cands[1..], value).tried;
        var t := TypeChain(d, page, cands, value).tried;
        assert t == [o.0] + rest;
        if |rest| > 0 {
          assert t[|t| - 1] == rest[|rest| - 1];
        }
      }
    }
  }

  predicate RejectedBeforeLast(t: seq<TypeOutcome>, value: string) {
    forall i :: 0 <= i < |t| - 1 ==> !Accepted(t[i], value)
  }

  /** Every candidate before the last one tried was rejected. */
  lemma {:induction false} TypeChainEarlier(d: Driver, page: PageState, cands: seq<string>, value: string)
    ensures RejectedBeforeLast(TypeChain(d, page, cands, value).tried, value)
    decreases |cands|
  {
    if cands != [] {
      var o := TryTypeCandidate(d, page, cands[0], value);
      if !Accepted(o.0, value) {
        TypeChainEarlier(d, o.1, cands[1..], value);
        var rest := TypeChain(d, o.1, cands[1..], value).tried;
        var t := TypeChain(d, page, cands, value).tried;
        assert t == [o.0] + rest;
        assert t[0] == o.0;
        forall i | 0 <= i < |t| - 1
          ensures !Accepted(t[i], value)
        {
          if i > 0 {
            assert t[i] == rest[i - 1];
          }
        }
      }
    }
  }

  /** When the chain ends at an accepted candidate, that candidate reads back
      exactly the value on the page the chain leaves behind. */
  lemma {:induction false} TypeChainReadBack(d: Driver, page: PageState, cands: seq<string>, value: string)
    ensures var c := TypeChain(d, page, cands, value);
      |c.tried| > 0 && Accepted(c.tried[|c.tried| - 1], value) ==>
        |c.tried| <= |cands| && ReadBack(c.page, (cands[|c.tried| - 1])) == Some(value)
    decreases |cands|
  {
    TypeChainLength(d, page, cands, value);
    if cands != [] {
      var o := TryTypeCandidate(d, page, cands[0], value);
      if !Accepted(o.0, value) {
        TypeChainReadBack(d, o.1, cands[1..], value);
        var rest := TypeChain(d, o.1, cands[1..], value);
        var c := TypeChain(d, page, cands, value);
        assert c.tried == [o.0] + rest.tried;
        if |rest.tried| > 0 {
          assert c.tried[|c.tried| - 1] == rest.tried[|rest.tried| - 1];
          assert cands[|c.tried| - 1] == cands[1..][|rest.tried| - 1];
        }
      }
    }
  }

  /** The error of the last candidate that was not visible: `lastError?.message`. */
  function LastHiddenError(tried: seq<TypeOutcome>): Option<string> {
    if tried == [] then None
    else if tried[|tried| - 1].Hidden? then Some(tried[|tried| - 1].error)
    else LastHiddenError(tried[..|tried| - 1])
  }

  function OrUndefined(e: Option<string>): string {
    if e.Some? then e.value else "undefined"
  }

  const SelectorSeparator := ", "

  /** The message of a chain that found nothing: the selector as given and the
      last error seen, `undefined` when there was none. */
  function FailureMessage(prefix: string, selector: string, lastError: Option<string>): string {
    prefix + selector + ". Last error: " + OrUndefined(lastError)
  }

  /** Whether the typing chain succeeds. */
  predicate TypeSucceeds(d: Driver, page: PageState, step: Step) {
    var t := TypeChain(d, page, Candidates(step.selector), step.value).tried;
    |t| > 0 && Accepted(t[|t| - 1], step.value)
  }

  /** Midway through the candidates: what is tried so far, followed by the
      chain over the remaining candidates from the current page, is the whole chain. */
  ghost predicate TypePending(d: Driver, page: PageState, cands: seq<string>, value: string,
                              k: nat, tried: seq<TypeOutcome>, p: PageState)
    requires k <= |cands|
  {
    var c := TypeChain(d, p, cands[k..], value);
    TypeChain(d, page, cands, value) == Chain(tried + c.tried, c.page)
  }

  /** One step of the typing chain, seen from the middle of the candidates. */
  lemma TypeChainStep(d: Driver, page: PageState, cands: seq<string>, value: string,
                      k: nat, tried: seq<TypeOutcome>, p: PageState)
    requires k < |cands| && TypePending(d, page, cands, value, k, tried, p)
    ensures var o := TryTypeCandidate(d, p, cands[k], value);
      if Accepted(o.0, value) then TypeChain(d, page, cands, value) == Chain(tried + [o.0], o.1)
      else TypePending(d, page, cands, value, k + 1, tried + [o.0], o.1)
  {
    var rest := cands[k..];
    assert rest[0] == cands[k] && rest[1..] == cands[k + 1..];
    var o := TryTypeCandidate(d, p, cands[k], value);
    if !Accepted(o.0, value) {
      var after := TypeChain(d, o.1, rest[1..], value);
      assert tried + [o.0] + after.tried == tried + ([o.0] + after.tried);
    }
  }

  lemma LastHiddenErrorAppend(tried: seq<TypeOutcome>, o: TypeOutcome)
    ensures LastHiddenError(tried + [o]) == if o.Hidden? then Some(o.error) else LastHiddenError(tried)
  {
    assert (tried + [o])[..|tried|] == tried;
  }

  /** The loop of `performType` over the candidates: stop at the first accepted one. */
  method TypeAlong(d: Driver, page: PageState, cands: seq<string>, value: string)
    returns (found: bool, p: PageState, tried: seq<TypeOutcome>, lastError: Option<string>)
    ensures TypeChain(d, page, cands, value) == Chain(tried, p)
    ensures found <==> |tried| > 0 && Accepted(tried[|tried| - 1], value)
    ensures !found ==> |tried| == |cands|
    ensures lastError == LastHiddenError(tried)
  {
    found := false;
    lastError := None;
    p := page;
    tried := [];
    var k := 0;
    assert cands[0..] == cands;
    assert TypePending(d, page, cands, value, 0, tried, p);
    while k < |cands| && !found
      invariant 0 <= k <= |cands|
      invariant |tried| == k
      invariant lastError == LastHiddenError(tried)
      invariant found ==> k > 0 && TypeChain(d, page, cands, value) == Chain(tried, p) && Accepted(tried[k - 1], value)
      invariant !found ==> (k > 0 ==> !Accepted(tried[k - 1], value)) && TypePending(d, page, cands, value, k, tried, p)
    {
      var o := TryTypeCandidate(d, p, cands[k], value);
      TypeChainStep(d, page, cands, value, k, tried, p);
      LastHiddenErrorAppend(tried, o.0);
      tried := tried + [o.0];
      p := o.1;
      lastError := if o.0.Hidden? then Some(o.0.error) else lastError;
      found := Accepted(o.0, value);
      k := k + 1;
    }
    if !found {
      assert cands[k..] == [];
      assert tried + [] == tried;
    }
  }

  const TypeFailure := "Failed to find or fill input field. Tried selectors: "

  /** What `performType` comes to: half a second's pause after an accepted
      candidate, else a throw naming the selector and the last visibility error. */
  function TypeAttempt(d: Driver, page: PageState, step: Step): (r: Attempt)
    ensures r.Done? <==> TypeSucceeds(d, page, step)
  {
    TypeVerdict(d, step, TypeChain(d, page, Candidates(step.selector), step.value))
  }

  function TypeVerdict(d: Driver, step: Step, chain: Chain<TypeOutcome>): Attempt {
    if |chain.tried| > 0 && Accepted(chain.tried[|chain.tried| - 1], step.value) then Done(d.elapse(chain.page, 500))
    else Threw(chain.page, FailureMessage(TypeFailure, step.selector, LastHiddenError(chain.tried)))
  }

  /** `performType`. `tried` is the per-candidate account the service logs. */
  method PerformType(d: Driver, page: PageState, step: Step) returns (r: Attempt, tried: seq<TypeOutcome>)
    ensures r == TypeAttempt(d, page, step)
    ensures tried == TypeChain(d, page, Candidates(step.selector), step.value).tried
  {
    var cands := Candidates(step.selector);
    var found, p, lastError;
    found, p, tried, lastError := TypeAlong(d, page, cands, step.value);
    if !found {
      r := Threw(p, FailureMessage(TypeFailure, step.selector, lastError));
    } else {
      r := Done(d.elapse(p, 500));
    }
    assert r == TypeVerdict(d, step, Chain(tried, p));
  }

  /** A passed typing step has read back exactly the requested value from
      the candidate it stopped at, and every earlier candidate failed. */
  lemma TypePassReadsBack(d: Driver, page: PageState, step: Step)
    requires TypeSucceeds(d, page, step)
    ensures var cands := Candidates(step.selector);
      var chain := TypeChain(d, page, cands, step.value);
      && 0 < |chain.tried| <= |cands|
      && ReadBack(chain.page, (cands[|chain.tried| - 1])) == Some(step.value)
      && forall i :: 0 <= i < |chain.tried| - 1 ==> !Accepted(chain.tried[i], step.value)
  {
    var cands := Candidates(step.selector);
    TypeChainLength(d, page, cands, step.value);
    TypeChainEarlier(d, page, cands, step.value);
    TypeChainReadBack(d, page, cands, step.value);
  }

  /** A failed typing step tried every candidate of the split selector. */
  lemma TypeFailTriesAll(d: Driver, page: PageState, step: Step)
    requires !TypeSucceeds(d, page, step)
    ensures |TypeChain(d, page, Candidates(step.selector), step.value).tried|
            == |Candidates(step.selector)|
  {
    TypeChainLength(d, page, Candidates(step.selector), step.value);
  }

  // ---------------------------------------------------------------------
  // Clicking: a normal click, then a forced one, then the next candidate

  datatype ClickOutcome = Clicked | ForceClicked(error: string) | Missed(error: string)

  /** One candidate of `performClick`: wait until visible, click; when either
      throws, click with force, even on a candidate that never became visible.
      The error kept is that of the wait or of the normal click. */
  function TryClickCandidate(d: Driver, page: PageState, sel: string): (r: (ClickOutcome, PageState))
    ensures r.0 == Clicked <==>
      (d.waitForSelector(page, sel, Visible, 5000).Done? && d.click(d.waitForSelector(page, sel, Visible, 5000).page, sel, false).Done?)
    ensures var w := d.waitForSelector(page, sel, Visible, 5000);
      var n := d.click(w.page, sel, false);
      w.Done? && n.Done? ==> r == (Clicked, n.page)
    ensures var w := d.waitForSelector(page, sel, Visible, 5000);
      var forced := d.click(w.page, sel, true);
      w.Threw? ==> r == (if forced.Done? then ForceClicked(w.message) else Missed(w.message), forced.page)
    ensures var w := d.waitForSelector(page, sel, Visible, 5000);
      var n := d.click(w.page, sel, false);
      var forced := d.click(n.page, sel, true);
      w.Done? && n.Threw? ==> r == (if forced.Done? then ForceClicked(n.message) else Missed(n.message), forced.page)
  {
    var w := d.waitForSelector(page, sel, Visible, 5000);
    var normal := if w.Done? then d.click(w.page, sel, false) else w;
    if normal.Done? then (Clicked, normal.page)
    else
      var forced := d.click(normal.page, sel, true);
      if forced.Done? then (ForceClicked(normal.message), forced.page) else (Missed(normal.message), forced.page)
  }

  function ClickChain(d: Driver, page: PageState, cands: seq<string>): Chain<ClickOutcome>
    decreases |cands|
  {
    if cands == [] then Chain([], page)
    else
      var o := TryClickCandidate(d, page, cands[0]);
      if !o.0.Missed? then Chain([o.0], o.1)
      else
        var rest := ClickChain(d, o.1, cands[1..]);
        Chain([o.0] + rest.tried, rest.page)
  }

  /** The click chain tries candidates in split order and stops at the first one clicked, normally or by force. */
  lemma {:induction false} ClickChainShape(d: Driver, page: PageState, cands: seq<string>)
    ensures var c := ClickChain(d, page, cands);
      && |c.tried| <= |cands|
      && (cands != [] ==> |c.tried| > 0)
      && (forall i :: 0 <= i < |c.tried| - 1 ==> c.tried[i].Missed?)
      && (|c.tried| < |cands| ==> !c.tried[|c.tried| - 1].Missed?)
    decreases |cands|
  {
    if cands != [] {
      var o := TryClickCandidate(d, page, cands[0]);
      if o.0.Missed? {
        ClickChainShape(d, o.1, cands[1..]);
        assert ClickChain(d, page, cands).tried == [o.0] + ClickChain(d, o.1, cands[1..]).tried;
      }
    }
  }

  /** A chain that ends on a missed candidate has missed every candidate. */
  lemma ClickMissesAll(d: Driver, page: PageState, cands: seq<string>)
    requires cands != []
    ensures var t := ClickChain(d, page, cands).tried;
      || (|t| > 0 && !t[|t| - 1].Missed?)
      || (|t| == |cands| && AllMissed(t) && LastClickError(t) == Some(t[|t| - 1].error))
  {
    ClickChainShape(d, page, cands);
  }

  /** A failed click step missed every candidate of the split selector, and
      reports the error of the last one. */
  lemma ClickFailMissesAll(d: Driver, page: PageState, step: Step)
    requires !ClickSucceeds(d, page, step)
    ensures var tried := ClickChain(d, page, Candidates(step.selector)).tried;
      && |tried| == |Candidates(step.selector)| > 0
      && AllMissed(tried)
      && ClickAttempt(d, page, step) == Threw(ClickChain(d, page, Candidates(step.selector)).page,
                                              FailureMessage(ClickFailure, step.selector, Some(tried[|tried| - 1].error)))
  {
    var cands := Candidates(step.selector);
    ClickMissesAll(d, page, cands);
    var chain := ClickChain(d, page, cands);
    assert ClickAttempt(d, page, step) == ClickVerdict(d, step, chain);
  }

  predicate ClickSucceeds(d: Driver, page: PageState, step: Step) {
    var t := ClickChain(d, page, Candidates(step.selector)).tried;
    |t| > 0 && !t[|t| - 1].Missed?
  }

  /** The error of the last candidate whose wait or normal click threw. */
  function LastClickError(tried: seq<ClickOutcome>): Option<string> {
    if tried == [] then None
    else if !tried[|tried| - 1].Clicked? then Some(tried[|tried| - 1].error)
    else LastClickError(tried[..|tried| - 1])
  }

  predicate AllMissed(t: seq<ClickOutcome>) {
    forall i :: 0 <= i < |t| ==> t[i].Missed?
  }

  /** Midway through the candidates: what is tried so far, followed by the
      chain over the remaining candidates from the current page, is the whole chain. */
  ghost predicate ClickPending(d: Driver, page: PageState, cands: seq<string>, k: nat, tried: seq<ClickOutcome>, p: PageState)
    requires k <= |cands|
  {
    var c := ClickChain(d, p, cands[k..]);
    ClickChain(d, page, cands) == Chain(tried + c.tried, c.page)
  }

  /** One step of the click chain, seen from the middle of the candidates. */
  lemma ClickChainStep(d: Driver, page: PageState, cands: seq<string>, k: nat, tried: seq<ClickOutcome>, p: PageState)
    requires k < |cands| && ClickPending(d, page, cands, k, tried, p)
    ensures var o := TryClickCandidate(d, p, cands[k]);
      if o.0.Missed? then ClickPending(d, page, cands, k + 1, tried + [o.0], o.1)
      else ClickChain(d, page, cands) == Chain(tried + [o.0], o.1)
  {
    var rest := cands[k..];
    assert rest[1..] == cands[k + 1..];
    var o := TryClickCandidate(d, p, cands[k]);
    var after := ClickChain(d, o.1, rest[1..]);
    assert tried + [o.0] + after.tried == tried + ([o.0] + after.tried);
  }

  lemma LastClickErrorAppend(tried: seq<ClickOutcome>, o: ClickOutcome)
    ensures LastClickError(tried + [o]) == if o.Clicked? then LastClickError(tried) else Some(o.error)
  {
    assert (tried + [o])[..|tried|] == tried;
  }

  lemma AllMissedAppend(tried: seq<ClickOutcome>, o: ClickOutcome)
    requires AllMissed(tried) && o.Missed?
    ensures AllMissed(tried + [o])
  {
    assert forall i :: 0 <= i < |tried| ==> (tried + [o])[i] == tried[i];
  }

  /** The loop of `performClick` over the candidates: stop at the first one clicked. */
  method ClickAlong(d: Driver, page: PageState, cands: seq<string>)
    returns (found: bool, p: PageState, tried: seq<ClickOutcome>, lastError: Option<string>)
    ensures ClickChain(d, page, cands) == Chain(tried, p)
    ensures found <==> |tried| > 0 && !tried[|tried| - 1].Missed?
    ensures !found ==> |tried| == |cands| && AllMissed(tried)
    ensures lastError == LastClickError(tried)
  {
    found := false;
    lastError := None;
    p := page;
    tried := [];
    var k := 0;
    assert cands[0..] == cands;
    assert ClickPending(d, page, cands, 0, tried, p);
    while k < |cands| && !found
      invariant 0 <= k <= |cands|
      invariant |tried| == k
      invariant lastError == LastClickError(tried)
      invariant found ==> k > 0 && ClickChain(d, page, cands) == Chain(tried, p) && !tried[k - 1].Missed?
      invariant !found ==> AllMissed(tried) && ClickPending(d, page, cands, k, tried, p)
    {
      var o := TryClickCandidate(d, p, cands[k]);
      ClickChainStep(d, page, cands, k, tried, p);
      LastClickErrorAppend(tried, o.0);
      if o.0.Missed? {
        AllMissedAppend(tried, o.0);
      }
      tried := tried + [o.0];
      p := o.1;
      lastError := if o.0.Clicked? then lastError else Some(o.0.error);
      found := !o.0.Missed?;
      k := k + 1;
    }
    if !found {
      assert cands[k..] == [];
      assert tried + [] == tried;
    }
  }

  const ClickFailure := "Failed to click element. Tried selectors: "

  /** What `performClick` comes to: two seconds' pause after a clicked
      candidate, else a throw naming the selector and the last error. */
  function ClickAttempt(d: Driver, page: PageState, step: Step): (r: Attempt)
    ensures r.Done? <==> ClickSucceeds(d, page, step)
  {
    ClickVerdict(d, step, ClickChain(d, page, Candidates(step.selector)))
  }

  function ClickVerdict(d: Driver, step: Step, chain: Chain<ClickOutcome>): Attempt {
    if |chain.tried| > 0 && !chain.tried[|chain.tried| - 1].Missed? then Done(d.elapse(chain.page, 2000))
    else Threw(chain.page, FailureMessage(ClickFailure, step.selector, LastClickError(chain.tried)))
  }

  /** `performClick`. */
  method PerformClick(d: Driver, page: PageState, step: Step) returns (r: Attempt, tried: seq<ClickOutcome>)
    ensures r == ClickAttempt(d, page, step)
    ensures tried == ClickChain(d, page, Candidates(step.selector)).tried
  {
    var cands := Candidates(step.selector);
    var found, p, lastError;
    found, p, tried, lastError := ClickAlong(d, page, cands);
    if !found {
      r := Threw(p, FailureMessage(ClickFailure, step.selector, lastError));
    } else {
      r := Done(d.elapse(p, 2000));
    }
    assert r == ClickVerdict(d, step, Chain(tried, p));
  }

  // ---------------------------------------------------------------------
  // Verification

  const ErrorSelectors: seq<string> :=
    [".error", ".alert", ".warning", ".danger", "[class*='error']", "[class*='alert']", "[class*='warning']",
     ".ant-message-error", ".ant-notification-error", ".login-error", ".auth-error", ".signin-error"]

  const SuccessSelectors: seq<string> :=
    [".dashboard", ".home", ".welcome", ".profile", "[data-test='dashboard']", ".main-content", ".user-dashboard",
     ".account", ".user-menu", ".nav-user", ".user-info", ".app-content", ".main-container", ".content-area",
     "[class*='dashboard']", "[class*='home']", "[class*='welcome']"]

  const SuccessKeywords: seq<string> :=
    ["dashboard", "welcome", "account", "profile", "logout", "settings", "home", "main", "overview",
     "summary", "reports", "analytics"]

  predicate AnyPresent(page: PageState, selectors: seq<string>) {
    exists i :: 0 <= i < |selectors| && Present(page, selectors[i])
  }

  /** The selector scan of `performVerification`: stop at the first selector that matches. */
  method FindAny(page: PageState, selectors: seq<string>) returns (found: bool)
    ensures found <==> AnyPresent(page, selectors)
  {
    found := false;
    var k := 0;
    while k < |selectors|
      invariant 0 <= k <= |selectors|
      invariant forall i :: 0 <= i < k ==> !Present(page, selectors[i])
    {
      if Present(page, selectors[k]) {
        return true;
      }
      k := k + 1;
    }
  }

  predicate LoginIntent(value: string) {
    Contains(value, "login successful") || Contains(value, "success")
  }

  predicate OnLoginPage(url: string) {
    Contains(url, "sign-in") || Contains(url, "login") || Contains(url, "auth") || Contains(url, "signin")
  }

  /** The three regimes of the login-success decision, and the title check for any other intent. */
  predicate VerificationPasses(d: Driver, page: PageState, value: string) {
    if !LoginIntent(value) then page.title != ""
    else if OnLoginPage(page.url) then
      !AnyPresent(page, ErrorSelectors) && Present(page, "form") && d.elapse(page, 2000).url != page.url
    else
      AnyPresent(page, SuccessSelectors) || ContainsAny(ToLower(page.bodyText), SuccessKeywords) || |page.url| > 0
  }

  const ErrorFound := "Login verification failed - error message found on page"
  const StillOnLoginPage := "Login verification failed - still on login page after checks"
  const NoSuccessIndicators := "Login verification failed - no success indicators found"
  const NoTitle := "Page verification failed - no title found"

  /** The login check while the URL still looks like a login page: an error
      indicator fails it, otherwise the URL must change during a two-second
      wait taken only when a form is present. */
  function LoginPageCheck(d: Driver, page: PageState): (r: Attempt)
    ensures r.Done? <==> !AnyPresent(page, ErrorSelectors) && Present(page, "form") && d.elapse(page, 2000).url != page.url
    ensures AnyPresent(page, ErrorSelectors) ==> r == Threw(page, ErrorFound)
    ensures r.Threw? && !AnyPresent(page, ErrorSelectors) ==> r.message == StillOnLoginPage
  {
    if AnyPresent(page, ErrorSelectors) then Threw(page, ErrorFound)
    else if !Present(page, "form") then Threw(page, StillOnLoginPage)
    else
      var p := d.elapse(page, 2000);
      if p.url != page.url then Done(p) else Threw(p, StillOnLoginPage)
  }

  /** The login check once the URL has left the login page: a success
      element, a success word in the body, or a URL without a login marker. */
  function ElsewhereCheck(page: PageState): (r: Attempt)
    ensures r.Page() == page
    ensures r.Threw? ==> r.message == NoSuccessIndicators
  {
    if AnyPresent(page, SuccessSelectors) || ContainsAny(ToLower(page.bodyText), SuccessKeywords)
       || (|page.url| > 0 && !Contains(page.url, "sign-in") && !Contains(page.url, "login"))
    then Done(page)
    else Threw(page, NoSuccessIndicators)
  }

  /** What `performVerification` comes to: the login regimes for a login
      intent, the title check for anything else. */
  function VerificationAttempt(d: Driver, page: PageState, value: string): (r: Attempt)
    ensures r.Done? <==> VerificationPasses(d, page, value)
    ensures LoginIntent(value) && OnLoginPage(page.url) && AnyPresent(page, ErrorSelectors) ==> r == Threw(page, ErrorFound)
    ensures !LoginIntent(value) ==> r == if page.title == "" then Threw(page, NoTitle) else Done(page)
  {
    if LoginIntent(value) then
      if OnLoginPage(page.url) then LoginPageCheck(d, page) else ElsewhereCheck(page)
    else if page.title == "" then Threw(page, NoTitle)
    else Done(page)
  }

  /** The login check on a login page, scanning the error selectors. */
  method VerifyLoginOnLoginPage(d: Driver, page: PageState) returns (r: Attempt)
    ensures r == LoginPageCheck(d, page)
  {
    var currentUrl := page.url;
    var hasError := FindAny(page, ErrorSelectors);
    if hasError {
      return Threw(page, ErrorFound);
    }
    var p := page;
    if Present(page, "form") {
      p := d.elapse(page, 2000);
      if p.url != currentUrl {
        return Done(p);
      }
    }
    return Threw(p, StillOnLoginPage);
  }

  /** The login check off the login page, scanning the success selectors. */
  method VerifyLoginElsewhere(page: PageState) returns (r: Attempt)
    ensures r == ElsewhereCheck(page)
  {
    var currentUrl := page.url;
    var successFound := FindAny(page, SuccessSelectors);
    if !successFound {
      var pageText := page.bodyText;
      var hasSuccessText := ContainsAny(ToLower(pageText), SuccessKeywords);
      if !hasSuccessText {
        if |currentUrl| > 0 && !Contains(currentUrl, "sign-in") && !Contains(currentUrl, "login") {
          return Done(page);
        }
        return Threw(page, NoSuccessIndicators);
      }
    }
    return Done(page);
  }

  /** `performVerification`. */
  method PerformVerification(d: Driver, page: PageState, step: Step) returns (r: Attempt)
    ensures r == VerificationAttempt(d, page, step.value)
  {
    if LoginIntent(step.value) {
      var isStillOnLoginPage := OnLoginPage(page.url);
      if isStillOnLoginPage {
        r := VerifyLoginOnLoginPage(d, page);
      } else {
        r := VerifyLoginElsewhere(page);
      }
    } else {
      var title := page.title;
      if title == "" {
        return Threw(page, NoTitle);
      }
      return Done(page);
    }
  }

  /** "login successful" already contains "success", so the second test alone decides the intent. */
  lemma LoginIntentIsSuccess(value: string)
    ensures LoginIntent(value) <==> Contains(value, "success")
  {
    if Contains(value, "login successful") {
      ContainsIff(value, "login successful");
      var i :| OccursAt(value, "login successful", i);
      var w := value[i..i + 16];
      assert w == "login successful";
      assert w[6..13] == "success";
      forall k | 0 <= k < 7
        ensures value[i + 6..i + 13][k] == w[6..13][k]
      {
        assert value[i + 6 + k] == w[6 + k];
      }
      assert value[i + 6..i + 13] == w[6..13];
      assert OccursAt(value, "success", i + 6);
      ContainsAt(value, "success", i + 6);
    }
  }

  /** Off the login page, a non-empty URL is enough on its own. */
  lemma OffLoginPageNonEmptyUrlPasses(d: Driver, page: PageState, value: string)
    requires LoginIntent(value) && !OnLoginPage(page.url) && page.url != ""
    ensures VerificationPasses(d, page, value)
  {
  }

  /** On the login page, passing requires the URL to change during the extra wait. */
  lemma OnLoginPageNeedsUrlChange(d: Driver, page: PageState, value: string)
    requires LoginIntent(value) && OnLoginPage(page.url) && VerificationPasses(d, page, value)
    ensures d.elapse(page, 2000).url != page.url && !Present(page, ".error")
  {
    assert ErrorSelectors[0] == ".error";
  }

  // ---------------------------------------------------------------------
  // One step

  datatype StepStatus = Passed | Failed

  datatype StepResult = StepResult(
    step: string,
    action: string,
    status: StepStatus,
    evidence: string,
    error: Option<string>,
    screenshot: Option<string>,
    screenshotError: Option<string>)

  predicate KnownAction(action: string) {
    action in {"navigate", "click", "type", "wait", "verify", "screenshot"}
  }

  /** Whether the handler for the step's action returns. */
  predicate HandlerReturns(d: Driver, page: PageState, step: Step, targetUrl: string) {
    match step.action
    case "navigate" => Navigation(d, page, step, targetUrl).Done?
    case "click" => ClickSucceeds(d, page, step)
    case "type" => TypeSucceeds(d, page, step)
    case "wait" => Wait(d, page, step).Done?
    case "verify" => VerificationPasses(d, page, step.value)
    case "screenshot" => d.screenshot(page).Ok?
    case _ => false
  }

  /** What the handler for the step's action comes to; an unknown action throws. */
  function Handler(d: Driver, page: PageState, step: Step, targetUrl: string): (r: Attempt)
    ensures r.Done? <==> HandlerReturns(d, page, step, targetUrl)
    ensures !KnownAction(step.action) ==> r == Threw(page, "Unknown action: " + step.action)
    ensures step.action == "screenshot" ==> r.Page() == page
  {
    match step.action
    case "navigate" => Navigation(d, page, step, targetUrl)
    case "click" => ClickAttempt(d, page, step)
    case "type" => TypeAttempt(d, page, step)
    case "wait" => Wait(d, page, step)
    case "verify" => VerificationAttempt(d, page, step.value)
    case "screenshot" =>
      var s := d.screenshot(page);
      if s.Ok? then Done(page) else Threw(page, s.message)
    case _ => Threw(page, "Unknown action: " + step.action)
  }

  /** The evidence `executeStep` records for a step whose handler returned. */
  function Evidence(step: Step, targetUrl: string): string {
    match step.action
    case "navigate" => "Successfully navigated to: " + targetUrl
    case "click" => "Successfully clicked element: " + step.selector
    case "type" => "Successfully typed: " + step.value
    case "wait" => "Wait completed: " + step.value + "ms"
    case "verify" => "Verification passed: " + step.value
    case "screenshot" => "Screenshot captured"
    case _ => ""
  }

  /** One step as `executeStep` records it, and the page it leaves: a throw
      becomes a failed result with an error screenshot when one can be taken. */
  function RunStep(d: Driver, page: PageState, step: Step, targetUrl: string): (r: (StepResult, PageState))
    ensures r.0.step == step.description && r.0.action == step.action
  {
    var h := Handler(d, page, step, targetUrl);
    var p := h.Page();
    if h.Done? then
      (StepResult(step.description, step.action, Passed, Evidence(step, targetUrl), None,
                  if step.action == "screenshot" then Some(d.screenshot(page).value) else None, None), p)
    else
      var errorShot := d.screenshot(p);
      (StepResult(step.description, step.action, Failed, "Step failed: " + h.message, Some(h.message),
                  if errorShot.Ok? then Some(errorShot.value) else None,
                  if errorShot.Err? then Some(errorShot.message) else None), p)
  }

  /** What a recorded step says: passed exactly when its handler returns,
      with no error; a failure carries the error in its evidence and an
      error screenshot when one could be taken, an unknown action fails on
      the spot. */
  lemma RunStepRecords(d: Driver, page: PageState, step: Step, targetUrl: string)
    ensures var r := RunStep(d, page, step, targetUrl);
      && (r.0.status == Passed <==> HandlerReturns(d, page, step, targetUrl))
      && (r.0.status == Passed <==> r.0.error.None?)
      && (r.0.status == Failed ==> r.0.evidence == "Step failed: " + r.0.error.value)
      && (!KnownAction(step.action) ==> r.0.error == Some("Unknown action: " + step.action) && r.1 == page)
      && (r.0.status == Passed ==> r.0.screenshotError.None?)
      && (r.0.status == Passed && step.action == "type" ==> r.0.evidence == "Successfully typed: " + step.value)
      && (r.0.status == Passed && step.action == "screenshot" ==> r.0.screenshot == Some(d.screenshot(page).value))
      && (r.0.status == Passed && step.action != "screenshot" ==> r.0.screenshot.None?)
      && (r.0.status == Failed ==> (r.0.screenshot.Some? <==> d.screenshot(r.1).Ok?)
                                   && (r.0.screenshotError.Some? <==> d.screenshot(r.1).Err?))
  {
  }

  /** `executeStep`. */
  method ExecuteStep(d: Driver, page: PageState, step: Step, targetUrl: string)
    returns (result: StepResult, page': PageState)
    ensures (result, page') == RunStep(d, page, step, targetUrl)
  {
    var outcome, evidence, shot := RunHandler(d, page, step, targetUrl);
    page' := outcome.Page();
    if outcome.Done? {
      result := StepResult(step.description, step.action, Passed, evidence, None, shot, None);
    } else {
      var errorShot := d.screenshot(page');
      result := StepResult(step.description, step.action, Failed, "Step failed: " + outcome.message,
                           Some(outcome.message),
                           if errorShot.Ok? then Some(errorShot.value) else None,
                           if errorShot.Err? then Some(errorShot.message) else None);
    }
  }

  /** The dispatch of `executeStep` on the action, with the evidence each handler reports. */
  method RunHandler(d: Driver, page: PageState, step: Step, targetUrl: string)
    returns (outcome: Attempt, evidence: string, shot: Option<string>)
    ensures outcome == Handler(d, page, step, targetUrl)
    ensures outcome.Done? ==> evidence == Evidence(step, targetUrl)
    ensures shot == if outcome.Done? && step.action == "screenshot" then Some(d.screenshot(page).value) else None
  {
    evidence := "";
    shot := None;
    match step.action {
      case "navigate" =>
        outcome := Navigation(d, page, step, targetUrl);
        evidence := "Successfully navigated to: " + targetUrl;
      case "click" =>
        var tried;
        outcome, tried := PerformClick(d, page, step);
        evidence := "Successfully clicked element: " + step.selector;
      case "type" =>
        var tried;
        outcome, tried := PerformType(d, page, step);
        evidence := "Successfully typed: " + step.value;
      case "wait" =>
        outcome := Wait(d, page, step);
        evidence := "Wait completed: " + step.value + "ms";
      case "verify" =>
        outcome := PerformVerification(d, page, step);
        evidence := "Verification passed: " + step.value;
      case "screenshot" =>
        var s := d.screenshot(page);
        if s.Ok? {
          outcome := Done(page);
          shot := Some(s.value);
        } else {
          outcome := Threw(page, s.message);
        }
        evidence := "Screenshot captured";
      case _ =>
        outcome := Threw(page, "Unknown action: " + step.action);
    }
  }

  // ---------------------------------------------------------------------
  // The run

  datatype ProgressEvent =
    | Running(step: nat, totalSteps: nat, currentStep: string)
    | StepFinished(step: nat, totalSteps: nat, result: StepResult)
    | Complete(summary: RunSummary)

  datatype RunSummary = RunSummary(
    totalSteps: nat,
    completedSteps: nat,
    failedSteps: nat,
    successRate: nat,
    stepResults: seq<StepResult>,
    generatedFiles: seq<string>,
    htmlContent: string,
    pageAnalysis: string,
    error: Option<string>)

  /** Stop after `results.Last()` when it failed and its step is high priority. */
  predicate StopsAfter(r: StepResult, s: Step) {
    r.status == Failed && s.priority == "high"
  }

  /** One step of the run as a function of the page it starts on. */
  function StepRunner(d: Driver, targetUrl: string): (PageState, Step) -> (StepResult, PageState) {
    (p: PageState, step: Step) => RunStep(d, p, step, targetUrl)
  }

  const StopRule: (StepResult, Step) -> bool := (r: StepResult, step: Step) => StopsAfter(r, step)

  /** The steps run in order on the page each one leaves behind, up to and
      including the first failed high-priority step. */
  function RunSteps(d: Driver, page: PageState, steps: seq<Step>, targetUrl: string): Run<StepResult> {
    RunUntil(StepRunner(d, targetUrl), StopRule, page, steps)
  }

  /** The run records one result per step it reached, in step order, runs
      the first step when there is one, and stops early only right after a
      failed high-priority step. */
  lemma RunStepsShape(d: Driver, page: PageState, steps: seq<Step>, targetUrl: string)
    ensures var rs := RunSteps(d, page, steps, targetUrl).results;
      && |rs| <= |steps|
      && (steps != [] ==> |rs| > 0 && rs[0] == RunStep(d, page, steps[0], targetUrl).0)
      && (forall i :: 0 <= i < |rs| ==> rs[i].step == steps[i].description && rs[i].action == steps[i].action)
      && (forall i :: 0 <= i < |rs| - 1 ==> !StopsAfter(rs[i], steps[i]))
      && (|rs| < |steps| ==> |rs| > 0 && StopsAfter(rs[|rs| - 1], steps[|rs| - 1]))
  {
    var run := StepRunner(d, targetUrl);
    RunUntilShape(run, StopRule, page, steps);
    RunUntilKeeps(run, StopRule, page, steps, (r: StepResult, step: Step) => r.step == step.description && r.action == step.action);
  }

  /** A running and a finished event around each result so far. */
  ghost predicate Announced(steps: seq<Step>, results: seq<StepResult>, events: seq<ProgressEvent>)
    requires |results| <= |steps|
  {
    |events| == 2 * |results|
    && forall j :: 0 <= j < |results| ==>
      events[2 * j] == Running(j + 1, |steps|, steps[j].description) && events[2 * j + 1] == StepFinished(j + 1, |steps|, results[j])
  }

  lemma AnnouncedStep(steps: seq<Step>, results: seq<StepResult>, events: seq<ProgressEvent>, r: StepResult)
    requires |results| < |steps| && Announced(steps, results, events)
    ensures var i := |results|;
      Announced(steps, results + [r],
                events + [Running(i + 1, |steps|, steps[i].description)] + [StepFinished(i + 1, |steps|, r)])
  {
    var i := |results|;
    var events' := events + [Running(i + 1, |steps|, steps[i].description)] + [StepFinished(i + 1, |steps|, r)];
    assert forall j :: 0 <= j < 2 * i ==> events'[j] == events[j];
    assert forall j :: 0 <= j < i ==> (results + [r])[j] == results[j];
  }

  /** The step loop of `runAutomation`. With `notify`, `events` is what the progress callback receives. */
  method ExecuteSteps(d: Driver, page: PageState, steps: seq<Step>, targetUrl: string, notify: bool)
    returns (results: seq<StepResult>, events: seq<ProgressEvent>, page': PageState)
    ensures RunSteps(d, page, steps, targetUrl) == Run(results, page')
    ensures notify ==> Announced(steps, results, events)
    ensures !notify ==> events == []
  {
    results := [];
    events := [];
    page' := page;
    var i := 0;
    var run := StepRunner(d, targetUrl);
    RunPendingStart(run, StopRule, page, steps);
    while i < |steps|
      invariant 0 <= i <= |steps| && |results| == i
      invariant RunPending(run, StopRule, page, steps, i, results, page')
      invariant notify ==> Announced(steps, results, events)
      invariant !notify ==> events == []
    {
      var step := steps[i];
      var before := events;
      if notify {
        events := events + [Running(i + 1, |steps|, step.description)];
      }
      var result, after := ExecuteStep(d, page', step, targetUrl);
      RunPendingStep(run, StopRule, page, steps, i, results, page');
      if notify {
        AnnouncedStep(steps, results, before, result);
        events := events + [StepFinished(i + 1, |steps|, result)];
      }
      results := results + [result];
      page' := after;
      if result.status == Failed && step.priority == "high" {
        return;
      }
      i := i + 1;
    }
    RunPendingEnd(run, StopRule, page, steps, results, page');
  }

  /** The status a summary counts by. */
  function StepStatusOf(r: StepResult): StepStatus { r.status }

  /** The error or step screenshot of a result, when it has a (truthy) path. */
  predicate HasScreenshot(r: StepResult) {
    r.screenshot.Some? && r.screenshot.value != ""
  }

  /** `stepResults.filter(r => r.screenshot).map(r => r.screenshot)`. */
  function Screenshots(results: seq<StepResult>): (files: seq<string>)
    ensures |files| <= |results|
  {
    if results == [] then []
    else
      var init := Screenshots(results[..|results| - 1]);
      var last := results[|results| - 1];
      if HasScreenshot(last) then init + [last.screenshot.value] else init
  }

  /** A path is among the generated files exactly when some result has it as its screenshot. */
  lemma {:induction false} ScreenshotsMembers(results: seq<StepResult>)
    ensures forall f :: f in Screenshots(results) <==>
      exists i :: 0 <= i < |results| && HasScreenshot(results[i]) && results[i].screenshot.value == f
  {
    if results != [] {
      var init := results[..|results| - 1];
      ScreenshotsMembers(init);
      assert forall i :: 0 <= i < |init| ==> init[i] == results[i];
    }
  }

  /** Appending a result appends its screenshot, if it has one, after the others. */
  lemma ScreenshotsAppend(results: seq<StepResult>, r: StepResult)
    ensures Screenshots(results + [r]) == Screenshots(results) + if HasScreenshot(r) then [r.screenshot.value] else []
  {
    assert (results + [r])[..|results|] == results;
  }

  /** The summary of a run that reached the end of the step loop. */
  function Summarize(total: nat, results: seq<StepResult>, html: string, analysis: string): (s: RunSummary)
    requires |results| <= total
    ensures s.totalSteps == total && s.stepResults == results
    ensures s.completedSteps == CountStatus(results, StepStatusOf, Passed) && s.failedSteps == CountStatus(results, StepStatusOf, Failed)
    ensures s.completedSteps + s.failedSteps == |results|
    ensures s.successRate <= 100
    ensures total > 0 ==> PercentAsWritten(s.completedSteps, total) == Some(s.successRate as int)
    ensures s.generatedFiles == Screenshots(results)
    ensures s.htmlContent == Excerpt(html, 5000)
    ensures s.pageAnalysis == analysis && s.error.None?
  {
    assert forall r :: StepStatusOf(r).Passed? || StepStatusOf(r).Failed?;
    CountsPartition(results, StepStatusOf, Passed, Failed);
    var completed := CountStatus(results, StepStatusOf, Passed);
    RunSummary(total, completed, CountStatus(results, StepStatusOf, Failed), Percent(completed, total), results,
               Screenshots(results), Excerpt(html, 5000), analysis, None)
  }

  /** `s.substring(0, n)`: the first `n` characters, or all of a shorter string. */
  function Excerpt(s: string, n: nat): (r: string)
    ensures |r| == if |s| <= n then |s| else n
    ensures r == s[..|r|]
  {
    if |s| <= n then s else s[..n]
  }

  /** The summary returned when anything inside the run throws. */
  function FailedRun(message: string): (s: RunSummary)
    ensures s.totalSteps == 0 && s.completedSteps == 0 && s.failedSteps == 0 && s.successRate == 0
    ensures s.stepResults == [] && s.generatedFiles == [] && s.error == Some(message)
  {
    RunSummary(0, 0, 0, 0, [], [], "", "", Some(message))
  }

  // ---------------------------------------------------------------------
  // The session

  /** How attaching to a running browser over the DevTools protocol went:
      `None` when it failed; otherwise how many contexts the browser already had. */
  type AttachOutcome = Option<nat>

  /** How launching a fresh browser went: each of `launch`, `newContext` and
      `newPage` may throw, and whatever was assigned before the throw stays. */
  datatype LaunchOutcome = Launched | LaunchThrew(message: string) | ContextThrew(message: string) | TabThrew(message: string)

  class PlaywrightSession {
    var browser: BrowserHandle?
    var context: ContextHandle?
    var tab: TabHandle?

    constructor ()
      ensures browser == null && context == null && tab == null
    {
      browser := null;
      context := null;
      tab := null;
    }

    /** `initBrowser`: attach over the DevTools protocol when asked and
        reachable, else launch; a failed launch throws, leaving in place the
        browser and context it had already assigned. */
    method InitBrowser(connectToExisting: bool, attach: AttachOutcome, launch: LaunchOutcome)
      returns (r: Result<bool>)
      modifies this
      ensures connectToExisting && attach.Some? ==>
        r == Ok(true) && browser != null && browser.overCdp && context != null && tab != null
        && fresh(browser) && fresh(context) && fresh(tab) && context.createdBySession == (attach.value == 0)
      ensures !(connectToExisting && attach.Some?) && launch.Launched? ==>
        r == Ok(false) && browser != null && !browser.overCdp && context != null && tab != null
        && fresh(browser) && fresh(context) && fresh(tab) && context.createdBySession
      ensures !(connectToExisting && attach.Some?) && launch.LaunchThrew? ==>
        r == Err(launch.message) && browser == old(browser) && context == old(context) && tab == old(tab)
      ensures !(connectToExisting && attach.Some?) && launch.ContextThrew? ==>
        r == Err(launch.message) && browser != null && fresh(browser) && !browser.overCdp && browser.isOpen
        && context == old(context) && tab == old(tab)
      ensures !(connectToExisting && attach.Some?) && launch.TabThrew? ==>
        r == Err(launch.message) && browser != null && fresh(browser) && !browser.overCdp && browser.isOpen
        && context != null && fresh(context) && context.createdBySession && context.isOpen && tab == old(tab)
      ensures r.Ok? ==> browser.isOpen && context.isOpen && tab.isOpen
    {
      if connectToExisting && attach.Some? {
        browser := new BrowserHandle(true);
        context := new ContextHandle(attach.value == 0);
        tab := new TabHandle();
        return Ok(true);
      }
      if launch.LaunchThrew? {
        return Err(launch.message);
      }
      browser := new BrowserHandle(false);
      if launch.ContextThrew? {
        return Err(launch.message);
      }
      context := new ContextHandle(true);
      if launch.TabThrew? {
        return Err(launch.message);
      }
      tab := new TabHandle();
      return Ok(false);
    }

    /** `cleanup`: close the tab; close the context and the browser only when
        the browser was launched rather than attached to. A close that throws
        ends the cleanup there, and the error is swallowed. */
    method Cleanup(tabCloseFails: bool, contextCloseFails: bool, browserCloseFails: bool)
      modifies this, tab, context, browser
      ensures var launched := old(browser) != null && !old(browser).overCdp;
        var tabOk := old(tab) == null || !tabCloseFails;
        var contextOk := old(context) == null || !launched || !contextCloseFails;
        var browserOk := old(browser) == null || old(browser).overCdp || !browserCloseFails;
        && tab == (if tabOk then null else old(tab))
        && context == (if tabOk && contextOk then null else old(context))
        && browser == (if tabOk && contextOk && browserOk then null else old(browser))
        && (old(tab) != null ==> old(tab).isOpen == (old(tab.isOpen) && tabCloseFails))
        && (old(context) != null ==> old(context).isOpen == (old(context.isOpen) && !(tabOk && launched && !contextCloseFails)))
        && (old(browser) != null ==> old(browser).isOpen == (old(browser.isOpen) && !(tabOk && contextOk && launched && !browserCloseFails)))
      ensures !tabCloseFails && !contextCloseFails && !browserCloseFails ==>
        tab == null && context == null && browser == null
      ensures !tabCloseFails && !contextCloseFails && !browserCloseFails && old(browser) != null && old(browser).overCdp ==>
        old(browser).isOpen == old(browser.isOpen) && (old(context) != null ==> old(context).isOpen == old(context.isOpen))
    {
      if tab != null {
        var ok := tab.Close(tabCloseFails);
        if !ok {
          return;
        }
        tab := null;
      }
      if context != null {
        if browser != null && !browser.overCdp {
          var ok := context.Close(contextCloseFails);
          if !ok {
            return;
          }
        }
        context := null;
      }
      if browser != null {
        if !browser.overCdp {
          var ok := browser.Close(browserCloseFails);
          if !ok {
            return;
          }
        }
        browser := null;
      }
    }

    /** `runAutomation`: open the session, run inside it, and clean up. A
        failed browser start propagates before the cleanup is reached, so a
        browser it had already launched stays open. */
    method RunAutomation(d: Driver, blank: PageState, targetUrl: string,
                         c: Criteria, emailAi: Option<string>, passwordAi: Option<string>, m: Matcher,
                         notify: bool, connectToExisting: bool, attach: AttachOutcome, launch: LaunchOutcome,
                         tabCloseFails: bool, contextCloseFails: bool, browserCloseFails: bool)
      returns (r: Result<RunSummary>, events: seq<ProgressEvent>)
      modifies this, tab, context, browser
      ensures !(connectToExisting && attach.Some?) && !launch.Launched? ==> r == Err(launch.message) && events == []
      ensures !(connectToExisting && attach.Some?) && (launch.ContextThrew? || launch.TabThrew?) ==>
        browser != null && fresh(browser) && browser.isOpen
      ensures (connectToExisting && attach.Some?) || launch.Launched? ==> r.Ok?
      ensures r.Ok? ==> Reported(r.value, events, notify)
      ensures r.Ok? && !tabCloseFails && !contextCloseFails && !browserCloseFails ==>
        tab == null && context == null && browser == null
      ensures r.Ok? ==> r.value == InPageSummary(d, blank, targetUrl, c, emailAi, passwordAi, m)
    {
      var started := InitBrowser(connectToExisting, attach, launch);
      if started.Err? {
        return Err(started.message), [];
      }
      var summary;
      summary, events := RunStarted(d, blank, targetUrl, c, emailAi, passwordAi, m, notify,
                                    tabCloseFails, contextCloseFails, browserCloseFails);
      return Ok(summary), events;
    }

    /** The `try` and `finally` of `runAutomation` once the browser is up:
        the summary of the run in the page, then the cleanup. */
    method RunStarted(d: Driver, blank: PageState, targetUrl: string,
                      c: Criteria, emailAi: Option<string>, passwordAi: Option<string>, m: Matcher, notify: bool,
                      tabCloseFails: bool, contextCloseFails: bool, browserCloseFails: bool)
      returns (summary: RunSummary, events: seq<ProgressEvent>)
      modifies this, tab, context, browser
      ensures Reported(summary, events, notify)
      ensures !tabCloseFails && !contextCloseFails && !browserCloseFails ==>
        tab == null && context == null && browser == null
      ensures summary == InPageSummary(d, blank, targetUrl, c, emailAi, passwordAi, m)
    {
      var plan;
      summary, events, plan := RunInPage(d, blank, targetUrl, c, emailAi, passwordAi, m, notify);
      Cleanup(tabCloseFails, contextCloseFails, browserCloseFails);
    }
  }

  /** What a caller of `runAutomation` is handed: the zeroed summary and no
      events after a throw; otherwise each result counted once, no more
      results than planned steps, and with a callback a start and a result
      event per step and a final completion event. */
  predicate Reported(s: RunSummary, events: seq<ProgressEvent>, notify: bool) {
    && (s.error.Some? ==> s == FailedRun(s.error.value) && events == [])
    && (s.error.None? ==>
          && s.completedSteps + s.failedSteps == |s.stepResults| <= s.totalSteps
          && (notify ==> |events| == 2 * |s.stepResults| + 1 && events[|events| - 1] == Complete(s)))
  }

  /** What the body of `runAutomation`'s `try` yields: the zeroed summary
      for the first of the page load, the form scrape and the HTML read that
      throws, otherwise the summary of the planned run on the loaded page. */
  function InPageSummary(d: Driver, blank: PageState, targetUrl: string,
                         c: Criteria, emailAi: Option<string>, passwordAi: Option<string>, m: Matcher): RunSummary
  {
    var g := d.goto(blank, targetUrl, "domcontentloaded", 30000);
    if g.Threw? then FailedRun(g.message)
    else
      var loaded := d.elapse(g.page, 3000);
      var analysis := d.scrapeForms(loaded);
      if analysis.Err? then FailedRun(analysis.message)
      else
        var html := d.content(loaded);
        if html.Err? then FailedRun(html.message)
        else
          PlanSummary(d, loaded, PlanOf(c, emailAi, passwordAi, m), targetUrl, html.value, analysis.value)
  }

  /** The summary of running a plan on the loaded page, over the planned count. */
  function PlanSummary(d: Driver, page: PageState, plan: seq<Step>, targetUrl: string, html: string, analysis: string): RunSummary
  {
    Summarize(|plan|, RunSteps(d, page, plan, targetUrl).results, html, analysis)
  }

  /** The body of `runAutomation`'s `try`: load the page, analyse it, plan,
      run the steps and summarise; any throw gives the zeroed summary.
      `plan` is the plan the run followed, empty when none was made. */
  method RunInPage(d: Driver, blank: PageState, targetUrl: string,
                   c: Criteria, emailAi: Option<string>, passwordAi: Option<string>, m: Matcher, notify: bool)
    returns (summary: RunSummary, events: seq<ProgressEvent>, plan: seq<Step>)
    ensures summary == InPageSummary(d, blank, targetUrl, c, emailAi, passwordAi, m)
    ensures var g := d.goto(blank, targetUrl, "domcontentloaded", 30000);
      var loaded := d.elapse(g.page, 3000);
      g.Done? && d.scrapeForms(loaded).Ok? && d.content(loaded).Ok? ==>
        plan == PlanOf(c, emailAi, passwordAi, m) && |plan| > 0
    ensures Reported(summary, events, notify)
    ensures !notify ==> events == []
  {
    events := [];
    plan := [];
    var g := d.goto(blank, targetUrl, "domcontentloaded", 30000);
    if g.Threw? {
      return FailedRun(g.message), [], [];
    }
    var page := d.elapse(g.page, 3000);
    var analysis := d.scrapeForms(page);
    if analysis.Err? {
      return FailedRun(analysis.message), [], [];
    }
    var html := d.content(page);
    if html.Err? {
      return FailedRun(html.message), [], [];
    }
    summary, events, plan := PlanAndRun(d, page, targetUrl, c, emailAi, passwordAi, m, notify, html.value, analysis.value);
  }

  /** Plan the steps from the criteria, run them on the loaded page and
      summarise them; `plan` is what `parseAcceptanceCriteria` returned. */
  method PlanAndRun(d: Driver, page: PageState, targetUrl: string,
                    c: Criteria, emailAi: Option<string>, passwordAi: Option<string>, m: Matcher, notify: bool,
                    html: string, analysis: string)
    returns (summary: RunSummary, events: seq<ProgressEvent>, plan: seq<Step>)
    ensures plan == PlanOf(c, emailAi, passwordAi, m)
    ensures |plan| > 0
    ensures summary == PlanSummary(d, page, plan, targetUrl, html, analysis)
    ensures summary.error.None? && Reported(summary, events, notify)
    ensures !notify ==> events == []
  {
    plan := ParseAcceptanceCriteria(c, emailAi, passwordAi, m);
    summary, events := RunPlan(d, page, plan, targetUrl, notify, html, analysis);
  }

  /** Run a plan on the loaded page and summarise it, ending the events with the summary. */
  method RunPlan(d: Driver, page: PageState, plan: seq<Step>, targetUrl: string, notify: bool,
                 html: string, analysis: string)
    returns (summary: RunSummary, events: seq<ProgressEvent>)
    ensures summary == PlanSummary(d, page, plan, targetUrl, html, analysis)
    ensures summary.error.None? && Reported(summary, events, notify)
    ensures !notify ==> events == []
  {
    var results, page';
    results, events, page' := ExecuteSteps(d, page, plan, targetUrl, notify);
    summary := Summarize(|plan|, results, html, analysis);
    if notify {
      events := events + [Complete(summary)];
    }
  }
}
