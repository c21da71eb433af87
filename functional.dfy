/** The functional-test service: fallback test steps from the criteria, one
    handler per action (element lookup with fallbacks, type with read-back,
    a verification dispatch on the selector), and a run that executes every
    step and summarises. */
module FunctionalTests {
  import opened Js
  import opened Browser
  import opened PlaywrightPlan
  import opened PlaywrightRun

  /** The criteria fields the fallback looks at; "" is an absent field. */
  datatype TestCriteria = TestCriteria(content: string, title: string)

  // ---------------------------------------------------------------------
  // Fallback steps

  const PageLoadsCheck := Step("Check if page loads successfully", "verify", "body", "page loaded", 10000, "high", "")
  const NoScriptErrorsCheck := Step("Verify no JavaScript errors", "verify", "console", "no errors", 5000, "medium", "")

  function ContentCheck(content: string): Step {
    Step("Verify page contains required content", "verify", "body", content, 5000, "high", "")
  }

  function TitleCheck(title: string): Step {
    Step("Verify page title matches criteria", "verify", "title", title, 5000, "high", "")
  }

  /** The fallback tests: a content check and a title check when those
      fields are present, then the two checks every run gets. */
  function FallbackTests(criteria: TestCriteria): seq<Step> {
    (if criteria.content != "" then [ContentCheck(criteria.content)] else [])
    + (if criteria.title != "" then [TitleCheck(criteria.title)] else [])
    + [PageLoadsCheck, NoScriptErrorsCheck]
  }

  /** `generateFallbackTests`, building the list step by step. */
  method GenerateFallbackTests(criteria: TestCriteria) returns (tests: seq<Step>)
    ensures tests == FallbackTests(criteria)
    ensures |tests| == 2 + (if criteria.content != "" then 1 else 0) + (if criteria.title != "" then 1 else 0)
    ensures criteria.content != "" ==> tests[0] == ContentCheck(criteria.content)
    ensures criteria.title != "" ==> tests[if criteria.content != "" then 1 else 0] == TitleCheck(criteria.title)
    ensures tests[|tests| - 2] == PageLoadsCheck && tests[|tests| - 1] == NoScriptErrorsCheck
    ensures forall i :: 0 <= i < |tests| ==> tests[i].action == "verify"
  {
    tests := [];
    if criteria.content != "" {
      tests := tests + [ContentCheck(criteria.content)];
    }
    if criteria.title != "" {
      tests := tests + [TitleCheck(criteria.title)];
    }
    tests := tests + [PageLoadsCheck, NoScriptErrorsCheck];
  }

  // ---------------------------------------------------------------------
  // Element lookup

  const SubmitButtons := "input[type=\"submit\"], " + "button[type=\"submit\"], " + "#login-button"

  /** The selectors `performClick` tries, in order: the selector, its exact
      and its partial text match, and the submit buttons for a selector that
      names a button or a login. */
  function ClickCandidates(selector: string): (c: seq<string>)
    ensures |c| == if Contains(selector, "button") || Contains(selector, "login") then 4 else 3
    ensures c[0] == selector && c[1] == "text=" + selector && c[2] == "text*=" + selector
    ensures |c| == 4 ==> c[3] == SubmitButtons
  {
    [selector, "text=" + selector, "text*=" + selector]
    + (if Contains(selector, "button") || Contains(selector, "login") then [SubmitButtons] else [])
  }

  /** The first candidate the page matches. */
  function FirstPresent(page: PageState, cands: seq<string>): (r: Option<string>)
    ensures r.Some? ==> exists k :: 0 <= k < |cands| && cands[k] == r.value && Present(page, cands[k])
                                   && forall j :: 0 <= j < k ==> !Present(page, cands[j])
    ensures r.None? <==> forall i :: 0 <= i < |cands| ==> !Present(page, cands[i])
  {
    if cands == [] then None
    else if Present(page, cands[0]) then Some(cands[0])
    else FirstPresent(page, cands[1..])
  }

  /** The lookup of `performClick`, reassigning the element step by step. */
  method FindClickTarget(page: PageState, selector: string) returns (element: Option<string>)
    ensures element == FirstPresent(page, ClickCandidates(selector))
  {
    var cands := ClickCandidates(selector);
    var rest := cands[3..];
    assert cands[1..] == cands[1..][0..1] + cands[2..];
    assert cands[1..][1..] == cands[2..] && cands[2..][1..] == rest;
    assert rest == (if Contains(selector, "button") || Contains(selector, "login") then [SubmitButtons] else []);
    assert rest != [] ==> rest[1..] == [];
    assert cands[0] == selector && cands[1] == "text=" + selector && cands[2] == "text*=" + selector;
    assert FirstPresent(page, cands) == if Present(page, selector) then Some(selector) else FirstPresent(page, cands[1..]);
    assert FirstPresent(page, cands[1..]) == if Present(page, "text=" + selector) then Some("text=" + selector) else FirstPresent(page, cands[2..]);
    assert FirstPresent(page, cands[2..]) == if Present(page, "text*=" + selector) then Some("text*=" + selector) else FirstPresent(page, rest);
    element := if Present(page, selector) then Some(selector) else None;
    if element.None? {
      element := if Present(page, "text=" + selector) then Some("text=" + selector) else None;
    }
    if element.None? {
      element := if Present(page, "text*=" + selector) then Some("text*=" + selector) else None;
    }
    if element.None? {
      if Contains(selector, "button") || Contains(selector, "login") {
        element := if Present(page, SubmitButtons) then Some(SubmitButtons) else None;
      }
    }
  }

  const EmailInputs :=
    "input[type=\"email\"], " + "input[name*=\"email\"], " + "input[placeholder*=\"email\"], " + "#email, " + "#username, " + "input[name*=\"user\"], " + "input[placeholder*=\"username\"]"
  const PasswordInputs := "input[type=\"password\"], " + "input[name*=\"password\"], " + "#password, " + "input[placeholder*=\"password\"]"

  /** The one fallback selector `performType` tries when the selector itself
      matches nothing. The source's tests for "username" and "password" are
      subsumed by those for "user" and "pass". */
  function TypeFallback(selector: string): (r: Option<string>)
    ensures r == Some(EmailInputs) <==> Contains(selector, "user") || Contains(selector, "email")
    ensures r == Some(PasswordInputs) <==>
      !Contains(selector, "user") && !Contains(selector, "email") && Contains(selector, "pass")
    ensures r.None? <==> !Contains(selector, "user") && !Contains(selector, "email") && !Contains(selector, "pass")
  {
    ContainsPrefix(selector, "username", 4);
    assert "username"[..4] == "user";
    ContainsPrefix(selector, "password", 4);
    assert "password"[..4] == "pass";
    if Contains(selector, "username") || Contains(selector, "user") || Contains(selector, "email") then Some(EmailInputs)
    else if Contains(selector, "password") || Contains(selector, "pass") then Some(PasswordInputs)
    else None
  }

  /** The element `performType` types into: the selector itself, else its fallback. */
  function TypeTarget(page: PageState, selector: string): (t: Option<string>)
    ensures t.Some? ==> Present(page, t.value)
    ensures Present(page, selector) ==> t == Some(selector)
    ensures !Present(page, selector) && t.Some? ==> t == TypeFallback(selector)
    ensures t.None? <==> !Present(page, selector) && (TypeFallback(selector).None? || !Present(page, TypeFallback(selector).value))
  {
    if Present(page, selector) then Some(selector)
    else if TypeFallback(selector).Some? && Present(page, TypeFallback(selector).value) then TypeFallback(selector)
    else None
  }

  /** The lookup of `performType`. */
  method FindTypeTarget(page: PageState, selector: string) returns (element: Option<string>)
    ensures element == TypeTarget(page, selector)
  {
    element := if Present(page, selector) then Some(selector) else None;
    if element.None? {
      if Contains(selector, "username") || Contains(selector, "user") || Contains(selector, "email") {
        element := if Present(page, EmailInputs) then Some(EmailInputs) else None;
      } else if Contains(selector, "password") || Contains(selector, "pass") {
        element := if Present(page, PasswordInputs) then Some(PasswordInputs) else None;
      }
    }
  }

  // ---------------------------------------------------------------------
  // Handlers

  /** What `performClick` comes to: the first present candidate is clicked
      and the page given 1 s; no candidate, or a click that throws, fails. */
  function ClickOutcome(d: PageDriver, page: PageState, step: Step): (r: Attempt)
    ensures var target := FirstPresent(page, ClickCandidates(step.selector));
      && (target.None? ==> r == Threw(page, "Click failed: Element not found: " + step.selector))
      && (target.Some? ==>
            var c := d.click(page, target.value);
            (r.Done? <==> c.Done?)
            && (r.Done? ==> r.page == d.elapse(c.page, 1000))
            && (r.Threw? ==> r == Threw(c.page, "Click failed: " + c.message)))
  {
    var target := FirstPresent(page, ClickCandidates(step.selector));
    if target.None? then Threw(page, "Click failed: Element not found: " + step.selector)
    else
      var c := d.click(page, target.value);
      if c.Threw? then Threw(c.page, "Click failed: " + c.message) else Done(d.elapse(c.page, 1000))
  }

  /** `performClick`. */
  method PerformClick(d: PageDriver, page: PageState, step: Step) returns (r: Attempt)
    ensures r == ClickOutcome(d, page, step)
  {
    var element := FindClickTarget(page, step.selector);
    if element.None? {
      return Threw(page, "Click failed: Element not found: " + step.selector);
    }
    var c := d.click(page, element.value);
    if c.Threw? {
      return Threw(c.page, "Click failed: " + c.message);
    }
    r := Done(d.elapse(c.page, 1000));
  }

  /** What `performType` comes to: clear and type into the target, then pass
      only when the value read back is the value typed. */
  function TypeOutcome(d: PageDriver, page: PageState, step: Step): (r: Attempt)
    ensures var target := TypeTarget(page, step.selector);
      && (target.None? ==> r == Threw(page, "Type failed: Input element not found: " + step.selector))
      && (r.Done? ==> target.Some? && ReadBack(r.page, target.value) == Some(step.value))
      && (target.Some? && d.typeInto(page, target.value, step.value).Threw? ==>
            var t := d.typeInto(page, target.value, step.value);
            r == Threw(t.page, "Type failed: " + t.message))
      && (target.Some? && d.typeInto(page, target.value, step.value).Done? ==>
            var p := d.typeInto(page, target.value, step.value).page;
            (r.Done? <==> ReadBack(p, target.value) == Some(step.value))
            && (ReadBack(p, target.value).Some? && ReadBack(p, target.value) != Some(step.value) ==>
                  r == Threw(p, "Type failed: Failed to enter value. Expected: " + step.value + ", Got: " + ReadBack(p, target.value).value)))
  {
    var target := TypeTarget(page, step.selector);
    if target.None? then Threw(page, "Type failed: Input element not found: " + step.selector)
    else
      var t := d.typeInto(page, target.value, step.value);
      if t.Threw? then Threw(t.page, "Type failed: " + t.message)
      else
        var actual := ReadBack(t.page, target.value);
        if actual.None? then Threw(t.page, "Type failed: " + d.detached)
        else if actual.value != step.value then
          Threw(t.page, "Type failed: Failed to enter value. Expected: " + step.value + ", Got: " + actual.value)
        else Done(t.page)
  }

  /** `performType`: clear and type into the element found, then read the value back. */
  method PerformType(d: PageDriver, page: PageState, step: Step) returns (r: Attempt, target: Option<string>)
    ensures target == TypeTarget(page, step.selector)
    ensures r == TypeOutcome(d, page, step)
  {
    target := FindTypeTarget(page, step.selector);
    if target.None? {
      return Threw(page, "Type failed: Input element not found: " + step.selector), target;
    }
    var t := d.typeInto(page, target.value, step.value);
    if t.Threw? {
      return Threw(t.page, "Type failed: " + t.message), target;
    }
    var actualValue := ReadBack(t.page, target.value);
    if actualValue.None? {
      return Threw(t.page, "Type failed: " + d.detached), target;
    }
    if actualValue.value != step.value {
      return Threw(t.page, "Type failed: Failed to enter value. Expected: " + step.value + ", Got: " + actualValue.value), target;
    }
    r := Done(t.page);
  }

  /** `performNavigation`: both branches of the source make the same call. */
  function Navigation(d: PageDriver, page: PageState, step: Step): (r: Attempt)
    ensures d.goto(page, step.value, "networkidle2", 60000).Done? ==> r == d.goto(page, step.value, "networkidle2", 60000)
    ensures d.goto(page, step.value, "networkidle2", 60000).Threw? ==>
      r == Threw(d.goto(page, step.value, "networkidle2", 60000).page,
                 "Navigation failed: " + d.goto(page, step.value, "networkidle2", 60000).message)
  {
    var g := d.goto(page, step.value, "networkidle2", 60000);
    if g.Threw? then Threw(g.page, "Navigation failed: " + g.message) else g
  }

  // ---------------------------------------------------------------------
  // Verification

  const UsernameFields := "input[type=\"email\"], " + "input[name*=\"email\"], " + "input[placeholder*=\"email\"], " + "#email, " + "#username"
  const PasswordFields := "input[type=\"password\"], " + "input[name*=\"password\"], " + "#password"
  const SuccessIndicators := ".dashboard, " + ".home, " + ".welcome, " + ".profile, " + "[data-test=\"dashboard\"], " + ".success-message"
  const ErrorIndicators := ".error, .alert-danger, .login-error, [data-test=\"error\"]"
  const DashboardElements := ".dashboard, " + ".home, " + ".welcome, " + ".profile, " + "[data-test=\"dashboard\"], " + ".main-content"

  /** Which branch of `performVerification` a selector selects, in the order the source tests them. */
  datatype VerifyBranch = TitleBranch | BodyBranch | ConsoleBranch | RenderBranch | FieldsBranch
                        | LoginBranch | NavigationBranch | ElementBranch

  function BranchOf(selector: string): (b: VerifyBranch)
    ensures b.TitleBranch? <==> selector == "title"
    ensures b.BodyBranch? <==> selector == "body"
    ensures b.ConsoleBranch? <==> selector == "console"
    ensures b.LoginBranch? ==> Contains(selector, "login success") || Contains(selector, "login pass")
    ensures b.NavigationBranch? ==> Contains(selector, "navigation work") || Contains(selector, "page after navigation")
    ensures b.ElementBranch? <==>
      selector !in {"title", "body", "console"}
      && !Contains(selector, "page render") && !Contains(selector, "page loads")
      && !Contains(selector, "login fields visible") && !Contains(selector, "fields visible")
      && !Contains(selector, "login success") && !Contains(selector, "login pass")
      && !Contains(selector, "navigation work") && !Contains(selector, "page after navigation")
  {
    if selector == "title" then TitleBranch
    else if selector == "body" then BodyBranch
    else if selector == "console" then ConsoleBranch
    else if Contains(selector, "page render") || Contains(selector, "page loads") then RenderBranch
    else if Contains(selector, "login fields visible") || Contains(selector, "fields visible") then FieldsBranch
    else if Contains(selector, "login success") || Contains(selector, "login pass") then LoginBranch
    else if Contains(selector, "navigation work") || Contains(selector, "page after navigation") then NavigationBranch
    else ElementBranch
  }

  /** Whether a text branch accepts the page. The title is read as it is;
      the body text and the console errors are read by a script run in the
      page, which must return. */
  predicate TextPasses(d: PageDriver, page: PageState, step: Step) {
    match BranchOf(step.selector)
    case TitleBranch => Mentions(page.title, step.value)
    case BodyBranch =>
      var e := d.evaluate(page, "bodyText", "");
      e.Returned? && Mentions(e.page.bodyText, step.value)
    case _ =>
      var e := d.evaluate(page, "consoleErrors", "");
      e.Returned? && e.page.consoleErrors == []
  }

  /** Whether an element branch accepts the page as it is. */
  predicate ElementsPass(page: PageState, step: Step) {
    match BranchOf(step.selector)
    case RenderBranch => Present(page, "body") && page.title != ""
    case FieldsBranch => Present(page, UsernameFields) && Present(page, PasswordFields)
    case _ => Present(page, step.selector)
  }

  /** Whether the branch accepts the page (after the waits the login and navigation branches take). */
  predicate VerifyPasses(d: PageDriver, page: PageState, step: Step) {
    match BranchOf(step.selector)
    case LoginBranch =>
      var p := d.elapse(page, 3000);
      !Present(p, ErrorIndicators) && (Present(p, SuccessIndicators) || !Contains(p.url, "sign-in"))
    case NavigationBranch =>
      var p := d.elapse(page, 2000);
      !Contains(p.url, "sign-in") && !Contains(p.url, "login") && Present(p, DashboardElements)
    case TitleBranch | BodyBranch | ConsoleBranch => TextPasses(d, page, step)
    case _ => ElementsPass(page, step)
  }

  /** The login branch: wait for a redirect, then look for an error, then for a success marker. */
  function LoginCheck(d: PageDriver, page: PageState): (r: Attempt)
    ensures var p := d.elapse(page, 3000);
      && r.Page() == p
      && (Present(p, ErrorIndicators) ==> r == Threw(p, "Login failed with error: " + p.elements[ErrorIndicators].text))
      && (r.Done? <==> !Present(p, ErrorIndicators) && (Present(p, SuccessIndicators) || !Contains(p.url, "sign-in")))
      && (!Present(p, ErrorIndicators) && r.Threw? ==> r.message == "Login verification failed - still on sign-in page")
  {
    var p := d.elapse(page, 3000);
    if Present(p, ErrorIndicators) then Threw(p, "Login failed with error: " + p.elements[ErrorIndicators].text)
    else if !Present(p, SuccessIndicators) && Contains(p.url, "sign-in") then
      Threw(p, "Login verification failed - still on sign-in page")
    else Done(p)
  }

  method VerifyLogin(d: PageDriver, page: PageState) returns (r: Attempt)
    ensures r == LoginCheck(d, page)
  {
    var p := d.elapse(page, 3000);
    var currentUrl := p.url;
    var successIndicators := Present(p, SuccessIndicators);
    if Present(p, ErrorIndicators) {
      var errorText := p.elements[ErrorIndicators].text;
      return Threw(p, "Login failed with error: " + errorText);
    }
    if !successIndicators && Contains(currentUrl, "sign-in") {
      return Threw(p, "Login verification failed - still on sign-in page");
    }
    r := Done(p);
  }

  /** The navigation branch: wait, then require leaving the login page for a dashboard. */
  function NavigationCheck(d: PageDriver, page: PageState): (r: Attempt)
    ensures var p := d.elapse(page, 2000);
      && r.Page() == p
      && (r.Done? <==> !Contains(p.url, "sign-in") && !Contains(p.url, "login") && Present(p, DashboardElements))
      && (Contains(p.url, "sign-in") || Contains(p.url, "login") ==> r == Threw(p, "Navigation failed - still on login page"))
      && (!Contains(p.url, "sign-in") && !Contains(p.url, "login") && r.Threw? ==>
            r.message == "Navigation verification failed - no dashboard elements found")
  {
    var p := d.elapse(page, 2000);
    if Contains(p.url, "sign-in") || Contains(p.url, "login") then Threw(p, "Navigation failed - still on login page")
    else if !Present(p, DashboardElements) then Threw(p, "Navigation verification failed - no dashboard elements found")
    else Done(p)
  }

  method VerifyNavigation(d: PageDriver, page: PageState) returns (r: Attempt)
    ensures r == NavigationCheck(d, page)
  {
    var p := d.elapse(page, 2000);
    var currentUrl := p.url;
    if Contains(currentUrl, "sign-in") || Contains(currentUrl, "login") {
      return Threw(p, "Navigation failed - still on login page");
    }
    if !Present(p, DashboardElements) {
      return Threw(p, "Navigation verification failed - no dashboard elements found");
    }
    r := Done(p);
  }

  /** The title, body and console branches. A script that throws while
      reading the body or the console errors fails the check with its own
      message. */
  function TextCheck(d: PageDriver, page: PageState, step: Step): (r: Attempt)
    requires BranchOf(step.selector).TitleBranch? || BranchOf(step.selector).BodyBranch? || BranchOf(step.selector).ConsoleBranch?
    ensures r.Done? <==> TextPasses(d, page, step)
    ensures BranchOf(step.selector).TitleBranch? ==> r.Page() == page
    ensures BranchOf(step.selector).TitleBranch? && r.Threw? ==>
      r.message == "Title verification failed. Expected: " + step.value + ", Got: " + page.title
    ensures BranchOf(step.selector).BodyBranch? ==>
      var e := d.evaluate(page, "bodyText", "");
      && r.Page() == e.page
      && (e.ScriptThrew? ==> r == Threw(e.page, e.message))
      && (e.Returned? && r.Threw? ==> r.message == "Content verification failed. Expected: " + step.value)
    ensures BranchOf(step.selector).ConsoleBranch? ==>
      var e := d.evaluate(page, "consoleErrors", "");
      && r.Page() == e.page
      && (e.ScriptThrew? ==> r == Threw(e.page, e.message))
      && (e.Returned? && r.Threw? ==> r.message == "JavaScript errors found: " + Join(e.page.consoleErrors, ", "))
  {
    if step.selector == "title" then
      if !Mentions(page.title, step.value) then
        Threw(page, "Title verification failed. Expected: " + step.value + ", Got: " + page.title)
      else Done(page)
    else if step.selector == "body" then
      match d.evaluate(page, "bodyText", "")
      case ScriptThrew(p, m) => Threw(p, m)
      case Returned(p, _) =>
        if !Mentions(p.bodyText, step.value) then Threw(p, "Content verification failed. Expected: " + step.value)
        else Done(p)
    else
      match d.evaluate(page, "consoleErrors", "")
      case ScriptThrew(p, m) => Threw(p, m)
      case Returned(p, _) =>
        if |p.consoleErrors| > 0 then Threw(p, "JavaScript errors found: " + Join(p.consoleErrors, ", "))
        else Done(p)
  }

  method VerifyText(d: PageDriver, page: PageState, step: Step) returns (r: Attempt)
    requires BranchOf(step.selector).TitleBranch? || BranchOf(step.selector).BodyBranch? || BranchOf(step.selector).ConsoleBranch?
    ensures r == TextCheck(d, page, step)
  {
    var sel := step.selector;
    if sel == "title" {
      var title := page.title;
      if !Mentions(title, step.value) {
        return Threw(page, "Title verification failed. Expected: " + step.value + ", Got: " + title);
      }
      r := Done(page);
    } else if sel == "body" {
      var read := d.evaluate(page, "bodyText", "");
      if read.ScriptThrew? {
        return Threw(read.page, read.message);
      }
      var bodyText := read.page.bodyText;
      if !Mentions(bodyText, step.value) {
        return Threw(read.page, "Content verification failed. Expected: " + step.value);
      }
      r := Done(read.page);
    } else {
      var read := d.evaluate(page, "consoleErrors", "");
      if read.ScriptThrew? {
        return Threw(read.page, read.message);
      }
      var errors := read.page.consoleErrors;
      if |errors| > 0 {
        return Threw(read.page, "JavaScript errors found: " + Join(errors, ", "));
      }
      r := Done(read.page);
    }
  }

  /** The render, login-fields and generic element branches. */
  function ElementsCheck(page: PageState, step: Step): (r: Attempt)
    requires BranchOf(step.selector).RenderBranch? || BranchOf(step.selector).FieldsBranch? || BranchOf(step.selector).ElementBranch?
    ensures r.Page() == page
    ensures r.Done? <==> ElementsPass(page, step)
    ensures BranchOf(step.selector).ElementBranch? && r.Threw? ==>
      r.message == "Element not found for verification: " + step.selector
    ensures BranchOf(step.selector).RenderBranch? && !Present(page, "body") ==>
      r == Threw(page, "Page did not render - no body element found")
    ensures BranchOf(step.selector).FieldsBranch? && !Present(page, UsernameFields) ==>
      r == Threw(page, "Username field not found or not visible")
  {
    match BranchOf(step.selector)
    case RenderBranch =>
      if !Present(page, "body") then Threw(page, "Page did not render - no body element found")
      else if page.title == "" then Threw(page, "Page title is empty - page may not have loaded properly")
      else Done(page)
    case FieldsBranch =>
      if !Present(page, UsernameFields) then Threw(page, "Username field not found or not visible")
      else if !Present(page, PasswordFields) then Threw(page, "Password field not found or not visible")
      else Done(page)
    case ElementBranch =>
      if !Present(page, step.selector) then Threw(page, "Element not found for verification: " + step.selector)
      else Done(page)
  }

  method VerifyElements(page: PageState, step: Step) returns (r: Attempt)
    requires BranchOf(step.selector).RenderBranch? || BranchOf(step.selector).FieldsBranch? || BranchOf(step.selector).ElementBranch?
    ensures r == ElementsCheck(page, step)
  {
    var sel := step.selector;
    var branch := BranchOf(sel);
    if branch.RenderBranch? {
      if !Present(page, "body") {
        return Threw(page, "Page did not render - no body element found");
      }
      if page.title == "" {
        return Threw(page, "Page title is empty - page may not have loaded properly");
      }
    } else if branch.FieldsBranch? {
      if !Present(page, UsernameFields) {
        return Threw(page, "Username field not found or not visible");
      }
      if !Present(page, PasswordFields) {
        return Threw(page, "Password field not found or not visible");
      }
    } else {
      if !Present(page, sel) {
        return Threw(page, "Element not found for verification: " + sel);
      }
    }
    r := Done(page);
  }

  /** What `performVerification` comes to: the branch the selector chooses,
      with every failure prefixed. */
  function VerifyOutcome(d: PageDriver, page: PageState, step: Step): (r: Attempt)
    ensures r.Done? <==> VerifyPasses(d, page, step)
    ensures r.Threw? ==> StartsWith(r.message, "Verification failed: ")
  {
    var branch := BranchOf(step.selector);
    var inner :=
      if branch == LoginBranch then LoginCheck(d, page)
      else if branch == NavigationBranch then NavigationCheck(d, page)
      else if branch.TitleBranch? || branch.BodyBranch? || branch.ConsoleBranch? then TextCheck(d, page, step)
      else ElementsCheck(page, step);
    if inner.Threw? then Threw(inner.page, "Verification failed: " + inner.message) else inner
  }

  /** `performVerification`: dispatch on the selector; every failure is prefixed. */
  method PerformVerification(d: PageDriver, page: PageState, step: Step) returns (r: Attempt)
    ensures r == VerifyOutcome(d, page, step)
  {
    var branch := BranchOf(step.selector);
    var inner: Attempt;
    if branch == LoginBranch {
      inner := VerifyLogin(d, page);
    } else if branch == NavigationBranch {
      inner := VerifyNavigation(d, page);
    } else if branch.TitleBranch? || branch.BodyBranch? || branch.ConsoleBranch? {
      inner := VerifyText(d, page, step);
    } else {
      inner := VerifyElements(page, step);
    }
    if inner.Threw? {
      return Threw(inner.page, "Verification failed: " + inner.message);
    }
    r := inner;
  }

  /** The fallback "page loads" check carries the selector "body", so it
      reaches the body-text branch: it passes only when the body text read
      from the page mentions "page loaded", whatever the state of the page
      otherwise. */
  lemma PageLoadsCheckReadsBody(d: PageDriver, page: PageState)
    ensures VerifyPasses(d, page, PageLoadsCheck) <==>
      var e := d.evaluate(page, "bodyText", "");
      e.Returned? && Mentions(e.page.bodyText, "page loaded")
  {
  }

  // ---------------------------------------------------------------------
  // One step, and the run

  datatype TestResult = TestResult(step: string, action: string, status: StepStatus, evidence: string, error: Option<string>)

  /** Whether the handler for the step's action returns rather than throws. */
  predicate HandlerReturns(d: PageDriver, page: PageState, step: Step) {
    match step.action
    case "click" =>
      var t := FirstPresent(page, ClickCandidates(step.selector));
      t.Some? && d.click(page, t.value).Done?
    case "type" =>
      var t := TypeTarget(page, step.selector);
      t.Some? && d.typeInto(page, t.value, step.value).Done?
      && ReadBack(d.typeInto(page, t.value, step.value).page, t.value) == Some(step.value)
    case "navigate" => Navigation(d, page, step).Done?
    case "verify" => VerifyPasses(d, page, step)
    case "wait" => true
    case _ => false
  }

  /** What the handler `executeTestStep` dispatches to comes to. */
  function Outcome(d: PageDriver, page: PageState, step: Step): (r: Attempt)
    ensures r.Done? <==> HandlerReturns(d, page, step)
    ensures step.action !in {"click", "type", "navigate", "verify", "wait"} ==> r == Threw(page, "Unknown action: " + step.action)
    ensures step.action == "wait" ==> r == Done(d.elapse(page, WaitTime(step.value)))
  {
    match step.action
    case "click" => ClickOutcome(d, page, step)
    case "type" => TypeOutcome(d, page, step)
    case "navigate" => Navigation(d, page, step)
    case "verify" => VerifyOutcome(d, page, step)
    case "wait" => Done(d.elapse(page, WaitTime(step.value)))
    case _ => Threw(page, "Unknown action: " + step.action)
  }

  /** The evidence a passed step records. */
  function TestEvidence(step: Step): string {
    match step.action
    case "click" => "Successfully clicked element: " + step.selector
    case "type" => "Successfully typed: " + step.value
    case "navigate" => "Successfully navigated to: " + step.value
    case "verify" => "Verification passed: " + step.value
    case "wait" => "Wait completed: " + step.value + "ms"
    case _ => ""
  }

  /** One step of the run: its result, and the page it leaves. */
  function RunTest(d: PageDriver, page: PageState, step: Step): (r: (TestResult, PageState))
    ensures r.0.step == step.description && r.0.action == step.action
  {
    var o := Outcome(d, page, step);
    if o.Done? then (TestResult(step.description, step.action, Passed, TestEvidence(step), None), o.page)
    else (TestResult(step.description, step.action, Failed, "Test step failed: " + o.message, Some(o.message)), o.page)
  }

  /** What a step's result records: passed exactly when its handler returned,
      and a failure carries the handler's error. */
  lemma RunTestRecords(d: PageDriver, page: PageState, step: Step)
    ensures var (result, page') := RunTest(d, page, step);
      && (result.status == Passed <==> HandlerReturns(d, page, step))
      && (result.status == Passed <==> result.error.None?)
      && (result.status == Failed ==> result.evidence == "Test step failed: " + result.error.value)
      && (step.action !in {"click", "type", "navigate", "verify", "wait"} ==>
            result.error == Some("Unknown action: " + step.action) && page' == page)
      && (result.status == Passed && step.action == "type" ==> result.evidence == "Successfully typed: " + step.value)
      && (result.status == Passed && step.action == "type" ==>
            TypeTarget(page, step.selector).Some? && ReadBack(page', TypeTarget(page, step.selector).value) == Some(step.value))
      && (result.status == Passed && step.action == "navigate" ==> result.evidence == "Successfully navigated to: " + step.value)
  {
  }

  /** `executeTestStep`. */
  method ExecuteTestStep(d: PageDriver, page: PageState, step: Step) returns (result: TestResult, page': PageState)
    ensures (result, page') == RunTest(d, page, step)
  {
    var outcome: Attempt;
    var evidence := "";
    match step.action {
      case "click" =>
        outcome := PerformClick(d, page, step);
        evidence := "Successfully clicked element: " + step.selector;
      case "type" =>
        var target;
        outcome, target := PerformType(d, page, step);
        evidence := "Successfully typed: " + step.value;
      case "navigate" =>
        outcome := Navigation(d, page, step);
        evidence := "Successfully navigated to: " + step.value;
      case "verify" =>
        outcome := PerformVerification(d, page, step);
        evidence := "Verification passed: " + step.value;
      case "wait" =>
        outcome := Done(d.elapse(page, WaitTime(step.value)));
        evidence := "Wait completed: " + step.value + "ms";
      case _ =>
        outcome := Threw(page, "Unknown action: " + step.action);
    }
    assert outcome == Outcome(d, page, step);
    page' := outcome.Page();
    if outcome.Done? {
      result := TestResult(step.description, step.action, Passed, evidence, None);
    } else {
      result := TestResult(step.description, step.action, Failed, "Test step failed: " + outcome.message, Some(outcome.message));
    }
  }

  datatype TestSummary = TestSummary(totalTests: nat, passedTests: nat, failedTests: nat, successRate: nat,
                                     testResults: seq<TestResult>)

  /** The status a summary counts by. */
  function TestStatusOf(r: TestResult): StepStatus { r.status }

  function TestRunner(d: PageDriver): (PageState, Step) -> (TestResult, PageState) {
    (p: PageState, step: Step) => RunTest(d, p, step)
  }

  /** The functional run never stops early. */
  const NeverStop: (TestResult, Step) -> bool := (r: TestResult, step: Step) => false

  /** Every step, in order, each on the page the previous one left. */
  function TestRun(d: PageDriver, page: PageState, steps: seq<Step>): Run<TestResult> {
    RunUntil(TestRunner(d), NeverStop, page, steps)
  }

  /** The run has one result per step, named after it, and the first is the
      first step's result on the starting page. */
  lemma TestRunShape(d: PageDriver, page: PageState, steps: seq<Step>)
    ensures var rs := TestRun(d, page, steps).results;
      && |rs| == |steps|
      && (steps != [] ==> rs[0] == RunTest(d, page, steps[0]).0)
      && (forall i :: 0 <= i < |rs| ==> rs[i].step == steps[i].description && rs[i].action == steps[i].action)
      && (forall i :: 0 <= i < |rs| ==> (rs[i].status == Passed <==> rs[i].error.None?))
  {
    var run := TestRunner(d);
    RunUntilShape(run, NeverStop, page, steps);
    RunUntilKeeps(run, NeverStop, page, steps, (r: TestResult, step: Step) => r.step == step.description && r.action == step.action);
    forall p: PageState, step: Step ensures (run(p, step).0.status == Passed <==> run(p, step).0.error.None?) {
      RunTestRecords(d, p, step);
    }
    RunUntilKeeps(run, NeverStop, page, steps, (r: TestResult, step: Step) => (r.status == Passed <==> r.error.None?));
  }

  /** The loop of `runFunctionalTests`: every step, in order, with no early stop. */
  method ExecuteAll(d: PageDriver, page: PageState, steps: seq<Step>) returns (results: seq<TestResult>, page': PageState)
    ensures TestRun(d, page, steps) == Run(results, page')
  {
    results := [];
    page' := page;
    var run := TestRunner(d);
    RunPendingStart(run, NeverStop, page, steps);
    for i := 0 to |steps|
      invariant |results| == i
      invariant RunPending(run, NeverStop, page, steps, i, results, page')
    {
      var result, after := ExecuteTestStep(d, page', steps[i]);
      RunPendingStep(run, NeverStop, page, steps, i, results, page');
      results := results + [result];
      page' := after;
    }
    RunPendingEnd(run, NeverStop, page, steps, results, page');
  }

  /** The page `runFunctionalTests` runs the steps on: the target, given 3 s
      when it loaded; a failed load is only logged. */
  function LoadedPage(d: PageDriver, blank: PageState, targetUrl: string): PageState {
    var g := d.goto(blank, targetUrl, "domcontentloaded", 60000);
    if g.Done? then d.elapse(g.page, 3000) else g.page
  }

  /** The summary `runFunctionalTests` returns: every step of the AI's plan,
      or of the fallback plan, run in order on the loaded target, counted and
      rated. */
  function TestsSummary(d: PageDriver, blank: PageState, targetUrl: string, criteria: TestCriteria,
                        aiSteps: Option<seq<Step>>): TestSummary
  {
    var plan := if aiSteps.Some? then aiSteps.value else FallbackTests(criteria);
    var results := TestRun(d, LoadedPage(d, blank, targetUrl), plan).results;
    var passed := CountStatus(results, TestStatusOf, Passed);
    TestSummary(|plan|, passed, CountStatus(results, TestStatusOf, Failed), Percent(passed, |plan|), results)
  }

  /** The body of `runFunctionalTests` inside its page: load the target, plan
      from the AI's steps or the fallback, run every step. */
  method RunTestsInPage(d: PageDriver, blank: PageState, targetUrl: string, criteria: TestCriteria,
                            aiSteps: Option<seq<Step>>) returns (summary: TestSummary)
    ensures summary == TestsSummary(d, blank, targetUrl, criteria, aiSteps)
    ensures var plan := if aiSteps.Some? then aiSteps.value else FallbackTests(criteria);
      && summary.testResults == TestRun(d, LoadedPage(d, blank, targetUrl), plan).results
      && summary.totalTests == |plan|
    ensures aiSteps.None? ==> 2 <= summary.totalTests <= 4
    ensures |summary.testResults| == summary.totalTests
    ensures summary.passedTests == CountStatus(summary.testResults, TestStatusOf, Passed)
    ensures summary.failedTests == CountStatus(summary.testResults, TestStatusOf, Failed)
    ensures summary.passedTests + summary.failedTests == summary.totalTests
    ensures summary.totalTests > 0 ==> PercentAsWritten(summary.passedTests, summary.totalTests) == Some(summary.successRate as int)
    ensures summary.totalTests == 0 ==> summary.successRate == 0
  {
    var g := d.goto(blank, targetUrl, "domcontentloaded", 60000);
    var page := if g.Done? then d.elapse(g.page, 3000) else g.page;
    var testSteps: seq<Step>;
    if aiSteps.Some? {
      testSteps := aiSteps.value;
    } else {
      testSteps := GenerateFallbackTests(criteria);
    }
    var testResults, page' := ExecuteAll(d, page, testSteps);
    TestRunShape(d, page, testSteps);
    assert forall r :: TestStatusOf(r).Passed? || TestStatusOf(r).Failed?;
    CountsPartition(testResults, TestStatusOf, Passed, Failed);
    var passedTests := CountStatus(testResults, TestStatusOf, Passed);
    var failedTests := CountStatus(testResults, TestStatusOf, Failed);
    summary := TestSummary(|testSteps|, passedTests, failedTests, Percent(passedTests, |testSteps|), testResults);
  }

  /** `Math.round((passed / testSteps.length) * 100)` when the AI plans no
      steps: `0 / 0` is `NaN`, which the summary then carries. */
  lemma EmptyPlanRateAsWritten(results: seq<TestResult>)
    requires results == []
    ensures PercentAsWritten(CountStatus(results, TestStatusOf, Passed), |results|).None?
    ensures Percent(CountStatus(results, TestStatusOf, Passed), |results|) == 0
  {
  }

  // ---------------------------------------------------------------------
  // The service and its browser

  /** The service object: it owns at most one launched browser. */
  class FunctionalTestService {
    var browser: BrowserHandle?

    constructor ()
      ensures browser == null
    {
      browser := null;
    }

    /** `initBrowser`: launch only when there is no browser yet; a launch
        error (the driver's own message) propagates. */
    method InitBrowser(launchError: Option<string>) returns (r: Result<()>)
      modifies this
      ensures old(browser) != null ==> browser == old(browser) && r == Ok(())
      ensures old(browser) == null && launchError.Some? ==> browser == null && r == Err(launchError.value)
      ensures old(browser) == null && launchError.None? ==> browser != null && fresh(browser) && !browser.overCdp && browser.isOpen && r == Ok(())
    {
      if browser == null {
        if launchError.Some? {
          return Err(launchError.value);
        }
        browser := new BrowserHandle(false);
      }
      r := Ok(());
    }

    /** `runFunctionalTests`: the browser and the tab are obtained outside
        the try, so an error opening the tab propagates with no tab to
        close; the viewport and user agent are set inside it, and the tab is
        closed in `finally`, where a failing close replaces the result with
        its own error. */
    method RunFunctionalTests(d: PageDriver, blank: PageState, targetUrl: string, criteria: TestCriteria,
                              aiSteps: Option<seq<Step>>, launchError: Option<string>, setup: TabSetup,
                              closeError: Option<string>)
      returns (r: Result<TestSummary>, tab: TabHandle?)
      modifies this
      ensures old(browser) == null && launchError.Some? ==> r == Err(launchError.value) && tab == null
      ensures (old(browser) != null || launchError.None?) && setup.newPage.Some? ==>
        browser != null && r == Err(setup.newPage.value) && tab == null
      ensures (old(browser) != null || launchError.None?) && setup.newPage.None? ==>
        browser != null && tab != null && fresh(tab) && (tab.isOpen <==> closeError.Some?)
      ensures closeError.Some? && tab != null ==> r == Err(closeError.value)
      ensures closeError.None? && tab != null && SetupError(setup).Some? ==> r == Err(SetupError(setup).value)
      ensures r.Ok? ==> SetupError(setup).None?
      ensures r.Ok? ==> tab != null && !tab.isOpen && |r.value.testResults| == r.value.totalTests
      ensures r.Ok? ==> r.value.passedTests + r.value.failedTests == r.value.totalTests
      ensures r.Ok? && aiSteps.Some? ==> r.value.totalTests == |aiSteps.value|
      ensures r.Ok? ==> r.value == TestsSummary(d, blank, targetUrl, criteria, aiSteps)
    {
      var init := InitBrowser(launchError);
      if init.Err? {
        return Err(init.message), null;
      }
      if setup.newPage.Some? {
        return Err(setup.newPage.value), null;
      }
      tab := new TabHandle();
      var outcome: Result<TestSummary>;
      if setup.viewport.Some? {
        outcome := Err(setup.viewport.value);
      } else if setup.userAgent.Some? {
        outcome := Err(setup.userAgent.value);
      } else {
        var summary := RunTestsInPage(d, blank, targetUrl, criteria, aiSteps);
        outcome := Ok(summary);
      }
      var closed := tab.Close(closeError.Some?);
      if !closed {
        return Err(closeError.value), tab;
      }
      r := outcome;
    }

    /** `cleanup`: close the browser if there is one; a failing close throws
        before the field is cleared. */
    method Cleanup(closeFails: bool) returns (ok: bool)
      modifies this, browser
      ensures old(browser) == null ==> ok && browser == null
      ensures old(browser) != null ==> ok == !closeFails && (ok <==> browser == null)
      ensures old(browser) != null && ok ==> !old(browser).isOpen
    {
      if browser == null {
        return true;
      }
      ok := browser.Close(closeFails);
      if ok {
        browser := null;
      }
    }
  }
}
