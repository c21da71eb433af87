/** How the Playwright service turns acceptance criteria into a plan of
    steps: choosing the criteria text, pulling a login email and password
    out of it (object fields, then the language-model answer, then ordered
    regular expressions), and the fixed step lists it emits. */
module PlaywrightPlan {
  import opened Js

  /** One planned step. `priority` is "high" or "medium"; `waitFor` is the page event the step waits for. */
  datatype Step = Step(
    description: string,
    action: string,
    selector: string,
    value: string,
    timeout: int,
    priority: string,
    waitFor: string)

  /** A criteria field that may hold a truthy value that is not a string. */
  datatype Field = Missing | Text(s: string) | NonString

  /** What `acceptanceCriteria` can be. `CriteriaOther` covers null, numbers
      and booleans, kept as their `String(x)` rendering; `json` is the
      `JSON.stringify` rendering of an object. An empty string is absent. */
  datatype Criteria =
    | CriteriaString(text: string)
    | CriteriaObject(content: string, title: string, email: string, password: Field, json: string)
    | CriteriaOther(shown: string)

  /** The text that extraction and keyword detection look at. */
  function CriteriaText(c: Criteria): (t: string)
    ensures c.CriteriaString? ==> t == c.text
    ensures c.CriteriaObject? && c.content != "" ==> t == c.content
    ensures c.CriteriaObject? && c.content == "" && c.title != "" ==> t == c.title
    ensures c.CriteriaObject? && c.content == "" && c.title == "" ==> t == c.json
    ensures c.CriteriaOther? ==> t == c.shown
  {
    match c
    case CriteriaString(text) => text
    case CriteriaObject(content, title, _, _, json) =>
      if content != "" then content else if title != "" then title else json
    case CriteriaOther(shown) => shown
  }

  const CommonWords: seq<string> := ["field", "password", "pass", "pwd", "login", "user", "email", "username"]

  /** A would-be password that is really just a label word, compared case-insensitively. */
  predicate IsCommonWord(s: string) {
    ToLower(s) in CommonWords
  }

  lemma ToLowerIdempotent(s: string)
    ensures ToLower(ToLower(s)) == ToLower(s)
  {
  }

  /** Only a lower-case spelling of the eight labels is rejected, whatever its case. */
  lemma CommonWordIgnoresCase(s: string)
    ensures IsCommonWord(s) <==> IsCommonWord(ToLower(s))
    ensures IsCommonWord(s) ==> |s| <= 8
  {
    ToLowerIdempotent(s);
  }

  // ---------------------------------------------------------------------
  // Regular expressions

  /** The regular expressions the service uses, by role. */
  datatype Pattern =
    | EmailAfterEmail       // email[:\s]*(<email>)                 /i
    | EmailAfterUsername    // username[:\s]*(<email>)              /i
    | EmailAfterLogin       // login[:\s]*(<email>)                 /i
    | BareEmail             // (<email>)
    | PasswordQuoted        // password[:\s]*["']([^"']+)["']      /i
    | PassQuoted            // pass[:\s]*["']([^"']+)["']          /i
    | PasswordToken         // password[:\s]*(<token>)              /i
    | PassToken             // pass[:\s]*(<token>)                  /i
    | PwdQuoted             // pwd[:\s]*["']([^"']+)["']           /i
    | PwdToken              // pwd[:\s]*(<token>)                   /i
    | EmailInPassword       // (<email>)\s+in\s+password           /i
    | EmailForPassword      // (<email>)\s+for\s+password          /i
    | EmailAsPassword       // (<email>)\s+as\s+password           /i
    | PasswordRestOfLine    // password[:\s]*([^\n\r]+)             /i

  /** `text.match(p)?.[1]`: capture group 1 of the first match. */
  type Matcher = (Pattern, string) -> Option<string>

  const EmailPatterns: seq<Pattern> := [EmailAfterEmail, EmailAfterUsername, EmailAfterLogin, BareEmail]

  const PasswordPatterns: seq<Pattern> :=
    [PasswordQuoted, PassQuoted, PasswordToken, PassToken, PwdQuoted, PwdToken,
     EmailInPassword, EmailForPassword, EmailAsPassword]

  /** The capture of the first pattern, in list order, that matches. */
  function FirstMatchOf(m: Matcher, patterns: seq<Pattern>, text: string): (r: Option<string>)
    ensures r.Some? ==> exists i :: 0 <= i < |patterns| && m(patterns[i], text) == r
                                    && forall j :: 0 <= j < i ==> m(patterns[j], text).None?
    ensures r.None? <==> forall i :: 0 <= i < |patterns| ==> m(patterns[i], text).None?
  {
    if patterns == [] then None
    else if m(patterns[0], text).Some? then m(patterns[0], text)
    else
      var r := FirstMatchOf(m, patterns[1..], text);
      assert forall i :: 1 <= i < |patterns| ==> patterns[i] == patterns[1..][i - 1];
      r
  }

  /** A pattern's capture after trimming, if it is not a label word. */
  function Candidate(m: Matcher, p: Pattern, text: string): (r: Option<string>)
    ensures r.Some? ==> !IsCommonWord(r.value)
  {
    match m(p, text)
    case None => None
    case Some(raw) => if IsCommonWord(Trim(raw)) then None else Some(Trim(raw))
  }

  /** The matcher whose captures are the surviving password candidates. */
  function Candidates(m: Matcher): Matcher {
    (p: Pattern, text: string) => Candidate(m, p, text)
  }

  /** The first surviving password capture: a match that is only a label word falls through to the next pattern. */
  function FirstPasswordOf(m: Matcher, patterns: seq<Pattern>, text: string): (r: Option<string>)
    ensures r.Some? ==> !IsCommonWord(r.value)
    ensures r.Some? ==> exists i :: 0 <= i < |patterns| && Candidate(m, patterns[i], text) == r
                                    && forall j :: 0 <= j < i ==> Candidate(m, patterns[j], text).None?
    ensures r.None? <==> forall i :: 0 <= i < |patterns| ==> Candidate(m, patterns[i], text).None?
  {
    FirstMatchOf(Candidates(m), patterns, text)
  }

  /** The regular-expression fallback for the email: try each pattern in order. */
  method FirstMatch(m: Matcher, patterns: seq<Pattern>, text: string) returns (r: Option<string>)
    ensures r == FirstMatchOf(m, patterns, text)
  {
    var k := 0;
    while k < |patterns|
      invariant 0 <= k <= |patterns|
      invariant FirstMatchOf(m, patterns, text) == FirstMatchOf(m, patterns[k..], text)
    {
      assert patterns[k..][1..] == patterns[k + 1..];
      var match_ := m(patterns[k], text);
      if match_.Some? {
        return match_;
      }
      k := k + 1;
    }
    return None;
  }

  /** The regular-expression fallback for the password: trim each capture and skip label words. */
  method FirstPassword(m: Matcher, patterns: seq<Pattern>, text: string) returns (r: Option<string>)
    ensures r == FirstPasswordOf(m, patterns, text)
  {
    var k := 0;
    while k < |patterns|
      invariant 0 <= k <= |patterns|
      invariant FirstPasswordOf(m, patterns, text) == FirstPasswordOf(m, patterns[k..], text)
    {
      assert patterns[k..][1..] == patterns[k + 1..];
      var match_ := m(patterns[k], text);
      if match_.Some? {
        var password := Trim(match_.value);
        if !IsCommonWord(password) {
          return Some(password);
        }
      }
      k := k + 1;
    }
    return None;
  }

  // ---------------------------------------------------------------------
  // Credential extraction

  /** The language model's answer: trimmed, with "null" and "" meaning none. */
  function AiAnswer(raw: string): (r: Option<string>)
    ensures r.Some? ==> r.value == Trim(raw) && r.value != "" && r.value != "null"
    ensures r.None? ==> Trim(raw) == "" || Trim(raw) == "null"
  {
    var t := Trim(raw);
    if t == "null" || t == "" then None else Some(t)
  }

  /** The email the service extracts. `ai` is the model's answer, `None` when the call threw. */
  function EmailFromCriteria(c: Criteria, ai: Option<string>, m: Matcher): Option<string> {
    if c.CriteriaObject? && c.email != "" then Some(c.email)
    else if ai.Some? then AiAnswer(ai.value)
    else FirstMatchOf(m, EmailPatterns, CriteriaText(c))
  }

  /** The password the service extracts; `Err` when an object's password is
      not a string, so that `toLowerCase` throws. */
  function PasswordFromCriteria(c: Criteria, ai: Option<string>, m: Matcher): Result<Option<string>> {
    if c.CriteriaObject? && c.password.NonString? then Err("password.toLowerCase is not a function")
    else if c.CriteriaObject? && c.password.Text? && c.password.s != "" && !IsCommonWord(c.password.s) then
      Ok(Some(c.password.s))
    else if ai.Some? then
      var answer := AiAnswer(ai.value);
      if answer.Some? && IsCommonWord(answer.value) then Ok(None) else Ok(answer)
    else Ok(FirstPasswordOf(m, PasswordPatterns, CriteriaText(c)))
  }

  /** An object's own email field wins over everything else, verbatim. */
  lemma ObjectEmailVerbatim(c: Criteria, ai: Option<string>, m: Matcher)
    requires c.CriteriaObject? && c.email != ""
    ensures EmailFromCriteria(c, ai, m) == Some(c.email)
  {
  }

  /** Without an object email and without a model answer, the email is the
      capture of the first of the four patterns that matches, or none. */
  lemma {:induction false} EmailRegexFallback(c: Criteria, m: Matcher)
    requires !(c.CriteriaObject? && c.email != "")
    ensures var t := CriteriaText(c);
      var r := EmailFromCriteria(c, None, m);
      && (r.None? <==> forall i :: 0 <= i < 4 ==> m(EmailPatterns[i], t).None?)
      && (m(EmailAfterEmail, t).Some? ==> r == m(EmailAfterEmail, t))
      && ((m(EmailAfterEmail, t).None? && m(EmailAfterUsername, t).None? && m(EmailAfterLogin, t).None?)
          ==> r == m(BareEmail, t))
  {
    var t := CriteriaText(c);
    var p := EmailPatterns;
    assert p[1..] == [EmailAfterUsername, EmailAfterLogin, BareEmail];
    assert p[1..][1..] == [EmailAfterLogin, BareEmail];
    assert p[1..][1..][1..] == [BareEmail];
    assert p[1..][1..][1..][1..] == [];
    if m(EmailAfterEmail, t).None? && m(EmailAfterUsername, t).None? && m(EmailAfterLogin, t).None? {
      assert FirstMatchOf(m, p, t) == FirstMatchOf(m, p[1..], t) == FirstMatchOf(m, p[1..][1..], t)
          == FirstMatchOf(m, [BareEmail], t);
    }
  }

  /** No path ever yields a label word as the password. */
  lemma PasswordNeverCommonWord(c: Criteria, ai: Option<string>, m: Matcher)
    ensures var r := PasswordFromCriteria(c, ai, m);
      r.Ok? && r.value.Some? ==> !IsCommonWord(r.value.value)
  {
  }

  /** A rejected object password or a rejected answer does not stop the search early:
      an object password that is a label word is ignored, and the model's answer
      or the patterns decide. */
  lemma CommonObjectPasswordIgnored(content: string, title: string, email: string, p: string, json: string,
                                    ai: Option<string>, m: Matcher)
    requires IsCommonWord(p)
    ensures PasswordFromCriteria(CriteriaObject(content, title, email, Text(p), json), ai, m)
         == PasswordFromCriteria(CriteriaObject(content, title, email, Missing, json), ai, m)
  {
  }

  // ---------------------------------------------------------------------
  // Plans

  const NavigateStep := Step("Navigate to target URL", "navigate", "", "", 30000, "high", "domcontentloaded")
  const LoadWaitStep := Step("Wait for page to load completely", "wait", "", "3000", 10000, "high", "load")
  const InitialShot := Step("Take initial page screenshot", "screenshot", "", "initial_page", 5000, "medium", "element")
  const FinalShot := Step("Take final screenshot", "screenshot", "", "final_page", 5000, "medium", "element")

  const EmailSelectors := "#signin_email, " + "input[id='signin_email'], " + "input[type='email'], " + "input[name*='email'], " + "input[id*='email'], " + "input[placeholder*='email'], " + "input[type='text']:first-of-type"
  const PasswordSelectors := "#signin_password, " + "input[id='signin_password'], " + "input[type='password'], " + "input[name*='password'], " + "input[id*='password']"
  const SubmitSelectors := "button[type='submit'], " + "button:has-text('Login'), " + "input[type='submit'], " + "button:has-text('Sign In'), " + "button:has-text('Log In'), " + "button:has-text('Submit')"
  const LoginVerifyValue := "login successful - URL changed or dashboard visible"

  /** The six login steps inserted between the opening and the closing screenshot. */
  function LoginSteps(email: string, password: string): (s: seq<Step>)
    ensures |s| == 6
    ensures s[0].action == "type" && s[0].value == email
    ensures s[1].action == "type" && s[1].value == password
    ensures s[0].selector == EmailSelectors && s[1].selector == PasswordSelectors
    ensures s[2].action == "click" && s[2].selector == SubmitSelectors
    ensures s[3].action == "wait" && s[3].value == "5000"
    ensures s[4].action == "screenshot" && s[4].value == "after_login"
    ensures s[5].action == "verify" && s[5].value == LoginVerifyValue
    ensures forall i :: 0 <= i < 6 ==> s[i].priority == (if i == 4 then "medium" else "high")
  {
    [Step("Find and fill email field", "type", EmailSelectors, email, 15000, "high", "element"),
     Step("Find and fill password field", "type", PasswordSelectors, password, 15000, "high", "element"),
     Step("Click submit/login button", "click", SubmitSelectors, "", 15000, "high", "element"),
     Step("Wait for login to complete", "wait", "", "5000", 20000, "high", "load"),
     Step("Take post-login screenshot", "screenshot", "", "after_login", 5000, "medium", "element"),
     Step("Verify login success", "verify", "", LoginVerifyValue, 15000, "high", "element")]
  }

  /** Whether the extracted credentials are both present (JavaScript truthiness). */
  predicate HasCredentials(email: Option<string>, password: Result<Option<string>>) {
    email.Some? && email.value != "" && password.Ok? && password.value.Some? && password.value.value != ""
  }

  /** The plan for credentials already extracted: the opening steps, the login
      steps when both credentials are present, and the closing screenshot. */
  function CredentialPlan(email: Option<string>, password: Option<string>): (steps: seq<Step>)
    ensures |steps| == 4 || |steps| == 10
    ensures steps[0] == NavigateStep && steps[1] == LoadWaitStep && steps[2] == InitialShot
    ensures steps[|steps| - 1] == FinalShot
    ensures |steps| == 10 <==> HasCredentials(email, Ok(password))
    ensures |steps| == 10 ==> steps[3..9] == LoginSteps(email.value, password.value)
  {
    [NavigateStep, LoadWaitStep, InitialShot]
    + (if HasCredentials(email, Ok(password)) then LoginSteps(email.value, password.value) else [])
    + [FinalShot]
  }

  /** The plan `parseAcceptanceCriteria` returns: the fallback plan when the
      password extraction throws, otherwise the plan for the extracted credentials. */
  function PlanOf(c: Criteria, emailAi: Option<string>, passwordAi: Option<string>, m: Matcher): seq<Step> {
    var password := PasswordFromCriteria(c, passwordAi, m);
    if password.Err? then FallbackSteps(c, m)
    else CredentialPlan(EmailFromCriteria(c, emailAi, m), password.value)
  }

  /** `parseAcceptanceCriteria`: extract the credentials, then emit the
      fixed plan; a thrown extraction falls back to `generateFallbackSteps`.
      `emailAi`/`passwordAi` are the model's answers. */
  method ParseAcceptanceCriteria(c: Criteria, emailAi: Option<string>, passwordAi: Option<string>, m: Matcher)
    returns (steps: seq<Step>)
    ensures steps == PlanOf(c, emailAi, passwordAi, m)
    ensures |steps| > 0
    ensures PasswordFromCriteria(c, passwordAi, m).Err? ==> steps == FallbackSteps(c, m)
    ensures PasswordFromCriteria(c, passwordAi, m).Ok? ==>
      var email := EmailFromCriteria(c, emailAi, m);
      var password := PasswordFromCriteria(c, passwordAi, m);
      && (|steps| == 4 || |steps| == 10)
      && |steps| > 0 && steps[0] == NavigateStep && steps[1] == LoadWaitStep && steps[2] == InitialShot
      && steps[|steps| - 1] == FinalShot
      && (|steps| == 10 <==> HasCredentials(email, password))
      && (|steps| == 10 ==> steps[3..9] == LoginSteps(email.value, password.value.value))
  {
    var email := ExtractEmail(c, emailAi, m);
    var password := ExtractPassword(c, passwordAi, m);
    if password.Err? {
      steps := GenerateFallbackSteps(c, m);
      return;
    }
    steps := BuildPlan(email, password.value);
  }

  /** The step list `parseAcceptanceCriteria` pushes once the credentials are known. */
  method BuildPlan(email: Option<string>, password: Option<string>) returns (steps: seq<Step>)
    ensures steps == CredentialPlan(email, password)
    ensures |steps| == 4 || |steps| == 10
    ensures steps[0] == NavigateStep && steps[1] == LoadWaitStep && steps[2] == InitialShot
    ensures steps[|steps| - 1] == FinalShot
    ensures |steps| == 10 <==> HasCredentials(email, Ok(password))
    ensures |steps| == 10 ==> steps[3..9] == LoginSteps(email.value, password.value)
  {
    steps := [];
    steps := steps + [NavigateStep];
    steps := steps + [LoadWaitStep];
    steps := steps + [InitialShot];
    if HasCredentials(email, Ok(password)) {
      var login := LoginSteps(email.value, password.value);
      steps := steps + login;
      steps := steps + [FinalShot];
      assert steps[3..9] == login;
    } else {
      steps := steps + [FinalShot];
    }
  }

  /** `extractEmailFromCriteria`. */
  method ExtractEmail(c: Criteria, ai: Option<string>, m: Matcher) returns (r: Option<string>)
    ensures r == EmailFromCriteria(c, ai, m)
  {
    if c.CriteriaObject? && c.email != "" {
      return Some(c.email);
    }
    var text := CriteriaText(c);
    if ai.Some? {
      return AiAnswer(ai.value);
    }
    r := FirstMatch(m, EmailPatterns, text);
  }

  /** `extractPasswordFromCriteria`. */
  method ExtractPassword(c: Criteria, ai: Option<string>, m: Matcher) returns (r: Result<Option<string>>)
    ensures r == PasswordFromCriteria(c, ai, m)
  {
    if c.CriteriaObject? && c.password.NonString? {
      return Err("password.toLowerCase is not a function");
    }
    if c.CriteriaObject? && c.password.Text? && c.password.s != "" && !IsCommonWord(c.password.s) {
      return Ok(Some(c.password.s));
    }
    var text := CriteriaText(c);
    if ai.Some? {
      var answer := AiAnswer(ai.value);
      if answer.Some? && IsCommonWord(answer.value) {
        return Ok(None);
      }
      return Ok(answer);
    }
    var found := FirstPassword(m, PasswordPatterns, text);
    return Ok(found);
  }

  // ---------------------------------------------------------------------
  // Fallback plan

  const LoginKeywords: seq<string> := ["login", "email", "password", "sign in", "sign-in"]

  const FallbackNavigate := Step("Navigate to the target URL", "navigate", "", "", 30000, "high", "domcontentloaded")

  /** The fallback email: the first bare address in the text, else a placeholder. */
  function FallbackEmail(m: Matcher, text: string): (e: string)
    ensures m(BareEmail, text).None? ==> e == "test@example.com"
    ensures m(BareEmail, text).Some? ==> e == m(BareEmail, text).value
  {
    match m(BareEmail, text)
    case Some(e) => e
    case None => "test@example.com"
  }

  /** The fallback password: the rest of the line after "password", trimmed, else a placeholder. */
  function FallbackPassword(m: Matcher, text: string): (p: string)
    ensures m(PasswordRestOfLine, text).None? ==> p == "password123"
    ensures m(PasswordRestOfLine, text).Some? ==> p == Trim(m(PasswordRestOfLine, text).value)
  {
    match m(PasswordRestOfLine, text)
    case Some(raw) => Trim(raw)
    case None => "password123"
  }

  const FallbackEmailSelectors := "input[type='email'], " + "input[type='text'], " + "input[name*='email'], " + "input[name*='username'], " + "input[id*='email'], " + "input[placeholder*='email'], " + "#signin_email"
  const FallbackPasswordSelectors := "input[type='password'], " + "input[name*='password'], " + "input[id*='password'], " + "input[placeholder*='password'], " + "#signin_password"
  const FallbackSubmitSelectors := "button[type='submit'], " + "input[type='submit'], " + "button:has-text('Sign In'), " + "button:has-text('Login'), " + "button:has-text('sign in'), " + "button:has-text('login'), " + "button:has-text('Login')"
  const DashboardSelectors := ".dashboard, " + ".home, " + ".welcome, " + ".profile, " + "[data-test='dashboard'], " + ".main-content, " + ".user-dashboard"

  /** The seven login steps of the fallback plan. */
  function FallbackLoginSteps(email: string, password: string): (s: seq<Step>)
    ensures |s| == 7
    ensures s[0].action == "wait" && s[0].selector == "login-form-detection"
    ensures s[1].action == "type" && s[1].value == email
    ensures s[2].action == "type" && s[2].value == password
    ensures s[3].action == "click"
    ensures s[4].action == "wait" && s[4].value == "5000"
    ensures s[5].action == "verify" && s[5].value == LoginVerifyValue
    ensures s[6].action == "verify" && s[6].value == "dashboard page visible"
    ensures forall i :: 0 <= i < 7 ==> s[i].priority == "high"
  {
    [Step("Wait for login form to be visible", "wait", "login-form-detection", "5000", 15000, "high", "element"),
     Step("Type email/username", "type", FallbackEmailSelectors, email, 15000, "high", "element"),
     Step("Type password", "type", FallbackPasswordSelectors, password, 15000, "high", "element"),
     Step("Click sign in button", "click", FallbackSubmitSelectors, "", 15000, "high", "element"),
     Step("Wait for login to complete", "wait", "", "5000", 20000, "high", "load"),
     Step("Verify login success by checking URL change", "verify", "", LoginVerifyValue, 15000, "high", "element"),
     Step("Check for dashboard or success page", "verify", DashboardSelectors, "dashboard page visible", 15000, "high", "element")]
  }

  /** The plan `generateFallbackSteps` builds: navigation, then the seven login
      steps when the lower-cased text mentions logging in. */
  function FallbackSteps(c: Criteria, m: Matcher): seq<Step> {
    var text := CriteriaText(c);
    [FallbackNavigate]
    + if ContainsAny(ToLower(text), LoginKeywords) then FallbackLoginSteps(FallbackEmail(m, text), FallbackPassword(m, text)) else []
  }

  /** `generateFallbackSteps`: navigation alone, plus seven login steps when the
      lower-cased text mentions logging in. */
  method GenerateFallbackSteps(c: Criteria, m: Matcher) returns (steps: seq<Step>)
    ensures steps == FallbackSteps(c, m)
    ensures |steps| == 1 || |steps| == 8
    ensures |steps| > 0 && steps[0] == FallbackNavigate
    ensures |steps| == 8 <==> ContainsAny(ToLower(CriteriaText(c)), LoginKeywords)
    ensures |steps| == 8 ==>
      && steps[1].action == "wait" && steps[1].selector == "login-form-detection"
      && steps[2].action == "type" && steps[2].value == FallbackEmail(m, CriteriaText(c))
      && steps[3].action == "type" && steps[3].value == FallbackPassword(m, CriteriaText(c))
      && steps[4].action == "click"
      && steps[5].action == "wait" && steps[5].value == "5000"
      && steps[6].action == "verify" && steps[6].value == LoginVerifyValue
      && steps[7].action == "verify" && steps[7].value == "dashboard page visible"
    ensures forall i :: 0 <= i < |steps| ==> steps[i].priority == "high"
  {
    var text := CriteriaText(c);
    var email := FallbackEmail(m, text);
    var password := FallbackPassword(m, text);
    steps := [FallbackNavigate];
    var criteria := ToLower(text);
    if Contains(criteria, "login") || Contains(criteria, "email") || Contains(criteria, "password")
       || Contains(criteria, "sign in") || Contains(criteria, "sign-in")
    {
      var login := FallbackLoginSteps(email, password);
      steps := steps + login;
      assert steps[1..] == login;
    }
    LoginKeywordsSpelledOut(criteria);
  }

  lemma LoginKeywordsSpelledOut(s: string)
    ensures ContainsAny(s, LoginKeywords) <==>
      (Contains(s, "login") || Contains(s, "email") || Contains(s, "password")
       || Contains(s, "sign in") || Contains(s, "sign-in"))
  {
    assert LoginKeywords[0] == "login" && LoginKeywords[1] == "email" && LoginKeywords[2] == "password";
    assert LoginKeywords[3] == "sign in" && LoginKeywords[4] == "sign-in";
  }
}
