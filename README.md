# Web QA backend: a verified model of its core

This project models, in Dafny, the core of the backend of a web quality-assurance tool. The backend drives a browser against a target site and reports on what it finds. The model covers six parts of it:

- **Playwright automation service.** It turns acceptance criteria into a plan of steps: login credentials pulled from the criteria, or a keyword-driven fallback. It executes the plan with selector fallback chains for clicking and typing, and with a login-success decision. It stops after the first failed high-priority step, summarises the run, and owns a browser/context/tab session that it closes only when it launched the browser itself.
- **Functional-test service.** It builds fallback test steps, runs every step through one handler per action (click, type, navigate, verify, wait), and summarises passed and failed tests.
- **Puppeteer automation service.** It builds a fallback plan from flags and keywords. Fourteen step handlers are folded into completed/failed. It runs every step, collects the screenshots and PDFs the steps wrote, and summarises the run.
- **Validation service.** Five groups of rule checks run over scraped page data. A score deducts per failed check by priority, and a banded Pass/Partial/Fail verdict follows. Two wrappers turn a thrown functional-test or automation run into a well-formed summary.
- **WebSocket registry.** A map from task id to the set of subscribed connections. It covers subscribe, unsubscribe, close, broadcast to open connections, and the count getters.
- **Tasks routes.** Task creation with its schema and defaults, listing with filters, sort choice and pagination, updates that cannot touch the protected fields, the status whitelist, and the statistics overview.

The browser is an abstract `PageState` (url, title, body text, a map from selector to element, console errors). Each driver call is an oracle in a driver record: `Attempt` is either the new page, or the page and a thrown message. The language-model calls are `Option` inputs, where `None` means the call threw. Regular expressions are a matcher oracle that returns the first capture. Clocks, launch errors and close errors are parameters. Numbers follow JavaScript where it matters:
- `parseInt` and its `|| fallback` idiom;
- `Math.round` of a percentage, with `NaN` for an empty denominator;
- `Math.ceil` of a page count;
- truthiness, where an empty string is absent.

Modules: `Js` (the JavaScript built-ins), `Browser` (page state, driver outcomes, browser/context/tab handles), `PlaywrightPlan`, `PlaywrightRun`, `ValidationRules`, `FunctionalTests`, `PuppeteerAutomation`, `WebSocketRegistry`, `TasksRouter`.

## Model

| member | source | states |
|---|---|---|
| Js.ParseIntOr | backend/services/functionalTestService.js:430 | `parseInt(s) \|\| fallback`: a non-zero parsed value is returned as it is; `NaN` and 0 give the fallback; the result is 0 only when the fallback is |
| Js.ParseIntNatToString | backend/services/playwrightAutomationService.js:803 | printing a natural number and parsing it back gives the same number |
| Js.JoinSplit | backend/services/playwrightAutomationService.js:638 | splitting a selector at a separator and joining the parts again gives back the selector |
| Js.TrimEmptyIffBlank | backend/services/validationService.js:408 | `s.trim()` is empty exactly when `s` is only white space |
| Js.PercentAsWritten | backend/services/functionalTestService.js:505 | the rate as written: `NaN` (`None`) exactly when the denominator is 0 |
| Js.Percent | backend/routes/tasks.js:420-422 | the rate as intended: within 0..100, 0 for an empty denominator, 100 when every item counts, and equal to the as-written rate whenever the denominator is non-zero |
| Js.CeilDiv | backend/routes/tasks.js:135 | `Math.ceil(a / b)`: the least quotient whose multiple covers `a` |
| Browser.ReadBack | backend/services/playwrightAutomationService.js:711 | reading an input's value succeeds exactly when the selector matches an element |
| Browser.BrowserHandle.Close | backend/services/playwrightAutomationService.js:1532-1539 | a close that does not throw leaves the browser closed; one that throws leaves it as it was |
| Browser.ContextHandle.Close | backend/services/playwrightAutomationService.js:1520-1531 | the same for a browser context |
| Browser.TabHandle.Close | backend/services/playwrightAutomationService.js:1516-1519 | the same for a tab |
| Browser.SetupError | backend/services/puppeteerAutomationService.js:706-713 | the error that ends preparing a new tab: the viewport call's when it throws, else the user-agent call's; none exactly when both return |
| PlaywrightPlan.CriteriaText | backend/services/playwrightAutomationService.js:1286-1299 | the text to search: a string as it is, else the object's `content`, else its `title`, else its JSON dump |
| PlaywrightPlan.CommonWordIgnoresCase | backend/services/playwrightAutomationService.js:1371-1381 | the label-word test ignores case, and a label word is at most 8 characters long |
| PlaywrightPlan.FirstMatchOf | backend/services/playwrightAutomationService.js:1350-1356 | the answer is the capture of some listed pattern; none exactly when no pattern matches |
| PlaywrightPlan.FirstPasswordOf | backend/services/playwrightAutomationService.js:1486-1510 | the answer is a surviving trimmed capture and never a label word; none exactly when no pattern yields a survivor |
| PlaywrightPlan.Candidate | backend/services/playwrightAutomationService.js:1486-1510 | a pattern's trimmed capture survives only when it is not a label word |
| PlaywrightPlan.FirstMatch | backend/services/playwrightAutomationService.js:1350-1358 | the email pattern loop returns the first pattern's capture, in list order |
| PlaywrightPlan.FirstPassword | backend/services/playwrightAutomationService.js:1486-1511 | the password pattern loop skips label words and falls through to the next pattern |
| PlaywrightPlan.AiAnswer | backend/services/playwrightAutomationService.js:1327-1332 | the model's answer is trimmed; "" and "null" mean none |
| PlaywrightPlan.ObjectEmailVerbatim | backend/services/playwrightAutomationService.js:1278-1283 | an object's own `email` field wins over the model and the patterns, verbatim |
| PlaywrightPlan.EmailRegexFallback | backend/services/playwrightAutomationService.js:1343-1359 | without a model answer, the email comes from the first of the four patterns that matches, and is none when none matches |
| PlaywrightPlan.PasswordNeverCommonWord | backend/services/playwrightAutomationService.js:1367-1510 | on every path (object, model, patterns) the extracted password is never a label word |
| PlaywrightPlan.CommonObjectPasswordIgnored | backend/services/playwrightAutomationService.js:1367-1387 | an object password that is a label word is ignored, as if it were absent |
| PlaywrightPlan.LoginSteps | backend/services/playwrightAutomationService.js:271-337 | the six login steps, each with its action, selector and value: type the email into the email selectors, type the password into the password selectors, click the submit selectors, wait "5000", screenshot "after_login" (the one medium-priority step), verify the login |
| PlaywrightPlan.ParseAcceptanceCriteria | backend/services/playwrightAutomationService.js:203-355 | the plan is `PlanOf` of the criteria and the two model answers: the keyword fallback plan when the password lookup throws, otherwise the credential plan of the extracted email and password |
| PlaywrightPlan.BuildPlan | backend/services/playwrightAutomationService.js:235-350 | the plan is `CredentialPlan` of the credentials: navigate, wait "3000", screenshot "initial_page" first and screenshot "final_page" last; 10 steps with the six login steps in the middle exactly when both credentials are truthy, else 4 |
| PlaywrightPlan.CredentialPlan | backend/services/playwrightAutomationService.js:235-350 | four opening-and-closing steps, or ten with `LoginSteps` of the email and password at positions 3 to 8 exactly when both are truthy |
| PlaywrightPlan.ExtractEmail | backend/services/playwrightAutomationService.js:1274-1361 | `extractEmailFromCriteria` computes the email its specification function defines |
| PlaywrightPlan.ExtractPassword | backend/services/playwrightAutomationService.js:1363-1512 | `extractPasswordFromCriteria` computes the password its specification function defines |
| PlaywrightPlan.FallbackEmail | backend/services/playwrightAutomationService.js:380-385 | the first bare email address in the text, else "test@example.com" |
| PlaywrightPlan.FallbackPassword | backend/services/playwrightAutomationService.js:383-386 | the trimmed rest of the line after "password", else "password123" |
| PlaywrightPlan.FallbackLoginSteps | backend/services/playwrightAutomationService.js:413-481 | the seven high-priority fallback login steps, in order, with their actions and values |
| PlaywrightPlan.GenerateFallbackSteps | backend/services/playwrightAutomationService.js:357-486 | builds the fallback plan: navigation alone, or 8 steps exactly when the lower-cased criteria text contains a login keyword; every step is high priority |
| PlaywrightPlan.LoginKeywordsSpelledOut | backend/services/playwrightAutomationService.js:403-411 | the keyword test is "login", "email", "password", "sign in" or "sign-in" occurring in the text |
| PlaywrightRun.Navigation | backend/services/playwrightAutomationService.js:619-632 | an absent URL throws "No target URL provided for navigation"; otherwise the page is loaded and given 2 s to settle |
| PlaywrightRun.WaitTime | backend/services/playwrightAutomationService.js:803 | `parseInt(value) \|\| 1000`: never 0; 1000 for `NaN` and for 0 |
| PlaywrightRun.WaitTimeOfNumeral | backend/services/playwrightAutomationService.js:803 | a positive numeral waits exactly that long, and "0" waits 1000 ms |
| PlaywrightRun.Wait | backend/services/playwrightAutomationService.js:795-807 | an element wait when the step asks for one with a selector: the element must become visible (the default state of Playwright's `waitForSelector`) within the step's timeout, else 10 s; otherwise a sleep of `WaitTime` |
| PlaywrightRun.TypeMethods | backend/services/playwrightAutomationService.js:709-777 | at most three methods per candidate, in order, stopping at the first whose read-back equals the value; an accepted read-back holds on the resulting page |
| PlaywrightRun.TryTypeCandidate | backend/services/playwrightAutomationService.js:699-783 | a visible candidate is tried by one to three methods, and by all three when none is accepted |
| PlaywrightRun.Candidates | backend/services/playwrightAutomationService.js:694 | the candidates are the trimmed parts of the selector split at ", " |
| PlaywrightRun.TypeChainLength | backend/services/playwrightAutomationService.js:694-790 | the typing chain tries at most every candidate, and at least one |
| PlaywrightRun.TypeChainEarlier | backend/services/playwrightAutomationService.js:694-790 | every candidate before the last one tried was rejected |
| PlaywrightRun.TypeChainReadBack | backend/services/playwrightAutomationService.js:709-777 | a chain that ends at an accepted candidate leaves that candidate reading back the value |
| PlaywrightRun.TypeAlong | backend/services/playwrightAutomationService.js:694-790 | the candidate loop computes the typing chain; found exactly when the last candidate tried was accepted, otherwise every candidate was tried; the last error is that of the chain |
| PlaywrightRun.PerformType | backend/services/playwrightAutomationService.js:688-793 | the method computes the typing attempt, and its account of the candidates tried is the typing chain |
| PlaywrightRun.TypePassReadsBack | backend/services/playwrightAutomationService.js:709-777 | a passed typing step reads back exactly the requested value from the candidate that succeeded |
| PlaywrightRun.TypeFailTriesAll | backend/services/playwrightAutomationService.js:694-791 | a failed typing step tried every candidate of the split selector |
| PlaywrightRun.TypeAttempt | backend/services/playwrightAutomationService.js:688-793 | passes exactly when the last candidate the chain tried was accepted |
| PlaywrightRun.TryClickCandidate | backend/services/playwrightAutomationService.js:643-675 | clicked exactly when its wait and a normal click succeed; when the wait or the normal click throws, a forced click is tried, and the candidate is force-clicked or missed with that error |
| PlaywrightRun.ClickChainShape | backend/services/playwrightAutomationService.js:638-677 | candidates are tried in split order, stopping at the first one clicked |
| PlaywrightRun.ClickChainStep | backend/services/playwrightAutomationService.js:638-677 | one step of the click chain from the middle of the candidates |
| PlaywrightRun.ClickAlong | backend/services/playwrightAutomationService.js:638-677 | the candidate loop computes the click chain; not found means every candidate was missed |
| PlaywrightRun.ClickAttempt | backend/services/playwrightAutomationService.js:634-686 | passes exactly when the last candidate the chain tried was clicked, normally or by force |
| PlaywrightRun.ClickFailMissesAll | backend/services/playwrightAutomationService.js:638-686 | a failed click tried every candidate, missed them all, and throws with the selector and the last candidate's error |
| PlaywrightRun.PerformClick | backend/services/playwrightAutomationService.js:634-686 | the method computes the click attempt, and its account of the candidates tried is the click chain |
| PlaywrightRun.FindAny | backend/services/playwrightAutomationService.js:847-863 | the selector scan finds something exactly when one of the selectors is present |
| PlaywrightRun.VerifyLoginOnLoginPage | backend/services/playwrightAutomationService.js:827-887 | still on a login URL: an error element fails the step; otherwise it passes only with a form present and a URL that changed during the 2 s wait |
| PlaywrightRun.VerifyLoginElsewhere | backend/services/playwrightAutomationService.js:893-968 | off the login URL: a success element or a success keyword in the body passes |
| PlaywrightRun.LoginPageCheck | backend/services/playwrightAutomationService.js:827-887 | on a login URL: an error element fails with its message; otherwise it passes exactly with a form present and a URL that changed during the 2 s wait, and fails "still on login page" |
| PlaywrightRun.ElsewhereCheck | backend/services/playwrightAutomationService.js:893-968 | off the login URL the page stays as it is, and a failure says no success indicator was found |
| PlaywrightRun.VerificationAttempt | backend/services/playwrightAutomationService.js:809-977 | passes exactly when the login-success decision holds; an error element on the login page fails with its message; for any other intent, an empty title fails and a non-empty one passes |
| PlaywrightRun.PerformVerification | backend/services/playwrightAutomationService.js:809-977 | the method computes the verification attempt for the step's value |
| PlaywrightRun.LoginIntentIsSuccess | backend/services/playwrightAutomationService.js:812-815 | the login-success intent is exactly "contains success" |
| PlaywrightRun.OffLoginPageNonEmptyUrlPasses | backend/services/playwrightAutomationService.js:950-960 | off the login page a non-empty URL passes on its own |
| PlaywrightRun.OnLoginPageNeedsUrlChange | backend/services/playwrightAutomationService.js:827-887 | on the login page a pass needs a URL change and no error element |
| PlaywrightRun.Handler | backend/services/playwrightAutomationService.js:517-569 | the action switch: it returns exactly when the chosen handler does; an unknown action throws "Unknown action: X" on the same page; a screenshot leaves the page as it was |
| PlaywrightRun.RunStep | backend/services/playwrightAutomationService.js:488-617 | the result is named after the step and its action |
| PlaywrightRun.RunStepRecords | backend/services/playwrightAutomationService.js:488-617 | passed exactly when the handler returned, and exactly when there is no error; a failed step carries "Step failed: …"; unknown actions fail with "Unknown action: X"; only a passed screenshot step records a screenshot, and a failed step records the error screenshot or its error |
| PlaywrightRun.ExecuteStep | backend/services/playwrightAutomationService.js:488-617 | the method computes the step's result and page |
| PlaywrightRun.RunHandler | backend/services/playwrightAutomationService.js:517-569 | the method computes the handler's outcome; a returned handler gives its evidence, and only a returned screenshot action yields a screenshot |
| Browser.RunUntilShape | backend/services/playwrightAutomationService.js:1175-1215 | a run that stops after a stopping result: it reaches the first step, stops early only right after a stopping result, and no earlier result stopped it |
| Browser.RunUntilKeeps | backend/services/playwrightAutomationService.js:1175-1215 | a relation every single step establishes between its step and its result holds of every result of the run |
| PlaywrightRun.RunStepsShape | backend/services/playwrightAutomationService.js:1175-1215 | one result per step reached, in order and named after it; the first step always runs; the run stops early only right after a failed high-priority step |
| PlaywrightRun.ExecuteSteps | backend/services/playwrightAutomationService.js:1175-1215 | the loop computes the run: the steps in order on the page each one leaves, up to and including the first failed high-priority step; with a callback, a start and a completion event per executed step |
| Browser.CountStatus | backend/services/playwrightAutomationService.js:1218-1223 | the number of results with a given status, for any result type (also the counts of functionalTestService.js:493-498 and puppeteerAutomationService.js:777-782); never more than the number of results |
| Browser.CountsPartition | backend/services/playwrightAutomationService.js:1218-1223 | when every result is one of two distinct statuses (passed/failed, completed/failed), the two counts add up to the number of results |
| PlaywrightRun.Screenshots | backend/services/playwrightAutomationService.js:1235-1237 | the generated files are screenshots of results, at most one per result, and none when no result has one |
| PlaywrightRun.ScreenshotsMembers | backend/services/playwrightAutomationService.js:1235-1237 | a file is listed exactly when some result recorded it as its screenshot |
| PlaywrightRun.ScreenshotsAppend | backend/services/playwrightAutomationService.js:1235-1237 | one more result adds its screenshot, if it has one, at the end of the list |
| PlaywrightRun.Summarize | backend/services/playwrightAutomationService.js:1217-1241 | totals over the planned count (not the executed count), passed and failed counted from the results and partitioning them, the rounded rate, the screenshots of the results and the first 5000 characters of the HTML |
| PlaywrightRun.Excerpt | backend/services/playwrightAutomationService.js:1238 | `substring(0, n)`: a prefix of length min(n, length) |
| PlaywrightRun.FailedRun | backend/services/playwrightAutomationService.js:1256-1268 | a thrown run gives all-zero totals, no results, no files and the message |
| PlaywrightRun.PlaywrightSession.InitBrowser | backend/services/playwrightAutomationService.js:19-79 | attach over CDP when asked and reachable (reusing a context when one exists), else launch a new browser, context and tab; a failed launch, context or tab creation throws, leaving what was already created open |
| PlaywrightRun.PlaywrightSession.Cleanup | backend/services/playwrightAutomationService.js:1514-1544 | the tab is always closed; the context and browser are closed only for a launched browser; with no failing close all three fields end up null |
| PlaywrightRun.PlaywrightSession.RunAutomation | backend/services/playwrightAutomationService.js:1138-1272 | an initialisation failure propagates and leaves a launched browser open; otherwise the result is `InPageSummary` of the loaded target and the plan `PlanOf` builds, zeroed for a throw, with the cleanup run in `finally`, after which nothing stays open unless a close threw |
| PlaywrightRun.PlaywrightSession.RunStarted | backend/services/playwrightAutomationService.js:1147-1272 | once the browser is up: the summary is `InPageSummary`, it is `Reported` (zeroed with no events after a throw, otherwise counts that partition the results and the callback's start, result and completion events), and the cleanup in `finally` leaves nothing open unless a close threw |
| PlaywrightRun.RunInPage | backend/services/playwrightAutomationService.js:1147-1268 | the summary is `InPageSummary`: a failed load, form scrape or HTML read gives the zeroed summary; otherwise the plan is `PlanOf` of the criteria and answers, non-empty, and the summary is that of its run on the loaded page; the progress callback ends with the completion event |
| PlaywrightRun.PlanAndRun | backend/services/playwrightAutomationService.js:1169-1235 | the plan is `PlanOf` of the criteria and answers and has at least one step; the summary is that of the run of that plan; the progress callback ends with the completion event |
| PlaywrightRun.RunPlan | backend/services/playwrightAutomationService.js:1175-1241 | the summary of the run of the plan over its planned count; with a callback, two events per executed step and then the completion event |
| ValidationRules.ValidateContent | backend/services/validationService.js:300-354 | the checks are `ContentChecks`: one check per present field (title, h1, content) in that order, each a case-insensitive substring test with priority high/high/medium |
| ValidationRules.ContentChecksShape | backend/services/validationService.js:300-354 | a check of each kind exactly when its criterion is given, in rank order, each judged against its own page field |
| ValidationRules.ValidateSeo | backend/services/validationService.js:356-399 | the checks are `SeoChecks`: title length 30..60, meta description present with length 120..160, h1 non-empty |
| ValidationRules.MissingAltTextIsTrimTest | backend/services/validationService.js:407-409 | an alt is missing exactly when its trim is empty |
| ValidationRules.MissingAlt | backend/services/validationService.js:407-409 | exactly the images without alt text are listed, in their order (the first image heads the list when its alt is missing), and no more of them than there are images |
| ValidationRules.MissingAltEmpty | backend/services/validationService.js:407-410 | no image without alt text exactly when every image has one |
| ValidationRules.UnlabelledOf | backend/services/validationService.js:423-425 | exactly the inputs with neither a label nor a placeholder are listed, in their order, and no more of them than there are inputs |
| ValidationRules.UnlabelledOfEmpty | backend/services/validationService.js:423-426 | no unlabelled input exactly when every input has a label or a placeholder |
| ValidationRules.Unlabelled | backend/services/validationService.js:420-426 | across forms, exactly the inputs of some form that have neither a label nor a placeholder |
| ValidationRules.UnlabelledEmpty | backend/services/validationService.js:423-426 | across forms, none unlabelled exactly when all are labelled |
| ValidationRules.ValidateAccessibility | backend/services/validationService.js:401-448 | the checks are `AccessibilityChecks`: alt text passes iff no image misses it; labels pass iff every input is labelled; headings pass iff exactly one h1 |
| ValidationRules.ValidatePerformance | backend/services/validationService.js:450-484 | the checks are `PerformanceChecks`: strict thresholds: HTML below 500000 bytes, fewer than 20 scripts, fewer than 10 style sheets |
| ValidationRules.RequiredInputsOkEverywhere | backend/services/validationService.js:541-559 | only forms with a required input are examined, and each required input there has a label or a placeholder |
| ValidationRules.ValidateForms | backend/services/validationService.js:537-562 | the checks are `FormChecks`: exactly one high-priority `required_inputs` check with that verdict |
| ValidationRules.Deduction | backend/services/validationService.js:585-598 | no single deduction exceeds 20 |
| ValidationRules.FailedCount | backend/services/validationService.js:582-600 | the number of failed checks is at most the number of checks |
| ValidationRules.Score | backend/services/validationService.js:564-611 | the score is within 0..100; 100 with no failed check; otherwise 100 minus the deductions, floored at 0 |
| ValidationRules.NoFailuresNoDeductions | backend/services/validationService.js:582-608 | no failed check means no deduction |
| ValidationRules.CalculateScore | backend/services/validationService.js:564-611 | the `forEach` accumulation computes `Score` |
| ValidationRules.DeductionsCoverEach | backend/services/validationService.js:582-600 | each failed check's deduction is part of the total |
| ValidationRules.FailedCheckCapsScore | backend/services/validationService.js:582-603 | a failed check caps the score at 100 minus its deduction |
| ValidationRules.UnrankedFailuresAreFree | backend/services/validationService.js:585-598 | failures whose priority is not one of the four subtract nothing, so the score stays 100 |
| ValidationRules.DetermineVerdict | backend/services/validationService.js:613-639 | Fail iff a critical check failed or the score is below 70; Pass iff no critical or high check failed and the score is at least 90 |
| ValidationRules.FailedHighNeverPasses | backend/services/validationService.js:564-639 | a failed high-priority check never yields Pass, and caps the score at 85 |
| ValidationRules.CleanPagePasses | backend/services/validationService.js:564-639 | with every check passed the score is 100 and the verdict Pass |
| ValidationRules.AllChecks | backend/services/validationService.js:570-577 | the flattened list is the content, SEO, accessibility, performance, link and form checks, one group after the other in that order |
| ValidationRules.ValidatePage | backend/services/validationService.js:150-173 | the groups are exactly the five validators' check functions of the page and criteria, with the link checks given; score and verdict are computed from those same groups |
| ValidationRules.NoH1NeverPasses | backend/services/validationService.js:150-173 | a page with no h1 never passes |
| ValidationRules.WrapFunctional | backend/services/validationService.js:175-201 | a finished functional run passes through with no error; a thrown one gives all-zero totals, no results and the message |
| ValidationRules.WrapAutomation | backend/services/validationService.js:203-254 | a finished automation run passes through unchanged; a thrown one gives zero totals and exactly one failed "Automation failed" step carrying the message |
| FunctionalTests.GenerateFallbackTests | backend/services/functionalTestService.js:103-149 | builds the fallback list: the content check (if present), the title check (if present), then always "page loads" and "no JavaScript errors"; 2 to 4 verify steps |
| FunctionalTests.ClickCandidates | backend/services/functionalTestService.js:212-233 | the selector itself first, then its `text=` and `text*=` forms, and the submit buttons as a fourth candidate exactly when the selector names a button or a login |
| FunctionalTests.FirstPresent | backend/services/functionalTestService.js:212-234 | the answer is a present candidate and every earlier candidate is absent; none exactly when no candidate is present |
| FunctionalTests.FindClickTarget | backend/services/functionalTestService.js:212-238 | the step-by-step lookup finds the first present click candidate |
| FunctionalTests.TypeFallback | backend/services/functionalTestService.js:253-268 | the email fields exactly for a selector naming "user" or "email" (which covers "username"), else the password fields exactly for one naming "pass" (which covers "password"), else none |
| FunctionalTests.TypeTarget | backend/services/functionalTestService.js:249-269 | the selector when it is present; otherwise the fallback selector, and only when it is present; none exactly when neither is present |
| FunctionalTests.FindTypeTarget | backend/services/functionalTestService.js:249-273 | the step-by-step lookup finds the typing target |
| FunctionalTests.ClickOutcome | backend/services/functionalTestService.js:209-245 | no candidate gives "Click failed: Element not found: …"; otherwise it passes exactly when the click of the first present candidate does, then waits 1 s, and a click error comes back prefixed "Click failed: " |
| FunctionalTests.PerformClick | backend/services/functionalTestService.js:209-245 | the method computes the click outcome |
| FunctionalTests.TypeOutcome | backend/services/functionalTestService.js:247-289 | no target gives "Input element not found"; a typing error is prefixed "Type failed: "; after typing it passes exactly when the value read back equals the requested one, and a different read-back fails with the expected and actual values |
| FunctionalTests.PerformType | backend/services/functionalTestService.js:247-289 | the method finds the typing target and computes the typing outcome |
| FunctionalTests.Navigation | backend/services/functionalTestService.js:291-302 | both branches make the same page load; a failure is rethrown as "Navigation failed: …" |
| FunctionalTests.BranchOf | backend/services/functionalTestService.js:306-421 | the branch the selector selects, in the source's order: title, body and console exactly for those three selectors; login and navigation only for their phrases; the plain element check exactly when no test matches |
| FunctionalTests.LoginCheck | backend/services/functionalTestService.js:362-389 | after 3 s, an error indicator fails with its text; otherwise it passes exactly with a success indicator or off a sign-in URL, and fails "still on sign-in page" |
| FunctionalTests.VerifyLogin | backend/services/functionalTestService.js:362-389 | the method computes the login check |
| FunctionalTests.NavigationCheck | backend/services/functionalTestService.js:390-413 | after 2 s, a sign-in or login URL fails "still on login page"; otherwise it passes exactly when a dashboard element is present, and fails "no dashboard elements found" |
| FunctionalTests.VerifyNavigation | backend/services/functionalTestService.js:390-413 | the method computes the navigation check |
| FunctionalTests.TextCheck | backend/services/functionalTestService.js:306-327 | title passes exactly on a case-insensitive substring of the page's title; body and console are read by a script in the page (`evaluate`), and a script that throws fails the check with its own message; otherwise body passes exactly on a case-insensitive substring of the text read, console exactly when no console error was read; each failure carries its message (the console one joins the errors with ", ") |
| FunctionalTests.VerifyText | backend/services/functionalTestService.js:306-327 | the method computes the text check, reading the body and the console errors through `evaluate` |
| FunctionalTests.ElementsCheck | backend/services/functionalTestService.js:328-421 | page render needs a body ("Page did not render") and a non-empty title; fields visible needs the username field ("Username field not found") and the password field; otherwise the element must exist |
| FunctionalTests.VerifyElements | backend/services/functionalTestService.js:328-421 | the method computes the element check |
| FunctionalTests.PageLoadsCheckReadsBody | backend/services/functionalTestService.js:129-137 | the fallback "page loads" check uses the selector `body`, so it passes exactly when the body text script returns and the text it read mentions "page loaded" |
| FunctionalTests.VerifyOutcome | backend/services/functionalTestService.js:304-426 | passes exactly when the branch chosen in the source's order passes; every failure is prefixed "Verification failed: " |
| FunctionalTests.PerformVerification | backend/services/functionalTestService.js:304-426 | the method computes the verification outcome |
| FunctionalTests.Outcome | backend/services/functionalTestService.js:165-198 | the action switch: it returns exactly when the chosen handler does; an unknown action throws "Unknown action: X" on the same page; a wait always returns after its delay |
| FunctionalTests.RunTest | backend/services/functionalTestService.js:151-207 | the result is named after the step and its action |
| FunctionalTests.RunTestRecords | backend/services/functionalTestService.js:151-207 | passed exactly when the handler returned, and exactly when there is no error; failed carries "Test step failed: …"; unknown actions fail with "Unknown action: X"; a passed type step reads back its value |
| FunctionalTests.ExecuteTestStep | backend/services/functionalTestService.js:151-207 | the method computes the step's result and page |
| FunctionalTests.TestRunShape | backend/services/functionalTestService.js:474-490 | one result per step, in order and named after it; the first is the first step's result on the starting page; each result is passed exactly when it has no error |
| FunctionalTests.ExecuteAll | backend/services/functionalTestService.js:474-490 | the loop computes the run: every step, in order, on the page the previous one left, with no early stop |
| FunctionalTests.RunTestsInPage | backend/services/functionalTestService.js:441-509 | the summary is `TestsSummary`: the results are the run of the AI's steps, or else of the fallback tests, on the loaded target; the counts partition the results; the rate is the rounded percentage passed |
| FunctionalTests.EmptyPlanRateAsWritten | backend/services/functionalTestService.js:505 | an empty list of results has a `NaN` rate as written, and 0 as intended |
| FunctionalTests.FunctionalTestService.InitBrowser | backend/services/functionalTestService.js:13-41 | launches only when there is no browser yet; a launch error propagates |
| FunctionalTests.FunctionalTestService.RunFunctionalTests | backend/services/functionalTestService.js:437-518 | a launch or `newPage` error propagates with no tab to close; a `setViewport` or `setUserAgent` error fails the run after the tab is opened; a result is `TestsSummary` of the loaded target and the AI's or fallback tests; the tab is closed in `finally`, and a failing close replaces the outcome with its error; a result has one entry per test |
| FunctionalTests.FunctionalTestService.Cleanup | backend/services/functionalTestService.js:520-525 | closes the browser when there is one and then clears the field; a close that throws leaves the field set |
| PuppeteerAutomation.GenerateFallbackAutomation | backend/services/puppeteerAutomationService.js:134-266 | the pushes build exactly the fallback plan |
| PuppeteerAutomation.PushFlagSteps | backend/services/puppeteerAutomationService.js:149-219 | appends the flag-driven steps, in order |
| PuppeteerAutomation.PushKeywordSteps | backend/services/puppeteerAutomationService.js:222-263 | appends the keyword-driven steps, in order |
| PuppeteerAutomation.FlagStepsShape | backend/services/puppeteerAutomationService.js:149-219 | no flag step navigates; scraping, screenshots and form testing are planned exactly when their flag is not `false`, a PDF exactly when its flag is `true`, one step each |
| PuppeteerAutomation.KeywordStepsShape | backend/services/puppeteerAutomationService.js:222-263 | no keyword step navigates; at most three; the login step exactly for "login" or "sign in", the submission step for "form" or "submit", the interactions step for "click" or "button" |
| PuppeteerAutomation.FallbackPlanShape | backend/services/puppeteerAutomationService.js:134-266 | the plan starts with navigation to the target URL (or ""), no other step navigates, and its length is one plus the flags and keywords that are on |
| PuppeteerAutomation.FallbackDefaults | backend/services/puppeteerAutomationService.js:148-219 | with no flags, data extraction, screenshots and form testing are on, and no PDF is made |
| PuppeteerAutomation.PdfOnlyOnRequest | backend/services/puppeteerAutomationService.js:190-206 | a PDF step is planned exactly when `generatePDF` is `true` |
| PuppeteerAutomation.CrawlSpaIgnored | backend/services/puppeteerAutomationService.js:154 | `crawlSPA` has no effect on the plan |
| PuppeteerAutomation.ContentBeforeTasks | backend/services/puppeteerAutomationService.js:222-226 | with content present, the automation tasks do not affect the keyword steps |
| PuppeteerAutomation.PerformNavigation | backend/services/puppeteerAutomationService.js:345-360 | loads the URL with the step's wait condition (else `networkidle2`) and timeout (else 30 s); returns exactly when the load does, with the page's URL and title; a failure is "Navigation failed: …" |
| PuppeteerAutomation.PerformClick | backend/services/puppeteerAutomationService.js:362-374 | returns exactly when the element wait and the click succeed, then waits 1 s; a failure is prefixed "Click failed: " |
| PuppeteerAutomation.PerformType | backend/services/puppeteerAutomationService.js:376-391 | returns exactly when the wait, the focusing click and the typing succeed; a failure is prefixed "Type failed: " |
| PuppeteerAutomation.PerformTextExtraction | backend/services/puppeteerAutomationService.js:393-412 | without a selector, the body text exactly when the in-page read of `document.body.textContent` returns; with one, the element's text exactly when the wait succeeds and the element is there; a failure is prefixed "Text extraction failed: " |
| PuppeteerAutomation.PerformImageExtraction | backend/services/puppeteerAutomationService.js:414-433 | returns exactly when the in-page script does, with the images it lists; a failure is prefixed "Image extraction failed: " |
| PuppeteerAutomation.PerformDataExtraction | backend/services/puppeteerAutomationService.js:435-543 | runs the in-page script for the step's data type (else "all") and returns exactly when it does, with its data; a failure is prefixed "Data extraction failed: " |
| PuppeteerAutomation.PerformCapture | backend/services/puppeteerAutomationService.js:545-601 | returns exactly when the file is written, leaving the page as it was, with one file of that kind, its name (the step's value or a timestamped default), its path in the output directory and its size; a failed write raises with the handler's prefix |
| PuppeteerAutomation.DefaultShotRefused | backend/services/puppeteerAutomationService.js:547-560 | the default screenshot options (a PNG with quality 90) are always refused by the screenshot call, with the message for "png" |
| PuppeteerAutomation.PerformScreenshot | backend/services/puppeteerAutomationService.js:545-572 | the step's options, else the defaults; a quality asked of any image type but JPEG or WebP (the given type, else the one the path names) fails the step with "Screenshot failed: " and no file; otherwise the capture decides, as `PerformCapture` states |
| PuppeteerAutomation.DefaultScreenshotFails | backend/services/puppeteerAutomationService.js:181-185 | a screenshot step without options of its own, or with the fallback plan's options, fails with no file and the refusal as its error |
| PuppeteerAutomation.PerformWait | backend/services/puppeteerAutomationService.js:603-611 | always returns, with no file, having waited `parseInt(value) \|\| 1000` ms |
| PuppeteerAutomation.ScrollAmount | backend/services/puppeteerAutomationService.js:622 | `parseInt(value) \|\| 0`: the parsed amount, or 0 |
| PuppeteerAutomation.PerformScroll | backend/services/puppeteerAutomationService.js:613-631 | scrolls the element into view when there is a selector, else by the amount; returns exactly when the script does; a failure is prefixed "Scroll failed: " |
| PuppeteerAutomation.PerformFormSubmission | backend/services/puppeteerAutomationService.js:633-653 | with a selector, returns exactly when its wait and click succeed; without one, exactly when the first form is submitted; a failure is prefixed "Form submission failed: " |
| PuppeteerAutomation.PerformWaitForElement | backend/services/puppeteerAutomationService.js:655-665 | returns exactly when the element becomes visible within the timeout (else 10 s); a failure is "Wait for element failed: …" |
| PuppeteerAutomation.PerformScriptExecution | backend/services/puppeteerAutomationService.js:667-678 | returns exactly when the script does, with its result; a failure is prefixed "Script execution failed: " |
| PuppeteerAutomation.PerformVerification | backend/services/puppeteerAutomationService.js:680-702 | with a selector it fails when the element is missing or its text lacks the value, each with its message; without one it always passes |
| PuppeteerAutomation.Handle | backend/services/puppeteerAutomationService.js:286-332 | an unknown action raises "Unknown automation action: X"; a wait always returns; a verify returns exactly when the check passes; only screenshot and pdf steps produce a file, one of their own kind |
| PuppeteerAutomation.FormsCheckNeedsLiteral | backend/services/puppeteerAutomationService.js:208-220 | the fallback "forms tested" check passes only if a form's text contains that literal |
| PuppeteerAutomation.AutomationStepRun | backend/services/puppeteerAutomationService.js:268-343 | the result carries the step's id, its index and its action, and records files only for a completed capture step |
| PuppeteerAutomation.AutomationStepRecords | backend/services/puppeteerAutomationService.js:268-343 | completed exactly when the handler returned, and exactly when there is no error; a failed step carries "Step failed: …", no data and no files; an unknown action fails with its message; the page is the handler's |
| PuppeteerAutomation.ExecuteAutomationStep | backend/services/puppeteerAutomationService.js:268-343 | the method computes the step's result and page |
| PuppeteerAutomation.AllFilesFromCaptures | backend/services/puppeteerAutomationService.js:785-788 | the collected files are screenshots or PDFs, one per capture step |
| PuppeteerAutomation.EmptyAutomationRateAsWritten | backend/services/puppeteerAutomationService.js:794-796 | an empty list of results has a `NaN` rate as written, and 0 as intended |
| PuppeteerAutomation.AutomationRunShape | backend/services/puppeteerAutomationService.js:734-774 | one result per step, numbered from one, carrying its step's id and action, with files only from captures; the first is the first step's result on the starting page |
| PuppeteerAutomation.ExecuteAll | backend/services/puppeteerAutomationService.js:734-774 | the loop computes the run: every step, numbered from one, each after a 0.5 s pause on the page the previous one left, with no early stop; a start and a completion event around each when a callback is given |
| PuppeteerAutomation.RunStepsInPage | backend/services/puppeteerAutomationService.js:704-801 | the summary is `StepsSummary`: the results are the run of the AI's steps, or else of the fallback plan for the target; counts partition; the rate is the rounded percentage completed; the files are the results' files concatenated in order; with notifications on, the events are a start and a completion per step of the plan, in order (`StepsReported`), and with them off there are none |
| PuppeteerAutomation.PuppeteerAutomationService.constructor | backend/services/puppeteerAutomationService.js:8-16 | the screenshot and PDF directories sit under the working directory, and there is no browser yet |
| PuppeteerAutomation.PuppeteerAutomationService.InitBrowser | backend/services/puppeteerAutomationService.js:27-53 | launches only when there is no browser yet; a launch error propagates |
| PuppeteerAutomation.PuppeteerAutomationService.RunAutomation | backend/services/puppeteerAutomationService.js:704-813 | a launch or `newPage` error propagates with no tab to close; a `setViewport` or `setUserAgent` error fails the run with no events; a result is `StepsSummary` of the run of the AI's or fallback plan; the page is closed in `finally`, and a failing close replaces the outcome; a result's counts partition its results and its files are theirs; with a result, the events are a start and a completion per step of the plan when notifications are on and none otherwise (`StepsReported`) |
| PuppeteerAutomation.PuppeteerAutomationService.Cleanup | backend/services/puppeteerAutomationService.js:876-881 | closes the browser when there is one and then clears the field |
| WebSocketRegistry.AddSubscriber | backend/services/websocketService.js:70-74 | the task's set becomes its old set (or the empty set) plus the connection; no other task changes and no task is lost |
| WebSocketRegistry.DropSubscriber | backend/services/websocketService.js:89-96 | the connection leaves the task's set, an emptied set is deleted, and other tasks are unchanged |
| WebSocketRegistry.AddSubscriberIdempotent | backend/services/websocketService.js:70-74 | subscribing twice leaves the same registry |
| WebSocketRegistry.UpdatesKeepSetsNonEmpty | backend/services/websocketService.js:70-118 | subscribe, unsubscribe and close never leave a task with an empty set |
| WebSocketRegistry.DropLowersCountByOne | backend/services/websocketService.js:89-96 | removing a subscriber lowers its task's count by one and no other |
| WebSocketRegistry.CountIn | backend/services/websocketService.js:178-180 | with no empty sets, the count is positive exactly when the task has subscribers |
| WebSocketRegistry.SizeSumAny | backend/services/websocketService.js:188-194 | the total may be summed over the tasks in any order |
| WebSocketRegistry.CountWithinTotal | backend/services/websocketService.js:178-194 | one task's count never exceeds the total |
| WebSocketRegistry.ProgressMessage | backend/services/websocketService.js:125-130 | a progress message names its task; its type is "automation_progress" unless the payload brings its own |
| WebSocketRegistry.Client.constructor | backend/services/websocketService.js:12 | a new connection has no task and an empty outbox |
| WebSocketRegistry.WebSocketService.SubscribeToTask | backend/services/websocketService.js:69-86 | adds the connection to the task's set, sets its task id and sends "subscribed"; the connection's ready state is unchanged |
| WebSocketRegistry.WebSocketService.UnsubscribeFromTask | backend/services/websocketService.js:88-109 | removes the connection from the set, deletes an emptied set, clears the task id and sends "unsubscribed"; the connection's ready state is unchanged |
| WebSocketRegistry.WebSocketService.RemoveClient | backend/services/websocketService.js:111-120 | removes the connection only from the set of its current task id |
| WebSocketRegistry.WebSocketService.HandleMessage | backend/services/websocketService.js:44-67 | subscribe with a task id joins the task, records it on the connection and replies "subscribed"; unsubscribe leaves it, clears the task id and replies "unsubscribed"; ping replies pong; any other type replies "Unknown message type"; nothing else changes the registry, and the ready state is unchanged |
| WebSocketRegistry.WebSocketService.BroadcastAutomationProgress | backend/services/websocketService.js:123-143 | each subscriber that was open is sent the message, the others are not; one whose send throws is dropped from the set, and an emptied set stays; no connection's state or task id changes |
| WebSocketRegistry.WebSocketService.TaskConnectionCount | backend/services/websocketService.js:178-180 | the set size, or 0 when the task is absent |
| WebSocketRegistry.WebSocketService.ActiveTasks | backend/services/websocketService.js:183-185 | with no empty sets, the active tasks are exactly those with a subscriber |
| WebSocketRegistry.WebSocketService.TotalConnections | backend/services/websocketService.js:188-194 | the loop sums every task's set size |
| WebSocketRegistry.StaleSubscriptionSurvivesClose | backend/services/websocketService.js:74-75 | a connection that subscribes to a second task stays in the first task's set after it closes |
| TasksRouter.CreateTask | backend/routes/tasks.js:34-80 | created exactly when the body passes the schema; the task is the body with its defaults under the server's fields |
| TasksRouter.FieldValidKeys | backend/routes/tasks.js:7-31 | only a key the schema names can pass; the comparison flags accept exactly the booleans and the hour estimate exactly a number in 0.5..40 |
| TasksRouter.UpdateFieldsOptional | backend/routes/tasks.js:233-258 | every update field is optional: the empty body passes, dropping a field keeps a body valid, and one invalid field refuses it |
| TasksRouter.CreateNeedsRequired | backend/routes/tasks.js:7-31 | a new task needs each of the eight required fields, the optional ones may be left out, and a valid creation body is a valid update body |
| TasksRouter.CreatedTaskIsFresh | backend/routes/tasks.js:45-53 | whatever the body, a new task is pending, never validated, and created and updated at the same instant |
| TasksRouter.CreatedTaskKeepsBody | backend/routes/tasks.js:43-53 | the server's fields never overwrite a field of the body |
| TasksRouter.CreatedTaskWithinSchema | backend/routes/tasks.js:7-31 | a created task meets the schema's text bounds: title 3–200, description 10–1000, criteria 10–2000, assignee 2–100 characters |
| TasksRouter.CreatedTaskTagsAndHours | backend/routes/tasks.js:7-31 | a created task has at most 10 tags, an empty tag list when the body gave none, and an hour estimate, when present, within 0.5–40 |
| TasksRouter.SortField | backend/routes/tasks.js:113 | sorts by creation only for "createdAt" (the default), otherwise by the last update |
| TasksRouter.SortDirection | backend/routes/tasks.js:114 | ascending only for "asc", otherwise descending |
| TasksRouter.Filtered | backend/routes/tasks.js:99-110 | every listed task matches the present filters, and every matching task is listed |
| TasksRouter.FilteredCount | backend/routes/tasks.js:99-110 | each matching task is listed as often as it is stored, and no other task is |
| TasksRouter.FilteredAppend | backend/routes/tasks.js:99-123 | filtering keeps the store's order: the filter of two runs of tasks is the filter of the first followed by the filter of the second |
| TasksRouter.Pages | backend/routes/tasks.js:135 | `Math.ceil(total / limit)`: covers the total, 0 only for an empty total, and no page more than needed |
| TasksRouter.Window | backend/routes/tasks.js:122-123 | `limit(n).offset(k)` over the ordered answer: refused for a negative offset or limit; otherwise the ordered tasks from k on, as many as n of them or as remain after k, whichever is fewer |
| TasksRouter.ListTasks | backend/routes/tasks.js:83-168 | the page is the window of the filtered, ordered tasks at `(page - 1) * limit`; refused exactly when a parameter is not a number or the offset or limit is negative; the total counts the filtered tasks, and the page count is computed the same way on both response paths |
| TasksRouter.PagesCoverTheTotal | backend/routes/tasks.js:122-135 | every page up to the page count starts inside the result, and the one after it is empty |
| TasksRouter.FilterForbidden | backend/routes/tasks.js:214-227 | the `forEach` delete removes exactly the seven protected fields |
| TasksRouter.UpdateDoc | backend/routes/tasks.js:271-276 | the update holds every allowed field of the body unchanged, no protected field but the update time, and the update time is now |
| TasksRouter.UpdateTask | backend/routes/tasks.js:203-296 | a missing task is 404 first; the filtered body is validated; the update is the filtered body with a fresh update time |
| TasksRouter.UpdateKeepsProtectedFields | backend/routes/tasks.js:214-276 | an update never changes a protected field, and always resets the update time |
| TasksRouter.UpdateStatus | backend/routes/tasks.js:338-377 | accepts only pending, in_progress, completed or cancelled, refusing the status before looking the task up, with a message that joins the whitelist with ", " |
| TasksRouter.FieldValues | backend/routes/tasks.js:400-407 | the field's value for each task, in order |
| TasksRouter.TallyTotalAny | backend/routes/tasks.js:400-407 | a tally's total may be summed in any order |
| TasksRouter.BumpTallies | backend/routes/tasks.js:401-406 | bumping a tally counts one more occurrence of the value and raises the total by one |
| TasksRouter.TallyStep | backend/routes/tasks.js:400-407 | one iteration of the `forEach` extends the tally to one more task |
| TasksRouter.PassCount | backend/routes/tasks.js:420-422 | the number of passing validations is at most the number of validations |
| TasksRouter.ScoreOf | backend/routes/tasks.js:411-414 | `val.score \|\| 0` added to a number: a numeric score counts as itself, `true` as 1, `false` and anything else as 0 |
| TasksRouter.AverageScore | backend/routes/tasks.js:409-415 | 0 with no validations; otherwise the integer r with the score sum between (r - 0.5) and (r + 0.5) times the count, the upper bound excluded |
| TasksRouter.Round | backend/routes/tasks.js:415 | `Math.round`: the nearest integer, with halves rounded up |
| TasksRouter.ScoreSumWithin | backend/routes/tasks.js:411-415 | with every score in 0..100, the sum lies in 0..100 times the count |
| TasksRouter.AverageScoreWithin | backend/routes/tasks.js:411-415 | with every score in 0..100, the average lies in 0..100 |
| TasksRouter.Overview | backend/routes/tasks.js:380-436 | each of the three tallies counts its field's values and sums to the number of tasks; the average score and the pass rate are rounded, and both are 0 with no validations |

## Left out

- Real browser driving is not modelled: Playwright, Puppeteer and the DevTools connection (`ensureChromeWithDebugging`, `connectToExistingBrowser`). Each driver call is an oracle, and whether attaching succeeded is an input.
- DOM scraping is an oracle, because it runs inside the page: `scrapePage`, `scrapePageForForms` and the `page.evaluate` scripts of data extraction and `execute_script`. The same holds for the choice between `innerText` and `textContent`.
- `_isConnectedOverCDP` is read as "the session attached over the DevTools protocol". Whether the library sets that private flag is not modelled.
- Screenshot options are modelled only as far as they decide whether the call throws: a `quality` with an image type other than JPEG or WebP. Puppeteer's range check on `quality` (0 to 100) and the options that only shape the image are not modelled. PDF options are not modelled, because they only shape the file. A capture's file size is an oracle result.
- `validateLinks` is not modelled, because its host and validity checks rely on URL parsing. Its checks are an input of `ValidatePage`.
- The language-model calls are not modelled: `parseAcceptanceCriteria`'s credential prompts, `parseRequirements`, `parseAutomationCriteria`, `generateAISummary` and `generateAutomationSummary`. Their answers are `Option` inputs.
- Regular-expression matching is not modelled. The listed patterns are named, and a matcher oracle returns the capture of the first match.
- Clocks are parameters or left out: durations, ISO timestamps, the time-stamped file names (a `clock` parameter supplies the number) and real sleeping (`elapse`).
- Logging is not modelled, because it does not affect results.
- `toFixed` evidence strings and floating-point values in evidence are left out.
- Joi is modelled only partly. Its URI and ISO-date tests are oracles, and type conversion and the text of validation details are not modelled (the reply carries "Validation failed" only). Scores and estimated hours are reals.
- Firestore is an ordered list. The model does not cover record ids, timestamp conversion, or the store's own sorting (the listing takes the already-sorted answer). Refusing a negative limit or offset is modelled as no listing.
- `PATCH /:taskId/status` models only the whitelist and the lookup. The stored update is not modelled.
- Non-numeric string scores are treated as 0 in `TasksRouter.ScoreOf`. The route would concatenate them into a string.
- The `ws` transport and JSON framing are not modelled. A connection's outbox stands for what it was sent, and a set of failing connections stands for sends that throw.
- A payload's own `taskId` is not modelled. It would override the broadcast's task id the same way a payload's `type` overrides the message type.
- `path.join` normalisation is not modelled. A path is the directory, "/" and the file name.
- Concurrency is not modelled: concurrent runs, the module-level singleton services, and the asynchronous order of callbacks.
- `FunctionalTests.Navigation`: the 60000 ms timeout is the page's default navigation timeout, which `runFunctionalTests` sets. The call itself passes none.
- `FunctionalTests.RunTestsInPage` and `PuppeteerAutomation.RunStepsInPage`: the rate over an empty plan is stated as intended (0). The `NaN` the source computes is the finding below.
- `PuppeteerAutomation.ExecuteAutomationStep`: the data that the extraction handlers return is an oracle. Only its presence is stated.
- `PlaywrightPlan.FirstPasswordOf`: a pattern may capture only white space, which trims to "". The model does not claim the password is non-empty.
- PercentAsWritten: the quotient `part / whole` is rounded exactly, not as a double. `(29 / 200) * 100` is 14.499999999999998 in floating point, so JavaScript gives 14 where the model gives 15.
- Percent: rounds the exact quotient, for the same reason as `PercentAsWritten`.
- Summarize: its success rate inherits the exact rounding of `PercentAsWritten`.
- RunTestsInPage: its success rate inherits the exact rounding of `PercentAsWritten`.
- RunStepsInPage: its success rate inherits the exact rounding of `PercentAsWritten`.
- Overview: its pass rate inherits the exact rounding of `Percent`, and its average score rounds the exact mean.
- Mentions: case folding covers the ASCII letters only, because `toLowerCase` on the rest of Unicode is not modelled. "ÜBER UNS" does not mention "über uns" in the model.
- ValidateContent: its case-insensitive tests fold ASCII letters only, as `Mentions` does.
- VerifyText: its title and body tests fold ASCII letters only, as `Mentions` does; so does `TextCheck`, which it computes.
- TextCheck: the title is the page's own; a `page.title()` that throws is not modelled, while the body and console reads through `evaluate` may throw. `VerifyText` computes it.
- ValidateSeo: lengths count Unicode scalar values, not the UTF-16 code units of `.length`. A title of 60 characters with one emoji is 61 units long in JavaScript and 60 in the model.
- Excerpt: `substring(0, 5000)` is taken over Unicode scalar values, not UTF-16 code units.
- FieldValid: the schema's `min` and `max` lengths count Unicode scalar values, not the UTF-16 code units Joi counts. `CreateTask`, `UpdateTask` and `CreatedTaskWithinSchema` inherit this.
- CreateTask: its schema lengths count Unicode scalar values, as `FieldValid` does.
- InitBrowser: an attach over the DevTools protocol always yields a context and a tab. A `newContext` or `newPage` that throws after attaching is not modelled; a launched browser's partial state is.
- Overview: its tallies are keyed by the field's value, not by the string JavaScript makes of it as an object key. A status of the number 1 and one of the string "1" are two entries in the model and one in the route.
- ClickOutcome: a selector query never throws in the model; each candidate is only present or absent. A candidate that the selector engine rejects with an exception is not modelled. `ClickCandidates`, `TypeTarget` and `FirstPresent` rest on the same presence oracle.
- CriteriaText: an object's `content`, `title` and `email` are strings. A non-string value there (a number, a nested object) is not modelled; only `password` distinguishes a non-string value, because that is what makes `toLowerCase` throw.

## Findings

| source | as written | input that shows it | evidently intended | confidence | as-written member | corrected member |
|---|---|---|---|---|---|---|
| backend/services/functionalTestService.js:505 | `Math.round((passedTests / testSteps.length) * 100)` divides by the number of steps | the language model answers `[]`, so the plan has no steps and the rate is `NaN` | a 0 rate for an empty plan, as the tasks statistics use | not executed | FunctionalTests.EmptyPlanRateAsWritten | Js.Percent |
| backend/services/puppeteerAutomationService.js:794-796 | `Math.round((completedSteps / automationSteps.length) * 100)` divides by the number of steps | the language model answers `[]`, so the plan has no steps and the rate is `NaN` | a 0 rate for an empty plan | not executed | PuppeteerAutomation.EmptyAutomationRateAsWritten | Js.Percent |

Other behaviour the model keeps as the source has it:
- The functional "page loads" check looks at the selector `body` and needs the body text to mention "page loaded".
- The Puppeteer forms check needs the literal text "forms tested".
- A broadcast leaves an emptied set in the registry.
- A second subscription leaves a stale membership in the first task's set.
- Every Puppeteer screenshot step without options of its own fails, the fallback plan's included: the default options ask for a PNG with a quality, which the screenshot call refuses (`DefaultScreenshotFails`).
