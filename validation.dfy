/** The rule-based page validation: five groups of checks over the scraped
    page data, a score that deducts per failed check by priority, a banded
    verdict, and the wrappers that turn a thrown functional-test run or
    automation run into a well-formed summary. */
module ValidationRules {
  import opened Js
  import opened PlaywrightRun
  import FunctionalTests

  /** One rule's outcome. Priorities are free strings: the score knows four of them. */
  datatype Check = Check(kind: string, passed: bool, priority: string)

  datatype Image = Image(alt: string)

  /** A form control; an absent label is "" in `labelText`. */
  datatype Input = Input(placeholder: string, required: bool, labelText: string)

  datatype Form = Form(inputs: seq<Input>)

  /** What the scraper hands to the rules. `h1` is the trimmed text of the
      first H1 ("" when there is none); `h1Headings` are all of them. */
  datatype PageData = PageData(
    title: string,
    h1: string,
    metaDescription: string,
    images: seq<Image>,
    forms: seq<Form>,
    h1Headings: seq<string>,
    htmlSize: nat,
    scriptCount: nat,
    styleCount: nat,
    bodyText: string)

  /** The criteria fields the content rules look at; "" is an absent field. */
  datatype ContentCriteria = ContentCriteria(title: string, h1: string, content: string)

  // ---------------------------------------------------------------------
  // Content

  /** Where each content check stands in the emitted order. */
  function ContentRank(kind: string): int {
    if kind == "title_match" then 0 else if kind == "h1_match" then 1 else if kind == "content_match" then 2 else 3
  }

  predicate HasKind(checks: seq<Check>, kind: string) {
    exists i :: 0 <= i < |checks| && checks[i].kind == kind
  }

  /** The content checks: title, then H1, then body text, each only when the criteria name it. */
  function ContentChecks(page: PageData, criteria: ContentCriteria): seq<Check> {
    (if criteria.title != "" then [Check("title_match", Mentions(page.title, criteria.title), "high")] else [])
    + (if criteria.h1 != "" then [Check("h1_match", page.h1 != "" && Mentions(page.h1, criteria.h1), "high")] else [])
    + (if criteria.content != "" then [Check("content_match", Mentions(page.bodyText, criteria.content), "medium")] else [])
  }

  /** One check per named criterion, in the fixed order, each judged against its own page field. */
  lemma ContentChecksShape(page: PageData, criteria: ContentCriteria)
    ensures var checks := ContentChecks(page, criteria);
      && |checks| == (if criteria.title != "" then 1 else 0) + (if criteria.h1 != "" then 1 else 0)
                     + (if criteria.content != "" then 1 else 0)
      && (forall i, j :: 0 <= i < j < |checks| ==> ContentRank(checks[i].kind) < ContentRank(checks[j].kind))
      && (HasKind(checks, "title_match") <==> criteria.title != "")
      && (HasKind(checks, "h1_match") <==> criteria.h1 != "")
      && (HasKind(checks, "content_match") <==> criteria.content != "")
      && (forall i :: 0 <= i < |checks| && checks[i].kind == "title_match" ==>
            checks[i].passed == Mentions(page.title, criteria.title) && checks[i].priority == "high")
      && (forall i :: 0 <= i < |checks| && checks[i].kind == "h1_match" ==>
            checks[i].passed == (page.h1 != "" && Mentions(page.h1, criteria.h1)) && checks[i].priority == "high")
      && (forall i :: 0 <= i < |checks| && checks[i].kind == "content_match" ==>
            checks[i].passed == Mentions(page.bodyText, criteria.content) && checks[i].priority == "medium")
  {
    var checks := ContentChecks(page, criteria);
    var t := if criteria.title != "" then 1 else 0;
    var h := if criteria.h1 != "" then 1 else 0;
    if criteria.title != "" {
      assert checks[0].kind == "title_match";
    }
    if criteria.h1 != "" {
      assert checks[t].kind == "h1_match";
    }
    if criteria.content != "" {
      assert checks[t + h].kind == "content_match";
    }
  }

  /** `validateContent`: one check per criteria field that is present. */
  method ValidateContent(page: PageData, criteria: ContentCriteria) returns (checks: seq<Check>)
    ensures checks == ContentChecks(page, criteria)
    ensures |checks| == (if criteria.title != "" then 1 else 0) + (if criteria.h1 != "" then 1 else 0)
                        + (if criteria.content != "" then 1 else 0)
    ensures forall i, j :: 0 <= i < j < |checks| ==> ContentRank(checks[i].kind) < ContentRank(checks[j].kind)
    ensures HasKind(checks, "title_match") <==> criteria.title != ""
    ensures HasKind(checks, "h1_match") <==> criteria.h1 != ""
    ensures HasKind(checks, "content_match") <==> criteria.content != ""
    ensures forall i :: 0 <= i < |checks| && checks[i].kind == "title_match" ==>
      checks[i].passed == Mentions(page.title, criteria.title) && checks[i].priority == "high"
    ensures forall i :: 0 <= i < |checks| && checks[i].kind == "h1_match" ==>
      checks[i].passed == (page.h1 != "" && Mentions(page.h1, criteria.h1)) && checks[i].priority == "high"
    ensures forall i :: 0 <= i < |checks| && checks[i].kind == "content_match" ==>
      checks[i].passed == Mentions(page.bodyText, criteria.content) && checks[i].priority == "medium"
  {
    checks := [];
    if criteria.title != "" {
      checks := checks + [Check("title_match", Mentions(page.title, criteria.title), "high")];
    }
    if criteria.h1 != "" {
      var h1Match := page.h1 != "" && Mentions(page.h1, criteria.h1);
      checks := checks + [Check("h1_match", h1Match, "high")];
    }
    if criteria.content != "" {
      checks := checks + [Check("content_match", Mentions(page.bodyText, criteria.content), "medium")];
    }
    ContentChecksShape(page, criteria);
  }

  // ---------------------------------------------------------------------
  // Search-engine rules

  /** The search-engine checks: title length, meta description length, an H1. */
  function SeoChecks(page: PageData): seq<Check> {
    [Check("title_length", 30 <= |page.title| <= 60, "medium"),
     Check("meta_description", page.metaDescription != "" && 120 <= |page.metaDescription| <= 160, "medium"),
     Check("h1_presence", page.h1 != "", "high")]
  }

  /** `validateSEO`. */
  method ValidateSeo(page: PageData) returns (checks: seq<Check>)
    ensures checks == SeoChecks(page)
    ensures |checks| == 3
    ensures checks[0] == Check("title_length", 30 <= |page.title| <= 60, "medium")
    ensures checks[1] == Check("meta_description", page.metaDescription != "" && 120 <= |page.metaDescription| <= 160, "medium")
    ensures checks[2] == Check("h1_presence", page.h1 != "", "high")
  {
    checks := [];
    var titleLength := |page.title|;
    checks := checks + [Check("title_length", titleLength >= 30 && titleLength <= 60, "medium")];
    var hasMetaDescription := page.metaDescription != "";
    var metaDescLength := if hasMetaDescription then |page.metaDescription| else 0;
    checks := checks + [Check("meta_description", hasMetaDescription && metaDescLength >= 120 && metaDescLength <= 160, "medium")];
    checks := checks + [Check("h1_presence", page.h1 != "", "high")];
  }

  // ---------------------------------------------------------------------
  // Accessibility

  /** `!img.alt || img.alt.trim() === ""`. */
  predicate MissingAltText(img: Image) {
    IsBlank(img.alt)
  }

  /** The test above is the service's `trim` test. */
  lemma MissingAltTextIsTrimTest(img: Image)
    ensures MissingAltText(img) <==> Trim(img.alt) == ""
  {
    TrimEmptyIffBlank(img.alt);
  }

  /** `images.filter(img => !img.alt || img.alt.trim() === "")`: the images
      without alt text, each one and only those, in their order. */
  function MissingAlt(images: seq<Image>): (r: seq<Image>)
    ensures |r| <= |images|
    ensures forall x :: x in r <==> x in images && MissingAltText(x)
    ensures images != [] && MissingAltText(images[0]) ==> r[0] == images[0]
  {
    if images == [] then []
    else (if MissingAltText(images[0]) then [images[0]] else []) + MissingAlt(images[1..])
  }

  predicate AltTextEverywhere(images: seq<Image>) {
    forall i :: 0 <= i < |images| ==> !MissingAltText(images[i])
  }

  /** No image is left out of the filter exactly when every alt text has something besides white space. */
  lemma {:induction false} MissingAltEmpty(images: seq<Image>)
    ensures MissingAlt(images) == [] <==> AltTextEverywhere(images)
    decreases |images|
  {
    if images != [] {
      MissingAltEmpty(images[1..]);
      assert forall i :: 1 <= i < |images| ==> images[i] == images[1..][i - 1];
    }
  }

  predicate Labelled(input: Input) {
    input.labelText != "" || input.placeholder != ""
  }

  /** `inputs.filter(input => !input.label && !input.placeholder)`: the
      inputs with neither, each one and only those, in their order. */
  function UnlabelledOf(inputs: seq<Input>): (r: seq<Input>)
    ensures |r| <= |inputs|
    ensures forall x :: x in r <==> x in inputs && !Labelled(x)
    ensures inputs != [] && !Labelled(inputs[0]) ==> r[0] == inputs[0]
  {
    if inputs == [] then []
    else (if !Labelled(inputs[0]) then [inputs[0]] else []) + UnlabelledOf(inputs[1..])
  }

  /** `forms.flatMap(form => form.inputs.filter(...))`: the unlabelled inputs of every form. */
  function Unlabelled(forms: seq<Form>): (r: seq<Input>)
    ensures forall x :: x in r <==> !Labelled(x) && exists f :: 0 <= f < |forms| && x in forms[f].inputs
  {
    if forms == [] then []
    else
      var rest := Unlabelled(forms[1..]);
      assert forall f :: 1 <= f < |forms| ==> forms[f] == forms[1..][f - 1];
      UnlabelledOf(forms[0].inputs) + rest
  }

  lemma {:induction false} UnlabelledOfEmpty(inputs: seq<Input>)
    ensures UnlabelledOf(inputs) == [] <==> forall i :: 0 <= i < |inputs| ==> Labelled(inputs[i])
    decreases |inputs|
  {
    if inputs != [] {
      UnlabelledOfEmpty(inputs[1..]);
      assert forall i :: 1 <= i < |inputs| ==> inputs[i] == inputs[1..][i - 1];
    }
  }

  predicate AllLabelled(forms: seq<Form>) {
    forall f, i :: 0 <= f < |forms| && 0 <= i < |forms[f].inputs| ==> Labelled(forms[f].inputs[i])
  }

  /** No input of any form is left out exactly when every input of every form has a label or a placeholder. */
  lemma {:induction false} UnlabelledEmpty(forms: seq<Form>)
    ensures Unlabelled(forms) == [] <==> AllLabelled(forms)
    decreases |forms|
  {
    if forms != [] {
      UnlabelledOfEmpty(forms[0].inputs);
      UnlabelledEmpty(forms[1..]);
      assert forall f :: 1 <= f < |forms| ==> forms[f] == forms[1..][f - 1];
    }
  }

  /** The accessibility checks: no image without alt text, no unlabelled
      input, exactly one H1. */
  function AccessibilityChecks(page: PageData): seq<Check> {
    [Check("image_alt_text", |MissingAlt(page.images)| == 0, "high"),
     Check("form_labels", |Unlabelled(page.forms)| == 0, "medium"),
     Check("heading_structure", |page.h1Headings| == 1, "medium")]
  }

  /** `validateAccessibility`. */
  method ValidateAccessibility(page: PageData) returns (checks: seq<Check>)
    ensures checks == AccessibilityChecks(page)
    ensures |checks| == 3
    ensures checks[0].kind == "image_alt_text" && checks[0].priority == "high"
    ensures checks[0].passed <==> AltTextEverywhere(page.images)
    ensures checks[1].kind == "form_labels" && checks[1].priority == "medium"
    ensures checks[1].passed <==> AllLabelled(page.forms)
    ensures checks[2] == Check("heading_structure", |page.h1Headings| == 1, "medium")
  {
    MissingAltEmpty(page.images);
    UnlabelledEmpty(page.forms);
    checks := [];
    var imagesWithoutAlt := MissingAlt(page.images);
    checks := checks + [Check("image_alt_text", |imagesWithoutAlt| == 0, "high")];
    var formsWithoutLabels := Unlabelled(page.forms);
    checks := checks + [Check("form_labels", |formsWithoutLabels| == 0, "medium")];
    checks := checks + [Check("heading_structure", |page.h1Headings| == 1, "medium")];
  }

  // ---------------------------------------------------------------------
  // Performance and forms

  const HtmlSizeLimit := 500000
  const ScriptLimit := 20
  const StyleLimit := 10

  /** The performance checks: HTML size, script count, style count. */
  function PerformanceChecks(page: PageData): seq<Check> {
    [Check("html_size", page.htmlSize < HtmlSizeLimit, "low"),
     Check("script_count", page.scriptCount < ScriptLimit, "low"),
     Check("style_count", page.styleCount < StyleLimit, "low")]
  }

  /** `validatePerformance`: three strict upper bounds. */
  method ValidatePerformance(page: PageData) returns (checks: seq<Check>)
    ensures checks == PerformanceChecks(page)
    ensures |checks| == 3
    ensures checks[0] == Check("html_size", page.htmlSize < 500000, "low")
    ensures checks[1] == Check("script_count", page.scriptCount < 20, "low")
    ensures checks[2] == Check("style_count", page.styleCount < 10, "low")
  {
    checks := [];
    checks := checks + [Check("html_size", page.htmlSize < HtmlSizeLimit, "low")];
    checks := checks + [Check("script_count", page.scriptCount < ScriptLimit, "low")];
    checks := checks + [Check("style_count", page.styleCount < StyleLimit, "low")];
  }

  predicate HasRequired(form: Form) {
    exists i :: 0 <= i < |form.inputs| && form.inputs[i].required
  }

  /** The rule as the service writes it: over the forms with a required
      input, every required input is labelled. */
  predicate RequiredInputsOk(forms: seq<Form>) {
    forall f :: 0 <= f < |forms| && HasRequired(forms[f]) ==>
      forall i :: 0 <= i < |forms[f].inputs| ==> forms[f].inputs[i].required ==> Labelled(forms[f].inputs[i])
  }

  /** Selecting the forms with a required input first changes nothing: the
      rule holds exactly when every required input anywhere is labelled. */
  lemma RequiredInputsOkEverywhere(forms: seq<Form>)
    ensures RequiredInputsOk(forms) <==>
      forall f, i :: 0 <= f < |forms| && 0 <= i < |forms[f].inputs| && forms[f].inputs[i].required ==>
        Labelled(forms[f].inputs[i])
  {
    if RequiredInputsOk(forms) {
      forall f, i | 0 <= f < |forms| && 0 <= i < |forms[f].inputs| && forms[f].inputs[i].required
        ensures Labelled(forms[f].inputs[i])
      {
        assert HasRequired(forms[f]);
      }
    }
  }

  /** The form check: every required input is labelled. */
  function FormChecks(page: PageData): seq<Check> {
    [Check("required_inputs", RequiredInputsOk(page.forms), "high")]
  }

  /** `validateForms`. */
  method ValidateForms(page: PageData) returns (checks: seq<Check>)
    ensures checks == FormChecks(page)
    ensures checks == [Check("required_inputs", RequiredInputsOk(page.forms), "high")]
  {
    checks := [];
    checks := checks + [Check("required_inputs", RequiredInputsOk(page.forms), "high")];
  }

  // ---------------------------------------------------------------------
  // Score and verdict

  /** What one failed check of the priority costs. */
  function Deduction(priority: string): (n: nat)
    ensures n <= 20
  {
    if priority == "critical" then 20
    else if priority == "high" then 15
    else if priority == "medium" then 10
    else if priority == "low" then 5
    else 0
  }

  function FailedCount(checks: seq<Check>): (n: nat)
    ensures n <= |checks|
  {
    if checks == [] then 0
    else FailedCount(checks[..|checks| - 1]) + (if checks[|checks| - 1].passed then 0 else 1)
  }

  /** The total deduction of the failed checks. */
  function Deductions(checks: seq<Check>): nat {
    if checks == [] then 0
    else Deductions(checks[..|checks| - 1]) + (if checks[|checks| - 1].passed then 0 else Deduction(checks[|checks| - 1].priority))
  }

  /** The score: 100 less the deductions, never below 0; with nothing failed the capped bonus leaves it at 100. */
  function Score(checks: seq<Check>): (s: int)
    ensures 0 <= s <= 100
    ensures FailedCount(checks) == 0 ==> s == 100
    ensures FailedCount(checks) > 0 ==> s == if Deductions(checks) > 100 then 0 else 100 - Deductions(checks)
  {
    NoFailuresNoDeductions(checks);
    var floored := if 100 - Deductions(checks) < 0 then 0 else 100 - Deductions(checks);
    if FailedCount(checks) == 0 then (if floored + 5 < 100 then floored + 5 else 100) else floored
  }

  lemma {:induction false} NoFailuresNoDeductions(checks: seq<Check>)
    ensures FailedCount(checks) == 0 ==> Deductions(checks) == 0
  {
    if checks != [] {
      NoFailuresNoDeductions(checks[..|checks| - 1]);
    }
  }

  /** `calculateScore`: a pass over the flattened checks, then the floor and the capped bonus. */
  method CalculateScore(checks: seq<Check>) returns (score: int)
    ensures score == Score(checks)
  {
    var totalScore := 100;
    var failedChecks := 0;
    var i := 0;
    while i < |checks|
      invariant 0 <= i <= |checks|
      invariant totalScore == 100 - Deductions(checks[..i])
      invariant failedChecks == FailedCount(checks[..i])
    {
      assert checks[..i + 1][..i] == checks[..i];
      if !checks[i].passed {
        failedChecks := failedChecks + 1;
        totalScore := totalScore - Deduction(checks[i].priority);
      }
      i := i + 1;
    }
    assert checks[..i] == checks;
    totalScore := if totalScore < 0 then 0 else totalScore;
    if failedChecks == 0 {
      totalScore := if totalScore + 5 < 100 then totalScore + 5 else 100;
    }
    score := totalScore;
  }

  /** A failed check costs the total at least its own deduction. */
  lemma {:induction false} DeductionsCoverEach(checks: seq<Check>, k: nat)
    requires k < |checks| && !checks[k].passed
    ensures Deductions(checks) >= Deduction(checks[k].priority)
    ensures FailedCount(checks) > 0
    decreases |checks|
  {
    var init := checks[..|checks| - 1];
    if k < |checks| - 1 {
      assert init[k] == checks[k];
      DeductionsCoverEach(init, k);
    }
  }

  /** One failed check caps the score at 100 less its deduction. */
  lemma FailedCheckCapsScore(checks: seq<Check>, k: nat)
    requires k < |checks| && !checks[k].passed
    ensures Score(checks) <= 100 - Deduction(checks[k].priority)
  {
    DeductionsCoverEach(checks, k);
  }

  /** Failures of a priority the score does not know cost nothing. */
  lemma {:induction false} UnrankedFailuresAreFree(checks: seq<Check>)
    requires forall i :: 0 <= i < |checks| && !checks[i].passed ==> Deduction(checks[i].priority) == 0
    ensures Deductions(checks) == 0
    ensures Score(checks) == 100
  {
    if checks != [] {
      var init := checks[..|checks| - 1];
      assert forall i :: 0 <= i < |init| ==> init[i] == checks[i];
      UnrankedFailuresAreFree(init);
      var last := |checks| - 1;
      assert !checks[last].passed ==> Deduction(checks[last].priority) == 0;
    }
  }

  datatype Verdict = Pass | Partial | Fail

  predicate FailedWith(checks: seq<Check>, priority: string) {
    exists i :: 0 <= i < |checks| && !checks[i].passed && checks[i].priority == priority
  }

  /** `determineVerdict`. */
  function DetermineVerdict(score: int, checks: seq<Check>): (v: Verdict)
    ensures v == Fail <==> FailedWith(checks, "critical") || score < 70
    ensures v == Pass <==> !FailedWith(checks, "critical") && !FailedWith(checks, "high") && score >= 90
  {
    if FailedWith(checks, "critical") || score < 70 then Fail
    else if FailedWith(checks, "high") || score < 90 then Partial
    else Pass
  }

  /** A failed high-priority check never passes the page, and costs at least 15 points. */
  lemma FailedHighNeverPasses(checks: seq<Check>, k: nat)
    requires k < |checks| && !checks[k].passed && checks[k].priority == "high"
    ensures DetermineVerdict(Score(checks), checks) != Pass
    ensures Score(checks) <= 85
  {
    FailedCheckCapsScore(checks, k);
  }

  /** With nothing failed the page scores 100 and passes. */
  lemma CleanPagePasses(checks: seq<Check>)
    requires forall i :: 0 <= i < |checks| ==> checks[i].passed
    ensures Score(checks) == 100 && DetermineVerdict(Score(checks), checks) == Pass
  {
    UnrankedFailuresAreFree(checks);
  }

  // ---------------------------------------------------------------------
  // The page

  datatype CheckGroups = CheckGroups(
    contentChecks: seq<Check>,
    seoChecks: seq<Check>,
    accessibilityChecks: seq<Check>,
    performanceChecks: seq<Check>,
    linkChecks: seq<Check>,
    formChecks: seq<Check>)

  /** The groups flattened in the order both the score and the verdict use. */
  function AllChecks(g: CheckGroups): (all: seq<Check>)
    ensures |all| == |g.contentChecks| + |g.seoChecks| + |g.accessibilityChecks| + |g.performanceChecks|
                     + |g.linkChecks| + |g.formChecks|
    ensures var o1 := |g.contentChecks|;
      var o2 := o1 + |g.seoChecks|;
      var o3 := o2 + |g.accessibilityChecks|;
      var o4 := o3 + |g.performanceChecks|;
      var o5 := o4 + |g.linkChecks|;
      && all[..o1] == g.contentChecks && all[o1..o2] == g.seoChecks && all[o2..o3] == g.accessibilityChecks
      && all[o3..o4] == g.performanceChecks && all[o4..o5] == g.linkChecks && all[o5..] == g.formChecks
  {
    g.contentChecks + g.seoChecks + g.accessibilityChecks + g.performanceChecks + g.linkChecks + g.formChecks
  }

  datatype PageValidation = PageValidation(score: int, verdict: Verdict, groups: CheckGroups)

  /** `validatePage`. The link rules are given: they rest on URL parsing. */
  method ValidatePage(page: PageData, criteria: ContentCriteria, linkChecks: seq<Check>) returns (r: PageValidation)
    ensures r.score == Score(AllChecks(r.groups)) && r.verdict == DetermineVerdict(r.score, AllChecks(r.groups))
    ensures |r.groups.seoChecks| == 3 && |r.groups.accessibilityChecks| == 3 && |r.groups.performanceChecks| == 3
    ensures |r.groups.contentChecks| <= 3 && |r.groups.formChecks| == 1
    ensures r.groups == CheckGroups(ContentChecks(page, criteria), SeoChecks(page), AccessibilityChecks(page),
                                    PerformanceChecks(page), linkChecks, FormChecks(page))
    ensures r.groups.linkChecks == linkChecks
    ensures r.groups.seoChecks[2] == Check("h1_presence", page.h1 != "", "high")
  {
    var content := ValidateContent(page, criteria);
    var seo := ValidateSeo(page);
    var accessibility := ValidateAccessibility(page);
    var performance := ValidatePerformance(page);
    var forms := ValidateForms(page);
    var groups := CheckGroups(content, seo, accessibility, performance, linkChecks, forms);
    var score := CalculateScore(AllChecks(groups));
    r := PageValidation(score, DetermineVerdict(score, AllChecks(groups)), groups);
  }

  /** A page without an H1 is never a pass. */
  lemma NoH1NeverPasses(g: CheckGroups, page: PageData)
    requires |g.seoChecks| == 3 && g.seoChecks[2] == Check("h1_presence", page.h1 != "", "high") && page.h1 == ""
    ensures DetermineVerdict(Score(AllChecks(g)), AllChecks(g)) != Pass
  {
    var k := |g.contentChecks| + 2;
    assert AllChecks(g)[k] == g.seoChecks[2];
    FailedHighNeverPasses(AllChecks(g), k);
  }

  // ---------------------------------------------------------------------
  // The wrappers

  /** A functional-test summary with the error a thrown run leaves on it. */
  datatype FunctionalReport = FunctionalReport(summary: FunctionalTests.TestSummary, error: Option<string>)

  /** `runFunctionalTests`: a finished run passes through with no error; a
      thrown one becomes an all-zero summary with no results and the message. */
  function WrapFunctional(run: Result<FunctionalTests.TestSummary>): (r: FunctionalReport)
    ensures r.error.None? <==> run.Ok?
    ensures run.Ok? ==> r.summary == run.value
    ensures run.Err? ==>
      && r.error == Some(run.message) && r.summary.testResults == []
      && r.summary.totalTests == 0 && r.summary.passedTests == 0
      && r.summary.failedTests == 0 && r.summary.successRate == 0
  {
    match run
    case Ok(summary) => FunctionalReport(summary, None)
    case Err(message) => FunctionalReport(FunctionalTests.TestSummary(0, 0, 0, 0, []), Some(message))
  }

  const AutomationFailedStep := "Automation failed"

  /** `runPlaywrightAutomation`: a finished run passes through; a thrown one
      becomes a zero summary with a single failed step carrying the message. */
  function WrapAutomation(run: Result<RunSummary>): (s: RunSummary)
    ensures run.Ok? ==> s == run.value
    ensures run.Err? ==>
      && s.totalSteps == 0 && s.completedSteps == 0 && s.failedSteps == 0 && s.successRate == 0
      && |s.stepResults| == 1 && s.generatedFiles == [] && s.error == Some(run.message)
      && s.stepResults[0].step == "Automation failed" && s.stepResults[0].action == "error"
      && s.stepResults[0].status == Failed && s.stepResults[0].error == Some(run.message)
  {
    match run
    case Ok(summary) => summary
    case Err(message) =>
      RunSummary(0, 0, 0, 0, [StepResult(AutomationFailedStep, "error", Failed, "", Some(message), None, None)],
                 [], "", "", Some(message))
  }
}
