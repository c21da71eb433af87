/** The Puppeteer automation service: a fallback plan built from flags and
    keywords, fourteen step handlers folded into completed/failed, and a run
    that executes every step and collects the files the steps wrote. */
module PuppeteerAutomation {
  import opened Js
  import opened Browser
  import PlaywrightRun

  /** One automation step. `selector` "" is a null selector; `timeout` 0 is
      absent; `extractType` is the `dataType` of `extractOptions`, `None`
      when the step has no `extractOptions`; `shot` is its `screenshotOptions`. */
  datatype AutomationStep = AutomationStep(
    stepId: string,
    category: string,
    action: string,
    description: string,
    selector: string,
    value: string,
    waitCondition: string,
    timeout: int,
    extractType: Option<string>,
    shot: Option<ShotOptions>)

  /** A step's `screenshotOptions`; `quality` and `format` may be missing. */
  datatype ShotOptions = ShotOptions(fullPage: bool, quality: Option<int>, format: Option<string>)

  /** The options `performScreenshot` uses when the step has none, which are
      also those of the fallback screenshot step. */
  const DefaultShot := ShotOptions(true, Some(90), Some("png"))

  /** The criteria fields the fallback reads; an `Option<bool>` is a flag
      that may be missing, and a missing field of any other kind is "". */
  datatype AutomationCriteria = AutomationCriteria(
    targetUrl: string,
    content: string,
    automationTasks: seq<string>,
    extractData: Option<bool>,
    generateScreenshots: Option<bool>,
    generatePDF: Option<bool>,
    testForms: Option<bool>,
    crawlSPA: Option<bool>)

  // ---------------------------------------------------------------------
  // The fallback plan

  function NavigateStep(targetUrl: string): AutomationStep {
    AutomationStep("navigate_to_page", "navigation", "navigate", "Navigate to the target page", "", targetUrl, "networkidle2", 30000, None, None)
  }

  const ScrapeStep := AutomationStep("scrape_content", "scraping", "extract_data", "Extract all page content and metadata",
                                     "body", "full_page_data", "", 15000, Some("all"), None)
  const ScreenshotStep := AutomationStep("take_screenshot", "screenshot", "screenshot", "Take a full page screenshot",
                                         "", "page_screenshot.png", "", 10000, None, Some(DefaultShot))
  const PdfStep := AutomationStep("generate_pdf", "pdf_generation", "pdf", "Generate PDF of the page",
                                  "", "page_document.pdf", "", 20000, None, None)
  const FormsStep := AutomationStep("test_forms", "testing", "verify", "Test form elements and interactions",
                                    "form", "forms tested", "", 10000, None, None)
  const LoginStep := AutomationStep("test_login", "testing", "verify", "Test login functionality based on acceptance criteria",
                                    "form", "login form tested", "", 15000, None, None)
  const SubmissionStep := AutomationStep("test_form_submission", "form_submission", "verify",
                                         "Test form submission based on acceptance criteria",
                                         "form", "form submission tested", "", 15000, None, None)
  const InteractionsSelector := "button, .btn, [role='button']"
  const InteractionsStep := AutomationStep("test_interactions", "testing", "verify", "Test button clicks and interactions",
                                           InteractionsSelector, "interactions tested", "", 10000, None, None)

  /** `content || automationTasks?.[0] || ""`. */
  function CriteriaContent(c: AutomationCriteria): string {
    if c.content != "" then c.content
    else if |c.automationTasks| > 0 then c.automationTasks[0]
    else ""
  }

  /** `!== false` and `=== true`. */
  predicate OnUnlessFalse(flag: Option<bool>) { flag != Some(false) }
  predicate OnlyIfTrue(flag: Option<bool>) { flag == Some(true) }

  /** The flag-driven steps, in the order the source pushes them. */
  function FlagSteps(c: AutomationCriteria): seq<AutomationStep> {
    (if OnUnlessFalse(c.extractData) then [ScrapeStep] else [])
    + (if OnUnlessFalse(c.generateScreenshots) then [ScreenshotStep] else [])
    + (if OnlyIfTrue(c.generatePDF) then [PdfStep] else [])
    + (if OnUnlessFalse(c.testForms) then [FormsStep] else [])
  }

  /** The keyword-driven steps over the lower-cased content. */
  function KeywordSteps(lower: string): seq<AutomationStep> {
    (if Contains(lower, "login") || Contains(lower, "sign in") then [LoginStep] else [])
    + (if Contains(lower, "form") || Contains(lower, "submit") then [SubmissionStep] else [])
    + (if Contains(lower, "click") || Contains(lower, "button") then [InteractionsStep] else [])
  }

  /** The plan `generateFallbackAutomation` returns, as one expression. */
  function FallbackPlan(c: AutomationCriteria): seq<AutomationStep> {
    [NavigateStep(c.targetUrl)] + FlagSteps(c) + KeywordSteps(ToLower(CriteriaContent(c)))
  }

  /** `generateFallbackAutomation`: a list seeded with the navigate step and
      pushed onto flag by flag, keyword by keyword. */
  method GenerateFallbackAutomation(c: AutomationCriteria) returns (steps: seq<AutomationStep>)
    ensures steps == FallbackPlan(c)
  {
    steps := [NavigateStep(c.targetUrl)];
    steps := PushFlagSteps(steps, c);
    var contentLower := ToLower(CriteriaContent(c));
    steps := PushKeywordSteps(steps, contentLower);
  }

  /** The flag defaults: on unless `false`, except the PDF, on only if `true`. */
  method PushFlagSteps(steps: seq<AutomationStep>, c: AutomationCriteria) returns (steps': seq<AutomationStep>)
    ensures steps' == steps + FlagSteps(c)
  {
    var extractData := c.extractData != Some(false);
    var generateScreenshots := c.generateScreenshots != Some(false);
    var generatePDF := c.generatePDF == Some(true);
    var testForms := c.testForms != Some(false);
    ghost var s1: seq<AutomationStep> := if extractData then [ScrapeStep] else [];
    ghost var s2: seq<AutomationStep> := if generateScreenshots then [ScreenshotStep] else [];
    ghost var s3: seq<AutomationStep> := if generatePDF then [PdfStep] else [];
    ghost var s4: seq<AutomationStep> := if testForms then [FormsStep] else [];
    assert FlagSteps(c) == s1 + s2 + s3 + s4;
    steps' := steps;
    if extractData {
      steps' := steps' + [ScrapeStep];
    }
    assert steps' == steps + s1;
    if generateScreenshots {
      steps' := steps' + [ScreenshotStep];
    }
    AppendAssoc(steps, s1, s2);
    if generatePDF {
      steps' := steps' + [PdfStep];
    }
    AppendAssoc(steps, s1 + s2, s3);
    if testForms {
      steps' := steps' + [FormsStep];
    }
    AppendAssoc(steps, s1 + s2 + s3, s4);
  }

  lemma AppendAssoc(a: seq<AutomationStep>, b: seq<AutomationStep>, c: seq<AutomationStep>)
    ensures a + b + c == a + (b + c)
  {
  }

  method PushKeywordSteps(steps: seq<AutomationStep>, contentLower: string) returns (steps': seq<AutomationStep>)
    ensures steps' == steps + KeywordSteps(contentLower)
  {
    steps' := steps;
    if Contains(contentLower, "login") || Contains(contentLower, "sign in") {
      steps' := steps' + [LoginStep];
    }
    if Contains(contentLower, "form") || Contains(contentLower, "submit") {
      steps' := steps' + [SubmissionStep];
    }
    if Contains(contentLower, "click") || Contains(contentLower, "button") {
      steps' := steps' + [InteractionsStep];
    }
  }

  function Count(b: bool): nat { if b then 1 else 0 }

  /** No step of `steps` is a navigation. */
  predicate NoneNavigate(steps: seq<AutomationStep>) {
    forall i :: 0 <= i < |steps| ==> steps[i].action != "navigate"
  }

  lemma NoneNavigateAppend(a: seq<AutomationStep>, b: seq<AutomationStep>)
    requires NoneNavigate(a) && NoneNavigate(b)
    ensures NoneNavigate(a + b)
  {
    forall i | 0 <= i < |a + b|
      ensures (a + b)[i].action != "navigate"
    {
      if i < |a| {
        assert (a + b)[i] == a[i];
      } else {
        assert (a + b)[i] == b[i - |a|];
      }
    }
  }

  /** One step per flag that is on, none of them a navigation. */
  lemma FlagStepsShape(c: AutomationCriteria)
    ensures NoneNavigate(FlagSteps(c))
    ensures |FlagSteps(c)| == Count(OnUnlessFalse(c.extractData)) + Count(OnUnlessFalse(c.generateScreenshots))
                              + Count(OnlyIfTrue(c.generatePDF)) + Count(OnUnlessFalse(c.testForms))
    ensures ScrapeStep in FlagSteps(c) <==> OnUnlessFalse(c.extractData)
    ensures ScreenshotStep in FlagSteps(c) <==> OnUnlessFalse(c.generateScreenshots)
    ensures PdfStep in FlagSteps(c) <==> OnlyIfTrue(c.generatePDF)
    ensures FormsStep in FlagSteps(c) <==> OnUnlessFalse(c.testForms)
  {
    var s1: seq<AutomationStep> := if OnUnlessFalse(c.extractData) then [ScrapeStep] else [];
    var s2: seq<AutomationStep> := if OnUnlessFalse(c.generateScreenshots) then [ScreenshotStep] else [];
    var s3: seq<AutomationStep> := if OnlyIfTrue(c.generatePDF) then [PdfStep] else [];
    var s4: seq<AutomationStep> := if OnUnlessFalse(c.testForms) then [FormsStep] else [];
    assert FlagSteps(c) == s1 + s2 + s3 + s4;
    NoneNavigateAppend(s1, s2);
    NoneNavigateAppend(s1 + s2, s3);
    NoneNavigateAppend(s1 + s2 + s3, s4);
  }

  /** At most one step per keyword group, none of them a navigation. */
  lemma KeywordStepsShape(lower: string)
    ensures NoneNavigate(KeywordSteps(lower))
    ensures |KeywordSteps(lower)| <= 3
    ensures LoginStep in KeywordSteps(lower) <==> Contains(lower, "login") || Contains(lower, "sign in")
    ensures SubmissionStep in KeywordSteps(lower) <==> Contains(lower, "form") || Contains(lower, "submit")
    ensures InteractionsStep in KeywordSteps(lower) <==> Contains(lower, "click") || Contains(lower, "button")
  {
    var s1: seq<AutomationStep> := if Contains(lower, "login") || Contains(lower, "sign in") then [LoginStep] else [];
    var s2: seq<AutomationStep> := if Contains(lower, "form") || Contains(lower, "submit") then [SubmissionStep] else [];
    var s3: seq<AutomationStep> := if Contains(lower, "click") || Contains(lower, "button") then [InteractionsStep] else [];
    assert KeywordSteps(lower) == s1 + s2 + s3;
    NoneNavigateAppend(s1, s2);
    NoneNavigateAppend(s1 + s2, s3);
  }

  /** The plan opens with the navigate step for the target URL, which it never
      repeats, and holds one step per flag that is on and keyword group found. */
  lemma FallbackPlanShape(c: AutomationCriteria)
    ensures var plan := FallbackPlan(c);
      && plan[0] == NavigateStep(c.targetUrl)
      && (forall i :: 1 <= i < |plan| ==> plan[i].action != "navigate")
      && |plan| == 1 + Count(OnUnlessFalse(c.extractData)) + Count(OnUnlessFalse(c.generateScreenshots))
                     + Count(OnlyIfTrue(c.generatePDF)) + Count(OnUnlessFalse(c.testForms))
                     + |KeywordSteps(ToLower(CriteriaContent(c)))|
      && 1 <= |plan| <= 8
  {
    var plan := FallbackPlan(c);
    var flags := FlagSteps(c);
    var words := KeywordSteps(ToLower(CriteriaContent(c)));
    FlagStepsShape(c);
    KeywordStepsShape(ToLower(CriteriaContent(c)));
    HeadedPlan(NavigateStep(c.targetUrl), flags, words);
  }

  /** A navigate step followed by steps none of which navigates. */
  lemma HeadedPlan(nav: AutomationStep, flags: seq<AutomationStep>, words: seq<AutomationStep>)
    requires NoneNavigate(flags) && NoneNavigate(words)
    ensures var plan := [nav] + flags + words;
      plan[0] == nav && forall i :: 1 <= i < |plan| ==> plan[i].action != "navigate"
  {
    var plan := [nav] + flags + words;
    NoneNavigateAppend(flags, words);
    assert plan == [nav] + (flags + words);
    forall i | 1 <= i < |plan|
      ensures plan[i].action != "navigate"
    {
      assert plan[i] == (flags + words)[i - 1];
    }
  }

  /** With no flags given every default applies: scrape, screenshot and the
      form test follow the navigate step, and no PDF is made. */
  lemma FallbackDefaults(c: AutomationCriteria)
    requires c.extractData.None? && c.generateScreenshots.None? && c.generatePDF.None? && c.testForms.None?
    ensures var plan := FallbackPlan(c);
      && plan[..4] == [NavigateStep(c.targetUrl), ScrapeStep, ScreenshotStep, FormsStep]
      && PdfStep !in plan
  {
    var plan := FallbackPlan(c);
    var words := KeywordSteps(ToLower(CriteriaContent(c)));
    assert plan == [NavigateStep(c.targetUrl), ScrapeStep, ScreenshotStep, FormsStep] + words;
    assert plan[..4] == [NavigateStep(c.targetUrl), ScrapeStep, ScreenshotStep, FormsStep];
    assert forall i :: 0 <= i < |words| ==> words[i] in {LoginStep, SubmissionStep, InteractionsStep};
    forall i | 4 <= i < |plan|
      ensures plan[i] != PdfStep
    {
      assert plan[i] == words[i - 4];
    }
  }

  /** A PDF step is planned exactly when `generatePDF` is `true`. */
  lemma {:induction false} PdfOnlyOnRequest(c: AutomationCriteria)
    ensures PdfStep in FallbackPlan(c) <==> OnlyIfTrue(c.generatePDF)
  {
    var plan := FallbackPlan(c);
    var flags := FlagSteps(c);
    var words := KeywordSteps(ToLower(CriteriaContent(c)));
    assert plan == [NavigateStep(c.targetUrl)] + flags + words;
    assert PdfStep !in words;
    assert PdfStep != NavigateStep(c.targetUrl);
    assert PdfStep in flags <==> OnlyIfTrue(c.generatePDF);
  }

  /** `crawlSPA` is read but never used. */
  lemma CrawlSpaIgnored(c: AutomationCriteria, crawl: Option<bool>)
    ensures FallbackPlan(c.(crawlSPA := crawl)) == FallbackPlan(c)
  {
    assert CriteriaContent(c.(crawlSPA := crawl)) == CriteriaContent(c);
  }

  /** The content field wins over the task list, which is read only when the
      content is absent. */
  lemma ContentBeforeTasks(c: AutomationCriteria, tasks: seq<string>)
    requires c.content != ""
    ensures FallbackPlan(c.(automationTasks := tasks)) == FallbackPlan(c)
  {
    assert CriteriaContent(c.(automationTasks := tasks)) == c.content == CriteriaContent(c);
  }

  // ---------------------------------------------------------------------
  // Handlers

  datatype GeneratedFile = GeneratedFile(kind: string, filename: string, path: string, size: nat)

  /** What a handler stores in `result.data`. */
  datatype StepData =
    | PageInfo(url: string, title: string)
    | ExtractedText(text: string)
    | ExtractedImages(images: seq<string>)
    | ExtractedData(items: seq<string>)
    | ScriptResult(items: seq<string>)

  /** A handler either returns, having set the evidence, the data and the
      files, or throws its own prefixed message. */
  datatype HandlerOutcome =
    | Handled(page: PageState, evidence: string, data: Option<StepData>, files: seq<GeneratedFile>)
    | Raised(page: PageState, message: string)

  /** The two output directories, fixed when the service is constructed. */
  datatype OutputDirs = OutputDirs(screenshotDir: string, pdfDir: string)

  /** `path.join(dir, file)` for a plain file name. */
  function JoinPath(dir: string, file: string): string { dir + "/" + file }

  function OrDefault(timeout: int, fallback: int): int { if timeout != 0 then timeout else fallback }

  /** What follows a successful element wait, or the wait's own failure. */
  function AfterWait(w: Attempt, prefix: string, next: PageState -> HandlerOutcome): HandlerOutcome {
    if w.Threw? then Raised(w.page, prefix + w.message) else next(w.page)
  }

  /** The wait condition `performNavigation` loads with: the step's own, else `networkidle2`. */
  function WaitUntil(step: AutomationStep): string {
    if step.waitCondition != "" then step.waitCondition else "networkidle2"
  }

  /** `performNavigation`: returns the page's URL and title once it loaded. */
  function PerformNavigation(d: PageDriver, page: PageState, step: AutomationStep): (r: HandlerOutcome)
    ensures var g := d.goto(page, step.value, WaitUntil(step), OrDefault(step.timeout, 30000));
      && r.page == g.page
      && (r.Handled? <==> g.Done?)
      && (r.Handled? ==> r.data == Some(PageInfo(g.page.url, g.page.title)) && r.files == [])
      && (r.Raised? ==> r.message == "Navigation failed: " + g.message)
  {
    var g := d.goto(page, step.value, WaitUntil(step), OrDefault(step.timeout, 30000));
    if g.Threw? then Raised(g.page, "Navigation failed: " + g.message)
    else Handled(g.page, "Successfully navigated to: " + g.page.url, Some(PageInfo(g.page.url, g.page.title)), [])
  }

  /** `performClick`: wait for the element, click it, give the page 1 s. */
  function PerformClick(d: PageDriver, page: PageState, step: AutomationStep): (r: HandlerOutcome)
    ensures var w := d.waitForSelector(page, step.selector, false, OrDefault(step.timeout, 10000));
      && (r.Handled? <==> w.Done? && d.click(w.page, step.selector).Done?)
      && (r.Handled? ==> r.page == d.elapse(d.click(w.page, step.selector).page, 1000) && r.files == [] && r.data.None?)
      && (r.Raised? ==> StartsWith(r.message, "Click failed: "))
  {
    var w := d.waitForSelector(page, step.selector, false, OrDefault(step.timeout, 10000));
    AfterWait(w, "Click failed: ", (p: PageState) =>
      var c := d.click(p, step.selector);
      if c.Threw? then Raised(c.page, "Click failed: " + c.message)
      else Handled(d.elapse(c.page, 1000), "Successfully clicked element: " + step.selector, None, []))
  }

  /** `performType`: focus, select all, then type, so the typed text replaces the selection. */
  function PerformType(d: PageDriver, page: PageState, step: AutomationStep): (r: HandlerOutcome)
    ensures var w := d.waitForSelector(page, step.selector, false, OrDefault(step.timeout, 10000));
      var c := d.click(w.page, step.selector);
      && (r.Handled? <==> w.Done? && c.Done? && d.typeInto(c.page, step.selector, step.value).Done?)
      && (r.Handled? ==> r.page == d.typeInto(c.page, step.selector, step.value).page && r.files == [] && r.data.None?)
      && (r.Raised? ==> StartsWith(r.message, "Type failed: "))
  {
    var w := d.waitForSelector(page, step.selector, false, OrDefault(step.timeout, 10000));
    AfterWait(w, "Type failed: ", (p: PageState) =>
      var c := d.click(p, step.selector);
      if c.Threw? then Raised(c.page, "Type failed: " + c.message)
      else
        var t := d.typeInto(c.page, step.selector, step.value);
        if t.Threw? then Raised(t.page, "Type failed: " + t.message)
        else Handled(t.page, "Successfully typed \"" + step.value + "\" into: " + step.selector, None, []))
  }

  /** `performTextExtraction`: the whole body text without a selector, read
      by an in-page script that throws when there is no body or no page to
      run in; else the element's text. */
  function PerformTextExtraction(d: PageDriver, page: PageState, step: AutomationStep): (r: HandlerOutcome)
    ensures step.selector == "" ==>
      var e := d.evaluate(page, "bodyText", "");
      && r.page == e.page
      && (r.Handled? <==> e.Returned?)
      && (r.Handled? ==> r.data == Some(ExtractedText(e.page.bodyText)))
    ensures step.selector != "" ==>
      var w := d.waitForSelector(page, step.selector, false, OrDefault(step.timeout, 10000));
      && (r.Handled? <==> w.Done? && step.selector in w.page.elements)
      && (r.Handled? ==> r.data == Some(ExtractedText(w.page.elements[step.selector].text)))
    ensures r.Handled? ==> r.files == []
    ensures r.Raised? ==> StartsWith(r.message, "Text extraction failed: ")
  {
    if step.selector == "" then
      match d.evaluate(page, "bodyText", "")
      case ScriptThrew(p, m) => Raised(p, "Text extraction failed: " + m)
      case Returned(p, _) =>
        Handled(p, "Extracted full page text (" + NatToString(|p.bodyText|) + " characters)", Some(ExtractedText(p.bodyText)), [])
    else
      var w := d.waitForSelector(page, step.selector, false, OrDefault(step.timeout, 10000));
      AfterWait(w, "Text extraction failed: ", (p: PageState) =>
        if step.selector !in p.elements then Raised(p, "Text extraction failed: " + d.detached)
        else
          var text := p.elements[step.selector].text;
          Handled(p, "Extracted text from " + step.selector + ": " + PlaywrightRun.Excerpt(text, 100) + "...",
                  Some(ExtractedText(text)), []))
  }

  /** `performImageExtraction`: the images the in-page script lists. */
  function PerformImageExtraction(d: PageDriver, page: PageState): (r: HandlerOutcome)
    ensures r.page == d.evaluate(page, "images", "").page
    ensures r.Handled? <==> d.evaluate(page, "images", "").Returned?
    ensures r.Handled? ==> r.data == Some(ExtractedImages(d.evaluate(page, "images", "").items)) && r.files == []
    ensures r.Raised? ==> StartsWith(r.message, "Image extraction failed: ")
  {
    match d.evaluate(page, "images", "")
    case ScriptThrew(p, m) => Raised(p, "Image extraction failed: " + m)
    case Returned(p, images) =>
      Handled(p, "Extracted " + NatToString(|images|) + " images from the page", Some(ExtractedImages(images)), [])
  }

  /** `extractOptions || { dataType: "all" }`. */
  function DataType(step: AutomationStep): string {
    if step.extractType.Some? then step.extractType.value else "all"
  }

  /** `performDataExtraction`: what the in-page script returns for the data type asked for. */
  function PerformDataExtraction(d: PageDriver, page: PageState, step: AutomationStep): (r: HandlerOutcome)
    ensures r.page == d.evaluate(page, "extractData", DataType(step)).page
    ensures r.Handled? <==> d.evaluate(page, "extractData", DataType(step)).Returned?
    ensures r.Handled? ==> r.data == Some(ExtractedData(d.evaluate(page, "extractData", DataType(step)).items)) && r.files == []
    ensures r.Raised? ==> StartsWith(r.message, "Data extraction failed: ")
  {
    match d.evaluate(page, "extractData", DataType(step))
    case ScriptThrew(p, m) => Raised(p, "Data extraction failed: " + m)
    case Returned(p, items) =>
      Handled(p, "Successfully extracted " + DataType(step) + " data from the page", Some(ExtractedData(items)), [])
  }

  /** The file name a capture writes: the step's value, else one stamped with the clock. */
  function CaptureName(value: string, stem: string, extension: string, now: nat): string {
    if value != "" then value else stem + "_" + NatToString(now) + extension
  }

  /** `performScreenshot` / `performPDFGeneration`: write the file, then record it. */
  function PerformCapture(d: PageDriver, page: PageState, step: AutomationStep, kind: string, dir: string,
                          stem: string, extension: string, savedAs: string, failedAs: string, now: nat): (r: HandlerOutcome)
    ensures var filename := CaptureName(step.value, stem, extension, now);
      var written := d.capture(page, kind, JoinPath(dir, filename));
      && r.page == page
      && (r.Handled? <==> written.Ok?)
      && (r.Handled? ==> |r.files| == 1 && r.files[0].kind == kind && r.files[0].filename == filename
                         && r.files[0].path == JoinPath(dir, filename) && r.files[0].size == written.value
                         && r.evidence == savedAs + filename && r.data.None?)
      && (r.Raised? ==> r.message == failedAs + written.message)
  {
    var filename := CaptureName(step.value, stem, extension, now);
    var filepath := JoinPath(dir, filename);
    match d.capture(page, kind, filepath)
    case Err(m) => Raised(page, failedAs + m)
    case Ok(size) => Handled(page, savedAs + filename, None, [GeneratedFile(kind, filename, filepath, size)])
  }

  /** The text after the last ".", lower-cased: the whole name when it has none. */
  function Extension(path: string): (e: string)
    ensures forall i :: 0 <= i < |e| ==> e[i] != '.'
    ensures |e| <= |path|
  {
    if path == [] || path[|path| - 1] == '.' then [] else Extension(path[..|path| - 1]) + [path[|path| - 1]]
  }

  /** The image type `page.screenshot` settles on: the `type` it is given,
      else the one the path's extension names, else none. */
  function ShotType(format: Option<string>, path: string): Option<string> {
    if format.Some? then format else ExtensionType(ToLower(Extension(path)))
  }

  /** The image type a lower-cased extension names. */
  function ExtensionType(ext: string): Option<string> {
    if ext == "png" then Some("png")
    else if ext == "jpeg" || ext == "jpg" then Some("jpeg")
    else if ext == "webp" then Some("webp")
    else None
  }

  /** Puppeteer refuses a `quality` for any type but JPEG and WebP, before
      taking the screenshot. */
  predicate QualityRefused(options: ShotOptions, path: string) {
    options.quality.Some? && ShotType(options.format, path) != Some("jpeg") && ShotType(options.format, path) != Some("webp")
  }

  const QualityUnsupported := " screenshots do not support 'quality'."

  /** The message of that refusal; a missing type reads as "png". */
  function QualityRefusal(options: ShotOptions, path: string): string {
    var t := ShotType(options.format, path);
    (if t.Some? then t.value else "png") + QualityUnsupported
  }

  /** The default options are always refused, as a PNG. */
  lemma DefaultShotRefused(path: string)
    ensures QualityRefused(DefaultShot, path)
    ensures QualityRefusal(DefaultShot, path) == "png" + QualityUnsupported
  {
    assert ShotType(DefaultShot.format, path) == Some("png");
  }

  /** `performScreenshot`: the step's options, else the defaults; a refused
      quality fails the step without a file, otherwise the capture decides. */
  function PerformScreenshot(d: PageDriver, page: PageState, step: AutomationStep, dirs: OutputDirs, now: nat): (r: HandlerOutcome)
    ensures var options := if step.shot.Some? then step.shot.value else DefaultShot;
      var path := JoinPath(dirs.screenshotDir, CaptureName(step.value, "screenshot", ".png", now));
      && (QualityRefused(options, path) ==> r == Raised(page, "Screenshot failed: " + QualityRefusal(options, path)))
      && (!QualityRefused(options, path) ==>
            r == PerformCapture(d, page, step, "screenshot", dirs.screenshotDir, "screenshot", ".png",
                                "Screenshot saved: ", "Screenshot failed: ", now))
    ensures step.shot.None? ==> r == Raised(page, "Screenshot failed: " + ("png" + QualityUnsupported))
  {
    var options := if step.shot.Some? then step.shot.value else DefaultShot;
    var path := JoinPath(dirs.screenshotDir, CaptureName(step.value, "screenshot", ".png", now));
    DefaultShotRefused(path);
    if QualityRefused(options, path) then Raised(page, "Screenshot failed: " + QualityRefusal(options, path))
    else PerformCapture(d, page, step, "screenshot", dirs.screenshotDir, "screenshot", ".png", "Screenshot saved: ", "Screenshot failed: ", now)
  }

  /** The default options ask for a PNG with a quality, so every screenshot
      step without options of its own, the fallback one included, fails. */
  lemma DefaultScreenshotFails(d: PageDriver, dirs: OutputDirs, now: nat, page: PageState, step: AutomationStep, stepIndex: nat)
    requires step.action == "screenshot" && (step.shot.None? || step.shot == Some(DefaultShot))
    ensures var (result, _) := AutomationStepRun(d, dirs, now, page, step, stepIndex);
      && result.status == Failed && result.files == []
      && result.error == Some("Screenshot failed: " + ("png" + QualityUnsupported))
  {
  }

  /** `performWait`: never fails, and never sleeps zero. */
  function PerformWait(d: PageDriver, page: PageState, step: AutomationStep): (r: HandlerOutcome)
    ensures r.Handled? && r.files == []
    ensures r.evidence == "Waited for " + IntToString(PlaywrightRun.WaitTime(step.value)) + "ms"
  {
    var waitTime := PlaywrightRun.WaitTime(step.value);
    Handled(d.elapse(page, waitTime), "Waited for " + IntToString(waitTime) + "ms", None, [])
  }

  /** `parseInt(value) || 0`. */
  function ScrollAmount(value: string): (amount: int)
    ensures ParseInt(value).Some? ==> amount == ParseInt(value).value
    ensures ParseInt(value).None? ==> amount == 0
  {
    ParseIntOr(value, 0)
  }

  /** `performScroll`: to the element when there is a selector, else by the amount given. */
  function PerformScroll(d: PageDriver, page: PageState, step: AutomationStep): (r: HandlerOutcome)
    ensures var e := if step.selector != "" then d.evaluate(page, "scrollIntoView", step.selector)
                     else d.evaluate(page, "scrollBy", IntToString(ScrollAmount(step.value)));
      && r.page == e.page
      && (r.Handled? <==> e.Returned?)
      && (r.Handled? ==> r.files == [] && r.data.None?)
      && (r.Raised? ==> StartsWith(r.message, "Scroll failed: "))
  {
    if step.selector != "" then
      match d.evaluate(page, "scrollIntoView", step.selector)
      case ScriptThrew(p, m) => Raised(p, "Scroll failed: " + m)
      case Returned(p, _) => Handled(p, "Scrolled to element: " + step.selector, None, [])
    else
      var scrollAmount := ScrollAmount(step.value);
      match d.evaluate(page, "scrollBy", IntToString(scrollAmount))
      case ScriptThrew(p, m) => Raised(p, "Scroll failed: " + m)
      case Returned(p, _) => Handled(p, "Scrolled by " + IntToString(scrollAmount) + "px", None, [])
  }

  /** `performFormSubmission`: click the selector's element, else submit the first form; then wait 2 s. */
  function PerformFormSubmission(d: PageDriver, page: PageState, step: AutomationStep): (r: HandlerOutcome)
    ensures step.selector != "" ==>
      var w := d.waitForSelector(page, step.selector, false, OrDefault(step.timeout, 10000));
      r.Handled? <==> w.Done? && d.click(w.page, step.selector).Done?
    ensures step.selector == "" ==> (r.Handled? <==> d.evaluate(page, "submitFirstForm", "").Returned?)
    ensures r.Handled? ==> r.files == [] && r.evidence == "Form submitted successfully"
    ensures r.Raised? ==> StartsWith(r.message, "Form submission failed: ")
  {
    var submitted: Attempt :=
      if step.selector != "" then
        var w := d.waitForSelector(page, step.selector, false, OrDefault(step.timeout, 10000));
        if w.Threw? then w else d.click(w.page, step.selector)
      else
        match d.evaluate(page, "submitFirstForm", "")
        case ScriptThrew(p, m) => Threw(p, m)
        case Returned(p, _) => Done(p);
    if submitted.Threw? then Raised(submitted.page, "Form submission failed: " + submitted.message)
    else Handled(d.elapse(submitted.page, 2000), "Form submitted successfully", None, [])
  }

  /** `performWaitForElement`: wait until the element is visible. */
  function PerformWaitForElement(d: PageDriver, page: PageState, step: AutomationStep): (r: HandlerOutcome)
    ensures var w := d.waitForSelector(page, step.selector, true, OrDefault(step.timeout, 10000));
      && r.page == w.page
      && (r.Handled? <==> w.Done?)
      && (r.Handled? ==> r.files == [] && r.data.None?)
      && (r.Raised? ==> r.message == "Wait for element failed: " + w.message)
  {
    var w := d.waitForSelector(page, step.selector, true, OrDefault(step.timeout, 10000));
    if w.Threw? then Raised(w.page, "Wait for element failed: " + w.message)
    else Handled(w.page, "Element appeared: " + step.selector, None, [])
  }

  /** `performScriptExecution`: run the step's script in the page and keep what it returns. */
  function PerformScriptExecution(d: PageDriver, page: PageState, step: AutomationStep): (r: HandlerOutcome)
    ensures r.page == d.evaluate(page, "eval", step.value).page
    ensures r.Handled? <==> d.evaluate(page, "eval", step.value).Returned?
    ensures r.Handled? ==> r.data == Some(ScriptResult(d.evaluate(page, "eval", step.value).items)) && r.files == []
    ensures r.Raised? ==> StartsWith(r.message, "Script execution failed: ")
  {
    match d.evaluate(page, "eval", step.value)
    case ScriptThrew(p, m) => Raised(p, "Script execution failed: " + m)
    case Returned(p, items) => Handled(p, "Script executed successfully", Some(ScriptResult(items)), [])
  }

  /** Whether `performVerification` accepts the page: with a selector, the
      element exists and its text contains the (non-empty) expected value,
      case-sensitively; without one, always. */
  predicate VerificationPasses(page: PageState, step: AutomationStep) {
    step.selector == ""
    || (Present(page, step.selector) && (step.value == "" || Contains(page.elements[step.selector].text, step.value)))
  }

  /** `performVerification`. */
  function PerformVerification(page: PageState, step: AutomationStep): (r: HandlerOutcome)
    ensures r.page == page && (r.Handled? <==> VerificationPasses(page, step))
    ensures r.Handled? ==> r.files == []
    ensures step.selector != "" && !Present(page, step.selector) ==>
      r == Raised(page, "Verification failed: Element not found: " + step.selector)
    ensures step.selector != "" && Present(page, step.selector) && !VerificationPasses(page, step) ==>
      r == Raised(page, "Verification failed: Expected text \"" + step.value + "\" not found in element")
  {
    if step.selector != "" then
      if step.selector !in page.elements then Raised(page, "Verification failed: Element not found: " + step.selector)
      else
        var text := page.elements[step.selector].text;
        if step.value != "" && !Contains(text, step.value) then
          Raised(page, "Verification failed: Expected text \"" + step.value + "\" not found in element")
        else Handled(page, "Verification passed for: " + step.selector, None, [])
    else
      Handled(page, "Page verification completed", Some(PageInfo(page.url, page.title)), [])
  }

  const KnownActions := {"navigate", "click", "type", "extract_text", "extract_images", "extract_data", "screenshot",
                         "pdf", "wait", "scroll", "submit_form", "wait_for_element", "execute_script", "verify"}

  /** The `switch` of `executeAutomationStep`. */
  function Handle(d: PageDriver, dirs: OutputDirs, now: nat, page: PageState, step: AutomationStep): (r: HandlerOutcome)
    ensures step.action == "wait" ==> r.Handled?
    ensures step.action !in KnownActions ==> r == Raised(page, "Unknown automation action: " + step.action)
    ensures r.Handled? && r.files != [] ==> step.action in {"screenshot", "pdf"} && |r.files| == 1 && r.files[0].kind == step.action
    ensures step.action == "verify" ==> (r.Handled? <==> VerificationPasses(page, step))
  {
    match step.action
    case "navigate" => PerformNavigation(d, page, step)
    case "click" => PerformClick(d, page, step)
    case "type" => PerformType(d, page, step)
    case "extract_text" => PerformTextExtraction(d, page, step)
    case "extract_images" => PerformImageExtraction(d, page)
    case "extract_data" => PerformDataExtraction(d, page, step)
    case "screenshot" => PerformScreenshot(d, page, step, dirs, now)
    case "pdf" =>
      PerformCapture(d, page, step, "pdf", dirs.pdfDir, "document", ".pdf", "PDF saved: ", "PDF generation failed: ", now)
    case "wait" => PerformWait(d, page, step)
    case "scroll" => PerformScroll(d, page, step)
    case "submit_form" => PerformFormSubmission(d, page, step)
    case "wait_for_element" => PerformWaitForElement(d, page, step)
    case "execute_script" => PerformScriptExecution(d, page, step)
    case "verify" => PerformVerification(page, step)
    case _ => Raised(page, "Unknown automation action: " + step.action)
  }

  /** The fallback form check compares the form's text with the literal
      "forms tested": it completes only on a page whose form says so. */
  lemma FormsCheckNeedsLiteral(page: PageState)
    ensures VerificationPasses(page, FormsStep) <==> Present(page, "form") && Contains(page.elements["form"].text, "forms tested")
  {
  }

  // ---------------------------------------------------------------------
  // One step

  datatype AutomationStatus = Completed | Failed

  datatype AutomationResult = AutomationResult(
    stepId: string,
    stepIndex: nat,
    category: string,
    action: string,
    description: string,
    status: AutomationStatus,
    evidence: string,
    data: Option<StepData>,
    files: seq<GeneratedFile>,
    error: Option<string>)

  /** A result records a file only when it is a completed capture, and then exactly one. */
  predicate FilesFromCapture(r: AutomationResult) {
    r.files != [] ==> r.status == Completed && r.action in {"screenshot", "pdf"} && |r.files| == 1 && r.files[0].kind == r.action
  }

  /** What `executeAutomationStep` comes to: the result starts from the
      step's own fields; a handler that returns completes it, one that throws
      fails it. */
  function AutomationStepRun(d: PageDriver, dirs: OutputDirs, now: nat, page: PageState, step: AutomationStep,
                             stepIndex: nat): (r: (AutomationResult, PageState))
    ensures r.0.stepId == step.stepId && r.0.stepIndex == stepIndex && r.0.action == step.action
    ensures FilesFromCapture(r.0)
  {
    var blank := AutomationResult(step.stepId, stepIndex, step.category, step.action, step.description, Completed, "", None, [], None);
    var outcome := Handle(d, dirs, now, page, step);
    if outcome.Handled? then (blank.(evidence := outcome.evidence, data := outcome.data, files := outcome.files), outcome.page)
    else (blank.(status := Failed, error := Some(outcome.message), evidence := "Step failed: " + outcome.message), outcome.page)
  }

  /** What a step's result records: completed exactly when its handler
      returned, a failure with the handler's error and nothing else, and a
      file only for a completed capture (which the step's own contract states). */
  lemma AutomationStepRecords(d: PageDriver, dirs: OutputDirs, now: nat, page: PageState, step: AutomationStep, stepIndex: nat)
    ensures var (result, page') := AutomationStepRun(d, dirs, now, page, step, stepIndex);
      && result.category == step.category && result.description == step.description
      && (result.status == Completed <==> Handle(d, dirs, now, page, step).Handled?)
      && (result.status == Completed <==> result.error.None?)
      && (result.status == Failed ==>
            result.evidence == "Step failed: " + result.error.value && result.files == [] && result.data.None?)
      && (step.action !in KnownActions ==> result.error == Some("Unknown automation action: " + step.action))
      && (step.action == "verify" ==> (result.status == Completed <==> VerificationPasses(page, step)))
      && page' == Handle(d, dirs, now, page, step).page
  {
  }

  /** `executeAutomationStep`, filling the result in place. */
  method ExecuteAutomationStep(d: PageDriver, dirs: OutputDirs, now: nat, page: PageState, step: AutomationStep, stepIndex: nat)
    returns (result: AutomationResult, page': PageState)
    ensures (result, page') == AutomationStepRun(d, dirs, now, page, step, stepIndex)
  {
    result := AutomationResult(step.stepId, stepIndex, step.category, step.action, step.description, Completed, "", None, [], None);
    var outcome := Handle(d, dirs, now, page, step);
    if outcome.Handled? {
      result := result.(evidence := outcome.evidence, data := outcome.data, files := outcome.files);
    } else {
      result := result.(status := Failed, error := Some(outcome.message), evidence := "Step failed: " + outcome.message);
    }
    page' := outcome.page;
  }

  // ---------------------------------------------------------------------
  // The run

  datatype AutomationEvent =
    | StepStart(step: nat, total: nat, description: string, category: string)
    | StepComplete(step: nat, result: AutomationResult)

  /** `stepResults.reduce((files, r) => files.concat(r.files || []), [])`. */
  function AllFiles(results: seq<AutomationResult>): seq<GeneratedFile> {
    if results == [] then [] else AllFiles(results[..|results| - 1]) + results[|results| - 1].files
  }

  /** The number of completed screenshot and PDF steps. */
  function Captures(results: seq<AutomationResult>): nat {
    if results == [] then 0
    else Captures(results[..|results| - 1]) + (if results[|results| - 1].files != [] then 1 else 0)
  }

  /** Every collected file is a screenshot or a PDF, one per completed capture step. */
  lemma {:induction false} AllFilesFromCaptures(results: seq<AutomationResult>)
    requires forall i :: 0 <= i < |results| ==> FilesFromCapture(results[i])
    ensures |AllFiles(results)| == Captures(results) <= |results|
    ensures forall f :: f in AllFiles(results) ==> f.kind in {"screenshot", "pdf"}
  {
    if results != [] {
      var init := results[..|results| - 1];
      var last := results[|results| - 1];
      assert forall i :: 0 <= i < |init| ==> init[i] == results[i];
      AllFilesFromCaptures(init);
      assert FilesFromCapture(last);
      assert AllFiles(results) == AllFiles(init) + last.files;
      forall f | f in last.files
        ensures f.kind in {"screenshot", "pdf"}
      {
        assert f == last.files[0];
      }
    }
  }

  /** The status a summary counts by. */
  function AutomationStatusOf(r: AutomationResult): AutomationStatus { r.status }

  /** `Math.round((completedSteps / automationSteps.length) * 100)` when the
      AI plans no steps: `0 / 0` is `NaN`, which the summary then carries. */
  lemma EmptyAutomationRateAsWritten(results: seq<AutomationResult>)
    requires results == []
    ensures PercentAsWritten(CountStatus(results, AutomationStatusOf, Completed), |results|).None?
    ensures Percent(CountStatus(results, AutomationStatusOf, Completed), |results|) == 0
  {
  }

  /** The steps paired with their positions, so that each can be numbered and stamped. */
  function Numbered(steps: seq<AutomationStep>): (n: seq<(nat, AutomationStep)>)
    ensures |n| == |steps| && forall i :: 0 <= i < |steps| ==> n[i] == (i, steps[i])
  {
    seq(|steps|, i requires 0 <= i < |steps| => (i, steps[i]))
  }

  /** A step followed by the half-second pause the loop takes after it. */
  function PausedStep(d: PageDriver, dirs: OutputDirs, now: nat, page: PageState, step: AutomationStep,
                      stepIndex: nat): (r: (AutomationResult, PageState))
    ensures r.0 == AutomationStepRun(d, dirs, now, page, step, stepIndex).0
    ensures r.1 == d.elapse(AutomationStepRun(d, dirs, now, page, step, stepIndex).1, 500)
  {
    var o := AutomationStepRun(d, dirs, now, page, step, stepIndex);
    (o.0, d.elapse(o.1, 500))
  }

  /** One turn of the loop of `runAutomation`: the step numbered from one,
      stamped with the clock at its turn, then the pause. */
  function StepRunner(d: PageDriver, dirs: OutputDirs, clock: nat -> nat)
    : (PageState, (nat, AutomationStep)) -> (AutomationResult, PageState)
  {
    (p: PageState, s: (nat, AutomationStep)) => PausedStep(d, dirs, clock(s.0), p, s.1, s.0 + 1)
  }

  /** The automation run never stops early. */
  const NeverStop: (AutomationResult, (nat, AutomationStep)) -> bool := (r: AutomationResult, s: (nat, AutomationStep)) => false

  /** Every step, in order, each on the page the previous one left. */
  function AutomationRun(d: PageDriver, dirs: OutputDirs, clock: nat -> nat, page: PageState,
                         steps: seq<AutomationStep>): Run<AutomationResult> {
    RunUntil(StepRunner(d, dirs, clock), NeverStop, page, Numbered(steps))
  }

  /** The run has one result per step, numbered from one and named after its
      step, recording files only for its captures; the first is the first
      step's result on the starting page. */
  lemma AutomationRunShape(d: PageDriver, dirs: OutputDirs, clock: nat -> nat, page: PageState, steps: seq<AutomationStep>)
    ensures var rs := AutomationRun(d, dirs, clock, page, steps).results;
      && |rs| == |steps|
      && (steps != [] ==> rs[0] == AutomationStepRun(d, dirs, clock(0), page, steps[0], 1).0)
      && (forall i :: 0 <= i < |rs| ==>
            rs[i].stepIndex == i + 1 && rs[i].stepId == steps[i].stepId && rs[i].action == steps[i].action
            && FilesFromCapture(rs[i]))
  {
    var run := StepRunner(d, dirs, clock);
    var numbered := Numbered(steps);
    RunUntilShape(run, NeverStop, page, numbered);
    var keeps := (r: AutomationResult, s: (nat, AutomationStep)) =>
      r.stepIndex == s.0 + 1 && r.stepId == s.1.stepId && r.action == s.1.action && FilesFromCapture(r);
    forall p: PageState, s: (nat, AutomationStep) ensures keeps(run(p, s).0, s) {
      assert run(p, s).0 == AutomationStepRun(d, dirs, clock(s.0), p, s.1, s.0 + 1).0;
    }
    RunUntilKeeps(run, NeverStop, page, numbered, keeps);
  }

  /** A start and a completion event around each result so far. */
  ghost predicate Announced(steps: seq<AutomationStep>, results: seq<AutomationResult>, events: seq<AutomationEvent>)
    requires |results| <= |steps|
  {
    |events| == 2 * |results|
    && forall j :: 0 <= j < |results| ==>
      events[2 * j] == StepStart(j + 1, |steps|, steps[j].description, steps[j].category)
      && events[2 * j + 1] == StepComplete(j + 1, results[j])
  }

  lemma AnnouncedStep(steps: seq<AutomationStep>, results: seq<AutomationResult>, events: seq<AutomationEvent>,
                      r: AutomationResult)
    requires |results| < |steps| && Announced(steps, results, events)
    ensures var i := |results|;
      Announced(steps, results + [r],
                events + [StepStart(i + 1, |steps|, steps[i].description, steps[i].category)] + [StepComplete(i + 1, r)])
  {
    var i := |results|;
    var events' := events + [StepStart(i + 1, |steps|, steps[i].description, steps[i].category)] + [StepComplete(i + 1, r)];
    assert forall j :: 0 <= j < 2 * i ==> events'[j] == events[j];
    assert forall j :: 0 <= j < i ==> (results + [r])[j] == results[j];
  }

  /** The loop of `runAutomation`: every step, in order, numbered from one,
      with a start and a completion event around each when a callback is
      given, and half a second's pause after each. */
  method ExecuteAll(d: PageDriver, dirs: OutputDirs, clock: nat -> nat, page: PageState,
                    steps: seq<AutomationStep>, notify: bool)
    returns (results: seq<AutomationResult>, events: seq<AutomationEvent>, page': PageState)
    ensures AutomationRun(d, dirs, clock, page, steps) == Run(results, page')
    ensures |results| == |steps|
    ensures notify ==> Announced(steps, results, events)
    ensures !notify ==> events == []
  {
    results := [];
    events := [];
    page' := page;
    var run := StepRunner(d, dirs, clock);
    var numbered := Numbered(steps);
    RunPendingStart(run, NeverStop, page, numbered);
    for i := 0 to |steps|
      invariant |results| == i
      invariant RunPending(run, NeverStop, page, numbered, i, results, page')
      invariant notify ==> Announced(steps, results, events)
      invariant !notify ==> events == []
    {
      var step := steps[i];
      var before := events;
      if notify {
        events := events + [StepStart(i + 1, |steps|, step.description, step.category)];
      }
      var result, after := ExecuteAutomationStep(d, dirs, clock(i), page', step, i + 1);
      RunPendingStep(run, NeverStop, page, numbered, i, results, page');
      if notify {
        AnnouncedStep(steps, results, before, result);
        events := events + [StepComplete(i + 1, result)];
      }
      results := results + [result];
      page' := d.elapse(after, 500);
    }
    RunPendingEnd(run, NeverStop, page, numbered, results, page');
  }

  datatype AutomationSummary = AutomationSummary(
    totalSteps: nat,
    completedSteps: nat,
    failedSteps: nat,
    successRate: nat,
    stepResults: seq<AutomationResult>,
    generatedFiles: seq<GeneratedFile>)

  /** The plan a run follows: the AI's steps when it has any, else the
      fallback plan for the criteria with the target URL merged in. */
  function ChosenPlan(targetUrl: string, criteria: AutomationCriteria, aiSteps: Option<seq<AutomationStep>>): seq<AutomationStep> {
    if aiSteps.Some? then aiSteps.value else FallbackPlan(criteria.(targetUrl := targetUrl))
  }

  /** What a run reports as it goes: with notifications on, a start and a
      completion event for each step of the plan, in order; with them off,
      nothing. */
  ghost predicate StepsReported(plan: seq<AutomationStep>, summary: AutomationSummary, events: seq<AutomationEvent>, notify: bool) {
    && |summary.stepResults| <= |plan|
    && |events| == (if notify then 2 * summary.totalSteps else 0)
    && (notify ==> Announced(plan, summary.stepResults, events))
  }

  /** The summary `runAutomation` returns: every step of the AI's plan, or of
      the fallback plan for the criteria with the target URL merged in, run in
      order from the blank tab, counted, rated and with the files collected. */
  function StepsSummary(d: PageDriver, dirs: OutputDirs, clock: nat -> nat, blank: PageState, targetUrl: string,
                        criteria: AutomationCriteria, aiSteps: Option<seq<AutomationStep>>): AutomationSummary
  {
    var plan := ChosenPlan(targetUrl, criteria, aiSteps);
    var results := AutomationRun(d, dirs, clock, blank, plan).results;
    var completed := CountStatus(results, AutomationStatusOf, Completed);
    AutomationSummary(|plan|, completed, CountStatus(results, AutomationStatusOf, Failed), Percent(completed, |plan|),
                      results, AllFiles(results))
  }

  /** The body of `runAutomation` inside its page: plan (the AI's steps, or
      the fallback for the criteria with the target URL merged in), run every
      step, summarise. */
  method RunStepsInPage(d: PageDriver, dirs: OutputDirs, clock: nat -> nat, blank: PageState, targetUrl: string,
                        criteria: AutomationCriteria, aiSteps: Option<seq<AutomationStep>>, notify: bool)
    returns (summary: AutomationSummary, events: seq<AutomationEvent>)
    ensures summary == StepsSummary(d, dirs, clock, blank, targetUrl, criteria, aiSteps)
    ensures var plan := ChosenPlan(targetUrl, criteria, aiSteps);
      && summary.stepResults == AutomationRun(d, dirs, clock, blank, plan).results
      && summary.totalSteps == |plan|
      && (notify ==> Announced(plan, summary.stepResults, events))
    ensures |summary.stepResults| == summary.totalSteps
    ensures summary.completedSteps == CountStatus(summary.stepResults, AutomationStatusOf, Completed)
    ensures summary.failedSteps == CountStatus(summary.stepResults, AutomationStatusOf, Failed)
    ensures summary.completedSteps + summary.failedSteps == summary.totalSteps
    ensures summary.totalSteps > 0 ==> PercentAsWritten(summary.completedSteps, summary.totalSteps) == Some(summary.successRate as int)
    ensures summary.generatedFiles == AllFiles(summary.stepResults)
    ensures |summary.generatedFiles| <= summary.totalSteps
    ensures |events| == if notify then 2 * summary.totalSteps else 0
    ensures StepsReported(ChosenPlan(targetUrl, criteria, aiSteps), summary, events, notify)
  {
    var automationSteps: seq<AutomationStep>;
    if aiSteps.Some? {
      automationSteps := aiSteps.value;
    } else {
      automationSteps := GenerateFallbackAutomation(criteria.(targetUrl := targetUrl));
    }
    var stepResults, page';
    stepResults, events, page' := ExecuteAll(d, dirs, clock, blank, automationSteps, notify);
    AutomationRunShape(d, dirs, clock, blank, automationSteps);
    assert forall r :: AutomationStatusOf(r).Completed? || AutomationStatusOf(r).Failed?;
    CountsPartition(stepResults, AutomationStatusOf, Completed, Failed);
    AllFilesFromCaptures(stepResults);
    var completedSteps := CountStatus(stepResults, AutomationStatusOf, Completed);
    var failedSteps := CountStatus(stepResults, AutomationStatusOf, Failed);
    summary := AutomationSummary(|automationSteps|, completedSteps, failedSteps,
                                 Percent(completedSteps, |automationSteps|), stepResults, AllFiles(stepResults));
  }

  // ---------------------------------------------------------------------
  // The service and its browser

  class PuppeteerAutomationService {
    const dirs: OutputDirs
    var browser: BrowserHandle?

    /** The output directories sit under the working directory. */
    constructor (cwd: string)
      ensures dirs == OutputDirs(JoinPath(cwd, "screenshots"), JoinPath(cwd, "pdfs")) && browser == null
    {
      dirs := OutputDirs(JoinPath(cwd, "screenshots"), JoinPath(cwd, "pdfs"));
      browser := null;
    }

    /** `initBrowser`: launch lazily; a launch error propagates. */
    method InitBrowser(launchError: Option<string>) returns (r: Result<()>)
      modifies this
      ensures old(browser) != null ==> browser == old(browser) && r == Ok(())
      ensures old(browser) == null && launchError.Some? ==> browser == null && r == Err(launchError.value)
      ensures old(browser) == null && launchError.None? ==> browser != null && fresh(browser) && browser.isOpen && r == Ok(())
    {
      if browser == null {
        if launchError.Some? {
          return Err(launchError.value);
        }
        browser := new BrowserHandle(false);
      }
      r := Ok(());
    }

    /** `runAutomation`: the browser and the tab are obtained outside the
        try, so an error opening the tab propagates with no tab to close;
        the viewport and user agent are set inside it, nothing the steps do
        escapes it, and the tab is closed in `finally`, where a failing
        close replaces the result. */
    method RunAutomation(d: PageDriver, clock: nat -> nat, blank: PageState, targetUrl: string,
                         criteria: AutomationCriteria, aiSteps: Option<seq<AutomationStep>>, notify: bool,
                         launchError: Option<string>, setup: TabSetup, closeError: Option<string>)
      returns (r: Result<AutomationSummary>, events: seq<AutomationEvent>, tab: TabHandle?)
      modifies this
      ensures old(browser) == null && launchError.Some? ==> r == Err(launchError.value) && events == [] && tab == null
      ensures (old(browser) != null || launchError.None?) && setup.newPage.Some? ==>
        browser != null && r == Err(setup.newPage.value) && events == [] && tab == null
      ensures (old(browser) != null || launchError.None?) && setup.newPage.None? ==>
        browser != null && tab != null && fresh(tab) && (tab.isOpen <==> closeError.Some?)
      ensures closeError.Some? && tab != null ==> r == Err(closeError.value)
      ensures closeError.None? && tab != null && SetupError(setup).Some? ==> r == Err(SetupError(setup).value) && events == []
      ensures r.Ok? ==> SetupError(setup).None?
      ensures r.Ok? ==> tab != null && !tab.isOpen
      ensures r.Ok? ==> r.value.completedSteps + r.value.failedSteps == r.value.totalSteps == |r.value.stepResults|
      ensures r.Ok? ==> r.value.generatedFiles == AllFiles(r.value.stepResults)
      ensures r.Ok? ==> r.value == StepsSummary(d, dirs, clock, blank, targetUrl, criteria, aiSteps)
      ensures r.Ok? ==> StepsReported(ChosenPlan(targetUrl, criteria, aiSteps), r.value, events, notify)
    {
      events := [];
      var init := InitBrowser(launchError);
      if init.Err? {
        return Err(init.message), events, null;
      }
      if setup.newPage.Some? {
        return Err(setup.newPage.value), events, null;
      }
      tab := new TabHandle();
      var outcome: Result<AutomationSummary>;
      if setup.viewport.Some? {
        outcome := Err(setup.viewport.value);
      } else if setup.userAgent.Some? {
        outcome := Err(setup.userAgent.value);
      } else {
        var summary;
        summary, events := RunStepsInPage(d, dirs, clock, blank, targetUrl, criteria, aiSteps, notify);
        outcome := Ok(summary);
      }
      var closed := tab.Close(closeError.Some?);
      if !closed {
        return Err(closeError.value), events, tab;
      }
      r := outcome;
    }

    /** `cleanup`: close the browser if there is one; a failing close throws
        before the field is cleared. */
    method Cleanup(closeFails: bool) returns (ok: bool)
      modifies this, browser
      ensures old(browser) == null ==> ok && browser == null
      ensures old(browser) != null ==> ok == !closeFails && (ok <==> browser == null)
      ensures old(browser) != null && ok ==> !old(browser).isOpen
    {
      if browser == null {
        return true;
      }
      ok := browser.Close(closeFails);
      if ok {
        browser := null;
      }
    }
  }
}
