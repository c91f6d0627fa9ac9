/** The accessibility analyzer over an abstracted page: the button, alt-text,
    heading, form-label, contrast and keyboard checks, the home-grown "WCAG
    level" ladder over critical issues, the analyzer's own issue-count score
    (which overrides the base rule) and the fixed-order recommendation list. */
module Accessibility {
  import opened Prelude
  import opened Sequences
  import opened Grading
  import Base

  // ---------------------------------------------------------------------------
  // The page as the analyzer sees it

  /** An `<img>`: its `alt` attribute, None when the attribute is absent. */
  datatype Image = Image(alt: Option<string>)

  /** A heading level: the digit of the tag name h1 … h6. */
  type Level = l: int | 1 <= l <= 6 witness 1

  /** An `<input>`, `<textarea>` or `<select>`. `inputType` is None when the
      element has no `type`; the other attributes are "" when absent. */
  datatype FormInput = FormInput(id: string, inputType: Option<string>, ariaLabel: string, placeholder: string)

  /** A `<button>`: its text content and its `aria-label` ("" when absent). */
  datatype Button = Button(text: string, ariaLabel: string)

  /** What the analyzer queries from a parsed page. */
  datatype Page = Page(
    buttons: seq<Button>,
    navLabels: seq<string>,          // the aria-label of each <nav>, "" when absent
    images: seq<Image>,
    headings: seq<Level>,            // every h1 … h6, in document order
    inputs: seq<FormInput>,
    labelFor: set<string>,           // the `for` values of the page's <label>s
    styles: string,                  // the markup of every <style> element, joined
    anchors: seq<Option<string>>,    // the href of each <a>, None when it has none
    tabindexes: seq<Option<int>>,    // each tabindex value, None when not an integer
    hasSemanticTag: bool,            // some nav/main/article/section/aside/header/footer
    hasAriaLabelAttribute: bool,     // some element carries aria-label
    lang: string)                    // the <html> tag's lang, "" when absent

  // ---------------------------------------------------------------------------
  // Issues

  datatype Severity = Critical | High | Medium | Low

  /** The `type` of an accessibility issue. */
  datatype IssueKind =
    | MissingAriaLabels | UnlabeledNavigation
    | MissingAltText | EmptyAltText | PoorAltText
    | NoHeadings | NoH1 | MultipleH1 | BrokenHeadingHierarchy
    | UnlabeledFormInputs | LowContrast
    | NoSkipLink | NoFocusableElements | PositiveTabindex
    | FetchError

  /** One issue; `count` is the number its message reports (buttons, images,
      H1 headings or inputs), 0 for kinds whose message has none. */
  datatype Issue = Issue(kind: IssueKind, count: nat)

  function SeverityOf(k: IssueKind): Severity
  {
    match k
    case MissingAltText | FetchError => Critical
    case MissingAriaLabels | EmptyAltText | NoHeadings | NoH1 | UnlabeledFormInputs | NoFocusableElements => High
    case UnlabeledNavigation | PoorAltText | MultipleH1 | BrokenHeadingHierarchy | LowContrast | NoSkipLink => Medium
    case PositiveTabindex => Low
  }

  function SeverityRank(s: Severity): nat
  {
    match s
    case Critical => 3
    case High => 2
    case Medium => 1
    case Low => 0
  }

  /** Some issue in the list has the given type. */
  predicate HasKind(issues: seq<Issue>, k: IssueKind)
  {
    exists i :: 0 <= i < |issues| && issues[i].kind == k
  }

  // ---------------------------------------------------------------------------
  // check_aria_labels

  /** A button with no text once stripped and no aria-label. */
  predicate IsUnlabeledButton(b: Button)
  {
    IsBlank(b.text) && b.ariaLabel == ""
  }

  function AriaIssues(p: Page): (r: seq<Issue>)
    ensures |r| <= 2
  {
    var n := CountWhere(p.buttons, IsUnlabeledButton);
    (if n > 0 then [Issue(MissingAriaLabels, n)] else []) +
    (if "" in p.navLabels then [Issue(UnlabeledNavigation, 0)] else [])
  }

  // ---------------------------------------------------------------------------
  // check_alt_text

  const GenericAlts: set<string> := {"image", "picture", "photo", "img"}

  predicate IsMissingAlt(img: Image) { img.alt.None? }

  predicate IsEmptyAlt(img: Image) { img.alt.Some? && IsBlank(img.alt.value) }

  predicate IsPoorAlt(img: Image)
  {
    img.alt.Some? && !IsBlank(img.alt.value) && Lower(img.alt.value) in GenericAlts
  }

  /** The alt issues for the three bucket counts. */
  function AltReport(missing: nat, empty: nat, poor: nat): (r: seq<Issue>)
    ensures |r| <= 3
  {
    (if missing > 0 then [Issue(MissingAltText, missing)] else []) +
    (if empty > 0 then [Issue(EmptyAltText, empty)] else []) +
    (if poor > 0 then [Issue(PoorAltText, poor)] else [])
  }

  function AltIssues(images: seq<Image>): (r: seq<Issue>)
    ensures |r| <= 3
  {
    if images == [] then []
    else AltReport(CountWhere(images, IsMissingAlt), CountWhere(images, IsEmptyAlt), CountWhere(images, IsPoorAlt))
  }

  /** Every image lands in at most one bucket, so the three counts together
      never exceed the number of images. */
  lemma {:induction false} AltCountsBound(images: seq<Image>)
    ensures CountWhere(images, IsMissingAlt) + CountWhere(images, IsEmptyAlt) + CountWhere(images, IsPoorAlt) <= |images|
  {
    if images != [] {
      AltCountsBound(images[..|images| - 1]);
    }
  }

  /** One alt issue per non-empty bucket, and none without images. */
  lemma AltIssuesKinds(images: seq<Image>)
    ensures images == [] ==> AltIssues(images) == []
    ensures HasKind(AltIssues(images), MissingAltText) <==> CountWhere(images, IsMissingAlt) > 0
    ensures HasKind(AltIssues(images), EmptyAltText) <==> CountWhere(images, IsEmptyAlt) > 0
    ensures HasKind(AltIssues(images), PoorAltText) <==> CountWhere(images, IsPoorAlt) > 0
  {
    if images != [] {
      AltReportKinds(CountWhere(images, IsMissingAlt), CountWhere(images, IsEmptyAlt), CountWhere(images, IsPoorAlt));
    }
  }

  /** Each issue of the count-level report is present exactly when its count
      is positive, and carries that count. */
  lemma AltReportKinds(missing: nat, empty: nat, poor: nat)
    ensures HasKind(AltReport(missing, empty, poor), MissingAltText) <==> missing > 0
    ensures HasKind(AltReport(missing, empty, poor), EmptyAltText) <==> empty > 0
    ensures HasKind(AltReport(missing, empty, poor), PoorAltText) <==> poor > 0
    ensures forall i :: i in AltReport(missing, empty, poor) ==>
              i == Issue(MissingAltText, missing) || i == Issue(EmptyAltText, empty) || i == Issue(PoorAltText, poor)
  {
    var r := AltReport(missing, empty, poor);
    var a := if missing > 0 then [Issue(MissingAltText, missing)] else [];
    var b := if empty > 0 then [Issue(EmptyAltText, empty)] else [];
    if missing > 0 { assert r[0].kind == MissingAltText; }
    if empty > 0 { assert r[|a|].kind == EmptyAltText; }
    if poor > 0 { assert r[|a| + |b|].kind == PoorAltText; }
  }

  /** The alt issues come in the order missing, empty, poor, so their
      severities (critical, high, medium) strictly decrease. */
  lemma AltIssuesOrdered(images: seq<Image>)
    ensures var r := AltIssues(images);
            forall i, j :: 0 <= i < j < |r| ==> SeverityRank(SeverityOf(r[i].kind)) > SeverityRank(SeverityOf(r[j].kind))
  {
    if images != [] {
      AltReportOrdered(CountWhere(images, IsMissingAlt), CountWhere(images, IsEmptyAlt), CountWhere(images, IsPoorAlt));
    }
  }

  lemma AltReportOrdered(missing: nat, empty: nat, poor: nat)
    ensures var r := AltReport(missing, empty, poor);
            forall i, j :: 0 <= i < j < |r| ==> SeverityRank(SeverityOf(r[i].kind)) > SeverityRank(SeverityOf(r[j].kind))
  {
  }

  /** A bucket's count is positive exactly when some image falls in it. */
  lemma AltBucketsNonEmpty(images: seq<Image>)
    ensures CountWhere(images, IsMissingAlt) > 0 <==> exists k :: 0 <= k < |images| && IsMissingAlt(images[k])
    ensures CountWhere(images, IsEmptyAlt) > 0 <==> exists k :: 0 <= k < |images| && IsEmptyAlt(images[k])
    ensures CountWhere(images, IsPoorAlt) > 0 <==> exists k :: 0 <= k < |images| && IsPoorAlt(images[k])
  {
    CountWhereZero(images, IsMissingAlt);
    CountWhereZero(images, IsEmptyAlt);
    CountWhereZero(images, IsPoorAlt);
  }

  // ---------------------------------------------------------------------------
  // check_heading_structure

  predicate IsH1(l: Level) { l == 1 }

  /** The level the scan compares heading i against: 0 before the first. */
  function PrevLevel(levels: seq<Level>, i: nat): int
    requires i <= |levels|
  {
    if i == 0 then 0 else levels[i - 1]
  }

  /** Some heading is more than one level deeper than the heading before it. */
  predicate HierarchyBroken(levels: seq<Level>)
  {
    exists i :: 0 <= i < |levels| && levels[i] > PrevLevel(levels, i) + 1
  }

  /** The heading issues of a page that has headings, from its H1 count and
      whether its hierarchy is broken. */
  function HeadingReport(h1: nat, broken: bool): (r: seq<Issue>)
    ensures |r| <= 2
  {
    (if h1 == 0 then [Issue(NoH1, 0)] else if h1 > 1 then [Issue(MultipleH1, h1)] else []) +
    (if broken then [Issue(BrokenHeadingHierarchy, 0)] else [])
  }

  function HeadingIssues(levels: seq<Level>): (r: seq<Issue>)
    ensures |r| <= 2
  {
    if levels == [] then [Issue(NoHeadings, 0)]
    else HeadingReport(CountWhere<Level>(levels, IsH1), HierarchyBroken(levels))
  }

  lemma HeadingReportKinds(h1: nat, broken: bool)
    ensures !HasKind(HeadingReport(h1, broken), NoHeadings)
    ensures HasKind(HeadingReport(h1, broken), NoH1) <==> h1 == 0
    ensures HasKind(HeadingReport(h1, broken), MultipleH1) <==> h1 > 1
    ensures HasKind(HeadingReport(h1, broken), BrokenHeadingHierarchy) <==> broken
  {
    var r := HeadingReport(h1, broken);
    var a := if h1 == 0 then [Issue(NoH1, 0)] else if h1 > 1 then [Issue(MultipleH1, h1)] else [];
    if h1 != 1 { assert r[0].kind == a[0].kind; }
    if broken { assert r[|a|].kind == BrokenHeadingHierarchy; }
  }

  /** Without headings the only issue is `no_headings`; otherwise a missing H1
      and several H1s are reported as such, and a page without H1 always
      breaks the hierarchy too (its first heading is at least an h2). */
  lemma NoHeadingsAlone(levels: seq<Level>)
    ensures levels == [] ==> HeadingIssues(levels) == [Issue(NoHeadings, 0)]
    ensures HasKind(HeadingIssues(levels), NoHeadings) <==> levels == []
  {
    if levels == [] {
      assert HeadingIssues(levels)[0].kind == NoHeadings;
    } else {
      HeadingReportKinds(CountWhere<Level>(levels, IsH1), HierarchyBroken(levels));
    }
  }

  lemma HeadingIssuesSpec(levels: seq<Level>)
    requires levels != []
    ensures HasKind(HeadingIssues(levels), NoH1) <==> forall k :: 0 <= k < |levels| ==> levels[k] != 1
    ensures HasKind(HeadingIssues(levels), MultipleH1) <==> CountWhere<Level>(levels, IsH1) > 1
    ensures HasKind(HeadingIssues(levels), BrokenHeadingHierarchy) <==> HierarchyBroken(levels)
  {
    HeadingReportKinds(CountWhere<Level>(levels, IsH1), HierarchyBroken(levels));
    NoH1Count(levels);
  }

  lemma NoH1Count(levels: seq<Level>)
    ensures CountWhere<Level>(levels, IsH1) == 0 <==> forall k :: 0 <= k < |levels| ==> levels[k] != 1
  {
    CountWhereZero<Level>(levels, IsH1);
    assert forall k :: 0 <= k < |levels| ==> (IsH1(levels[k]) <==> levels[k] == 1);
  }

  /** A page with headings but no H1 starts below h1, so it is always also
      reported for a broken hierarchy. */
  lemma NoH1ComesWithBrokenHierarchy(levels: seq<Level>)
    ensures HasKind(HeadingIssues(levels), NoH1) ==> HasKind(HeadingIssues(levels), BrokenHeadingHierarchy)
  {
    NoHeadingsAlone(levels);
    if levels != [] && HasKind(HeadingIssues(levels), NoH1) {
      HeadingIssuesSpec(levels);
      NoH1Count(levels);
      assert levels[0] != 1;
      assert levels[0] > PrevLevel(levels, 0) + 1;
    } else if levels == [] {
      assert HeadingIssues(levels) == [Issue(NoHeadings, 0)];
    }
  }

  /** A page whose first heading is below h1 has a broken hierarchy. */
  lemma StartingBelowH1IsBroken(levels: seq<Level>)
    requires |levels| > 0 && levels[0] >= 2
    ensures HierarchyBroken(levels)
  {
    assert levels[0] > PrevLevel(levels, 0) + 1;
  }

  /** In an unbroken hierarchy the i-th heading is at most h(i+1). */
  lemma {:induction false} UnbrokenDepthBound(levels: seq<Level>)
    requires !HierarchyBroken(levels)
    ensures forall i :: 0 <= i < |levels| ==> levels[i] <= i + 1
  {
    if levels != [] {
      var init := levels[..|levels| - 1];
      assert !HierarchyBroken(init) by {
        forall i | 0 <= i < |init|
          ensures init[i] <= PrevLevel(init, i) + 1
        {
          assert PrevLevel(init, i) == PrevLevel(levels, i);
          assert levels[i] <= PrevLevel(levels, i) + 1;
        }
      }
      UnbrokenDepthBound(init);
      var n := |levels| - 1;
      assert levels[n] <= PrevLevel(levels, n) + 1;
      assert forall i :: 0 <= i < n ==> levels[i] == init[i];
    }
  }

  // ---------------------------------------------------------------------------
  // check_form_labels

  const SkippedTypes: set<string> := {"hidden", "submit", "reset", "button"}

  /** `inp.get('type', 'text')`. */
  function TypeOf(inp: FormInput): string
  {
    if inp.inputType.Some? then inp.inputType.value else "text"
  }

  /** A label points at the input's id, or it has an aria-label or a placeholder. */
  predicate IsLabelled(inp: FormInput, labelFor: set<string>)
  {
    (inp.id != "" && inp.id in labelFor) || inp.ariaLabel != "" || inp.placeholder != ""
  }

  predicate NeedsLabel(inp: FormInput, labelFor: set<string>)
  {
    TypeOf(inp) !in SkippedTypes && !IsLabelled(inp, labelFor)
  }

  /** How many inputs, scanned in order, need a label and have none. */
  function UnlabeledCount(inputs: seq<FormInput>, labelFor: set<string>): nat
  {
    if inputs == [] then 0
    else UnlabeledCount(inputs[..|inputs| - 1], labelFor) + (if NeedsLabel(inputs[|inputs| - 1], labelFor) then 1 else 0)
  }

  function FormIssues(inputs: seq<FormInput>, labelFor: set<string>): (r: seq<Issue>)
    ensures |r| <= 1
  {
    if inputs == [] then []
    else
      var n := UnlabeledCount(inputs, labelFor);
      if n > 0 then [Issue(UnlabeledFormInputs, n)] else []
  }

  /** The count is zero exactly when every input is skipped or labelled, and
      never exceeds the number of inputs that are not skipped. */
  lemma {:induction false} UnlabeledCountSpec(inputs: seq<FormInput>, labelFor: set<string>)
    ensures UnlabeledCount(inputs, labelFor) == 0 <==> forall k :: 0 <= k < |inputs| ==> !NeedsLabel(inputs[k], labelFor)
    ensures UnlabeledCount(inputs, labelFor) <= |inputs|
  {
    if inputs != [] {
      var init := inputs[..|inputs| - 1];
      UnlabeledCountSpec(init, labelFor);
      assert forall k :: 0 <= k < |init| ==> init[k] == inputs[k];
    }
  }

  /** Adding labels to the page never raises the unlabelled count. */
  lemma {:induction false} MoreLabelsNeverHurt(inputs: seq<FormInput>, fewer: set<string>, more: set<string>)
    requires fewer <= more
    ensures UnlabeledCount(inputs, more) <= UnlabeledCount(inputs, fewer)
  {
    if inputs != [] {
      MoreLabelsNeverHurt(inputs[..|inputs| - 1], fewer, more);
    }
  }

  /** The form issue appears exactly when some input needs a label, and
      carries the count. */
  lemma FormIssuesSpec(inputs: seq<FormInput>, labelFor: set<string>)
    ensures var r := FormIssues(inputs, labelFor);
            (HasKind(r, UnlabeledFormInputs) <==> exists k :: 0 <= k < |inputs| && NeedsLabel(inputs[k], labelFor)) &&
            (forall i :: i in r ==> i == Issue(UnlabeledFormInputs, UnlabeledCount(inputs, labelFor)))
  {
    UnlabeledCountSpec(inputs, labelFor);
    var r := FormIssues(inputs, labelFor);
    if r != [] {
      assert r[0].kind == UnlabeledFormInputs;
    }
  }

  // ---------------------------------------------------------------------------
  // check_color_contrast and check_keyboard_accessibility

  function ContrastIssues(styles: string): (r: seq<Issue>)
    ensures |r| <= 1
  {
    var text := Lower(styles);
    if Contains(text, "color: white") && Contains(text, "background: #fff") then [Issue(LowContrast, 0)] else []
  }

  const SkipTargets: set<string> := {"#main", "#content", "#skip"}

  const FeatureSkipTargets: set<string> := {"#main", "#content"}

  predicate LinksTo(anchors: seq<Option<string>>, targets: set<string>)
  {
    exists k :: 0 <= k < |anchors| && anchors[k].Some? && anchors[k].value in targets
  }

  predicate IsPositive(t: Option<int>) { t.Some? && t.value > 0 }

  function KeyboardIssues(p: Page): (r: seq<Issue>)
    ensures |r| <= 3
  {
    (if !LinksTo(p.anchors, SkipTargets) then [Issue(NoSkipLink, 0)] else []) +
    (if |p.anchors| + |p.buttons| + |p.inputs| == 0 then [Issue(NoFocusableElements, 0)] else []) +
    (if exists k :: 0 <= k < |p.tabindexes| && IsPositive(p.tabindexes[k]) then [Issue(PositiveTabindex, 0)] else [])
  }

  // ---------------------------------------------------------------------------
  // count_accessibility_features

  datatype Features = Features(semanticHtml: bool, ariaLabels: bool, altText: bool, skipLinks: bool, langAttribute: bool)

  function FeaturesOf(p: Page): Features
  {
    Features(p.hasSemanticTag, p.hasAriaLabelAttribute,
             exists k :: 0 <= k < |p.images| && p.images[k].alt.Some? && p.images[k].alt.value != "",
             LinksTo(p.anchors, FeatureSkipTargets), p.lang != "")
  }

  /** A page credited with skip links never gets the missing-skip-link issue;
      the converse fails, since the keyboard check also accepts `#skip`. */
  lemma SkipFeatureMeansNoSkipIssue(p: Page)
    ensures FeaturesOf(p).skipLinks ==> !HasKind(KeyboardIssues(p), NoSkipLink)
    ensures p.anchors == [Some("#skip")] ==> !FeaturesOf(p).skipLinks && !HasKind(KeyboardIssues(p), NoSkipLink)
  {
    if p.anchors == [Some("#skip")] {
      assert p.anchors[0].value in SkipTargets;
    }
  }

  // ---------------------------------------------------------------------------
  // check_wcag_level

  datatype WcagLevel = NoConformance | LevelA | LevelAA | LevelAAA

  function WcagRank(w: WcagLevel): nat
  {
    match w
    case NoConformance => 0
    case LevelA => 1
    case LevelAA => 2
    case LevelAAA => 3
  }

  predicate IsCritical(i: Issue) { SeverityOf(i.kind) == Critical }

  /** The level for a number of critical issues. */
  function WcagLevelOf(critical: nat): (w: WcagLevel)
    ensures w == NoConformance <==> critical > 5
    ensures w == LevelA <==> 3 <= critical <= 5
    ensures w == LevelAA <==> 1 <= critical <= 2
    ensures w == LevelAAA <==> critical == 0
  {
    if critical > 5 then NoConformance
    else if critical > 2 then LevelA
    else if critical > 0 then LevelAA
    else LevelAAA
  }

  /** More critical issues never earn a better level. */
  lemma WcagMonotone(fewer: nat, more: nat)
    requires fewer <= more
    ensures WcagRank(WcagLevelOf(more)) <= WcagRank(WcagLevelOf(fewer))
  {
  }

  // ---------------------------------------------------------------------------
  // get_score and get_recommendations

  /** The analyzer's own `get_score`, which overrides the base rule: 0 once
      the count reaches the maximum, otherwise 100 minus the count's share. */
  function AccessibilityScore(issueCount: nat, maxIssues: int): (r: real)
    ensures issueCount >= maxIssues ==> r == 0.0
    ensures issueCount < maxIssues ==> 0.0 < r <= 100.0
    ensures issueCount == 0 && maxIssues > 0 ==> r == 100.0
  {
    if issueCount >= maxIssues then 0.0
    else
      var share := 100.0 / (maxIssues as real);
      assert (issueCount as real) * share < (maxIssues as real) * share;
      100.0 - (issueCount as real) * share
  }

  /** For a positive maximum the override agrees with the base rule (before
      the base rule's rounding); for a zero maximum the override gives 0
      where the base rule gives 100. */
  lemma AccessibilityScoreVersusBase(issueCount: nat, maxIssues: int)
    ensures maxIssues > 0 ==> AccessibilityScore(issueCount, maxIssues) == Base.GetScore(issueCount, maxIssues)
    ensures maxIssues == 0 ==> AccessibilityScore(issueCount, maxIssues) == 0.0 && Base.GetScore(issueCount, maxIssues) == 100.0
  {
    if maxIssues > 0 && issueCount < maxIssues {
      var m := maxIssues as real;
      var n := issueCount as real;
      assert n * (100.0 / m) == n / m * 100.0;
    }
  }

  /** The recommendations, in the order the analyzer tests their issue types;
      `CheckUrlAdvice` belongs to the fetch-error response only. */
  datatype Advice =
    | AltTextAdvice | H1Advice | HeadingOrderAdvice | FormLabelAdvice
    | SkipLinkAdvice | AriaLabelAdvice | KeyboardAdvice | CheckUrlAdvice

  function AdviceText(a: Advice): string
  {
    match a
    case AltTextAdvice => "Add descriptive alt text to all images describing their content"
    case H1Advice => "Add a single H1 heading to describe the main content"
    case HeadingOrderAdvice => "Structure headings in logical order (H1 > H2 > H3, etc.)"
    case FormLabelAdvice => "Associate all form inputs with label elements or aria-label"
    case SkipLinkAdvice => "Add a skip to main content link at the beginning of the page"
    case AriaLabelAdvice => "Add aria-label attributes to buttons without text content"
    case KeyboardAdvice => "Ensure interactive elements are keyboard accessible"
    case CheckUrlAdvice => "Check if the URL is correct and accessible"
  }

  /** Position in the recommendation order (7 for the fetch-error advice). */
  function AdviceRank(a: Advice): nat
  {
    match a
    case AltTextAdvice => 0
    case H1Advice => 1
    case HeadingOrderAdvice => 2
    case FormLabelAdvice => 3
    case SkipLinkAdvice => 4
    case AriaLabelAdvice => 5
    case KeyboardAdvice => 6
    case CheckUrlAdvice => 7
  }

  function AdviceAt(n: nat): (a: Advice)
    requires n < 7
    ensures AdviceRank(a) == n
  {
    [AltTextAdvice, H1Advice, HeadingOrderAdvice, FormLabelAdvice, SkipLinkAdvice, AriaLabelAdvice, KeyboardAdvice][n]
  }

  /** The issue type whose presence calls for the advice. */
  function Trigger(a: Advice): IssueKind
  {
    match a
    case AltTextAdvice => MissingAltText
    case H1Advice => NoH1
    case HeadingOrderAdvice => BrokenHeadingHierarchy
    case FormLabelAdvice => UnlabeledFormInputs
    case SkipLinkAdvice => NoSkipLink
    case AriaLabelAdvice => MissingAriaLabels
    case KeyboardAdvice => NoFocusableElements
    case CheckUrlAdvice => FetchError
  }

  /** The advice at positions n … 6 whose issue type occurs among `issues`. */
  function RecommendFrom(n: nat, issues: seq<Issue>): seq<Advice>
    decreases 7 - n
  {
    if n >= 7 then []
    else (if HasKind(issues, Trigger(AdviceAt(n))) then [AdviceAt(n)] else []) + RecommendFrom(n + 1, issues)
  }

  /** `get_recommendations`. */
  function Recommendations(issues: seq<Issue>): seq<Advice>
  {
    RecommendFrom(0, issues)
  }

  lemma {:induction false} RecommendFromLength(n: nat, issues: seq<Issue>)
    requires n <= 7
    ensures |RecommendFrom(n, issues)| <= 7 - n
    decreases 7 - n
  {
    if n < 7 {
      RecommendFromLength(n + 1, issues);
    }
  }

  lemma {:induction false} RecommendFromMembers(n: nat, issues: seq<Issue>)
    ensures forall a :: a in RecommendFrom(n, issues) <==> n <= AdviceRank(a) < 7 && HasKind(issues, Trigger(a))
    decreases 7 - n
  {
    if n < 7 {
      RecommendFromMembers(n + 1, issues);
      var r := RecommendFrom(n, issues);
      forall a
        ensures a in r <==> n <= AdviceRank(a) < 7 && HasKind(issues, Trigger(a))
      {
        if AdviceRank(a) == n {
          assert a == AdviceAt(n);
        }
      }
    }
  }

  lemma {:induction false} RecommendFromOrdered(n: nat, issues: seq<Issue>)
    ensures forall k :: 0 <= k < |RecommendFrom(n, issues)| ==> n <= AdviceRank(RecommendFrom(n, issues)[k])
    ensures forall i, j :: 0 <= i < j < |RecommendFrom(n, issues)| ==>
              AdviceRank(RecommendFrom(n, issues)[i]) < AdviceRank(RecommendFrom(n, issues)[j])
    decreases 7 - n
  {
    if n < 7 {
      RecommendFromOrdered(n + 1, issues);
      var rest := RecommendFrom(n + 1, issues);
      var head := if HasKind(issues, Trigger(AdviceAt(n))) then [AdviceAt(n)] else [];
      var r := head + rest;
      assert RecommendFrom(n, issues) == r;
      forall k | 0 <= k < |r|
        ensures n <= AdviceRank(r[k])
      {
        if k >= |head| {
          assert r[k] == rest[k - |head|];
        } else {
          assert r[k] == AdviceAt(n);
        }
      }
      forall i, j | 0 <= i < j < |r|
        ensures AdviceRank(r[i]) < AdviceRank(r[j])
      {
        assert r[j] == rest[j - |head|];
        if i >= |head| {
          assert r[i] == rest[i - |head|];
        } else {
          assert r[i] == AdviceAt(n);
        }
      }
    }
  }

  /** A recommendation is given exactly when some issue has its type. */
  lemma RecommendationsMembers(issues: seq<Issue>, a: Advice)
    ensures a in Recommendations(issues) <==> a != CheckUrlAdvice && HasKind(issues, Trigger(a))
  {
    RecommendFromMembers(0, issues);
    assert AdviceRank(a) < 7 <==> a != CheckUrlAdvice;
  }

  /** At most one recommendation per recognised issue type, in the fixed
      order of the checks. */
  lemma RecommendationsOrdered(issues: seq<Issue>)
    ensures |Recommendations(issues)| <= 7
    ensures var r := Recommendations(issues);
            forall i, j :: 0 <= i < j < |r| ==> AdviceRank(r[i]) < AdviceRank(r[j])
  {
    RecommendFromLength(0, issues);
    RecommendFromOrdered(0, issues);
  }

  /** The recommendations depend only on which issue types occur, not on
      their order or on repetitions. */
  lemma {:induction false} RecommendationsIgnoreOrder(a: seq<Issue>, b: seq<Issue>)
    requires forall i :: i in a <==> i in b
    ensures Recommendations(a) == Recommendations(b)
  {
    forall k: IssueKind
      ensures HasKind(a, k) == HasKind(b, k)
    {
      if HasKind(a, k) {
        var i :| 0 <= i < |a| && a[i].kind == k;
        assert a[i] in b;
      }
      if HasKind(b, k) {
        var i :| 0 <= i < |b| && b[i].kind == k;
        assert b[i] in a;
      }
    }
    SameKindsSameAdvice(0, a, b);
  }

  lemma {:induction false} SameKindsSameAdvice(n: nat, a: seq<Issue>, b: seq<Issue>)
    requires forall k: IssueKind :: HasKind(a, k) == HasKind(b, k)
    ensures RecommendFrom(n, a) == RecommendFrom(n, b)
    decreases 7 - n
  {
    if n < 7 {
      SameKindsSameAdvice(n + 1, a, b);
    }
  }

  // ---------------------------------------------------------------------------
  // analyze

  datatype A11yMetrics = NoA11yMetrics | A11yMetrics(wcagLevel: WcagLevel, features: Features)

  datatype A11yReport = A11yReport(score: real, grade: Grade, metrics: A11yMetrics, issues: seq<Issue>, recommendations: seq<Advice>)

  /** `get_error_response`, returned when there is no parsed page. */
  const ErrorReport := A11yReport(0.0, F, NoA11yMetrics, [Issue(FetchError, 0)], [CheckUrlAdvice])

  /** The issue list `analyze` collects, check by check. */
  function PageIssues(p: Page): (r: seq<Issue>)
    ensures |r| <= 12
  {
    AriaIssues(p) + AltIssues(p.images) + HeadingIssues(p.headings) +
    FormIssues(p.inputs, p.labelFor) + ContrastIssues(p.styles) + KeyboardIssues(p)
  }

  function CriticalCount(issues: seq<Issue>): nat
  {
    CountWhere(issues, IsCritical)
  }

  /** The report `analyze` returns for a parsed page. */
  function PageReport(p: Page): A11yReport
  {
    var issues := PageIssues(p);
    var score := AccessibilityScore(|issues|, 50);
    A11yReport(score, StandardGrade(score), A11yMetrics(WcagLevelOf(CriticalCount(issues)), FeaturesOf(p)),
               issues, Recommendations(issues))
  }

  /** Only `missing_alt_text` is critical among the page checks, so a parsed
      page has at most one critical issue: its level is AA when some image
      lacks an alt attribute and AAA otherwise, never A or below. */
  lemma PageWcagLevel(p: Page)
    ensures CriticalCount(PageIssues(p)) == (if CountWhere(p.images, IsMissingAlt) > 0 then 1 else 0)
    ensures PageReport(p).metrics.wcagLevel == (if CountWhere(p.images, IsMissingAlt) > 0 then LevelAA else LevelAAA)
  {
    var a, b, c := AriaIssues(p), AltIssues(p.images), HeadingIssues(p.headings);
    var d, e, f := FormIssues(p.inputs, p.labelFor), ContrastIssues(p.styles), KeyboardIssues(p);
    var ab := a + b;
    var abc := ab + c;
    var abcd := abc + d;
    var abcde := abcd + e;
    assert PageIssues(p) == abcde + f;
    ChecksOtherThanAltNotCritical(p);
    AltCritical(p.images);
    CountWhereAppend(a, b, IsCritical);
    CountWhereAppend(ab, c, IsCritical);
    CountWhereAppend(abc, d, IsCritical);
    CountWhereAppend(abcd, e, IsCritical);
    CountWhereAppend(abcde, f, IsCritical);
  }

  /** Apart from the alt-text check, no check reports a critical issue. */
  lemma ChecksOtherThanAltNotCritical(p: Page)
    ensures CountWhere(AriaIssues(p), IsCritical) == 0
    ensures CountWhere(HeadingIssues(p.headings), IsCritical) == 0
    ensures CountWhere(FormIssues(p.inputs, p.labelFor), IsCritical) == 0
    ensures CountWhere(ContrastIssues(p.styles), IsCritical) == 0
    ensures CountWhere(KeyboardIssues(p), IsCritical) == 0
  {
    AriaNotCritical(p);
    HeadingNotCritical(p.headings);
    NoneCritical(FormIssues(p.inputs, p.labelFor));
    NoneCritical(ContrastIssues(p.styles));
    KeyboardNotCritical(p);
  }

  lemma AriaNotCritical(p: Page)
    ensures CountWhere(AriaIssues(p), IsCritical) == 0
  {
    NoneCritical(AriaIssues(p));
  }

  lemma HeadingNotCritical(levels: seq<Level>)
    ensures CountWhere(HeadingIssues(levels), IsCritical) == 0
  {
    NoneCritical(HeadingIssues(levels));
  }

  lemma KeyboardNotCritical(p: Page)
    ensures CountWhere(KeyboardIssues(p), IsCritical) == 0
  {
    NoneCritical(KeyboardIssues(p));
  }

  lemma NoneCritical(r: seq<Issue>)
    requires forall k :: 0 <= k < |r| ==> r[k].kind != MissingAltText && r[k].kind != FetchError
    ensures CountWhere(r, IsCritical) == 0
  {
    CountWhereZero(r, IsCritical);
  }

  lemma AltCritical(images: seq<Image>)
    ensures CountWhere(AltIssues(images), IsCritical) == (if CountWhere(images, IsMissingAlt) > 0 then 1 else 0)
  {
    if images != [] {
      AltReportCritical(CountWhere(images, IsMissingAlt), CountWhere(images, IsEmptyAlt), CountWhere(images, IsPoorAlt));
    }
  }

  lemma AltReportCritical(missing: nat, empty: nat, poor: nat)
    ensures CountWhere(AltReport(missing, empty, poor), IsCritical) == (if missing > 0 then 1 else 0)
  {
    var a := if missing > 0 then [Issue(MissingAltText, missing)] else [];
    var rest := (if empty > 0 then [Issue(EmptyAltText, empty)] else []) + (if poor > 0 then [Issue(PoorAltText, poor)] else []);
    assert AltReport(missing, empty, poor) == a + rest;
    CountWhereAppend(a, rest, IsCritical);
    NoneCritical(rest);
    if missing > 0 {
      CountWhereSingle(Issue(MissingAltText, missing), IsCritical);
    }
  }

  /** At most 12 issues score at least 76, which grades C or better. */
  lemma FewIssuesGradeAtLeastC(n: nat)
    requires n <= 12
    ensures AccessibilityScore(n, 50) >= 76.0
    ensures Rank(StandardGrade(AccessibilityScore(n, 50))) >= Rank(C)
  {
    var share := 100.0 / (50 as real);
    assert share == 2.0;
    assert (n as real) * share <= 24.0;
  }

  /** A parsed page has at most 12 issues, so it scores at least 76 and its
      grade is C or better. */
  lemma PageGradeAtLeastC(p: Page)
    ensures PageReport(p).score >= 76.0
    ensures Rank(PageReport(p).grade) >= Rank(C)
  {
    FewIssuesGradeAtLeastC(|PageIssues(p)|);
  }

  // ---------------------------------------------------------------------------
  // The analyzer

  class AccessibilityAnalyzer {
    /** The parsed page, None when the fetch failed. */
    const page: Option<Page>
    /** The issues of the last analysis, read by the WCAG check. */
    var issues: seq<Issue>

    constructor(page: Option<Page>)
      ensures this.page == page && issues == []
    {
      this.page := page;
      issues := [];
    }

    /** `check_aria_labels`: counts unlabelled buttons, then reports the
        first <nav> without an aria-label. */
    method CheckAriaLabels() returns (found: seq<Issue>)
      requires page.Some?
      ensures found == AriaIssues(page.value)
    {
      var buttons := page.value.buttons;
      var unlabeled := 0;
      for k := 0 to |buttons|
        invariant unlabeled == CountWhere(buttons[..k], IsUnlabeledButton)
      {
        assert buttons[..k + 1][..k] == buttons[..k];
        if IsBlank(buttons[k].text) && buttons[k].ariaLabel == "" {
          unlabeled := unlabeled + 1;
        }
      }
      assert buttons[..|buttons|] == buttons;
      found := if unlabeled > 0 then [Issue(MissingAriaLabels, unlabeled)] else [];
      var before := found;
      var navs := page.value.navLabels;
      for k := 0 to |navs|
        invariant found == before
        invariant "" !in navs[..k]
      {
        if navs[k] == "" {
          found := found + [Issue(UnlabeledNavigation, 0)];
          break;
        }
        assert navs[..k + 1] == navs[..k] + [navs[k]];
      }
      assert navs[..|navs|] == navs;
    }

    /** `check_alt_text`: buckets each image, then reports each non-empty bucket. */
    method CheckAltText() returns (found: seq<Issue>)
      requires page.Some?
      ensures found == AltIssues(page.value.images)
    {
      var images := page.value.images;
      found := [];
      if |images| == 0 {
        return;
      }
      var missing, empty, poor := 0, 0, 0;
      for k := 0 to |images|
        invariant missing == CountWhere(images[..k], IsMissingAlt)
        invariant empty == CountWhere(images[..k], IsEmptyAlt)
        invariant poor == CountWhere(images[..k], IsPoorAlt)
      {
        assert images[..k + 1][..k] == images[..k];
        var alt := images[k].alt;
        if alt.None? {
          missing := missing + 1;
        } else if IsBlank(alt.value) {
          empty := empty + 1;
        } else if Lower(alt.value) in GenericAlts {
          poor := poor + 1;
        }
      }
      assert images[..|images|] == images;
      if missing > 0 {
        found := found + [Issue(MissingAltText, missing)];
      }
      if empty > 0 {
        found := found + [Issue(EmptyAltText, empty)];
      }
      if poor > 0 {
        found := found + [Issue(PoorAltText, poor)];
      }
    }

    /** `check_heading_structure`: the H1 count, then a scan that stops at
        the first heading more than one level below its predecessor. */
    method CheckHeadingStructure() returns (found: seq<Issue>)
      requires page.Some?
      ensures found == HeadingIssues(page.value.headings)
    {
      var levels := page.value.headings;
      if |levels| == 0 {
        return [Issue(NoHeadings, 0)];
      }
      var h1 := CountWhere<Level>(levels, IsH1);
      found := if h1 == 0 then [Issue(NoH1, 0)] else if h1 > 1 then [Issue(MultipleH1, h1)] else [];
      var prev: int := 0;
      var broken := false;
      var k := 0;
      while k < |levels|
        invariant 0 <= k <= |levels|
        invariant prev == PrevLevel(levels, k)
        invariant !broken
        invariant forall i :: 0 <= i < k ==> levels[i] <= PrevLevel(levels, i) + 1
      {
        if levels[k] > prev + 1 {
          assert levels[k] > PrevLevel(levels, k) + 1;
          broken := true;
          break;
        }
        prev := levels[k];
        k := k + 1;
      }
      if broken {
        found := found + [Issue(BrokenHeadingHierarchy, 0)];
      }
    }

    /** `check_form_labels`: skips hidden and button-like inputs and counts
        the rest that have no label, aria-label or placeholder. */
    method CheckFormLabels() returns (found: seq<Issue>)
      requires page.Some?
      ensures found == FormIssues(page.value.inputs, page.value.labelFor)
    {
      var inputs := page.value.inputs;
      var labelFor := page.value.labelFor;
      if |inputs| == 0 {
        return [];
      }
      var unlabeled := 0;
      for k := 0 to |inputs|
        invariant unlabeled == UnlabeledCount(inputs[..k], labelFor)
      {
        assert inputs[..k + 1][..k] == inputs[..k];
        var inp := inputs[k];
        if TypeOf(inp) in SkippedTypes {
          continue;
        }
        var hasLabel := false;
        if inp.id != "" {
          hasLabel := inp.id in labelFor;
        }
        if inp.ariaLabel != "" {
          hasLabel := true;
        }
        if inp.placeholder != "" {
          hasLabel := true;
        }
        if !hasLabel {
          unlabeled := unlabeled + 1;
        }
      }
      assert inputs[..|inputs|] == inputs;
      found := if unlabeled > 0 then [Issue(UnlabeledFormInputs, unlabeled)] else [];
    }

    /** `check_keyboard_accessibility`: skip link, focusable elements, and
        the first positive tabindex (values that are not integers are skipped). */
    method CheckKeyboardAccessibility() returns (found: seq<Issue>)
      requires page.Some?
      ensures found == KeyboardIssues(page.value)
    {
      var p := page.value;
      found := if !LinksTo(p.anchors, SkipTargets) then [Issue(NoSkipLink, 0)] else [];
      if |p.anchors| + |p.buttons| + |p.inputs| == 0 {
        found := found + [Issue(NoFocusableElements, 0)];
      }
      var before := found;
      var tabs := p.tabindexes;
      for k := 0 to |tabs|
        invariant found == before
        invariant forall i :: 0 <= i < k ==> !IsPositive(tabs[i])
      {
        if tabs[k].Some? && tabs[k].value > 0 {
          found := found + [Issue(PositiveTabindex, 0)];
          break;
        }
      }
    }

    /** `check_wcag_level`: counts the critical issues of the last analysis. */
    method CheckWcagLevel() returns (level: WcagLevel)
      ensures level == WcagLevelOf(CriticalCount(issues))
    {
      var critical := 0;
      for k := 0 to |issues|
        invariant critical == CountWhere(issues[..k], IsCritical)
      {
        assert issues[..k + 1][..k] == issues[..k];
        if SeverityOf(issues[k].kind) == Critical {
          critical := critical + 1;
        }
      }
      assert issues[..|issues|] == issues;
      level := WcagLevelOf(critical);
    }

    /** `analyze`: the error response without a page; otherwise the checks
        in order, the issues stored for the WCAG check, the features, the
        score out of 50 issues, the grade and the recommendations. */
    method Analyze() returns (report: A11yReport)
      modifies this
      ensures page.None? ==> report == ErrorReport && issues == old(issues)
      ensures page.Some? ==> report == PageReport(page.value) && issues == PageIssues(page.value)
    {
      if page.None? {
        return ErrorReport;
      }
      var aria := CheckAriaLabels();
      var alt := CheckAltText();
      var headings := CheckHeadingStructure();
      var forms := CheckFormLabels();
      var contrast := ContrastIssues(page.value.styles);
      var keyboard := CheckKeyboardAccessibility();
      issues := aria + alt + headings + forms + contrast + keyboard;
      var level := CheckWcagLevel();
      var score := AccessibilityScore(|issues|, 50);
      report := A11yReport(score, StandardGrade(score), A11yMetrics(level, FeaturesOf(page.value)),
                           issues, Recommendations(issues));
    }
  }
}
