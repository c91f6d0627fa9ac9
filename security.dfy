/** The security analyzer: whether the site is served over TLS, which of five
    security response headers are missing, whether an https page pulls
    resources over plain http, and whether a generator meta tag names a
    content-management framework. Every issue costs the same share of a
    40-issue budget.

    What the fetch produced is an input: the names of the response headers,
    the response text and the `content` of every `<meta name="generator">`
    tag, or nothing when the fetch failed. The TLS handshake is an input too:
    whether the certificate verified. */
module Security {
  import opened Prelude
  import opened Sequences
  import opened Grading
  import Base
  import Urls

  /** What `fetch_page` obtained: the response's header names as sent, its
      text, and the generator tag contents (an absent `content` reads as ""). */
  datatype Fetch = Fetch(headerNames: set<string>, html: string, generators: seq<string>)

  // ---------------------------------------------------------------------------
  // TLS

  datatype SslInfo = SslInfo(hasSsl: bool, certificateValid: bool, grade: Grade)

  /** The site uses TLS when urlparse reads its scheme as "https". */
  predicate HasSsl(url: string)
  {
    Urls.Scheme(url) == "https"
  }

  /** `check_ssl`: F without TLS; with TLS, A when the certificate verified
      and C when the handshake failed. */
  function CheckSsl(url: string, certVerified: bool): (r: SslInfo)
    ensures r.hasSsl <==> HasSsl(url)
    ensures r.certificateValid <==> r.hasSsl && certVerified
    ensures r.grade == A <==> r.certificateValid
    ensures r.grade == F <==> !r.hasSsl
    ensures r.grade == A || r.grade == C || r.grade == F
  {
    if !HasSsl(url) then SslInfo(false, false, F)
    else if certVerified then SslInfo(true, true, A)
    else SslInfo(true, false, C)
  }

  /** Any URL written with the "https://" prefix has TLS, whatever else it holds. */
  lemma HttpsPrefixHasSsl(url: string)
    requires StartsWith(url, "https://")
    ensures HasSsl(url)
    ensures CheckSsl(url, true).grade == A && CheckSsl(url, false).grade == C
  {
    Urls.HttpsSplit(url);
  }

  /** A URL written with the "http://" prefix has no TLS and grades F. */
  lemma HttpPrefixNoSsl(url: string)
    requires StartsWith(url, "http://")
    ensures !HasSsl(url) && CheckSsl(url, true).grade == F
  {
    Urls.HttpSplit(url);
  }

  // ---------------------------------------------------------------------------
  // Issues

  /** The checked headers, in the order they are checked. */
  datatype Header = Hsts | ContentTypeOptions | FrameOptions | Csp | XssProtection

  const CheckedHeaders: seq<Header> := [Hsts, ContentTypeOptions, FrameOptions, Csp, XssProtection]

  function HeaderRank(h: Header): nat
  {
    match h
    case Hsts => 0
    case ContentTypeOptions => 1
    case FrameOptions => 2
    case Csp => 3
    case XssProtection => 4
  }

  function HeaderName(h: Header): string
  {
    match h
    case Hsts => "Strict-Transport-Security"
    case ContentTypeOptions => "X-Content-Type-Options"
    case FrameOptions => "X-Frame-Options"
    case Csp => "Content-Security-Policy"
    case XssProtection => "X-XSS-Protection"
  }

  /** The name an issue uses for the header. */
  function ShortName(h: Header): string
  {
    match h
    case Hsts => "HSTS"
    case ContentTypeOptions => "X-Content-Type-Options"
    case FrameOptions => "X-Frame-Options"
    case Csp => "CSP"
    case XssProtection => "X-XSS-Protection"
  }

  datatype Severity = Critical | High | Medium

  /** A reported issue; an exposed framework carries the tag content its
      message quotes. */
  datatype Issue = NoSsl | MissingHeader(header: Header) | MixedContent | ExposedFramework(content: string)

  /** The issue's `type` field. */
  function TypeName(i: Issue): string
  {
    match i
    case NoSsl => "no_ssl"
    case MissingHeader(h) => "missing_" + Lower(ShortName(h))
    case MixedContent => "mixed_content"
    case ExposedFramework(_) => "exposed_framework"
  }

  function SeverityOf(i: Issue): Severity
  {
    match i
    case NoSsl => Critical
    case MissingHeader(h) => if ShortName(h) != "CSP" then Medium else High
    case MixedContent => High
    case ExposedFramework(_) => Medium
  }

  /** Only a missing Content-Security-Policy is a high-severity header issue;
      the other four are medium. */
  lemma HeaderSeverity(h: Header)
    ensures SeverityOf(MissingHeader(h)) == High <==> h == Csp
    ensures SeverityOf(MissingHeader(h)) == Medium <==> h != Csp
  {
  }

  /** The five short names have five different lengths. */
  lemma ShortNameLengths(h: Header)
    ensures |ShortName(h)| == 3 <==> h == Csp
    ensures |ShortName(h)| == 4 <==> h == Hsts
  {
  }

  lemma LowerShortNames()
    ensures Lower("CSP") == "csp"
    ensures Lower("HSTS") == "hsts"
  {
    var c := Lower("CSP");
    assert c[0] == 'c' && c[1] == 's' && c[2] == 'p';
    var h := Lower("HSTS");
    assert h[0] == 'h' && h[1] == 's' && h[2] == 't' && h[3] == 's';
  }

  /** The type names the recommendations look for pick out exactly one kind
      of issue each: the header check spells "missing_csp" and
      "missing_hsts" the way the recommendation check expects. */
  lemma TypeNameKeys(i: Issue)
    ensures TypeName(i) == "no_ssl" <==> i == NoSsl
    ensures TypeName(i) == "missing_csp" <==> i == MissingHeader(Csp)
    ensures TypeName(i) == "missing_hsts" <==> i == MissingHeader(Hsts)
    ensures TypeName(i) == "exposed_framework" <==> i.ExposedFramework?
  {
    LowerShortNames();
    if i.MissingHeader? {
      ShortNameLengths(i.header);
      assert |TypeName(i)| == 8 + |ShortName(i.header)|;
    }
  }

  /** Header issues of different headers carry different type names. */
  lemma HeaderTypeNamesDistinct(h1: Header, h2: Header)
    requires h1 != h2
    ensures TypeName(MissingHeader(h1)) != TypeName(MissingHeader(h2))
  {
    assert |TypeName(MissingHeader(h1))| == 8 + |ShortName(h1)|;
    assert |TypeName(MissingHeader(h2))| == 8 + |ShortName(h2)|;
  }

  // ---------------------------------------------------------------------------
  // Security headers

  /** Header lookup ignores case, as the response's header mapping does. */
  predicate HasHeader(names: set<string>, h: Header)
  {
    exists n :: n in names && Lower(n) == Lower(HeaderName(h))
  }

  /** One issue per header of `hs` the response lacks, in the order of `hs`. */
  function MissingFrom(hs: seq<Header>, names: set<string>): (r: seq<Issue>)
    ensures |r| <= |hs|
    ensures forall k :: 0 <= k < |r| ==> r[k].MissingHeader? && r[k].header in hs && !HasHeader(names, r[k].header)
  {
    if hs == [] then []
    else
      var h := hs[|hs| - 1];
      MissingFrom(hs[..|hs| - 1], names) + (if HasHeader(names, h) then [] else [MissingHeader(h)])
  }

  /** `check_security_headers`: without a response the header lookup raises
      and the exception is swallowed, so nothing is reported. */
  function HeaderIssues(response: Option<set<string>>): (r: seq<Issue>)
    ensures |r| <= 5
    ensures forall k :: 0 <= k < |r| ==> r[k].MissingHeader?
  {
    if response.None? then [] else MissingFrom(CheckedHeaders, response.value)
  }

  /** Every checked header the response lacks is reported. */
  lemma {:induction false} MissingFromComplete(hs: seq<Header>, names: set<string>, h: Header)
    requires h in hs && !HasHeader(names, h)
    ensures MissingHeader(h) in MissingFrom(hs, names)
  {
    var init := hs[..|hs| - 1];
    if h != hs[|hs| - 1] {
      assert h in init by {
        var k :| 0 <= k < |hs| && hs[k] == h;
        assert init[k] == h;
      }
      MissingFromComplete(init, names, h);
    }
  }

  /** A response with every header of `hs` gives no issue. */
  lemma {:induction false} MissingFromNone(hs: seq<Header>, names: set<string>)
    requires forall k :: 0 <= k < |hs| ==> HasHeader(names, hs[k])
    ensures MissingFrom(hs, names) == []
  {
    if hs != [] {
      MissingFromNone(hs[..|hs| - 1], names);
    }
  }

  /** The issues follow the order of the headers. */
  lemma {:induction false} MissingFromOrdered(hs: seq<Header>, names: set<string>)
    requires forall i, j :: 0 <= i < j < |hs| ==> HeaderRank(hs[i]) < HeaderRank(hs[j])
    ensures forall i, j :: 0 <= i < j < |MissingFrom(hs, names)| ==>
              HeaderRank(MissingFrom(hs, names)[i].header) < HeaderRank(MissingFrom(hs, names)[j].header)
  {
    if hs != [] {
      var init := hs[..|hs| - 1];
      var h := hs[|hs| - 1];
      MissingFromOrdered(init, names);
      var r0 := MissingFrom(init, names);
      forall k | 0 <= k < |r0|
        ensures HeaderRank(r0[k].header) < HeaderRank(h)
      {
        var m :| 0 <= m < |init| && init[m] == r0[k].header;
      }
    }
  }

  /** With a response, a header issue is reported exactly for each checked
      header the response lacks, in checking order; without one, none is. */
  lemma HeaderIssuesSpec(response: Option<set<string>>, h: Header)
    ensures response.None? ==> HeaderIssues(response) == []
    ensures response.Some? ==>
              (MissingHeader(h) in HeaderIssues(response) <==> !HasHeader(response.value, h))
    ensures var r := HeaderIssues(response);
            forall i, j :: 0 <= i < j < |r| ==> r[i].MissingHeader? && HeaderRank(r[i].header) < HeaderRank(r[j].header)
  {
    if response.Some? {
      var names := response.value;
      assert h in CheckedHeaders by { assert CheckedHeaders[HeaderRank(h)] == h; }
      if !HasHeader(names, h) {
        MissingFromComplete(CheckedHeaders, names, h);
      }
      MissingFromOrdered(CheckedHeaders, names);
    }
  }

  // ---------------------------------------------------------------------------
  // Mixed content

  /** `check_mixed_content`: true when no mixed content was detected. The
      test applies only when the URL text starts with "https" (case
      matters) and there is a non-empty page text. */
  function CheckMixedContent(url: string, html: Option<string>): bool
  {
    !(StartsWith(url, "https") && html.Some? && html.value != [] &&
      Contains(html.value, "http://") && Contains(html.value, "https://") &&
      (Contains(html.value, "src=\"http://") || Contains(html.value, "href=\"http://")))
  }

  /** Mixed content is reported exactly when the URL starts with "https" and
      the page holds an https link and an http `src` or `href`; the separate
      test for "http://" and for a non-empty page adds nothing. */
  lemma MixedContentSpec(url: string, html: Option<string>)
    ensures !CheckMixedContent(url, html) <==>
              StartsWith(url, "https") && html.Some? && Contains(html.value, "https://") &&
              (Contains(html.value, "src=\"http://") || Contains(html.value, "href=\"http://"))
  {
    if html.Some? {
      var t := html.value;
      if Contains(t, "https://") {
        NotEmptyWhenContains(t, "https://");
      }
      HttpInAttributes();
      if Contains(t, "src=\"http://") {
        ContainsTransitive(t, "src=\"http://", "http://");
      }
      if Contains(t, "href=\"http://") {
        ContainsTransitive(t, "href=\"http://", "http://");
      }
    }
  }

  lemma HttpInAttributes()
    ensures Contains("src=\"http://", "http://") && Contains("href=\"http://", "http://")
  {
    var h := "http://";
    assert StartsWith(h, h) by { assert h[..|h|] == h; }
    assert "src=\"http://" == "src=\"" + h;
    ContainsInRight("src=\"", h, h);
    assert "href=\"http://" == "href=\"" + h;
    ContainsInRight("href=\"", h, h);
  }

  lemma NotEmptyWhenContains(s: string, sub: string)
    requires Contains(s, sub) && sub != []
    ensures s != []
  {
    var i := ContainsWitness(s, sub);
  }

  // ---------------------------------------------------------------------------
  // Exposed frameworks

  /** The generator names WordPress or Joomla (case matters). */
  predicate NamesFramework(content: string)
  {
    Contains(content, "WordPress") || Contains(content, "Joomla")
  }

  /** One issue per generator content that names a framework, in tag order. */
  function ExposedFrom(contents: seq<string>): (r: seq<Issue>)
    ensures |r| == CountWhere(contents, NamesFramework)
    ensures forall k :: 0 <= k < |r| ==> r[k].ExposedFramework? && r[k].content in contents && NamesFramework(r[k].content)
  {
    if contents == [] then []
    else
      var c := contents[|contents| - 1];
      ExposedFrom(contents[..|contents| - 1]) + (if NamesFramework(c) then [ExposedFramework(c)] else [])
  }

  /** Every generator that names a framework is reported. */
  lemma {:induction false} ExposedFromComplete(contents: seq<string>, c: string)
    requires c in contents && NamesFramework(c)
    ensures ExposedFramework(c) in ExposedFrom(contents)
  {
    var init := contents[..|contents| - 1];
    if c != contents[|contents| - 1] {
      assert c in init by {
        var k :| 0 <= k < |contents| && contents[k] == c;
        assert init[k] == c;
      }
      ExposedFromComplete(init, c);
    }
  }

  /** Generators that name no framework give no issue. */
  lemma {:induction false} ExposedFromNone(contents: seq<string>)
    requires forall k :: 0 <= k < |contents| ==> !NamesFramework(contents[k])
    ensures ExposedFrom(contents) == []
  {
    if contents != [] {
      ExposedFromNone(contents[..|contents| - 1]);
    }
  }

  /** `check_vulnerabilities`: nothing without a parsed page. */
  function FrameworkIssues(generators: Option<seq<string>>): (r: seq<Issue>)
    ensures forall k :: 0 <= k < |r| ==> r[k].ExposedFramework?
  {
    if generators.None? then [] else ExposedFrom(generators.value)
  }

  // ---------------------------------------------------------------------------
  // The report

  datatype Recommendation = EnableHttps | ImplementCsp | AddHsts | HideFramework

  function RecommendationText(r: Recommendation): string
  {
    match r
    case EnableHttps => "Enable HTTPS with a valid SSL certificate"
    case ImplementCsp => "Implement Content Security Policy (CSP) headers"
    case AddHsts => "Add HSTS header to force HTTPS"
    case HideFramework => "Hide server/framework information from headers"
  }

  function RecommendationRank(r: Recommendation): nat
  {
    match r
    case EnableHttps => 0
    case ImplementCsp => 1
    case AddHsts => 2
    case HideFramework => 3
  }

  /** `t in [issue['type'] for issue in issues]` */
  predicate HasType(issues: seq<Issue>, t: string)
  {
    exists k :: 0 <= k < |issues| && TypeName(issues[k]) == t
  }

  /** `get_recommendations`: one advice per issue type present, in a fixed order. */
  function Recommendations(issues: seq<Issue>): (r: seq<Recommendation>)
    ensures |r| <= 4
  {
    AdviceFor(HasType(issues, "no_ssl"), HasType(issues, "missing_csp"),
              HasType(issues, "missing_hsts"), HasType(issues, "exposed_framework"))
  }

  /** The advice list given which of the four issue types are present. */
  function AdviceFor(noSsl: bool, noCsp: bool, noHsts: bool, framework: bool): (r: seq<Recommendation>)
    ensures |r| <= 4
    ensures EnableHttps in r <==> noSsl
    ensures ImplementCsp in r <==> noCsp
    ensures AddHsts in r <==> noHsts
    ensures HideFramework in r <==> framework
    ensures forall i, j :: 0 <= i < j < |r| ==> RecommendationRank(r[i]) < RecommendationRank(r[j])
  {
    (if noSsl then [EnableHttps] else []) +
    (if noCsp then [ImplementCsp] else []) +
    (if noHsts then [AddHsts] else []) +
    (if framework then [HideFramework] else [])
  }

  lemma HasNoSslType(issues: seq<Issue>)
    ensures HasType(issues, "no_ssl") <==> NoSsl in issues
  {
    forall k | 0 <= k < |issues| {
      TypeNameKeys(issues[k]);
    }
  }

  lemma HasCspType(issues: seq<Issue>)
    ensures HasType(issues, "missing_csp") <==> MissingHeader(Csp) in issues
  {
    forall k | 0 <= k < |issues| {
      TypeNameKeys(issues[k]);
    }
  }

  lemma HasHstsType(issues: seq<Issue>)
    ensures HasType(issues, "missing_hsts") <==> MissingHeader(Hsts) in issues
  {
    forall k | 0 <= k < |issues| {
      TypeNameKeys(issues[k]);
    }
  }

  lemma HasFrameworkType(issues: seq<Issue>)
    ensures HasType(issues, "exposed_framework") <==> exists k :: 0 <= k < |issues| && issues[k].ExposedFramework?
  {
    forall k | 0 <= k < |issues| {
      TypeNameKeys(issues[k]);
    }
  }

  /** Each advice appears exactly when its issue does. */
  lemma RecommendationsSpec(issues: seq<Issue>)
    ensures EnableHttps in Recommendations(issues) <==> NoSsl in issues
    ensures ImplementCsp in Recommendations(issues) <==> MissingHeader(Csp) in issues
    ensures AddHsts in Recommendations(issues) <==> MissingHeader(Hsts) in issues
    ensures HideFramework in Recommendations(issues) <==> exists k :: 0 <= k < |issues| && issues[k].ExposedFramework?
  {
    HasNoSslType(issues);
    HasCspType(issues);
    HasHstsType(issues);
    HasFrameworkType(issues);
  }

  /** The advices come in their fixed order, each at most once. */
  lemma RecommendationsOrdered(issues: seq<Issue>)
    ensures forall i, j :: 0 <= i < j < |Recommendations(issues)| ==>
              RecommendationRank(Recommendations(issues)[i]) < RecommendationRank(Recommendations(issues)[j])
  {
  }

  datatype SecurityReport = SecurityReport(
    score: real, grade: Grade, ssl: SslInfo, issues: seq<Issue>, recommendations: seq<Recommendation>)

  function Response(fetched: Option<Fetch>): Option<set<string>>
  {
    if fetched.None? then None else Some(fetched.value.headerNames)
  }

  function Html(fetched: Option<Fetch>): Option<string>
  {
    if fetched.None? then None else Some(fetched.value.html)
  }

  function Generators(fetched: Option<Fetch>): Option<seq<string>>
  {
    if fetched.None? then None else Some(fetched.value.generators)
  }

  /** The issue list `analyze` assembles from the outcomes of its checks,
      in its order: TLS, headers, mixed content, frameworks. */
  function IssuesOf(hasSsl: bool, headers: seq<Issue>, mixedFree: bool, frameworks: seq<Issue>): seq<Issue>
  {
    (if hasSsl then [] else [NoSsl]) + headers + (if mixedFree then [] else [MixedContent]) + frameworks
  }

  function SecurityIssues(url: string, fetched: Option<Fetch>): seq<Issue>
  {
    IssuesOf(HasSsl(url), HeaderIssues(Response(fetched)), CheckMixedContent(url, Html(fetched)),
             FrameworkIssues(Generators(fetched)))
  }

  function SecurityScore(issues: seq<Issue>): real
  {
    Base.GetScore(|issues|, 40)
  }

  function SecurityReportOf(url: string, fetched: Option<Fetch>, certVerified: bool): SecurityReport
  {
    var issues := SecurityIssues(url, fetched);
    var score := SecurityScore(issues);
    SecurityReport(score, StandardGrade(score), CheckSsl(url, certVerified), issues, Recommendations(issues))
  }

  // ---------------------------------------------------------------------------
  // Properties of the report

  /** The TLS issue is reported exactly when the TLS check failed, and then
      it comes first. */
  lemma NoSslFirstOf(hasSsl: bool, headers: seq<Issue>, mixedFree: bool, frameworks: seq<Issue>)
    requires forall k :: 0 <= k < |headers| ==> headers[k].MissingHeader?
    requires forall k :: 0 <= k < |frameworks| ==> frameworks[k].ExposedFramework?
    ensures NoSsl in IssuesOf(hasSsl, headers, mixedFree, frameworks) <==> !hasSsl
    ensures !hasSsl ==> IssuesOf(hasSsl, headers, mixedFree, frameworks)[0] == NoSsl
  {
    var rest := headers + (if mixedFree then [] else [MixedContent]) + frameworks;
    assert IssuesOf(hasSsl, headers, mixedFree, frameworks) == (if hasSsl then [] else [NoSsl]) + rest;
    assert NoSsl !in headers;
    assert NoSsl !in frameworks;
  }

  /** A site without TLS gets the critical TLS issue, ahead of every other
      issue; a site with TLS never gets it. */
  lemma NoSslFirst(url: string, fetched: Option<Fetch>)
    ensures NoSsl in SecurityIssues(url, fetched) <==> !HasSsl(url)
    ensures !HasSsl(url) ==> SecurityIssues(url, fetched)[0] == NoSsl && SeverityOf(NoSsl) == Critical
  {
    NoSslFirstOf(HasSsl(url), HeaderIssues(Response(fetched)), CheckMixedContent(url, Html(fetched)),
                 FrameworkIssues(Generators(fetched)));
  }

  /** Apart from one per framework-naming generator, at most seven issues can
      be found. */
  lemma IssueCountBound(url: string, fetched: Option<Fetch>)
    ensures |SecurityIssues(url, fetched)| <=
              7 + (if fetched.None? then 0 else CountWhere(fetched.value.generators, NamesFramework))
  {
  }

  /** 100 - 7/40 * 100 */
  lemma SevenIssuesScore()
    ensures Base.GetScore(7, 40) == 82.5
  {
  }

  /** A site whose generators name no framework scores at least 82.5 and
      grades B or better, whatever else is wrong with it. */
  lemma NoFrameworkGradeAtLeastB(url: string, fetched: Option<Fetch>)
    requires fetched.Some? ==> CountWhere(fetched.value.generators, NamesFramework) == 0
    ensures SecurityReportOf(url, fetched, false).score >= 82.5
    ensures Rank(SecurityReportOf(url, fetched, false).grade) >= Rank(B)
  {
    IssueCountBound(url, fetched);
    var n := |SecurityIssues(url, fetched)|;
    Base.GetScoreAntitone(n, 7, 40);
    SevenIssuesScore();
  }

  /** When the fetch fails nothing but the TLS issue can be found, so the
      site scores 97.5 or 100 and grades A. */
  lemma FailedFetchGradedA(url: string, certVerified: bool)
    ensures var r := SecurityReportOf(url, None, certVerified);
            r.issues == (if HasSsl(url) then [] else [NoSsl]) &&
            r.score == (if HasSsl(url) then 100.0 else 97.5) && r.grade == A
  {
    assert CheckMixedContent(url, None);
  }

  /** A TLS site that sends all five headers, loads nothing over http and
      names no framework scores 100 and grades A; any issue lowers the score. */
  lemma CleanSiteScoresFull(url: string, f: Fetch, certVerified: bool)
    requires HasSsl(url)
    requires forall h :: HasHeader(f.headerNames, h)
    requires CheckMixedContent(url, Some(f.html))
    requires forall c :: c in f.generators ==> !NamesFramework(c)
    ensures SecurityReportOf(url, Some(f), certVerified).issues == []
    ensures SecurityReportOf(url, Some(f), certVerified).score == 100.0
    ensures SecurityReportOf(url, Some(f), certVerified).grade == A
  {
    MissingFromNone(CheckedHeaders, f.headerNames);
    ExposedFromNone(f.generators);
  }

  /** The score is 100 only when there is no issue at all. */
  lemma FullScoreMeansNoIssues(issues: seq<Issue>)
    ensures SecurityScore(issues) == 100.0 <==> issues == []
  {
  }

  // ---------------------------------------------------------------------------
  // The analyzer

  class SecurityAnalyzer {
    const url: string
    /** What the fetch obtained, None when it failed. */
    const fetched: Option<Fetch>
    /** Whether the TLS handshake verified the certificate. */
    const certVerified: bool

    constructor(url: string, fetched: Option<Fetch>, certVerified: bool)
      ensures this.url == url && this.fetched == fetched && this.certVerified == certVerified
    {
      this.url := url;
      this.fetched := fetched;
      this.certVerified := certVerified;
    }

    /** `check_security_headers`: walks the five headers in order. */
    method CheckSecurityHeaders() returns (found: seq<Issue>)
      ensures found == HeaderIssues(Response(fetched))
    {
      found := [];
      if fetched.None? {
        return;
      }
      var names := fetched.value.headerNames;
      for k := 0 to |CheckedHeaders|
        invariant found == MissingFrom(CheckedHeaders[..k], names)
      {
        assert CheckedHeaders[..k + 1][..k] == CheckedHeaders[..k];
        var h := CheckedHeaders[k];
        if !HasHeader(names, h) {
          found := found + [MissingHeader(h)];
        }
      }
      assert CheckedHeaders[..|CheckedHeaders|] == CheckedHeaders;
    }

    /** `check_vulnerabilities`: walks the generator tags in order. */
    method CheckVulnerabilities() returns (found: seq<Issue>)
      ensures found == FrameworkIssues(Generators(fetched))
    {
      found := [];
      if fetched.None? {
        return;
      }
      var contents := fetched.value.generators;
      for k := 0 to |contents|
        invariant found == ExposedFrom(contents[..k])
      {
        assert contents[..k + 1][..k] == contents[..k];
        if NamesFramework(contents[k]) {
          found := found + [ExposedFramework(contents[k])];
        }
      }
      assert contents[..|contents|] == contents;
    }

    /** `analyze`: appends the issues check by check, then scores them. */
    method Analyze() returns (report: SecurityReport)
      ensures report == SecurityReportOf(url, fetched, certVerified)
    {
      var issues: seq<Issue> := [];
      var ssl := CheckSsl(url, certVerified);
      if !ssl.hasSsl {
        issues := issues + [NoSsl];
      }
      var headerIssues := CheckSecurityHeaders();
      issues := issues + headerIssues;
      var mixedFree := CheckMixedContent(url, Html(fetched));
      if !mixedFree {
        issues := issues + [MixedContent];
      }
      ghost var front := issues;
      assert front == (if ssl.hasSsl then [] else [NoSsl]) + headerIssues + (if mixedFree then [] else [MixedContent]);
      var vulnIssues := CheckVulnerabilities();
      issues := issues + vulnIssues;
      var score := Base.GetScore(|issues|, 40);
      report := SecurityReport(score, StandardGrade(score), ssl, issues, Recommendations(issues));
    }
  }
}
