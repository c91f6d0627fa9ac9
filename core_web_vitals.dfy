/** The Core Web Vitals analyzer: heuristic estimates of LCP, FID and INP
    from the page text and the fetch time, the Good / Needs Improvement /
    Poor classification of each vital, and the deduction score. The layout
    shift estimate is an input, and the fetch time is a parameter whose
    absence sends the measurement down its error path. */
module CoreWebVitals {
  import opened Prelude
  import opened Grading

  datatype VitalStatus = Good | NeedsImprovement | Poor

  /** One measurement: the four vitals with their verdicts. INP is always
      reported as Good. */
  datatype CwvMetrics =
    | NoCwvMetrics
    | CwvMetrics(
        lcp: int, lcpStatus: VitalStatus,
        fid: int, fidStatus: VitalStatus,
        cls: real, clsStatus: VitalStatus,
        inp: int, inpStatus: VitalStatus)

  datatype CwvReport = CwvReport(
    score: int,
    grade: Grade,
    metrics: CwvMetrics,
    issues: seq<string>,
    recommendations: seq<string>)

  /** The issue text recorded when the measurement raises because the
      analyzer has no fetch time. */
  const MeasurementError := "Error measuring CWV: 'CoreWebVitalsAnalyzer' object has no attribute 'fetch_time'"

  // ---------------------------------------------------------------------------
  // Thresholds and verdicts

  const LcpGood := 2500
  const LcpPoor := 4000
  const FidGood := 100
  const FidPoor := 300
  const ClsGood := 0.1
  const ClsPoor := 0.25

  /** Good strictly below the good threshold, Needs Improvement strictly
      below the poor threshold, Poor from there on. */
  function Classify(value: real, good: real, poor: real): (s: VitalStatus)
    requires good <= poor
    ensures s == Good <==> value < good
    ensures s == NeedsImprovement <==> good <= value < poor
    ensures s == Poor <==> value >= poor
  {
    if value < good then Good else if value < poor then NeedsImprovement else Poor
  }

  // ---------------------------------------------------------------------------
  // Estimators

  /** `_estimate_fid`: 80 ms plus 20 ms per `<script` tag beyond the number
      of "async" mentions, in the lower-cased page, kept within [50, 400];
      80 ms without a page. */
  function EstimateFid(html: string): (fid: int)
    ensures 50 <= fid <= 400
    ensures html == [] ==> fid == 80
  {
    var baseFid :=
      if html != [] then 80 + (Count(Lower(html), "<script") - Count(Lower(html), "async")) * 20
      else 80;
    Min(400, Max(50, baseFid))
  }

  /** The FID estimate is blind to letter case. */
  lemma FidIgnoresCase(html: string)
    ensures EstimateFid(Lower(html)) == EstimateFid(html)
  {
    LowerIdempotent(html);
  }

  /** A page whose every `<script` is matched by an "async" mention (or
      outnumbered by them) never estimates above the 80 ms base. */
  lemma AsyncPagesStayAtBase(html: string)
    requires Count(Lower(html), "<script") <= Count(Lower(html), "async")
    ensures EstimateFid(html) <= 80
  {
  }

  /** `_estimate_inp`: `int(fid * 1.1)`, computed exactly as `fid·11 / 10`
      truncated (for FID in [50, 400] the float product never falls below
      the next integer). */
  function EstimateInp(html: string): int
  {
    TruncDiv(EstimateFid(html) * 11, 10)
  }

  /** INP is never below FID and exceeds it by at most a tenth. */
  lemma InpAtLeastFid(html: string)
    ensures var fid, inp := EstimateFid(html), EstimateInp(html);
            fid <= inp && 10 * inp <= 11 * fid && 55 <= inp <= 440
  {
  }

  /** The size allowance of a page of `n` characters. */
  function SizeAllowance(n: nat): int
  {
    if n > 500000 then 800 else if n > 100000 then 400 else 0
  }

  /** `_estimate_lcp`: 1800 ms, plus the size allowance, plus 50 ms per
      `<img` and 200 ms per `<video` in the lower-cased page, plus twice the
      fetch time truncated; never below 500 ms. */
  function EstimateLcp(html: string, fetchTime: real): (lcp: int)
    ensures lcp >= 500
  {
    var baseLcp :=
      if html != [] then
        1800 + SizeAllowance(|html|) + Count(Lower(html), "<img") * 50 + Count(Lower(html), "<video") * 200
      else 1800;
    Max(500, baseLcp + TruncReal(fetchTime * 2.0))
  }

  /** Truncation toward zero never reverses an order. */
  lemma TruncRealMonotone(x: real, y: real)
    requires x <= y
    ensures TruncReal(x) <= TruncReal(y)
  {
    if x >= 0.0 {
      assert x.Floor <= y.Floor;
    } else if y < 0.0 {
      assert (-y).Floor <= (-x).Floor;
    }
  }

  /** A slower fetch never gives a smaller LCP estimate. */
  lemma LcpGrowsWithFetchTime(html: string, t1: real, t2: real)
    requires t1 <= t2
    ensures EstimateLcp(html, t1) <= EstimateLcp(html, t2)
  {
    TruncRealMonotone(t1 * 2.0, t2 * 2.0);
  }

  /** With a fetch time under 350 ms, a page without images or videos never
      reaches a Poor LCP whatever its size, and an absent page is Good. */
  lemma SmallPagesGoodLcp(html: string, fetchTime: real)
    requires 0.0 <= fetchTime < 350.0
    requires Count(Lower(html), "<img") == 0 && Count(Lower(html), "<video") == 0
    ensures html == [] ==> Classify(EstimateLcp(html, fetchTime) as real, LcpGood as real, LcpPoor as real) == Good
    ensures EstimateLcp(html, fetchTime) < LcpPoor
  {
  }

  /** The metrics of a successful measurement. */
  function MeasuredMetrics(html: string, fetchTime: real, cls: real): (m: CwvMetrics)
    ensures m.CwvMetrics? && m.lcp >= 500 && 50 <= m.fid <= 400 && m.fid <= m.inp
    ensures m.lcpStatus == Classify(m.lcp as real, LcpGood as real, LcpPoor as real)
    ensures m.fidStatus == Classify(m.fid as real, FidGood as real, FidPoor as real)
    ensures m.clsStatus == Classify(m.cls, ClsGood, ClsPoor) && m.inpStatus == Good
  {
    var lcp := EstimateLcp(html, fetchTime);
    var fid := EstimateFid(html);
    InpAtLeastFid(html);
    CwvMetrics(
      lcp, Classify(lcp as real, LcpGood as real, LcpPoor as real),
      fid, Classify(fid as real, FidGood as real, FidPoor as real),
      cls, Classify(cls, ClsGood, ClsPoor),
      EstimateInp(html), Good)
  }

  // ---------------------------------------------------------------------------
  // Score

  function LcpDeduction(lcp: int): int
  {
    if lcp > LcpPoor then 40 else if lcp > LcpGood then 20 else 0
  }

  function FidDeduction(fid: int): int
  {
    if fid > FidPoor then 30 else if fid > FidGood then 15 else 0
  }

  function ClsDeduction(cls: real): int
  {
    if cls > ClsPoor then 30 else if cls > ClsGood then 15 else 0
  }

  /** The score the steps of `_calculate_cwv_score` arrive at. */
  function CwvScore(m: CwvMetrics): int
  {
    if m.NoCwvMetrics? then 0
    else Max(0, 100 - LcpDeduction(m.lcp) - FidDeduction(m.fid) - ClsDeduction(m.cls))
  }

  /** The score lies in [0, 100]: 0 for a failed measurement, and the three
      deductions together can take at most all 100 points. */
  lemma CwvScoreRange(m: CwvMetrics)
    ensures 0 <= CwvScore(m) <= 100
    ensures m.NoCwvMetrics? ==> CwvScore(m) == 0
    ensures m.CwvMetrics? ==>
              CwvScore(m) == 100 - LcpDeduction(m.lcp) - FidDeduction(m.fid) - ClsDeduction(m.cls)
  {
  }

  /** Better vitals never score lower. */
  lemma CwvScoreMonotone(m1: CwvMetrics, m2: CwvMetrics)
    requires m1.CwvMetrics? && m2.CwvMetrics?
    requires m1.lcp <= m2.lcp && m1.fid <= m2.fid && m1.cls <= m2.cls
    ensures CwvScore(m2) <= CwvScore(m1)
  {
  }

  /** A vital judged Good never costs points, one that Needs Improvement
      costs at most the smaller deduction, and a Poor one always costs at
      least the smaller deduction. */
  lemma VerdictsAgreeWithDeductions(m: CwvMetrics)
    requires m.CwvMetrics?
    requires m.lcpStatus == Classify(m.lcp as real, LcpGood as real, LcpPoor as real)
    requires m.fidStatus == Classify(m.fid as real, FidGood as real, FidPoor as real)
    requires m.clsStatus == Classify(m.cls, ClsGood, ClsPoor)
    ensures m.lcpStatus == Good ==> LcpDeduction(m.lcp) == 0
    ensures m.fidStatus == Good ==> FidDeduction(m.fid) == 0
    ensures m.clsStatus == Good ==> ClsDeduction(m.cls) == 0
    ensures m.lcpStatus == NeedsImprovement ==> LcpDeduction(m.lcp) <= 20
    ensures m.fidStatus == NeedsImprovement ==> FidDeduction(m.fid) <= 15
    ensures m.clsStatus == NeedsImprovement ==> ClsDeduction(m.cls) <= 15
    ensures m.lcpStatus == Poor ==> LcpDeduction(m.lcp) >= 20
    ensures m.fidStatus == Poor ==> FidDeduction(m.fid) >= 15
    ensures m.clsStatus == Poor ==> ClsDeduction(m.cls) >= 15
  {
  }

  /** The verdicts use `<` and the deductions `>`, so a value exactly at a
      threshold is judged one step worse than it is charged: at the good
      threshold it Needs Improvement yet costs nothing, and at the poor
      threshold it is Poor yet costs only the smaller deduction. */
  lemma ThresholdsDisagree()
    ensures Classify(LcpGood as real, LcpGood as real, LcpPoor as real) == NeedsImprovement && LcpDeduction(LcpGood) == 0
    ensures Classify(FidGood as real, FidGood as real, FidPoor as real) == NeedsImprovement && FidDeduction(FidGood) == 0
    ensures Classify(ClsGood, ClsGood, ClsPoor) == NeedsImprovement && ClsDeduction(ClsGood) == 0
    ensures Classify(LcpPoor as real, LcpGood as real, LcpPoor as real) == Poor && LcpDeduction(LcpPoor) == 20
    ensures Classify(FidPoor as real, FidGood as real, FidPoor as real) == Poor && FidDeduction(FidPoor) == 15
    ensures Classify(ClsPoor, ClsGood, ClsPoor) == Poor && ClsDeduction(ClsPoor) == 15
  {
  }

  /** A failed measurement scores 0, which is an F on the 90/80/70/60 ladder. */
  lemma FailedMeasurementGradesF()
    ensures CwvScore(NoCwvMetrics) == 0 && StandardGrade(CwvScore(NoCwvMetrics) as real) == F
  {
  }

  class CoreWebVitalsAnalyzer {
    /** The fetched page, empty when there is none. */
    const html: string
    /** The fetch time in milliseconds, None when the analyzer has none. */
    const fetchTime: Option<real>
    /** The layout shift estimate, already rounded to three decimals. */
    const cls: real
    var issues: seq<string>
    var recommendations: seq<string>

    constructor(html: string, fetchTime: Option<real>, cls: real)
      ensures this.html == html && this.fetchTime == fetchTime && this.cls == cls
      ensures issues == [] && recommendations == []
    {
      this.html := html;
      this.fetchTime := fetchTime;
      this.cls := cls;
      issues := [];
      recommendations := [];
    }

    /** `_measure_core_web_vitals`: the LCP estimate is taken first and
        raises without a fetch time; the error is recorded as an issue and
        no metrics are returned. */
    method MeasureCoreWebVitals() returns (metrics: CwvMetrics)
      modifies this
      ensures fetchTime.None? ==> metrics == NoCwvMetrics && issues == old(issues) + [MeasurementError]
      ensures fetchTime.Some? ==> metrics == MeasuredMetrics(html, fetchTime.value, cls) && issues == old(issues)
      ensures recommendations == old(recommendations)
    {
      if fetchTime.None? {
        issues := issues + [MeasurementError];
        return NoCwvMetrics;
      }
      var lcp := EstimateLcp(html, fetchTime.value);
      var lcpStatus := Classify(lcp as real, LcpGood as real, LcpPoor as real);
      var fid := EstimateFid(html);
      var fidStatus := Classify(fid as real, FidGood as real, FidPoor as real);
      var clsStatus := Classify(cls, ClsGood, ClsPoor);
      metrics := CwvMetrics(lcp, lcpStatus, fid, fidStatus, cls, clsStatus, EstimateInp(html), Good);
    }

    /** `_calculate_cwv_score`. */
    method CalculateCwvScore(metrics: CwvMetrics) returns (score: int)
      ensures score == CwvScore(metrics)
    {
      if metrics.NoCwvMetrics? {
        return 0;
      }
      score := 100;
      if metrics.lcp > LcpPoor {
        score := score - 40;
      } else if metrics.lcp > LcpGood {
        score := score - 20;
      }
      if metrics.fid > FidPoor {
        score := score - 30;
      } else if metrics.fid > FidGood {
        score := score - 15;
      }
      if metrics.cls > ClsPoor {
        score := score - 30;
      } else if metrics.cls > ClsGood {
        score := score - 15;
      }
      score := Max(0, score);
    }

    /** `analyze`: resets the lists, measures, scores and grades. Without a
        fetch time the only issue is the error text and the grade is F. */
    method Analyze() returns (report: CwvReport)
      modifies this
      ensures report.metrics == (if fetchTime.None? then NoCwvMetrics else MeasuredMetrics(html, fetchTime.value, cls))
      ensures report.score == CwvScore(report.metrics) && report.grade == StandardGrade(report.score as real)
      ensures issues == (if fetchTime.None? then [MeasurementError] else []) && report.issues == issues
      ensures recommendations == [] && report.recommendations == []
      ensures fetchTime.None? ==> report.score == 0 && report.grade == F
    {
      issues := [];
      recommendations := [];
      var metrics := MeasureCoreWebVitals();
      var score := CalculateCwvScore(metrics);
      report := CwvReport(score, StandardGrade(score as real), metrics, issues, recommendations);
    }
  }
}
