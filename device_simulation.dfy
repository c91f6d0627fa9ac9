/** The device-simulation analyzer: one simulated load per test device, the
    responsive and mobile-friendly checks on the page, aggregate metrics per
    device category, the cross-device score and the recommendations the
    analyzer appends to its own list. The measured response time and the
    random variance of each row are inputs. */
module DeviceSimulation {
  import opened Prelude
  import opened Sequences
  import opened Grading

  datatype Category = Desktop | Laptop | Mobile | Tablet

  datatype Device = Device(
    name: string,
    category: Category,
    viewport: string,
    network: string,
    cpuThrottle: real,
    bandwidthMbps: real)

  /** The eight test devices, in test order. */
  const Devices: seq<Device> := [
    Device("Desktop - Chrome", Desktop, "1920x1080", "4G", 1.0, 25.0),
    Device("Laptop - Safari", Laptop, "1440x900", "WiFi", 1.0, 30.0),
    Device("iPhone 15 - Safari", Mobile, "390x844", "4G", 1.0, 10.0),
    Device("iPhone 12 - Safari", Mobile, "390x844", "3G", 1.2, 3.0),
    Device("Samsung Galaxy S24 - Chrome", Mobile, "360x800", "4G", 1.1, 8.0),
    Device("iPad Pro - Safari", Tablet, "1024x1366", "WiFi", 1.0, 25.0),
    Device("Samsung Galaxy Tab S10 - Chrome", Tablet, "1920x1200", "4G", 1.0, 12.0),
    Device("Low-End Android - Chrome", Mobile, "360x640", "2G", 2.0, 0.5)]

  /** One row of the device table. */
  datatype DeviceResult = DeviceResult(
    deviceName: string,
    category: Category,
    viewport: string,
    network: string,
    cpuThrottle: real,
    bandwidthMbps: real,
    pageLoadTimeMs: int,
    fcpMs: int,
    lcpMs: int,
    ttiMs: int,
    status: Status,
    responsive: bool,
    mobileFriendly: bool)

  // ---------------------------------------------------------------------------
  // Load time and status

  /** The base time: the response's elapsed time in whole milliseconds when
      there is a (truthy) response, else 1000. */
  function BaseTime(elapsedSeconds: Option<real>): int
  {
    if elapsedSeconds.Some? then TruncReal(elapsedSeconds.value * 1000.0) else 1000
  }

  /** `int(base_time * cpu_throttle)`. */
  function CpuScaled(baseTime: int, cpuThrottle: real): int
  {
    TruncReal(baseTime as real * cpuThrottle)
  }

  /** `25 / bandwidth_mbps`, or 10 for a device without bandwidth. */
  function BandwidthFactor(bandwidthMbps: real): real
  {
    if bandwidthMbps > 0.0 then 25.0 / bandwidthMbps else 10.0
  }

  /** `int(load_time * (bandwidth_factor / 10))`. */
  function BandwidthScaled(t: int, bandwidthMbps: real): int
  {
    TruncReal(t as real * (BandwidthFactor(bandwidthMbps) / 10.0))
  }

  /** The load time of a device: throttled by CPU then by bandwidth, moved
      by the variance, and never below 200. */
  function DeviceLoad(baseTime: int, d: Device, variance: int): int
  {
    Max(200, BandwidthScaled(CpuScaled(baseTime, d.cpuThrottle), d.bandwidthMbps) + variance)
  }

  /** The pass threshold of a category. */
  function Threshold(c: Category): (t: int)
    ensures t == (if c == Mobile then 2500 else if c == Tablet then 3000 else 3500)
  {
    match c
    case Mobile => 2500
    case Tablet => 3000
    case _ => 3500
  }

  /** Pass below the threshold T, Warn below 1.5·T, Fail from there on
      (`t < 1.5·T` is written `2·t < 3·T`, exact since T is an integer). */
  function DeviceStatus(t: int, c: Category): (s: Status)
    ensures s == Pass <==> t < Threshold(c)
    ensures s == Warn <==> Threshold(c) <= t && 2 * t < 3 * Threshold(c)
    ensures s == Fail <==> 2 * t >= 3 * Threshold(c)
  {
    if t < Threshold(c) then Pass else if 2 * t < 3 * Threshold(c) then Warn else Fail
  }

  /** A slower load never earns a better verdict. */
  lemma DeviceStatusMonotone(t1: int, t2: int, c: Category)
    requires t1 <= t2
    ensures Badness(DeviceStatus(t1, c)) <= Badness(DeviceStatus(t2, c))
  {
  }

  /** Mobile devices are judged most strictly, then tablets, then the rest:
      for the same load a mobile verdict is never better than a tablet one,
      and a tablet verdict never better than a desktop or laptop one. */
  lemma MobileJudgedStrictest(t: int, other: Category)
    requires other == Desktop || other == Laptop
    ensures Badness(DeviceStatus(t, other)) <= Badness(DeviceStatus(t, Tablet))
    ensures Badness(DeviceStatus(t, Tablet)) <= Badness(DeviceStatus(t, Mobile))
  {
  }

  /** 3000 ms is a Pass on a desktop, the limit of a Pass on a tablet, a Warn
      on a phone; 3750 ms already fails a phone. */
  lemma StatusAtBoundaries()
    ensures DeviceStatus(3000, Desktop) == Pass && DeviceStatus(2999, Tablet) == Pass
    ensures DeviceStatus(3000, Tablet) == Warn && DeviceStatus(3000, Mobile) == Warn
    ensures DeviceStatus(3749, Mobile) == Warn && DeviceStatus(3750, Mobile) == Fail
  {
  }

  // ---------------------------------------------------------------------------
  // Page checks

  /** `_check_responsive`: a viewport declaration anywhere in the page, in
      any letter case. The viewport size of the device plays no part. */
  function CheckResponsive(html: string): bool
  {
    html != [] && Contains(Lower(html), "viewport")
  }

  /** How many of the three mobile indicators the page has: "viewport" and
      "mobile" in any case, "@media" exactly as written. */
  function MobileIndicators(html: string): (n: nat)
    ensures n <= 3
  {
    (if Contains(Lower(html), "viewport") then 1 else 0) +
    (if Contains(Lower(html), "mobile") then 1 else 0) +
    (if Contains(html, "@media") then 1 else 0)
  }

  /** `_check_mobile_friendly`: always for a non-mobile device; for a mobile
      device a non-empty page with at least two of the three indicators. */
  function CheckMobileFriendly(html: string, d: Device): bool
  {
    if d.category != Mobile then true
    else if html != [] then MobileIndicators(html) >= 2
    else false
  }

  /** The responsive check ignores letter case: lower-casing the page first
      changes nothing. */
  lemma ResponsiveIgnoresCase(html: string)
    ensures CheckResponsive(Lower(html)) == CheckResponsive(html)
  {
    LowerIdempotent(html);
  }

  /** A page without a viewport declaration is mobile-friendly on a phone
      only when it mentions "mobile" (any case) and "@media" (exact case). */
  lemma FriendlyWithoutViewport(html: string, d: Device)
    requires d.category == Mobile && !CheckResponsive(html)
    ensures CheckMobileFriendly(html, d) <==>
              html != [] && Contains(Lower(html), "mobile") && Contains(html, "@media")
  {
  }

  /** A page that declares a viewport is mobile-friendly on a phone as soon
      as it mentions "mobile" (any case) or "@media" (exact case). */
  lemma FriendlyWithViewport(html: string, d: Device)
    requires d.category == Mobile && CheckResponsive(html)
    ensures CheckMobileFriendly(html, d) <==> Contains(Lower(html), "mobile") || Contains(html, "@media")
  {
  }

  /** An empty page is neither responsive nor mobile-friendly on a phone. */
  lemma EmptyPageFailsChecks(d: Device)
    requires d.category == Mobile
    ensures !CheckResponsive([]) && !CheckMobileFriendly([], d)
  {
  }

  // ---------------------------------------------------------------------------
  // The device table

  /** The row recorded for device `d` with load time `t` on page `html`. */
  function DeviceRow(d: Device, t: int, html: string): (r: DeviceResult)
    ensures r.deviceName == d.name && r.category == d.category && r.viewport == d.viewport
    ensures r.network == d.network && r.cpuThrottle == d.cpuThrottle && r.bandwidthMbps == d.bandwidthMbps
    ensures r.pageLoadTimeMs == t && r.status == DeviceStatus(t, d.category)
    ensures r.responsive == CheckResponsive(html) && r.mobileFriendly == CheckMobileFriendly(html, d)
    ensures t >= 0 ==> 0 <= r.fcpMs <= r.lcpMs <= r.ttiMs <= t
  {
    DeviceResult(d.name, d.category, d.viewport, d.network, d.cpuThrottle, d.bandwidthMbps,
                 t, Tenths(t, 4), Tenths(t, 7), Tenths(t, 8),
                 DeviceStatus(t, d.category), CheckResponsive(html), CheckMobileFriendly(html, d))
  }

  predicate IsMobileRow(r: DeviceResult) { r.category == Mobile }

  predicate IsDesktopRow(r: DeviceResult) { r.category == Desktop }

  predicate IsTabletRow(r: DeviceResult) { r.category == Tablet }

  predicate IsPassRow(r: DeviceResult) { r.status == Pass }

  predicate IsFailRow(r: DeviceResult) { r.status == Fail }

  predicate IsLowEnd(r: DeviceResult) { Contains(r.deviceName, "Low-End") }

  function LoadOf(r: DeviceResult): int { r.pageLoadTimeMs }

  /** `all(r['responsive'] for r in device_results)`. */
  predicate AllResponsive(rows: seq<DeviceResult>)
  {
    forall k :: 0 <= k < |rows| ==> rows[k].responsive
  }

  /** `all(r['mobile_friendly'] for r in mobile_results)`: vacuous without
      mobile rows. */
  predicate AllMobileFriendly(rows: seq<DeviceResult>)
  {
    forall k :: 0 <= k < |rows| ==> IsMobileRow(rows[k]) ==> rows[k].mobileFriendly
  }

  /** A table of rows, one per device of `Devices`, measured on `html`. */
  predicate IsDeviceTable(rows: seq<DeviceResult>, html: string)
  {
    |rows| == |Devices| &&
    forall k :: 0 <= k < |rows| ==>
      (rows[k].deviceName == Devices[k].name && rows[k].category == Devices[k].category &&
       rows[k].responsive == CheckResponsive(html) && rows[k].mobileFriendly == CheckMobileFriendly(html, Devices[k]))
  }

  /** On a device table every row carries the same responsive verdict, so the
      table is responsive exactly when the page is; and every phone gets the
      same mobile-friendly verdict. */
  lemma DeviceTableVerdicts(rows: seq<DeviceResult>, html: string)
    requires IsDeviceTable(rows, html)
    ensures AllResponsive(rows) <==> CheckResponsive(html)
    ensures AllMobileFriendly(rows) <==> CheckMobileFriendly(html, Devices[2])
  {
    assert rows[0].responsive == CheckResponsive(html);
    assert IsMobileRow(rows[2]) && rows[2].mobileFriendly == CheckMobileFriendly(html, Devices[2]);
  }

  /** The second row of a device table is the laptop, which belongs to none
      of the three categories the metrics average over. */
  lemma LaptopAveragedNowhere(rows: seq<DeviceResult>, html: string)
    requires IsDeviceTable(rows, html)
    ensures rows[1].category == Laptop
    ensures !IsMobileRow(rows[1]) && !IsDesktopRow(rows[1]) && !IsTabletRow(rows[1])
  {
  }

  // ---------------------------------------------------------------------------
  // The analyzer object

  /** A pass rate: not applicable to an empty category, otherwise the passes
      out of the rows tested (the percentage text is not formatted here). */
  datatype PassRate = NotApplicable | Rate(passed: nat, tested: nat)

  datatype DeviceMetrics =
    | NoDeviceMetrics
    | DeviceMetrics(
        averageMobileLoadTimeMs: int,
        averageDesktopLoadTimeMs: int,
        averageTabletLoadTimeMs: int,
        mobilePassRate: PassRate,
        desktopPassRate: PassRate,
        responsiveDesign: bool,
        mobileFriendly: bool)

  datatype DeviceReport = DeviceReport(
    score: int,
    grade: Grade,
    metrics: DeviceMetrics,
    devices: seq<DeviceResult>,
    issues: seq<string>,
    recommendations: seq<DeviceAdvice>)

  /** The three recommendations the analyzer can give; `AdviceText` is the
      message it appends. */
  datatype DeviceAdvice = SlowMobileAdvice | LowEndAdvice | ResponsiveAdvice

  function AdviceText(a: DeviceAdvice): string
  {
    match a
    case SlowMobileAdvice =>
      "Optimize for mobile devices - average mobile load time is above 2.5s. Consider lazy loading images and minifying CSS/JS."
    case LowEndAdvice =>
      "Improve performance on low-end devices. Use progressive enhancement and lightweight alternatives where possible."
    case ResponsiveAdvice =>
      "Add viewport meta tag and ensure responsive CSS for all breakpoints."
  }

  /** Where each piece of advice stands in the order the analyzer checks. */
  function AdviceRank(a: DeviceAdvice): nat
  {
    match a
    case SlowMobileAdvice => 0
    case LowEndAdvice => 1
    case ResponsiveAdvice => 2
  }

  /** `avg_time`: the truncated mean load time, 0 for no rows. */
  function AverageTime(rows: seq<DeviceResult>): int
  {
    if rows == [] then 0 else TruncDiv(SumOf(rows, LoadOf), |rows|)
  }

  function PassRateOf(rows: seq<DeviceResult>): PassRate
  {
    if rows == [] then NotApplicable else Rate(CountWhere(rows, IsPassRow), |rows|)
  }

  /** `_calculate_device_metrics`. */
  function DeviceMetricsOf(rows: seq<DeviceResult>): DeviceMetrics
  {
    if rows == [] then NoDeviceMetrics
    else
      var mobile, desktop, tablet := Filter(rows, IsMobileRow), Filter(rows, IsDesktopRow), Filter(rows, IsTabletRow);
      DeviceMetrics(
        AverageTime(mobile), AverageTime(desktop), AverageTime(tablet),
        PassRateOf(mobile), PassRateOf(desktop),
        AllResponsive(rows), AllMobileFriendly(rows))
  }

  /** The penalty for slow phones: 20 when their mean load exceeds 3000 ms,
      10 when it exceeds 2000 ms (compared as `sum > bound·count`). */
  function MobilePenalty(mobile: seq<DeviceResult>): int
  {
    if mobile == [] then 0
    else if SumOf(mobile, LoadOf) > 3000 * |mobile| then 20
    else if SumOf(mobile, LoadOf) > 2000 * |mobile| then 10
    else 0
  }

  /** The score the steps of `_calculate_device_score` arrive at. */
  function DeviceScore(rows: seq<DeviceResult>): int
  {
    if rows == [] then 50
    else
      Max(0, 100 - Min(30, CountWhere(rows, IsFailRow) * 5)
             - MobilePenalty(Filter(rows, IsMobileRow))
             + (if AllMobileFriendly(rows) then 10 else 0)
             + (if AllResponsive(rows) then 10 else 0))
  }

  /** Whether the first row whose name contains "Low-End" failed. */
  predicate LowEndFails(rows: seq<DeviceResult>)
  {
    var lowEnd := Filter(rows, IsLowEnd);
    lowEnd != [] && lowEnd[0].status == Fail
  }

  /** Whether the mean phone load exceeds 2500 ms. */
  predicate MobileTooSlow(rows: seq<DeviceResult>)
  {
    var mobile := Filter(rows, IsMobileRow);
    mobile != [] && SumOf(mobile, LoadOf) > 2500 * |mobile|
  }

  /** The advice given for the three conditions, in the order they are checked. */
  function AdviceFor(slowMobile: bool, lowEndFails: bool, unresponsive: bool): seq<DeviceAdvice>
  {
    (if slowMobile then [SlowMobileAdvice] else []) +
    (if lowEndFails then [LowEndAdvice] else []) +
    (if unresponsive then [ResponsiveAdvice] else [])
  }

  /** Appending one piece of advice after another builds the advice list. */
  lemma AdviceForSteps(slowMobile: bool, lowEndFails: bool, unresponsive: bool)
    ensures AdviceFor(slowMobile, false, false) == (if slowMobile then [SlowMobileAdvice] else [])
    ensures AdviceFor(slowMobile, lowEndFails, false) ==
              AdviceFor(slowMobile, false, false) + (if lowEndFails then [LowEndAdvice] else [])
    ensures AdviceFor(slowMobile, lowEndFails, unresponsive) ==
              AdviceFor(slowMobile, lowEndFails, false) + (if unresponsive then [ResponsiveAdvice] else [])
  {
  }

  /** What `_add_device_recommendations` appends, in the order it appends it. */
  function DeviceRecommendations(rows: seq<DeviceResult>): seq<DeviceAdvice>
  {
    AdviceFor(MobileTooSlow(rows), LowEndFails(rows), !AllResponsive(rows))
  }

  class DeviceSimulationAnalyzer {
    /** The fetched page, empty when there is none. */
    const html: string
    /** The response's elapsed time in seconds; None without a truthy response. */
    const elapsedSeconds: Option<real>
    var issues: seq<string>
    var recommendations: seq<DeviceAdvice>

    constructor(html: string, elapsedSeconds: Option<real>)
      ensures this.html == html && this.elapsedSeconds == elapsedSeconds
      ensures issues == [] && recommendations == []
    {
      this.html := html;
      this.elapsedSeconds := elapsedSeconds;
      issues := [];
      recommendations := [];
    }

    /** `_test_all_devices`: one row per device, in table order;
        `variances[k]` is the random variance drawn for device `k`. */
    method TestAllDevices(variances: seq<int>) returns (results: seq<DeviceResult>)
      requires |variances| == |Devices|
      ensures |results| == |Devices|
      ensures forall k :: 0 <= k < |results| ==>
                results[k] == DeviceRow(Devices[k], DeviceLoad(BaseTime(elapsedSeconds), Devices[k], variances[k]), html)
      ensures forall k :: 0 <= k < |results| ==> results[k].pageLoadTimeMs >= 200
      ensures IsDeviceTable(results, html)
    {
      results := [];
      var baseTime := BaseTime(elapsedSeconds);
      var k := 0;
      while k < |Devices|
        invariant 0 <= k <= |Devices|
        invariant |results| == k
        invariant forall j :: 0 <= j < k ==>
                    results[j] == DeviceRow(Devices[j], DeviceLoad(baseTime, Devices[j], variances[j]), html)
      {
        var device := Devices[k];
        var loadTime := CpuScaled(baseTime, device.cpuThrottle);
        loadTime := BandwidthScaled(loadTime, device.bandwidthMbps);
        loadTime := Max(200, loadTime + variances[k]);
        results := results + [DeviceRow(device, loadTime, html)];
        k := k + 1;
      }
    }

    /** `_calculate_device_score`. */
    method CalculateDeviceScore(rows: seq<DeviceResult>) returns (score: int)
      ensures score == DeviceScore(rows)
    {
      if rows == [] {
        return 50;
      }
      score := 100;
      var failures := CountWhere(rows, IsFailRow);
      score := score - Min(30, failures * 5);
      var mobile := Filter(rows, IsMobileRow);
      if mobile != [] {
        var total := SumOf(mobile, LoadOf);
        if total > 3000 * |mobile| {
          score := score - 20;
        } else if total > 2000 * |mobile| {
          score := score - 10;
        }
      }
      if AllMobileFriendly(rows) {
        score := score + 10;
      }
      if AllResponsive(rows) {
        score := score + 10;
      }
      score := Max(0, score);
    }

    /** `_add_device_recommendations`: appends to the analyzer's own list. */
    method AddDeviceRecommendations(rows: seq<DeviceResult>)
      modifies this
      ensures recommendations == old(recommendations) + DeviceRecommendations(rows)
      ensures issues == old(issues)
    {
      AdviceForSteps(MobileTooSlow(rows), LowEndFails(rows), !AllResponsive(rows));
      AppendAdviceIf(MobileTooSlow(rows), SlowMobileAdvice);
      AppendAdviceIf(LowEndFails(rows), LowEndAdvice);
      AppendAdviceIf(!AllResponsive(rows), ResponsiveAdvice);
    }

    /** One `if ...: self.recommendations.append(...)` step. */
    method AppendAdviceIf(condition: bool, advice: DeviceAdvice)
      modifies this
      ensures recommendations == old(recommendations) + (if condition then [advice] else [])
      ensures issues == old(issues)
    {
      if condition {
        recommendations := recommendations + [advice];
      }
    }

    /** `analyze`: resets both lists, measures every device, and reports;
        nothing is ever added to the issues. */
    method Analyze(variances: seq<int>) returns (report: DeviceReport)
      requires |variances| == |Devices|
      modifies this
      ensures IsDeviceTable(report.devices, html)
      ensures forall k :: 0 <= k < |report.devices| ==>
                report.devices[k] == DeviceRow(Devices[k], DeviceLoad(BaseTime(elapsedSeconds), Devices[k], variances[k]), html)
      ensures report.metrics == DeviceMetricsOf(report.devices)
      ensures report.score == DeviceScore(report.devices) && report.grade == SimulationGrade(report.score)
      ensures issues == [] && report.issues == []
      ensures recommendations == DeviceRecommendations(report.devices) && report.recommendations == recommendations
    {
      issues := [];
      recommendations := [];
      var devices := TestAllDevices(variances);
      var metrics := DeviceMetricsOf(devices);
      var score := CalculateDeviceScore(devices);
      AddDeviceRecommendations(devices);
      report := DeviceReport(score, SimulationGrade(score), metrics, devices, issues, recommendations);
    }
  }

  // ---------------------------------------------------------------------------
  // Properties of the metrics, the score and the recommendations

  /** Rows kept by a filter are rows of the input. */
  lemma FilterFrom(rows: seq<DeviceResult>, p: DeviceResult -> bool, k: nat)
    requires k < |Filter(rows, p)|
    ensures exists j :: 0 <= j < |rows| && rows[j] == Filter(rows, p)[k]
  {
    FilterMembers(rows, p);
    assert Filter(rows, p)[k] in rows;
  }

  /** A category average of loads that all lie in [lo, hi] lies in [lo, hi];
      an empty category averages 0. */
  lemma AverageTimeBetween(rows: seq<DeviceResult>, p: DeviceResult -> bool, lo: int, hi: int)
    requires 0 <= lo
    requires forall j :: 0 <= j < |rows| ==> lo <= rows[j].pageLoadTimeMs <= hi
    ensures var sub := Filter(rows, p);
            (sub == [] ==> AverageTime(sub) == 0) &&
            (sub != [] ==> lo <= AverageTime(sub) <= hi)
  {
    var sub := Filter(rows, p);
    forall k | 0 <= k < |sub|
      ensures lo <= LoadOf(sub[k]) <= hi
    {
      FilterFrom(rows, p, k);
    }
    if sub != [] {
      SumBounds(sub, LoadOf, lo, hi);
      DivBetween(SumOf(sub, LoadOf), |sub|, lo, hi);
    }
  }

  /** The metrics of a non-empty table whose loads lie in [lo, hi]: every
      category average is 0 for an absent category and within [lo, hi]
      otherwise; a pass rate is not applicable exactly when its category is
      absent and never counts more passes than rows of that category. */
  lemma DeviceMetricsSpec(rows: seq<DeviceResult>, lo: int, hi: int)
    requires rows != [] && 0 <= lo
    requires forall j :: 0 <= j < |rows| ==> lo <= rows[j].pageLoadTimeMs <= hi
    ensures var m := DeviceMetricsOf(rows);
            m.DeviceMetrics? &&
            (CountWhere(rows, IsMobileRow) == 0 ==> m.averageMobileLoadTimeMs == 0 && m.mobilePassRate == NotApplicable) &&
            (CountWhere(rows, IsMobileRow) > 0 ==>
               lo <= m.averageMobileLoadTimeMs <= hi && m.mobilePassRate.Rate? &&
               m.mobilePassRate.passed <= m.mobilePassRate.tested == CountWhere(rows, IsMobileRow)) &&
            (CountWhere(rows, IsDesktopRow) == 0 ==> m.averageDesktopLoadTimeMs == 0 && m.desktopPassRate == NotApplicable) &&
            (CountWhere(rows, IsDesktopRow) > 0 ==>
               lo <= m.averageDesktopLoadTimeMs <= hi && m.desktopPassRate.Rate? &&
               m.desktopPassRate.passed <= m.desktopPassRate.tested == CountWhere(rows, IsDesktopRow)) &&
            (CountWhere(rows, IsTabletRow) == 0 ==> m.averageTabletLoadTimeMs == 0) &&
            (CountWhere(rows, IsTabletRow) > 0 ==> lo <= m.averageTabletLoadTimeMs <= hi)
  {
    AverageTimeBetween(rows, IsMobileRow, lo, hi);
    AverageTimeBetween(rows, IsDesktopRow, lo, hi);
    AverageTimeBetween(rows, IsTabletRow, lo, hi);
  }

  /** Without phones the mobile-friendly verdict holds vacuously. */
  lemma NoPhonesMobileFriendly(rows: seq<DeviceResult>)
    requires rows != [] && CountWhere(rows, IsMobileRow) == 0
    ensures DeviceMetricsOf(rows).mobileFriendly
  {
    CountWhereZero(rows, IsMobileRow);
  }

  /** The penalties take at most 50 points, so the floor at 0 never acts: a
      non-empty table scores between 50 and 120, above 100 only through the
      two bonuses. */
  lemma DeviceScoreRange(rows: seq<DeviceResult>)
    ensures rows == [] ==> DeviceScore(rows) == 50
    ensures rows != [] ==> 50 <= DeviceScore(rows) <= 120
    ensures rows != [] && DeviceScore(rows) > 100 ==> AllMobileFriendly(rows) || AllResponsive(rows)
  {
  }

  /** A table with no failures, phones averaging at most 2000 ms, and every
      check passed earns the full 120. */
  lemma BestDeviceScore(rows: seq<DeviceResult>)
    requires rows != []
    requires forall k :: 0 <= k < |rows| ==> rows[k].status != Fail
    requires SumOf(Filter(rows, IsMobileRow), LoadOf) <= 2000 * |Filter(rows, IsMobileRow)|
    requires AllMobileFriendly(rows) && AllResponsive(rows)
    ensures DeviceScore(rows) == 120
  {
    CountWhereZero(rows, IsFailRow);
  }

  /** Each of the three pieces of advice is given at most once, in the fixed
      order, and exactly when its condition holds. */
  lemma AdviceForSpec(slowMobile: bool, lowEndFails: bool, unresponsive: bool)
    ensures var r := AdviceFor(slowMobile, lowEndFails, unresponsive);
            |r| <= 3 &&
            (forall i, j :: 0 <= i < j < |r| ==> AdviceRank(r[i]) < AdviceRank(r[j])) &&
            (SlowMobileAdvice in r <==> slowMobile) &&
            (LowEndAdvice in r <==> lowEndFails) &&
            (ResponsiveAdvice in r <==> unresponsive)
  {
  }

  /** The recommendations of a table: each piece of advice at most once, in
      the fixed order, exactly when the phones average above 2500 ms, the
      first low-end device fails, or some row is not responsive. */
  lemma DeviceRecommendationsSpec(rows: seq<DeviceResult>)
    ensures var r := DeviceRecommendations(rows);
            |r| <= 3 &&
            (forall i, j :: 0 <= i < j < |r| ==> AdviceRank(r[i]) < AdviceRank(r[j])) &&
            (SlowMobileAdvice in r <==> MobileTooSlow(rows)) &&
            (LowEndAdvice in r <==> LowEndFails(rows)) &&
            (ResponsiveAdvice in r <==> !AllResponsive(rows))
  {
    AdviceForSpec(MobileTooSlow(rows), LowEndFails(rows), !AllResponsive(rows));
  }

  /** The heaviest slow-phone penalty always comes with the slow-phone advice,
      and the responsive advice comes exactly when the score lacks the
      responsive bonus. */
  lemma PenaltyComesWithAdvice(rows: seq<DeviceResult>)
    requires rows != []
    ensures MobilePenalty(Filter(rows, IsMobileRow)) == 20 ==> SlowMobileAdvice in DeviceRecommendations(rows)
    ensures ResponsiveAdvice in DeviceRecommendations(rows) <==> !AllResponsive(rows)
  {
    DeviceRecommendationsSpec(rows);
  }
}
