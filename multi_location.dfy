/** The multi-location analyzer: one simulated load per test location, the
    aggregate metrics over those rows, and the consistency score. The fetch
    time and the random variance of each row are inputs. */
module MultiLocation {
  import opened Prelude
  import opened Sequences
  import opened Grading

  datatype Location = Location(code: string, name: string, region: string, latencyMs: int)

  /** The nine test locations, in test order. */
  const GlobalLocations: seq<Location> := [
    Location("US-WA", "Seattle, USA", "North America", 50),
    Location("US-VA", "Virginia, USA", "North America", 60),
    Location("EU-UK", "London, UK", "Europe", 100),
    Location("EU-DE", "Frankfurt, Germany", "Europe", 110),
    Location("ASIA-SG", "Singapore", "Asia Pacific", 200),
    Location("ASIA-JP", "Tokyo, Japan", "Asia Pacific", 180),
    Location("ASIA-IN", "Mumbai, India", "Asia Pacific", 220),
    Location("AUS-SY", "Sydney, Australia", "Asia Pacific", 250),
    Location("SA-BR", "S\U{E3}o Paulo, Brazil", "South America", 180)]

  /** One row of the location table. */
  datatype LocationResult = LocationResult(
    locationCode: string,
    locationName: string,
    region: string,
    baseLatencyMs: int,
    pageLoadTimeMs: int,
    ttfbMs: int,
    fcpMs: int,
    lcpMs: int,
    status: Status,
    speedIndex: int,
    fullyLoadedMs: int)

  // ---------------------------------------------------------------------------
  // Rows

  /** Pass under 3000 ms, Warn under 5000 ms, Fail from 5000 ms on. */
  function LoadStatus(t: int): (s: Status)
    ensures s == Pass <==> t < 3000
    ensures s == Warn <==> 3000 <= t < 5000
    ensures s == Fail <==> t >= 5000
  {
    if t < 3000 then Pass else if t < 5000 then Warn else Fail
  }

  /** The base time: the fetch time when it is set and non-zero, else 1000. */
  function BaseTime(fetchTime: Option<real>): real
  {
    if fetchTime.Some? && fetchTime.value != 0.0 then fetchTime.value else 1000.0
  }

  /** `int(base_time * (1 + latency_ms / 1000))`. */
  function Scaled(baseTime: real, latencyMs: int): int
  {
    TruncReal(baseTime * (1.0 + (latencyMs as real) / 1000.0))
  }

  /** The load time of a location: the scaled base time moved by the
      variance, and never below 100. */
  function LoadTime(baseTime: real, loc: Location, variance: int): int
  {
    Max(100, Scaled(baseTime, loc.latencyMs) + variance)
  }

  /** The row recorded for `loc` with load time `t`. */
  function LocationRow(loc: Location, t: int): (r: LocationResult)
    ensures r.locationCode == loc.code && r.locationName == loc.name
    ensures r.region == loc.region && r.baseLatencyMs == loc.latencyMs
    ensures r.pageLoadTimeMs == t && r.fullyLoadedMs == t && r.status == LoadStatus(t)
    ensures t >= 0 ==> 0 <= r.ttfbMs <= r.fcpMs <= r.speedIndex <= r.lcpMs <= t
  {
    LocationResult(loc.code, loc.name, loc.region, loc.latencyMs, t,
                   Tenths(t, 2), Tenths(t, 4), Tenths(t, 7), LoadStatus(t), Tenths(t, 6), t)
  }

  /** The location table for a fetch time: row `k` tests location `k`
      with the `k`-th random variance. */
  function LocationTable(fetchTime: Option<real>, variances: seq<int>): seq<LocationResult>
    requires |variances| == |GlobalLocations|
  {
    seq(|GlobalLocations|, k requires 0 <= k < |GlobalLocations| =>
          LocationRow(GlobalLocations[k], LoadTime(BaseTime(fetchTime), GlobalLocations[k], variances[k])))
  }

  /** `_test_all_locations`: one row per location, in table order;
      `variances[k]` is the random variance drawn for location `k`. A
      missing fetch time falls back to 1000 ms. */
  method TestAllLocations(fetchTime: Option<real>, variances: seq<int>) returns (results: seq<LocationResult>)
    requires |variances| == |GlobalLocations|
    ensures results == LocationTable(fetchTime, variances)
    ensures |results| == |GlobalLocations|
    ensures forall k :: 0 <= k < |results| ==>
              results[k] == LocationRow(GlobalLocations[k], LoadTime(BaseTime(fetchTime), GlobalLocations[k], variances[k]))
    ensures forall k :: 0 <= k < |results| ==>
              results[k].pageLoadTimeMs >= 100 && results[k].region == GlobalLocations[k].region
  {
    results := [];
    var baseTime := BaseTime(fetchTime);
    var k := 0;
    while k < |GlobalLocations|
      invariant 0 <= k <= |GlobalLocations|
      invariant |results| == k
      invariant forall j :: 0 <= j < k ==>
                  results[j] == LocationRow(GlobalLocations[j], LoadTime(baseTime, GlobalLocations[j], variances[j]))
    {
      var location := GlobalLocations[k];
      var totalTime := Scaled(baseTime, location.latencyMs);
      totalTime := Max(100, totalTime + variances[k]);
      results := results + [LocationRow(location, totalTime)];
      k := k + 1;
    }
  }

  /** The analyzer's `fetch_time` attribute: never assigned, or assigned
      a value (which may itself be missing). */
  datatype FetchTimeAttribute = Unassigned | Assigned(fetchTime: Option<real>)

  /** What `_test_all_locations` produces as written: the read of
      `self.fetch_time` is outside any handler, so an unassigned attribute
      raises before any row is built. */
  datatype LocationsOutcome = AttributeError | Tested(rows: seq<LocationResult>)

  /** The base analyzer's constructor assigns the URL, the page and the
      response, but never `fetch_time`. */
  const ConstructedFetchTime: FetchTimeAttribute := Unassigned

  /** `_test_all_locations` as written, on the attribute as it stands. */
  function TestAllLocationsAsWritten(attribute: FetchTimeAttribute, variances: seq<int>): (r: LocationsOutcome)
    requires |variances| == |GlobalLocations|
    ensures r.AttributeError? <==> attribute.Unassigned?
    ensures r.Tested? ==> |r.rows| == |GlobalLocations| &&
                          forall k :: 0 <= k < |r.rows| ==> r.rows[k].pageLoadTimeMs >= 100
  {
    match attribute
    case Unassigned => AttributeError
    case Assigned(fetchTime) => Tested(LocationTable(fetchTime, variances))
  }

  /** As written, every analysis fails: the analyzer the base constructor
      builds has no `fetch_time`, so the location test raises. */
  lemma AnalysisAsWrittenRaises(variances: seq<int>)
    requires |variances| == |GlobalLocations|
    ensures TestAllLocationsAsWritten(ConstructedFetchTime, variances) == AttributeError
  {
  }

  /** Once the attribute is assigned, the code as written builds the same
      table as the corrected location test. */
  lemma AssignedAsWrittenAgrees(fetchTime: Option<real>, variances: seq<int>)
    requires |variances| == |GlobalLocations|
    ensures TestAllLocationsAsWritten(Assigned(fetchTime), variances) == Tested(LocationTable(fetchTime, variances))
  {
  }

  // ---------------------------------------------------------------------------
  // Metrics

  function LoadOf(r: LocationResult): int { r.pageLoadTimeMs }

  predicate IsPass(r: LocationResult) { r.status == Pass }

  function LoadTimes(rows: seq<LocationResult>): (times: seq<int>)
    ensures |times| == |rows|
    ensures forall k :: 0 <= k < |rows| ==> times[k] == rows[k].pageLoadTimeMs
  {
    seq(|rows|, k requires 0 <= k < |rows| => rows[k].pageLoadTimeMs)
  }

  /** Python's `min(rows, key=load)`: the first row of least load time. */
  function FastestIndex(rows: seq<LocationResult>): (k: nat)
    requires rows != []
    ensures k < |rows|
    ensures forall j :: 0 <= j < |rows| ==> rows[k].pageLoadTimeMs <= rows[j].pageLoadTimeMs
    ensures forall j :: 0 <= j < k ==> rows[j].pageLoadTimeMs > rows[k].pageLoadTimeMs
  {
    if |rows| == 1 then 0
    else
      var k := FastestIndex(rows[..|rows| - 1]);
      assert forall j :: 0 <= j < |rows| - 1 ==> rows[..|rows| - 1][j] == rows[j];
      if rows[|rows| - 1].pageLoadTimeMs < rows[k].pageLoadTimeMs then |rows| - 1 else k
  }

  /** Python's `max(rows, key=load)`: the first row of greatest load time. */
  function SlowestIndex(rows: seq<LocationResult>): (k: nat)
    requires rows != []
    ensures k < |rows|
    ensures forall j :: 0 <= j < |rows| ==> rows[j].pageLoadTimeMs <= rows[k].pageLoadTimeMs
    ensures forall j :: 0 <= j < k ==> rows[j].pageLoadTimeMs < rows[k].pageLoadTimeMs
  {
    if |rows| == 1 then 0
    else
      var k := SlowestIndex(rows[..|rows| - 1]);
      assert forall j :: 0 <= j < |rows| - 1 ==> rows[..|rows| - 1][j] == rows[j];
      if rows[|rows| - 1].pageLoadTimeMs > rows[k].pageLoadTimeMs then |rows| - 1 else k
  }

  function IntKey(t: int): (int, int) { (t, 0) }

  /** `sorted(times)[len(times) // 2]`: the upper median. */
  function Median(times: seq<int>): int
    requires times != []
  {
    SortSpec(times, IntKey);
    Sort(times, IntKey)[|times| / 2]
  }

  function Regions(rows: seq<LocationResult>): set<string>
  {
    set r | r in rows :: r.region
  }

  datatype LocationMetrics =
    | NoLocationMetrics
    | LocationMetrics(
        fastestRegion: LocationResult,
        slowestRegion: LocationResult,
        averageLoadTimeMs: int,
        medianLoadTimeMs: int,
        performanceVariance: int,
        locationsTested: nat,
        passCount: nat,
        regionsCovered: nat)

  /** `_calculate_location_metrics`. */
  function LocationMetricsOf(rows: seq<LocationResult>): LocationMetrics
  {
    if rows == [] then NoLocationMetrics
    else
      var fastest, slowest := rows[FastestIndex(rows)], rows[SlowestIndex(rows)];
      LocationMetrics(
        fastest, slowest,
        TruncDiv(SumOf(rows, LoadOf), |rows|),
        Median(LoadTimes(rows)),
        slowest.pageLoadTimeMs - fastest.pageLoadTimeMs,
        |rows|,
        CountWhere(rows, IsPass),
        |Regions(rows)|)
  }

  /** The fastest and slowest rows are the first rows of least and greatest
      load; the spread is their difference; the median is one of the load
      times; the pass count and the number of regions never exceed the rows. */
  lemma LocationMetricsSpec(rows: seq<LocationResult>)
    requires rows != []
    ensures var m := LocationMetricsOf(rows);
            m.LocationMetrics? &&
            m.fastestRegion in rows && m.slowestRegion in rows &&
            (forall r :: r in rows ==>
               m.fastestRegion.pageLoadTimeMs <= r.pageLoadTimeMs <= m.slowestRegion.pageLoadTimeMs) &&
            m.performanceVariance == m.slowestRegion.pageLoadTimeMs - m.fastestRegion.pageLoadTimeMs &&
            m.performanceVariance >= 0 &&
            (exists r :: r in rows && r.pageLoadTimeMs == m.medianLoadTimeMs) &&
            m.locationsTested == |rows| &&
            m.passCount <= m.locationsTested &&
            1 <= m.regionsCovered <= m.locationsTested
  {
    var m := LocationMetricsOf(rows);
    var f, s := FastestIndex(rows), SlowestIndex(rows);
    forall r | r in rows
      ensures m.fastestRegion.pageLoadTimeMs <= r.pageLoadTimeMs <= m.slowestRegion.pageLoadTimeMs
    {
      var j :| 0 <= j < |rows| && rows[j] == r;
    }
    MedianIsATime(LoadTimes(rows));
    var j :| 0 <= j < |rows| && LoadTimes(rows)[j] == Median(LoadTimes(rows));
    assert rows[j] in rows;
    RegionsBound(rows);
  }

  lemma MedianIsATime(times: seq<int>)
    requires times != []
    ensures exists j :: 0 <= j < |times| && times[j] == Median(times)
  {
    SortSpec(times, IntKey);
    var sorted := Sort(times, IntKey);
    assert sorted[|times| / 2] in multiset(sorted);
    assert Median(times) in times;
  }

  lemma {:induction false} RegionsBound(rows: seq<LocationResult>)
    ensures rows != [] ==> 1 <= |Regions(rows)|
    ensures |Regions(rows)| <= |rows|
  {
    if rows != [] {
      var init := rows[..|rows| - 1];
      RegionsBound(init);
      assert rows == init + [rows[|rows| - 1]];
      assert Regions(rows) == Regions(init) + {rows[|rows| - 1].region};
    }
  }

  /** The nine table rows cover four regions. */
  lemma TableRegions(rows: seq<LocationResult>)
    requires |rows| == |GlobalLocations|
    requires forall k :: 0 <= k < |rows| ==> rows[k].region == GlobalLocations[k].region
    ensures |Regions(rows)| == 4
  {
    var regions := {"North America", "Europe", "Asia Pacific", "South America"};
    forall r | r in rows
      ensures r.region in regions
    {
      var k :| 0 <= k < |rows| && rows[k] == r;
    }
    assert rows[0].region == "North America";
    assert rows[2].region == "Europe";
    assert rows[4].region == "Asia Pacific";
    assert rows[8].region == "South America";
    assert Regions(rows) == regions;
  }

  /** For non-negative load times the truncated average lies between the
      fastest and the slowest load. */
  lemma AverageBetween(rows: seq<LocationResult>)
    requires rows != []
    requires forall k :: 0 <= k < |rows| ==> rows[k].pageLoadTimeMs >= 0
    ensures var m := LocationMetricsOf(rows);
            m.fastestRegion.pageLoadTimeMs <= m.averageLoadTimeMs <= m.slowestRegion.pageLoadTimeMs
  {
    var lo, hi := rows[FastestIndex(rows)].pageLoadTimeMs, rows[SlowestIndex(rows)].pageLoadTimeMs;
    SumBounds(rows, LoadOf, lo, hi);
    DivBetween(SumOf(rows, LoadOf), |rows|, lo, hi);
  }

  // ---------------------------------------------------------------------------
  // Score

  predicate IsSlowLocation(r: LocationResult) { r.pageLoadTimeMs > 3000 }

  /** The score the steps of `_calculate_location_score` arrive at. */
  function LocationScore(rows: seq<LocationResult>): int
  {
    if rows == [] then 50
    else
      var spread := rows[SlowestIndex(rows)].pageLoadTimeMs - rows[FastestIndex(rows)].pageLoadTimeMs;
      Max(0, 100 - Min(25, CountWhere(rows, IsSlowLocation) * 3)
             - (if spread > 2000 then 20 else if spread > 1000 then 10 else 0)
             + Min(15, CountWhere(rows, IsPass)))
  }

  /** `_calculate_location_score`. */
  method CalculateLocationScore(rows: seq<LocationResult>) returns (score: int)
    ensures score == LocationScore(rows)
  {
    if rows == [] {
      return 50;
    }
    score := 100;
    var slowLocations := CountWhere(rows, IsSlowLocation);
    score := score - Min(25, slowLocations * 3);
    var variance := rows[SlowestIndex(rows)].pageLoadTimeMs - rows[FastestIndex(rows)].pageLoadTimeMs;
    if variance > 2000 {
      score := score - 20;
    } else if variance > 1000 {
      score := score - 10;
    }
    var passCount := CountWhere(rows, IsPass);
    score := score + Min(15, passCount);
    score := Max(0, score);
  }

  /** The penalties can take at most 45 points, so the floor at 0 never acts:
      a non-empty table scores between 55 and 100 plus its pass bonus, and
      the score can exceed 100. */
  lemma LocationScoreRange(rows: seq<LocationResult>)
    ensures rows == [] ==> LocationScore(rows) == 50
    ensures rows != [] ==>
              var bonus := Min(15, CountWhere(rows, IsPass));
              55 + bonus <= LocationScore(rows) <= 100 + bonus && LocationScore(rows) <= 115
  {
  }

  /** A table whose rows all pass within one second of each other keeps all
      100 points and gains the full pass bonus. */
  lemma ConsistentTableScore(rows: seq<LocationResult>)
    requires rows != []
    requires forall k :: 0 <= k < |rows| ==>
               rows[k].status == LoadStatus(rows[k].pageLoadTimeMs) && rows[k].pageLoadTimeMs < 3000
    requires forall i, j :: 0 <= i < |rows| && 0 <= j < |rows| ==>
               rows[i].pageLoadTimeMs - rows[j].pageLoadTimeMs <= 1000
    ensures LocationScore(rows) == 100 + Min(15, |rows|)
  {
    CountWhereAll(rows, IsPass);
    forall k | 0 <= k < |rows|
      ensures !IsSlowLocation(rows[k])
    {
    }
    CountWhereZero(rows, IsSlowLocation);
  }

  /** A load of exactly 3000 ms is a Warn row, yet it is not counted as slow. */
  lemma BoundaryRowNeitherPassNorSlow(loc: Location)
    ensures var r := LocationRow(loc, 3000);
            r.status == Warn && !IsSlowLocation(r) && !IsPass(r)
  {
  }
}
