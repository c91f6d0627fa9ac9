/** The scoring rule every issue-counting analyzer inherits from `BaseAnalyzer`. */
module Base {

  function RMax(a: real, b: real): real { if a >= b then a else b }

  /** `get_score(issues_found, max_issues)`: 100 when no maximum is set,
      otherwise 100 minus the share of the maximum that was found, never
      below 0. The two-decimal rounding is not applied here. */
  function GetScore(issuesFound: int, maxIssues: int): (r: real)
    ensures maxIssues == 0 ==> r == 100.0
    ensures issuesFound == 0 ==> r == 100.0
    ensures r >= 0.0
    ensures maxIssues > 0 && issuesFound >= 0 ==> r <= 100.0
    ensures maxIssues > 0 && issuesFound >= maxIssues ==> r == 0.0
    ensures maxIssues > 0 && 0 <= issuesFound <= maxIssues ==>
              r * (maxIssues as real) == 100.0 * ((maxIssues - issuesFound) as real)
  {
    if maxIssues == 0 then 100.0
    else RMax(0.0, 100.0 - (issuesFound as real) / (maxIssues as real) * 100.0)
  }

  /** Finding more issues never raises the score. */
  lemma GetScoreAntitone(fewer: int, more: int, maxIssues: int)
    requires maxIssues > 0 && fewer <= more
    ensures GetScore(more, maxIssues) <= GetScore(fewer, maxIssues)
  {
    var m := maxIssues as real;
    assert (fewer as real) / m <= (more as real) / m;
  }
}
