/** The aggregation loop over parsed XUnit reports (app/script.py, lines 38-56). */
module Reports {

  /** The counters `read_xunit` yields for one report file. They are plain
      integers: nothing in the loop relies on them being consistent. */
  datatype XunitReport = XunitReport(tests: int, failures: int, errors: int)

  /** Python's `bool(report.errors or report.failures)`: a non-zero count is truthy. */
  predicate HasIssues(r: XunitReport) {
    r.errors != 0 || r.failures != 0
  }

  /** The four running counters of the loop. */
  datatype Counter = Tests | Passed | Failed | Broken

  /** What one report adds to a counter. */
  function Count(r: XunitReport, c: Counter): int {
    match c
    case Tests => r.tests
    case Passed => r.tests - r.errors - r.failures
    case Failed => r.failures
    case Broken => r.errors
  }

  /** The sum of a counter over the reports, folded left to right as the loop does. */
  function Total(rs: seq<XunitReport>, c: Counter): int
    decreases |rs|
  {
    if rs == [] then 0 else Total(rs[..|rs| - 1], c) + Count(rs[|rs| - 1], c)
  }

  /** The sticky flag: set by the first report with issues, never cleared afterwards. */
  predicate AnyIssues(rs: seq<XunitReport>)
    decreases |rs|
  {
    rs != [] && (AnyIssues(rs[..|rs| - 1]) || HasIssues(rs[|rs| - 1]))
  }

  /** The loop's five variables once it has finished. */
  datatype Summary = Summary(tests: int, passed: int, failed: int, broken: int, containsFailures: bool)

  function Summarize(rs: seq<XunitReport>): Summary {
    Summary(Total(rs, Tests), Total(rs, Passed), Total(rs, Failed), Total(rs, Broken), AnyIssues(rs))
  }

  /** The loop at lines 47-56, over the reports of the resolved files in order. */
  method AggregateReports(reports: seq<XunitReport>) returns (s: Summary)
    ensures s == Summarize(reports)
    ensures s.passed + s.failed + s.broken == s.tests
    ensures s.containsFailures <==> exists i :: 0 <= i < |reports| && HasIssues(reports[i])
    ensures reports == [] ==> s == Summary(0, 0, 0, 0, false)
  {
    var passed, failed, broken, tests := 0, 0, 0, 0;
    var containsFailures := false;
    for k := 0 to |reports|
      invariant passed == Total(reports[..k], Passed)
      invariant failed == Total(reports[..k], Failed)
      invariant broken == Total(reports[..k], Broken)
      invariant tests == Total(reports[..k], Tests)
      invariant containsFailures == AnyIssues(reports[..k])
      invariant passed + failed + broken == tests
    {
      var report := reports[k];
      assert reports[..k + 1][..k] == reports[..k];
      if HasIssues(report) {
        containsFailures := HasIssues(report);
      }
      passed := passed + report.tests - report.errors - report.failures;
      failed := failed + report.failures;
      broken := broken + report.errors;
      tests := tests + report.tests;
    }
    assert reports[..|reports|] == reports;
    s := Summary(tests, passed, failed, broken, containsFailures);
    AnyIssuesIffSome(reports);
  }

  /** Summing over a concatenation is summing over each part. */
  lemma {:induction false} TotalAppend(a: seq<XunitReport>, b: seq<XunitReport>, c: Counter)
    ensures Total(a + b, c) == Total(a, c) + Total(b, c)
    decreases |b|
  {
    if b == [] {
      assert a + b == a;
    } else {
      assert (a + b)[..|a + b| - 1] == a + b[..|b| - 1];
      TotalAppend(a, b[..|b| - 1], c);
    }
  }

  lemma {:induction false} AnyIssuesAppend(a: seq<XunitReport>, b: seq<XunitReport>)
    ensures AnyIssues(a + b) <==> AnyIssues(a) || AnyIssues(b)
    decreases |b|
  {
    if b == [] {
      assert a + b == a;
    } else {
      assert (a + b)[..|a + b| - 1] == a + b[..|b| - 1];
      AnyIssuesAppend(a, b[..|b| - 1]);
    }
  }

  /** The flag is exactly "some report has errors or failures". */
  lemma {:induction false} AnyIssuesIffSome(rs: seq<XunitReport>)
    ensures AnyIssues(rs) <==> exists i :: 0 <= i < |rs| && HasIssues(rs[i])
    decreases |rs|
  {
    if rs != [] {
      var init := rs[..|rs| - 1];
      AnyIssuesIffSome(init);
      if AnyIssues(init) {
        var i :| 0 <= i < |init| && HasIssues(init[i]);
        assert rs[i] == init[i];
      }
      if exists i :: 0 <= i < |rs| && HasIssues(rs[i]) {
        var i :| 0 <= i < |rs| && HasIssues(rs[i]);
        if i < |rs| - 1 {
          assert init[i] == rs[i];
        }
      }
    }
  }

  /** Passed, failed and errored tests always add up to the total. */
  lemma {:induction false} BalancedTotals(rs: seq<XunitReport>)
    ensures Total(rs, Passed) + Total(rs, Failed) + Total(rs, Broken) == Total(rs, Tests)
    decreases |rs|
  {
    if rs != [] {
      BalancedTotals(rs[..|rs| - 1]);
    }
  }

  /** Once a report with issues has been seen, later reports cannot clear the
      flag; and reports without issues leave it as it was. */
  lemma ContainsFailuresSticky(a: seq<XunitReport>, b: seq<XunitReport>)
    ensures AnyIssues(a) ==> Summarize(a + b).containsFailures
    ensures (forall i :: 0 <= i < |b| ==> !HasIssues(b[i])) ==> Summarize(a + b).containsFailures == AnyIssues(a)
  {
    AnyIssuesAppend(a, b);
    AnyIssuesIffSome(b);
  }

  /** Swapping two blocks of reports leaves the summary unchanged. */
  lemma SummarizeOrderIndependent(a: seq<XunitReport>, b: seq<XunitReport>)
    ensures Summarize(a + b) == Summarize(b + a)
  {
    TotalAppend(a, b, Tests);
    TotalAppend(b, a, Tests);
    TotalAppend(a, b, Passed);
    TotalAppend(b, a, Passed);
    TotalAppend(a, b, Failed);
    TotalAppend(b, a, Failed);
    TotalAppend(a, b, Broken);
    TotalAppend(b, a, Broken);
    AnyIssuesAppend(a, b);
    AnyIssuesAppend(b, a);
  }

  /** Blocks with equal summaries contribute equally after a common prefix. */
  lemma SummarizeCongruence(p: seq<XunitReport>, u: seq<XunitReport>, v: seq<XunitReport>)
    requires Summarize(u) == Summarize(v)
    ensures Summarize(p + u) == Summarize(p + v)
  {
    forall c: Counter ensures Total(p + u, c) == Total(p + v, c) {
      TotalAppend(p, u, c);
      TotalAppend(p, v, c);
    }
    AnyIssuesAppend(p, u);
    AnyIssuesAppend(p, v);
  }

  /** Moving one report to the end leaves the summary unchanged. */
  lemma SummarizeMoveToEnd(before: seq<XunitReport>, x: XunitReport, after: seq<XunitReport>)
    ensures Summarize(before + [x] + after) == Summarize(before + after + [x])
  {
    SummarizeOrderIndependent([x], after);
    SummarizeCongruence(before, [x] + after, after + [x]);
    assert before + [x] + after == before + ([x] + after);
    assert before + after + [x] == before + (after + [x]);
  }

  /** Taking out one occurrence of `x` from both sides keeps them permutations. */
  lemma RemoveOccurrence(init: seq<XunitReport>, x: XunitReport, before: seq<XunitReport>, after: seq<XunitReport>)
    requires multiset(init + [x]) == multiset(before + [x] + after)
    ensures multiset(init) == multiset(before + after)
  {
    var rest := before + after;
    assert multiset(before + [x] + after) == multiset(rest) + multiset{x};
    assert multiset(init + [x]) == multiset(init) + multiset{x};
    assert multiset(rest) == multiset(rest) + multiset{x} - multiset{x};
    assert multiset(init) == multiset(init) + multiset{x} - multiset{x};
  }

  /** The summary does not depend on the order in which files are enumerated:
      any rearrangement of the reports gives the same summary. */
  lemma {:induction false} SummarizePermutation(a: seq<XunitReport>, b: seq<XunitReport>)
    requires multiset(a) == multiset(b)
    ensures Summarize(a) == Summarize(b)
    decreases |a|
  {
    if a == [] {
      assert |b| == |multiset(b)| == 0;
    } else {
      var x, init := a[|a| - 1], a[..|a| - 1];
      assert a == init + [x];
      assert x in multiset(b) by { assert x in multiset(a); }
      var j :| 0 <= j < |b| && b[j] == x;
      var before, after := b[..j], b[j + 1..];
      assert b == before + [x] + after;
      RemoveOccurrence(init, x, before, after);
      SummarizePermutation(init, before + after);
      SummarizeMoveToEnd(before, x, after);
      SummarizeCongruence([], init, before + after);
      forall c: Counter ensures Total(init + [x], c) == Total(before + after + [x], c) {
        TotalAppend(init, [x], c);
        TotalAppend(before + after, [x], c);
      }
      AnyIssuesAppend(init, [x]);
      AnyIssuesAppend(before + after, [x]);
    }
  }
}
