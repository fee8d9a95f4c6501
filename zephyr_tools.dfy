/**
 * The test-quality tools: the pass rate of one test cycle, looked up by name
 * or taken as the latest, and the flaky tests across all cycles. The cycle
 * list is a parameter, in its stored chronological order.
 */
module ZephyrTools {
  import opened Wrappers
  import opened Sequences
  import opened Numeric
  import opened ZephyrModel

  datatype CycleSummary = CycleSummary(
    cycleName: string,
    totalTests: nat,
    passed: nat,
    failed: nat,
    blocked: nat,
    skipped: nat,
    passRate: real,
    dateRange: string)

  /** The tool's answer: the pass-rate metrics, or only an error message. */
  datatype CycleLookup = CycleFound(summary: CycleSummary) | CycleNotFound(error: string)

  /** The pass-rate metrics of one cycle: the four counters partition the executions. */
  function SummarizeCycle(c: TestCycleMetrics): (m: CycleSummary)
    ensures m.cycleName == c.cycleName && m.totalTests == |c.executions|
    ensures m.passed + m.failed + m.blocked + m.skipped == m.totalTests
    ensures m.passed == c.PassedCount() && m.failed == c.FailedCount()
    ensures m.blocked == c.BlockedCount() && m.skipped == c.SkippedCount()
    ensures m.passRate == c.PassRate()
  {
    StatusCountsPartition(c.executions);
    assert IsCents(0.0);
    Round2OfCents(0.0);
    var total := |c.executions|;
    var passed := CountStatus(c.executions, Passed);
    CycleSummary(
      c.cycleName,
      total,
      passed,
      CountStatus(c.executions, Failed),
      CountStatus(c.executions, Blocked),
      CountStatus(c.executions, Skipped),
      Round2(if total > 0 then passed as real / total as real * 100.0 else 0.0),
      c.startDate + " to " + c.endDate)
  }

  /** Whether cycle `c` has the name `name`. */
  predicate Named(name: string, c: TestCycleMetrics)
  {
    c.cycleName == name
  }

  /**
   * The pass-rate tool. A given name selects the first cycle with that name,
   * or yields only an error when there is none; no name selects the last
   * cycle, which the caller must make sure exists.
   */
  function GetTestPassRate(cycles: seq<TestCycleMetrics>, cycleName: Option<string>): (r: CycleLookup)
    requires Given(cycleName) || cycles != []
    ensures r.CycleNotFound? <==> Given(cycleName) && forall i :: 0 <= i < |cycles| ==> !Named(cycleName.value, cycles[i])
    ensures r.CycleNotFound? ==> r.error == "Test cycle '" + cycleName.value + "' not found"
    ensures r.CycleFound? ==>
      exists i :: (&& 0 <= i < |cycles| && r.summary == SummarizeCycle(cycles[i])
                   && (Given(cycleName) ==> Named(cycleName.value, cycles[i]) && forall j :: 0 <= j < i ==> !Named(cycleName.value, cycles[j]))
                   && (!Given(cycleName) ==> i == |cycles| - 1))
  {
    if Given(cycleName) then
      match FirstIndex(cycles, (c: TestCycleMetrics) => Named(cycleName.value, c))
      case None => CycleNotFound("Test cycle '" + cycleName.value + "' not found")
      case Some(i) => CycleFound(SummarizeCycle(cycles[i]))
    else
      CycleFound(SummarizeCycle(cycles[|cycles| - 1]))
  }

  // ---------------------------------------------------------------------------
  // Flaky tests
  // ---------------------------------------------------------------------------

  /** Every execution of every cycle, cycle by cycle, in stored order. */
  function AllExecutions(cycles: seq<TestCycleMetrics>): seq<TestExecution>
  {
    if cycles == [] then []
    else AllExecutions(cycles[..|cycles| - 1]) + cycles[|cycles| - 1].executions
  }

  /** The running record of one test id: passes, executions, and the name last seen. */
  datatype Tally = Tally(passed: nat, total: nat, testName: string)

  /** A test id that has not been seen yet starts from this record. */
  const Fresh := Tally(0, 0, "")

  /** The record of test `id` after going through `seen` in order. */
  function TallyOf(seen: seq<TestExecution>, id: string): (t: Tally)
    ensures t.passed <= t.total
  {
    if seen == [] then Fresh
    else
      var t := TallyOf(seen[..|seen| - 1], id);
      var e := seen[|seen| - 1];
      if e.testId == id then Tally(t.passed + (if e.IsPassed() then 1 else 0), t.total + 1, e.testName)
      else t
  }

  /** How many executions in `seen` belong to `id`, and how many of them passed. */
  function CountRuns(seen: seq<TestExecution>, id: string, onlyPassed: bool): nat
  {
    if seen == [] then 0
    else
      var e := seen[|seen| - 1];
      CountRuns(seen[..|seen| - 1], id, onlyPassed) + (if e.testId == id && (!onlyPassed || e.IsPassed()) then 1 else 0)
  }

  /** A record counts exactly the executions of its id, and exactly the passing ones. */
  lemma {:induction false} TallyCounts(seen: seq<TestExecution>, id: string)
    ensures TallyOf(seen, id).total == CountRuns(seen, id, false)
    ensures TallyOf(seen, id).passed == CountRuns(seen, id, true)
  {
    if seen != [] {
      TallyCounts(seen[..|seen| - 1], id);
    }
  }

  /** A record carries the name of the last execution of its id. */
  lemma {:induction false} TallyName(seen: seq<TestExecution>, id: string, i: nat)
    requires i < |seen| && seen[i].testId == id
    requires forall j :: i < j < |seen| ==> seen[j].testId != id
    ensures TallyOf(seen, id).testName == seen[i].testName
  {
    if i < |seen| - 1 {
      var prefix := seen[..|seen| - 1];
      assert prefix[i] == seen[i];
      TallyName(prefix, id, i);
    }
  }

  /** The distinct test ids of `seen`, in the order they first appear (dictionary key order). */
  function FirstSeen(seen: seq<TestExecution>): seq<string>
  {
    if seen == [] then []
    else
      var order := FirstSeen(seen[..|seen| - 1]);
      var id := seen[|seen| - 1].testId;
      if id in order then order else order + [id]
  }

  /** `FirstSeen` lists each id of `seen` exactly once and nothing else. */
  lemma {:induction false} FirstSeenExact(seen: seq<TestExecution>)
    ensures forall id :: id in FirstSeen(seen) <==> exists i :: 0 <= i < |seen| && seen[i].testId == id
    ensures forall i, j :: 0 <= i < j < |FirstSeen(seen)| ==> FirstSeen(seen)[i] != FirstSeen(seen)[j]
  {
    if seen != [] {
      var prefix := seen[..|seen| - 1];
      FirstSeenExact(prefix);
      forall id | id in FirstSeen(seen)
        ensures exists i :: 0 <= i < |seen| && seen[i].testId == id
      {
        if id in FirstSeen(prefix) {
          var i :| 0 <= i < |prefix| && prefix[i].testId == id;
          assert seen[i] == prefix[i];
        } else {
          assert seen[|seen| - 1].testId == id;
        }
      }
      forall id | exists i :: 0 <= i < |seen| && seen[i].testId == id
        ensures id in FirstSeen(seen)
      {
        var i :| 0 <= i < |seen| && seen[i].testId == id;
        if i < |seen| - 1 {
          assert prefix[i] == seen[i];
        }
      }
    }
  }

  /** An id that never appeared still has the fresh record. */
  lemma {:induction false} NotSeenTally(seen: seq<TestExecution>, id: string)
    requires id !in FirstSeen(seen)
    ensures TallyOf(seen, id) == Fresh
  {
    if seen != [] {
      var prefix := seen[..|seen| - 1];
      assert id !in FirstSeen(prefix);
      NotSeenTally(prefix, id);
    }
  }

  /** `results` and `order` are the tool's dictionary after going through `seen`. */
  ghost predicate Tallied(results: map<string, Tally>, order: seq<string>, seen: seq<TestExecution>)
  {
    && order == FirstSeen(seen)
    && (forall id :: id in results <==> id in order)
    && (forall id :: id in results ==> results[id] == TallyOf(seen, id))
  }

  /** The record of `e`'s test id after `e`: a fresh one if the id is new, then counted. */
  function Recorded(results: map<string, Tally>, e: TestExecution): Tally
  {
    var t := if e.testId in results then results[e.testId] else Fresh;
    Tally(t.passed + (if e.IsPassed() then 1 else 0), t.total + 1, e.testName)
  }

  /** One more execution, recorded the way the dictionary records it, keeps `Tallied`. */
  lemma TallyStep(results: map<string, Tally>, order: seq<string>, seen: seq<TestExecution>, e: TestExecution)
    requires Tallied(results, order, seen)
    ensures Tallied(results[e.testId := Recorded(results, e)], if e.testId in results then order else order + [e.testId], seen + [e])
  {
    var s := seen + [e];
    assert s[..|s| - 1] == seen;
    if e.testId !in results {
      NotSeenTally(seen, e.testId);
    }
  }

  /**
   * Records one cycle's executions in the dictionary, one after the other:
   * a test id met for the first time enters with a fresh record, then its
   * name is overwritten, its execution count goes up, and its pass count
   * goes up when the execution passed.
   */
  method RecordExecutions(results0: map<string, Tally>, order0: seq<string>, ghost before: seq<TestExecution>, executions: seq<TestExecution>)
    returns (results: map<string, Tally>, order: seq<string>)
    requires Tallied(results0, order0, before)
    ensures Tallied(results, order, before + executions)
  {
    results, order := results0, order0;
    assert before + executions[..0] == before;
    for k := 0 to |executions|
      invariant Tallied(results, order, before + executions[..k])
    {
      var e := executions[k];
      TallyStep(results, order, before + executions[..k], e);
      assert before + executions[..k + 1] == before + executions[..k] + [e];
      ghost var next := Recorded(results, e);
      var t := if e.testId in results then results[e.testId] else Fresh;
      if e.testId !in results {
        order := order + [e.testId];
      }
      t := t.(testName := e.testName);
      t := t.(total := t.total + 1);
      if e.IsPassed() {
        t := t.(passed := t.passed + 1);
      }
      assert t == next;
      results := results[e.testId := t];
    }
    assert executions[..|executions|] == executions;
  }

  /**
   * Goes through every execution of every cycle and keeps, per test id, the
   * passes, the executions and the last name seen; `order` is the order in
   * which the ids were first met, which is the order the dictionary yields.
   */
  method TallyExecutions(cycles: seq<TestCycleMetrics>) returns (results: map<string, Tally>, order: seq<string>)
    ensures Tallied(results, order, AllExecutions(cycles))
  {
    results := map[];
    order := [];
    for c := 0 to |cycles|
      invariant Tallied(results, order, AllExecutions(cycles[..c]))
    {
      results, order := RecordExecutions(results, order, AllExecutions(cycles[..c]), cycles[c].executions);
      assert cycles[..c + 1][..c] == cycles[..c];
    }
    assert cycles[..|cycles|] == cycles;
  }

  datatype FlakyTest = FlakyTest(
    testId: string,
    testName: string,
    executions: nat,
    passed: nat,
    failed: int,
    passRate: real)

  /** The pass rate of a record as a fraction, 0 for a record without executions. */
  function RunPassRate(t: Tally): real
  {
    if t.total > 0 then t.passed as real / t.total as real else 0.0
  }

  /** Run often enough, passing sometimes, and passing less often than `threshold`. */
  predicate IsFlaky(t: Tally, threshold: real, minExecutions: int)
  {
    t.total >= minExecutions && 0.0 < RunPassRate(t) < threshold
  }

  /** The reported entry of test `id`: its pass rate as a percentage rounded to two decimals. */
  function Entry(id: string, t: Tally): FlakyTest
  {
    FlakyTest(id, t.testName, t.total, t.passed, t.total - t.passed, Round2(RunPassRate(t) * 100.0))
  }

  /** The entries of the flaky ids among `ids`, in the order of `ids`, with their records from `seen`. */
  function Candidates(ids: seq<string>, seen: seq<TestExecution>, threshold: real, minExecutions: int): seq<FlakyTest>
  {
    if ids == [] then []
    else
      var rest := Candidates(ids[..|ids| - 1], seen, threshold, minExecutions);
      var id := ids[|ids| - 1];
      if IsFlaky(TallyOf(seen, id), threshold, minExecutions) then rest + [Entry(id, TallyOf(seen, id))] else rest
  }

  /**
   * Keeps, in dictionary order, the entries of the tests that were run at
   * least `minExecutions` times and whose pass rate lies strictly between 0
   * and `threshold`.
   */
  method SelectFlaky(order: seq<string>, results: map<string, Tally>, ghost seen: seq<TestExecution>, threshold: real, minExecutions: int)
    returns (flaky: seq<FlakyTest>)
    requires forall id :: id in order ==> id in results && results[id] == TallyOf(seen, id)
    ensures flaky == Candidates(order, seen, threshold, minExecutions)
  {
    flaky := [];
    for i := 0 to |order|
      invariant flaky == Candidates(order[..i], seen, threshold, minExecutions)
    {
      var id := order[i];
      var t := results[id];
      assert order[..i + 1][..i] == order[..i];
      if t.total >= minExecutions {
        var passRate := if t.total > 0 then t.passed as real / t.total as real else 0.0;
        if 0.0 < passRate < threshold {
          flaky := flaky + [FlakyTest(id, t.testName, t.total, t.passed, t.total - t.passed, Round2(passRate * 100.0))];
        }
      }
    }
    assert order[..|order|] == order;
  }

  /**
   * A test is reported exactly when it was executed and its record is flaky;
   * every reported entry passed at least once, counts its failures as the
   * executions that did not pass, and with a threshold of at most 1 also
   * failed at least once.
   */
  lemma {:induction false} CandidatesExact(ids: seq<string>, seen: seq<TestExecution>, threshold: real, minExecutions: int)
    ensures forall f :: f in Candidates(ids, seen, threshold, minExecutions) ==>
      && f.testId in ids && f == Entry(f.testId, TallyOf(seen, f.testId))
      && IsFlaky(TallyOf(seen, f.testId), threshold, minExecutions)
      && f.executions >= minExecutions && f.passed > 0 && f.failed == f.executions - f.passed
      && (threshold <= 1.0 ==> f.failed > 0)
    ensures forall id :: id in ids && IsFlaky(TallyOf(seen, id), threshold, minExecutions) ==>
      Entry(id, TallyOf(seen, id)) in Candidates(ids, seen, threshold, minExecutions)
  {
    if ids != [] {
      var prefix := ids[..|ids| - 1];
      CandidatesExact(prefix, seen, threshold, minExecutions);
      forall f | f in Candidates(ids, seen, threshold, minExecutions)
        ensures f.executions >= minExecutions && f.passed > 0 && (threshold <= 1.0 ==> f.failed > 0)
      {
        var t := TallyOf(seen, f.testId);
        assert t.total > 0 && t.passed as real / t.total as real > 0.0;
        if threshold <= 1.0 {
          assert t.passed as real / t.total as real < 1.0;
          assert t.passed < t.total;
        }
      }
      forall id | id in ids && IsFlaky(TallyOf(seen, id), threshold, minExecutions)
        ensures Entry(id, TallyOf(seen, id)) in Candidates(ids, seen, threshold, minExecutions)
      {
        if id in prefix {
        } else {
          assert id == ids[|ids| - 1];
        }
      }
    }
  }

  // ---------------------------------------------------------------------------
  // Stable sort by pass rate
  // ---------------------------------------------------------------------------

  /** `x` placed before the first element of `ys` whose rate is not below its own. */
  function Insert(x: FlakyTest, ys: seq<FlakyTest>): (r: seq<FlakyTest>)
    ensures multiset(r) == multiset(ys) + multiset{x}
  {
    if ys == [] then [x]
    else if x.passRate <= ys[0].passRate then [x] + ys
    else
      assert ys == [ys[0]] + ys[1..];
      [ys[0]] + Insert(x, ys[1..])
  }

  /** Python's stable `sort(key=pass_rate)`, as an insertion sort. */
  function SortByRate(xs: seq<FlakyTest>): (r: seq<FlakyTest>)
    ensures multiset(r) == multiset(xs)
  {
    if xs == [] then []
    else
      assert xs == [xs[0]] + xs[1..];
      Insert(xs[0], SortByRate(xs[1..]))
  }

  predicate SortedByRate(xs: seq<FlakyTest>)
  {
    forall i, j :: 0 <= i < j < |xs| ==> xs[i].passRate <= xs[j].passRate
  }

  /** The elements of `xs` with rate `v`, in order. */
  function WithRate(xs: seq<FlakyTest>, v: real): seq<FlakyTest>
  {
    if xs == [] then []
    else (if xs[0].passRate == v then [xs[0]] else []) + WithRate(xs[1..], v)
  }

  lemma {:induction false} InsertSorted(x: FlakyTest, ys: seq<FlakyTest>)
    requires SortedByRate(ys)
    ensures SortedByRate(Insert(x, ys))
  {
    if ys != [] && x.passRate > ys[0].passRate {
      InsertSorted(x, ys[1..]);
      var r := Insert(x, ys[1..]);
      assert multiset(r) == multiset(ys[1..]) + multiset{x};
      forall k | 0 <= k < |r|
        ensures ys[0].passRate <= r[k].passRate
      {
        assert r[k] in multiset(r);
        if r[k] != x {
          assert r[k] in multiset(ys[1..]);
          var j :| 0 <= j < |ys[1..]| && ys[1..][j] == r[k];
          assert ys[j + 1] == r[k];
        }
      }
    }
  }

  /** The result of the sort is ordered by rate, lowest first. */
  lemma {:induction false} SortByRateSorted(xs: seq<FlakyTest>)
    ensures SortedByRate(SortByRate(xs))
  {
    if xs != [] {
      SortByRateSorted(xs[1..]);
      InsertSorted(xs[0], SortByRate(xs[1..]));
    }
  }

  lemma WithRateCons(y: FlakyTest, ys: seq<FlakyTest>, v: real)
    ensures y.passRate == v ==> WithRate([y] + ys, v) == [y] + WithRate(ys, v)
    ensures y.passRate != v ==> WithRate([y] + ys, v) == WithRate(ys, v)
  {
    assert ([y] + ys)[0] == y;
    assert ([y] + ys)[1..] == ys;
  }

  lemma {:induction false} InsertKeepsTies(x: FlakyTest, ys: seq<FlakyTest>, v: real)
    ensures WithRate(Insert(x, ys), v) == WithRate([x] + ys, v)
  {
    if ys != [] && x.passRate > ys[0].passRate {
      var y, rest := ys[0], ys[1..];
      assert ys == [y] + rest;
      var inserted := Insert(x, rest);
      assert Insert(x, ys) == [y] + inserted;
      InsertKeepsTies(x, rest, v);
      WithRateCons(y, inserted, v);
      WithRateCons(x, rest, v);
      WithRateCons(x, ys, v);
      WithRateCons(y, rest, v);
      if x.passRate == v {
        assert WithRate(Insert(x, ys), v) == [x] + WithRate(rest, v);
      } else if y.passRate == v {
        assert WithRate(Insert(x, ys), v) == [y] + WithRate(rest, v);
      }
    }
  }

  /** The sort is stable: tests with the same rate keep their relative order. */
  lemma {:induction false} SortByRateStable(xs: seq<FlakyTest>, v: real)
    ensures WithRate(SortByRate(xs), v) == WithRate(xs, v)
  {
    if xs != [] {
      SortByRateStable(xs[1..], v);
      InsertKeepsTies(xs[0], SortByRate(xs[1..]), v);
      assert ([xs[0]] + SortByRate(xs[1..]))[1..] == SortByRate(xs[1..]);
    }
  }

  datatype FlakyReport = FlakyReport(
    flakyTests: seq<FlakyTest>,
    totalFlakyTests: nat,
    threshold: real,
    minExecutions: int,
    analysisPeriod: string)

  /** The flaky-test tool's default pass-rate threshold, as a fraction. */
  const DefaultThreshold := 0.7

  /** The flaky-test tool's default minimum number of executions. */
  const DefaultMinExecutions := 3

  /**
   * The flaky-test tool: the entries of every flaky test over all cycles,
   * in dictionary order, then sorted by pass rate (lowest first, ties in
   * dictionary order).
   */
  method GetFlakyTests(cycles: seq<TestCycleMetrics>, threshold: real, minExecutions: int) returns (r: FlakyReport)
    ensures var seen := AllExecutions(cycles);
      r.flakyTests == SortByRate(Candidates(FirstSeen(seen), seen, threshold, minExecutions))
    ensures r.totalFlakyTests == |r.flakyTests|
    ensures r.threshold == threshold && r.minExecutions == minExecutions
    ensures r.analysisPeriod == "Analyzed " + IntToString(|cycles|) + " test cycles"
  {
    var results, order := TallyExecutions(cycles);
    var flaky := SelectFlaky(order, results, AllExecutions(cycles), threshold, minExecutions);
    flaky := SortByRate(flaky);
    r := FlakyReport(flaky, |flaky|, threshold, minExecutions, "Analyzed " + IntToString(|cycles|) + " test cycles");
  }

  /**
   * What the flaky-test tool promises about its list: it is ordered by rate,
   * holds every flaky test that was executed, and nothing else.
   */
  lemma FlakyReportShape(cycles: seq<TestCycleMetrics>, threshold: real, minExecutions: int)
    ensures var seen := AllExecutions(cycles);
      var list := SortByRate(Candidates(FirstSeen(seen), seen, threshold, minExecutions));
      && SortedByRate(list)
      && (forall f :: f in list ==> f == Entry(f.testId, TallyOf(seen, f.testId)) && IsFlaky(TallyOf(seen, f.testId), threshold, minExecutions))
      && (forall id :: (exists i :: 0 <= i < |seen| && seen[i].testId == id) && IsFlaky(TallyOf(seen, id), threshold, minExecutions) ==>
            Entry(id, TallyOf(seen, id)) in list)
  {
    var seen := AllExecutions(cycles);
    var candidates := Candidates(FirstSeen(seen), seen, threshold, minExecutions);
    SortByRateSorted(candidates);
    CandidatesExact(FirstSeen(seen), seen, threshold, minExecutions);
    FirstSeenExact(seen);
    var list := SortByRate(candidates);
    forall f | f in list ensures f in candidates {
      assert f in multiset(list);
    }
    forall id | (exists i :: 0 <= i < |seen| && seen[i].testId == id) && IsFlaky(TallyOf(seen, id), threshold, minExecutions)
      ensures Entry(id, TallyOf(seen, id)) in list
    {
      assert Entry(id, TallyOf(seen, id)) in multiset(candidates);
    }
  }

  /**
   * A test that passed once and failed twice, with the default threshold 0.7
   * and minimum of 3 executions, is reported with a pass rate of 33.33.
   */
  lemma FlakyScenario()
    ensures var e := TestExecution("TC-1", "login", Passed, 0, 1.0, "c1");
      var seen := [e, e.(status := Failed), e.(status := Failed)];
      Candidates(["TC-1"], seen, DefaultThreshold, DefaultMinExecutions) == [FlakyTest("TC-1", "login", 3, 1, 2, 33.33)]
  {
    var e := TestExecution("TC-1", "login", Passed, 0, 1.0, "c1");
    var seen := [e, e.(status := Failed), e.(status := Failed)];
    assert seen[..2] == [e, e.(status := Failed)];
    assert seen[..2][..1] == [e];
    assert seen[..2][..1][..0] == [];
    assert TallyOf(seen[..2][..1], "TC-1") == Tally(1, 1, "login");
    assert TallyOf(seen[..2], "TC-1") == Tally(1, 2, "login");
    assert TallyOf(seen, "TC-1") == Tally(1, 3, "login");
    var x := 1.0 / 3.0 * 100.0;
    assert x * 100.0 == 3333.0 + 1.0 / 3.0;
    assert (x * 100.0).Floor == 3333;
    var ids: seq<string> := ["TC-1"];
    assert ids[..0] == [];
  }
}
