/**
 * Test-execution records: single executions with a status, and test cycles
 * that group them. Durations can never be negative. Timestamps are integer
 * seconds.
 */
module ZephyrModel {
  import opened Numeric

  datatype TestStatus = Passed | Failed | Blocked | Skipped

  /** A non-negative duration in seconds. */
  type Duration = d: real | d >= 0.0

  datatype TestExecution = TestExecution(
    testId: string,
    testName: string,
    status: TestStatus,
    executedAt: int,
    durationSeconds: Duration,
    cycle: string)
  {
    predicate IsPassed()
    {
      status == Passed
    }
  }

  /** How many of `executions` have status `s`. */
  function CountStatus(executions: seq<TestExecution>, s: TestStatus): (n: nat)
    ensures n <= |executions|
  {
    if executions == [] then 0
    else CountStatus(executions[..|executions| - 1], s) + (if executions[|executions| - 1].status == s then 1 else 0)
  }

  /** Every execution has exactly one of the four statuses. */
  lemma {:induction false} StatusCountsPartition(executions: seq<TestExecution>)
    ensures CountStatus(executions, Passed) + CountStatus(executions, Failed)
          + CountStatus(executions, Blocked) + CountStatus(executions, Skipped) == |executions|
  {
    if executions != [] {
      StatusCountsPartition(executions[..|executions| - 1]);
    }
  }

  /** `passed / total * 100` as an exact percentage, 0 for no executions. */
  function PassPercent(passed: nat, total: nat): (p: real)
    requires passed <= total
    ensures 0.0 <= p <= 100.0
    ensures total == 0 ==> p == 0.0
    ensures total > 0 ==> p * total as real == 100.0 * passed as real
  {
    if total == 0 then 0.0 else passed as real / total as real * 100.0
  }

  /** The rounded percentage stays in [0, 100]. */
  function RoundedPercent(passed: nat, total: nat): (r: real)
    requires passed <= total
    ensures IsCents(r) && 0.0 <= r <= 100.0
    ensures PassPercent(passed, total) - 0.005 <= r <= PassPercent(passed, total) + 0.005
  {
    assert IsCents(0.0) && IsCents(100.0);
    Round2Within(PassPercent(passed, total), 0.0, 100.0);
    Round2(PassPercent(passed, total))
  }

  datatype TestCycleMetrics = TestCycleMetrics(
    cycleName: string,
    startDate: string,
    endDate: string,
    executions: seq<TestExecution>)
  {
    function TotalTests(): nat
    {
      |executions|
    }

    function PassedCount(): nat { CountStatus(executions, Passed) }
    function FailedCount(): nat { CountStatus(executions, Failed) }
    function BlockedCount(): nat { CountStatus(executions, Blocked) }
    function SkippedCount(): nat { CountStatus(executions, Skipped) }

    /** The cycle's pass rate: passed over total as a rounded percentage, 0 without executions. */
    function PassRate(): (r: real)
      ensures 0.0 <= r <= 100.0 && IsCents(r)
      ensures TotalTests() == 0 ==> r == 0.0
      ensures PassPercent(PassedCount(), TotalTests()) - 0.005 <= r
      ensures r <= PassPercent(PassedCount(), TotalTests()) + 0.005
    {
      if TotalTests() == 0 then 0.0
      else RoundedPercent(PassedCount(), TotalTests())
    }
  }

  /** The four counters of a cycle each stay within its total and add up to it. */
  lemma CycleCountersPartition(c: TestCycleMetrics)
    ensures c.PassedCount() <= c.TotalTests() && c.FailedCount() <= c.TotalTests()
    ensures c.BlockedCount() <= c.TotalTests() && c.SkippedCount() <= c.TotalTests()
    ensures c.PassedCount() + c.FailedCount() + c.BlockedCount() + c.SkippedCount() == c.TotalTests()
  {
    StatusCountsPartition(c.executions);
  }
}
