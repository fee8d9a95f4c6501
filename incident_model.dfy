/**
 * Incident records: a severity, a report time, an optional resolution time
 * and the number of affected users, plus the aggregate metrics over a list
 * of incidents. Timestamps are integer seconds.
 */
module IncidentModel {
  import opened Wrappers
  import opened Numeric

  datatype Severity = Critical | High | Medium | Low
  {
    /** The stored spelling of the severity. */
    function Name(): (s: string)
      ensures s != []
    {
      match this
      case Critical => "critical"
      case High => "high"
      case Medium => "medium"
      case Low => "low"
    }
  }

  /** Different severities are stored under different names. */
  lemma NameInjective(a: Severity, b: Severity)
    ensures a.Name() == b.Name() <==> a == b
  {
    if a != b {
      assert a.Name()[0] != b.Name()[0] || |a.Name()| != |b.Name()|;
    }
  }

  /** Hours from `from` to `to`, both in seconds, without rounding. */
  function HoursBetween(from: int, to: int): (h: real)
    ensures h * 3600.0 == (to - from) as real
  {
    (to - from) as real / 3600.0
  }

  datatype Incident = Incident(
    id: string,
    title: string,
    severity: Severity,
    reportedAt: int,
    resolvedAt: Option<int>,
    affectedUsers: nat,
    rootCause: Option<string>)
  {
    predicate IsResolved()
    {
      resolvedAt.Some?
    }

    /** Hours from report to resolution, rounded to two decimals; absent while unresolved. */
    function TimeToResolveHours(): (h: Option<real>)
      ensures h.None? <==> !IsResolved()
      ensures h.Some? ==> IsCents(h.value)
      ensures h.Some? ==> HoursBetween(reportedAt, resolvedAt.value) - 0.005 <= h.value
      ensures h.Some? ==> h.value <= HoursBetween(reportedAt, resolvedAt.value) + 0.005
    {
      if !IsResolved() then None
      else Some(Round2(HoursBetween(reportedAt, resolvedAt.value)))
    }
  }

  /** How many of `incidents` have severity `s`. */
  function CountSeverity(incidents: seq<Incident>, s: Severity): (n: nat)
    ensures n <= |incidents|
  {
    if incidents == [] then 0
    else CountSeverity(incidents[..|incidents| - 1], s) + (if incidents[|incidents| - 1].severity == s then 1 else 0)
  }

  /** How many of `incidents` are resolved. */
  function CountResolved(incidents: seq<Incident>): (n: nat)
    ensures n <= |incidents|
  {
    if incidents == [] then 0
    else CountResolved(incidents[..|incidents| - 1]) + (if incidents[|incidents| - 1].IsResolved() then 1 else 0)
  }

  /** Every incident has exactly one of the four severities. */
  lemma {:induction false} SeverityCountsPartition(incidents: seq<Incident>)
    ensures CountSeverity(incidents, Critical) + CountSeverity(incidents, High)
          + CountSeverity(incidents, Medium) + CountSeverity(incidents, Low) == |incidents|
  {
    if incidents != [] {
      SeverityCountsPartition(incidents[..|incidents| - 1]);
    }
  }

  /** The rounded resolution times of the resolved incidents, in order. */
  function ResolvedTimes(incidents: seq<Incident>): (ts: seq<real>)
    ensures |ts| == CountResolved(incidents)
  {
    if incidents == [] then []
    else
      var last := incidents[|incidents| - 1];
      ResolvedTimes(incidents[..|incidents| - 1]) + (if last.IsResolved() then [last.TimeToResolveHours().value] else [])
  }

  /** Unresolved incidents contribute no resolution time, wherever they appear. */
  lemma {:induction false} UnresolvedIgnored(xs: seq<Incident>, u: Incident, ys: seq<Incident>)
    requires !u.IsResolved()
    ensures ResolvedTimes(xs + [u] + ys) == ResolvedTimes(xs + ys)
    ensures CountResolved(xs + [u] + ys) == CountResolved(xs + ys)
  {
    var with, without := xs + [u] + ys, xs + ys;
    if ys == [] {
      assert with[..|with| - 1] == xs && without == xs;
    } else {
      var init := ys[..|ys| - 1];
      UnresolvedIgnored(xs, u, init);
      assert with[..|with| - 1] == xs + [u] + init;
      assert without[..|without| - 1] == xs + init;
      assert with[|with| - 1] == without[|without| - 1];
    }
  }

  datatype IncidentMetrics = IncidentMetrics(incidents: seq<Incident>)
  {
    function TotalIncidents(): nat
    {
      |incidents|
    }

    function CriticalCount(): nat { CountSeverity(incidents, Critical) }
    function HighCount(): nat { CountSeverity(incidents, High) }
    function MediumCount(): nat { CountSeverity(incidents, Medium) }
    function LowCount(): nat { CountSeverity(incidents, Low) }
    function ResolvedCount(): nat { CountResolved(incidents) }

    /**
     * Mean time to resolve, in hours: the mean of the rounded resolution
     * times of the resolved incidents, rounded again; 0 when none is resolved.
     */
    function MeanTimeToResolve(): (m: real)
      ensures IsCents(m)
      ensures ResolvedCount() == 0 ==> m == 0.0
      ensures ResolvedCount() > 0 ==> MeanOrZero(ResolvedTimes(incidents)) - 0.005 <= m
      ensures ResolvedCount() > 0 ==> m <= MeanOrZero(ResolvedTimes(incidents)) + 0.005
    {
      var times := ResolvedTimes(incidents);
      assert IsCents(0.0);
      if times == [] then 0.0 else Round2(Sum(times) / |times| as real)
    }
  }

  /** The four severity counters and the resolved counter of a metrics record stay within its total. */
  lemma MetricsCountersPartition(m: IncidentMetrics)
    ensures m.CriticalCount() + m.HighCount() + m.MediumCount() + m.LowCount() == m.TotalIncidents()
    ensures m.ResolvedCount() <= m.TotalIncidents()
  {
    SeverityCountsPartition(m.incidents);
  }

  /**
   * The mean time to resolve lies between any two-decimal bounds of the
   * resolution times, and adding an unresolved incident leaves it unchanged.
   */
  lemma MeanTimeToResolveBounds(m: IncidentMetrics, lo: real, hi: real, u: Incident)
    requires m.ResolvedCount() > 0 && IsCents(lo) && IsCents(hi)
    requires AllWithin(ResolvedTimes(m.incidents), lo, hi)
    requires !u.IsResolved()
    ensures lo <= m.MeanTimeToResolve() <= hi
    ensures IncidentMetrics(m.incidents + [u]).MeanTimeToResolve() == m.MeanTimeToResolve()
  {
    var times := ResolvedTimes(m.incidents);
    MeanWithin(times, lo, hi);
    Round2Within(MeanOrZero(times), lo, hi);
    UnresolvedIgnored(m.incidents, u, []);
    assert m.incidents + [u] + [] == m.incidents + [u] && m.incidents + [] == m.incidents;
  }

  /** An incident resolved six and a half hours after it was reported takes 6.5 hours. */
  lemma ResolutionScenario()
    ensures Incident("INC-301", "outage", High, 1000, Some(1000 + 23400), 50, None).TimeToResolveHours() == Some(6.5)
  {
    assert HoursBetween(1000, 1000 + 23400) == 6.5;
    assert IsCents(6.5);
    Round2OfCents(6.5);
  }
}
