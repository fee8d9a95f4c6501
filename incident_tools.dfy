/**
 * The incident tools: a summary of the recent incidents, optionally of one
 * severity, and the mean time to resolve per severity over every resolved
 * incident. The incident list is a parameter, and the current time `now`
 * is one too; timestamps are integer seconds.
 */
module IncidentTools {
  import opened Wrappers
  import opened Sequences
  import opened Numeric
  import opened Text
  import opened IncidentModel

  const SecondsPerDay := 86400

  /** Reported no earlier than `days` days before `now`. */
  predicate InWindow(inc: Incident, now: int, days: int)
  {
    inc.reportedAt >= now - days * SecondsPerDay
  }

  /**
   * The incidents the summary covers: those inside the window and, when a
   * non-empty severity is given, those whose stored severity equals it in
   * lower case.
   */
  function Selected(incidents: seq<Incident>, now: int, severity: Option<string>, days: int): seq<Incident>
  {
    var recent := Filter(incidents, (inc: Incident) => InWindow(inc, now, days));
    if Given(severity) then
      var wanted := Lower(severity.value);
      Filter(recent, (inc: Incident) => inc.severity.Name() == wanted)
    else recent
  }

  /** The summary covers exactly the matching incidents, in their stored order. */
  lemma SelectedExact(incidents: seq<Incident>, now: int, severity: Option<string>, days: int)
    ensures forall inc :: inc in Selected(incidents, now, severity, days) <==>
      && inc in incidents && InWindow(inc, now, days)
      && (Given(severity) ==> inc.severity.Name() == Lower(severity.value))
    ensures IsSubsequence(Selected(incidents, now, severity, days), incidents)
  {
    var p := (inc: Incident) => InWindow(inc, now, days);
    var recent := Filter(incidents, p);
    FilterExact(incidents, p);
    FilterOrdered(incidents, p);
    if Given(severity) {
      var wanted := Lower(severity.value);
      var q := (inc: Incident) => inc.severity.Name() == wanted;
      FilterExact(recent, q);
      FilterOrdered(recent, q);
      SubsequenceTransitive(Filter(recent, q), recent, incidents);
    }
  }

  /** Python's `defaultdict(int)` read: the value under `k`, 0 when absent. */
  function ValueOr(m: map<string, nat>, k: string): nat
  {
    if k in m then m[k] else 0
  }

  /** The severity tally after going through `incidents` in order. */
  function SeverityTally(incidents: seq<Incident>): map<string, nat>
  {
    if incidents == [] then map[]
    else
      var m := SeverityTally(incidents[..|incidents| - 1]);
      var k := incidents[|incidents| - 1].severity.Name();
      m[k := ValueOr(m, k) + 1]
  }

  /** The tally has a key exactly for each severity present. */
  lemma {:induction false} SeverityTallyKeys(incidents: seq<Incident>)
    ensures forall k :: k in SeverityTally(incidents) <==> exists i :: 0 <= i < |incidents| && incidents[i].severity.Name() == k
  {
    if incidents != [] {
      var prefix := incidents[..|incidents| - 1];
      SeverityTallyKeys(prefix);
      forall k | k in SeverityTally(incidents)
        ensures exists i :: 0 <= i < |incidents| && incidents[i].severity.Name() == k
      {
        if k in SeverityTally(prefix) {
          var i :| 0 <= i < |prefix| && prefix[i].severity.Name() == k;
          assert incidents[i] == prefix[i];
        } else {
          assert incidents[|incidents| - 1].severity.Name() == k;
        }
      }
      forall k | exists i :: 0 <= i < |incidents| && incidents[i].severity.Name() == k
        ensures k in SeverityTally(incidents)
      {
        var i :| 0 <= i < |incidents| && incidents[i].severity.Name() == k;
        if i < |incidents| - 1 {
          assert prefix[i] == incidents[i];
        }
      }
    }
  }

  /** The value under a severity's name is that severity's count. */
  lemma {:induction false} SeverityTallyCounts(incidents: seq<Incident>, s: Severity)
    ensures ValueOr(SeverityTally(incidents), s.Name()) == CountSeverity(incidents, s)
  {
    if incidents != [] {
      SeverityTallyCounts(incidents[..|incidents| - 1], s);
      NameInjective(s, incidents[|incidents| - 1].severity);
    }
  }

  /** The four values of the tally add up to the number of incidents. */
  lemma SeverityTallyTotal(incidents: seq<Incident>)
    ensures ValueOr(SeverityTally(incidents), "critical") + ValueOr(SeverityTally(incidents), "high")
          + ValueOr(SeverityTally(incidents), "medium") + ValueOr(SeverityTally(incidents), "low") == |incidents|
  {
    SeverityTallyCounts(incidents, Critical);
    SeverityTallyCounts(incidents, High);
    SeverityTallyCounts(incidents, Medium);
    SeverityTallyCounts(incidents, Low);
    SeverityCountsPartition(incidents);
  }

  /** The severity breakdown, counted incident by incident into a dictionary. */
  method TallySeverities(incidents: seq<Incident>) returns (bySeverity: map<string, nat>)
    ensures bySeverity == SeverityTally(incidents)
  {
    bySeverity := map[];
    for i := 0 to |incidents|
      invariant bySeverity == SeverityTally(incidents[..i])
    {
      assert incidents[..i + 1][..i] == incidents[..i];
      var k := incidents[i].severity.Name();
      bySeverity := bySeverity[k := ValueOr(bySeverity, k) + 1];
    }
    assert incidents[..|incidents|] == incidents;
  }

  /** The total number of affected users. */
  function AffectedUsers(incidents: seq<Incident>): nat
  {
    if incidents == [] then 0
    else AffectedUsers(incidents[..|incidents| - 1]) + incidents[|incidents| - 1].affectedUsers
  }

  /** The affected-user total of a concatenation is the sum of the parts' totals. */
  lemma {:induction false} AffectedUsersAppend(xs: seq<Incident>, ys: seq<Incident>)
    ensures AffectedUsers(xs + ys) == AffectedUsers(xs) + AffectedUsers(ys)
  {
    if ys == [] {
      assert xs + ys == xs;
    } else {
      AffectedUsersAppend(xs, ys[..|ys| - 1]);
      assert (xs + ys)[..|xs + ys| - 1] == xs + ys[..|ys| - 1];
    }
  }

  /** One line of the summary's incident list. */
  datatype IncidentEntry = IncidentEntry(
    id: string,
    title: string,
    severity: string,
    reportedAt: int,
    resolved: bool,
    affectedUsers: nat)

  function EntryOf(inc: Incident): (e: IncidentEntry)
    ensures e.id == inc.id && e.severity == inc.severity.Name()
    ensures e.resolved <==> inc.IsResolved()
  {
    IncidentEntry(inc.id, inc.title, inc.severity.Name(), inc.reportedAt, inc.resolvedAt.Some?, inc.affectedUsers)
  }

  datatype IncidentSummary = IncidentSummary(
    totalIncidents: nat,
    bySeverity: map<string, nat>,
    resolved: nat,
    unresolved: nat,
    affectedUsersTotal: nat,
    timePeriod: string,
    severityFilter: string,
    incidents: seq<IncidentEntry>)

  /** The summary tool's default window, in days. */
  const DefaultDays := 30

  /**
   * The incident summary tool: counts, the severity breakdown and the
   * affected-user total over the selected incidents, and one entry per
   * selected incident in the same order.
   */
  method GetIncidentSummary(incidents: seq<Incident>, now: int, severity: Option<string>, days: int) returns (r: IncidentSummary)
    ensures var selected := Selected(incidents, now, severity, days);
      && r.totalIncidents == |selected|
      && r.resolved == CountResolved(selected)
      && r.resolved + r.unresolved == r.totalIncidents
      && r.bySeverity == SeverityTally(selected)
      && r.affectedUsersTotal == AffectedUsers(selected)
      && |r.incidents| == |selected|
      && (forall i :: 0 <= i < |selected| ==> r.incidents[i] == EntryOf(selected[i]))
    ensures r.timePeriod == "Last " + IntToString(days) + " days"
    ensures r.severityFilter == if Given(severity) then severity.value else "all"
  {
    var selected := Selected(incidents, now, severity, days);
    var resolved := CountResolved(selected);
    var bySeverity := TallySeverities(selected);
    var entries := seq(|selected|, i requires 0 <= i < |selected| => EntryOf(selected[i]));
    r := IncidentSummary(
      |selected|,
      bySeverity,
      resolved,
      |selected| - resolved,
      AffectedUsers(selected),
      "Last " + IntToString(days) + " days",
      if Given(severity) then severity.value else "all",
      entries);
  }

  // ---------------------------------------------------------------------------
  // Mean time to resolve by severity
  // ---------------------------------------------------------------------------

  /** Hours from report to resolution of a resolved incident, not rounded. */
  function ResolutionHours(inc: Incident): real
    requires inc.IsResolved()
  {
    HoursBetween(inc.reportedAt, inc.resolvedAt.value)
  }

  /** The resolution hours of the resolved incidents with severity name `k`, in order. */
  function HoursOf(incidents: seq<Incident>, k: string): seq<real>
  {
    if incidents == [] then []
    else
      var last := incidents[|incidents| - 1];
      HoursOf(incidents[..|incidents| - 1], k) + (if last.IsResolved() && last.severity.Name() == k then [ResolutionHours(last)] else [])
  }

  /** The resolution hours of every resolved incident, in order. */
  function AllHours(incidents: seq<Incident>): (hs: seq<real>)
    ensures |hs| == CountResolved(incidents)
  {
    if incidents == [] then []
    else
      var last := incidents[|incidents| - 1];
      AllHours(incidents[..|incidents| - 1]) + (if last.IsResolved() then [ResolutionHours(last)] else [])
  }

  /** The severity names of the resolved incidents, in the order they first appear (dictionary key order). */
  function SeverityOrder(incidents: seq<Incident>): seq<string>
  {
    if incidents == [] then []
    else
      var order := SeverityOrder(incidents[..|incidents| - 1]);
      var last := incidents[|incidents| - 1];
      if !last.IsResolved() || last.severity.Name() in order then order else order + [last.severity.Name()]
  }

  /** No name occurs twice in `order`. */
  predicate Distinct(order: seq<string>)
  {
    forall i, j :: 0 <= i < j < |order| ==> order[i] != order[j]
  }

  /** `times` and `order` are the dictionary of lists after going through `seen`. */
  ghost predicate Grouped(times: map<string, seq<real>>, order: seq<string>, seen: seq<Incident>)
  {
    && order == SeverityOrder(seen)
    && Distinct(order)
    && (forall k :: k in times <==> k in order)
    && (forall k :: k in times ==> times[k] == HoursOf(seen, k) && times[k] != [])
  }

  /** A severity without any resolved incident has no hours. */
  lemma {:induction false} AbsentHours(seen: seq<Incident>, k: string)
    requires k !in SeverityOrder(seen)
    ensures HoursOf(seen, k) == []
  {
    if seen != [] {
      AbsentHours(seen[..|seen| - 1], k);
    }
  }

  /** One more incident, appended to its severity's list when resolved, keeps `Grouped`. */
  lemma GroupStep(times: map<string, seq<real>>, order: seq<string>, seen: seq<Incident>, inc: Incident)
    requires Grouped(times, order, seen)
    ensures inc.IsResolved() ==>
      var k := inc.severity.Name();
      Grouped(times[k := (if k in times then times[k] else []) + [ResolutionHours(inc)]],
              if k in times then order else order + [k], seen + [inc])
    ensures !inc.IsResolved() ==> Grouped(times, order, seen + [inc])
  {
    var s := seen + [inc];
    assert s[..|s| - 1] == seen;
    if inc.IsResolved() && inc.severity.Name() !in times {
      AbsentHours(seen, inc.severity.Name());
    }
  }

  /** Collects the resolution hours of every resolved incident, grouped by severity name. */
  method GroupBySeverity(incidents: seq<Incident>) returns (times: map<string, seq<real>>, order: seq<string>)
    ensures Grouped(times, order, incidents)
  {
    times := map[];
    order := [];
    for i := 0 to |incidents|
      invariant Grouped(times, order, incidents[..i])
    {
      var inc := incidents[i];
      GroupStep(times, order, incidents[..i], inc);
      assert incidents[..i + 1] == incidents[..i] + [inc];
      if inc.resolvedAt.Some? {
        var hours := HoursBetween(inc.reportedAt, inc.resolvedAt.value);
        var k := inc.severity.Name();
        if k !in times {
          order := order + [k];
        }
        times := times[k := (if k in times then times[k] else []) + [hours]];
      }
    }
    assert incidents[..|incidents|] == incidents;
  }

  /** The lists of `times` concatenated in the order of `order`. */
  function Flatten(order: seq<string>, times: map<string, seq<real>>): seq<real>
    requires forall k :: k in order ==> k in times
  {
    if order == [] then []
    else Flatten(order[..|order| - 1], times) + times[order[|order| - 1]]
  }

  /** Changing the list of a name that is not in `order` does not change the concatenation. */
  lemma {:induction false} FlattenOther(order: seq<string>, times: map<string, seq<real>>, k: string, v: seq<real>)
    requires forall j :: j in order ==> j in times
    requires k !in order
    ensures Flatten(order, times[k := v]) == Flatten(order, times)
  {
    if order != [] {
      FlattenOther(order[..|order| - 1], times, k, v);
    }
  }

  /**
   * Appending `h` to the list of a name that occurs once in `order` adds
   * one element, `h`, to the concatenation: its length grows by one and its
   * sum by `h`.
   */
  lemma {:induction false} FlattenAppend(order: seq<string>, times: map<string, seq<real>>, k: string, h: real)
    requires forall j :: j in order ==> j in times
    requires Distinct(order) && k in order
    ensures var updated := times[k := times[k] + [h]];
      && |Flatten(order, updated)| == |Flatten(order, times)| + 1
      && Sum(Flatten(order, updated)) == Sum(Flatten(order, times)) + h
  {
    var updated := times[k := times[k] + [h]];
    var prefix, last := order[..|order| - 1], order[|order| - 1];
    if last == k {
      forall i | 0 <= i < |prefix|
        ensures prefix[i] != k
      {
        assert order[i] != order[|order| - 1];
      }
      FlattenOther(prefix, times, k, times[k] + [h]);
      SumAppend(Flatten(prefix, times), times[k]);
      SumAppend(Flatten(prefix, times), times[k] + [h]);
      assert Sum(times[k] + [h]) == Sum(times[k]) + h by {
        assert (times[k] + [h])[..|times[k]|] == times[k];
      }
    } else {
      assert Distinct(prefix);
      assert k in prefix;
      FlattenAppend(prefix, times, k, h);
      SumAppend(Flatten(prefix, times), times[last]);
      SumAppend(Flatten(prefix, updated), times[last]);
    }
  }

  /** Appending to a name that is new, at the end of `order`, adds that one element too. */
  lemma FlattenNew(order: seq<string>, times: map<string, seq<real>>, k: string, h: real)
    requires forall j :: j in order ==> j in times
    requires k !in order
    ensures var grown := times[k := [h]];
      && |Flatten(order + [k], grown)| == |Flatten(order, times)| + 1
      && Sum(Flatten(order + [k], grown)) == Sum(Flatten(order, times)) + h
  {
    var grown := times[k := [h]];
    assert (order + [k])[..|order|] == order;
    FlattenOther(order, times, k, [h]);
    SumAppend(Flatten(order, times), [h]);
    assert Sum([h]) == h by {
      assert [h][..0] == [];
    }
  }

  /**
   * Concatenating the groups in key order gives a list with the same
   * length and the same sum as the hours of every resolved incident in
   * stored order.
   */
  lemma {:induction false} FlattenMatchesAll(incidents: seq<Incident>)
    ensures var g := GroupedOf(incidents);
      && (forall k :: k in g.1 ==> k in g.0)
      && |Flatten(g.1, g.0)| == |AllHours(incidents)|
      && Sum(Flatten(g.1, g.0)) == Sum(AllHours(incidents))
  {
    if incidents != [] {
      var prefix, inc := incidents[..|incidents| - 1], incidents[|incidents| - 1];
      FlattenMatchesAll(prefix);
      var g := GroupedOf(prefix);
      GroupedOfKeys(prefix);
      if inc.IsResolved() {
        var k, h := inc.severity.Name(), ResolutionHours(inc);
        assert AllHours(incidents) == AllHours(prefix) + [h];
        SumAppend(AllHours(prefix), [h]);
        assert Sum([h]) == h by {
          assert [h][..0] == [];
        }
        if k in g.0 {
          assert GroupedOf(incidents) == (g.0[k := g.0[k] + [h]], g.1);
          FlattenAppend(g.1, g.0, k, h);
        } else {
          assert GroupedOf(incidents) == (g.0[k := [h]], g.1 + [k]) by {
            assert [] + [h] == [h];
          }
          FlattenNew(g.1, g.0, k, h);
        }
      } else {
        assert GroupedOf(incidents) == g;
        assert AllHours(incidents) == AllHours(prefix);
        assert HoursOf(incidents, Critical.Name()) == HoursOf(prefix, Critical.Name());
        assert HoursOf(incidents, High.Name()) == HoursOf(prefix, High.Name());
        assert HoursOf(incidents, Medium.Name()) == HoursOf(prefix, Medium.Name());
        assert HoursOf(incidents, Low.Name()) == HoursOf(prefix, Low.Name());
      }
    }
  }

  /** The keys of the grouped lists are the names in the key order, each once. */
  lemma GroupedOfKeys(seen: seq<Incident>)
    ensures forall k :: k in GroupedOf(seen).0 <==> k in GroupedOf(seen).1
    ensures Distinct(GroupedOf(seen).1)
  {
    GroupedOfIs(seen);
  }

  /** The dictionary of lists and its key order after going through `seen`, as values. */
  function GroupedOf(seen: seq<Incident>): (map<string, seq<real>>, seq<string>)
  {
    if seen == [] then (map[], [])
    else
      var g := GroupedOf(seen[..|seen| - 1]);
      var inc := seen[|seen| - 1];
      if !inc.IsResolved() then g
      else
        var k := inc.severity.Name();
        (g.0[k := (if k in g.0 then g.0[k] else []) + [ResolutionHours(inc)]], if k in g.0 then g.1 else g.1 + [k])
  }

  /** `GroupedOf` is the state `Grouped` describes. */
  lemma {:induction false} GroupedOfIs(seen: seq<Incident>)
    ensures Grouped(GroupedOf(seen).0, GroupedOf(seen).1, seen)
  {
    if seen == [] {
    } else {
      var prefix := seen[..|seen| - 1];
      GroupedOfIs(prefix);
      assert prefix + [seen[|seen| - 1]] == seen;
      GroupStep(GroupedOf(prefix).0, GroupedOf(prefix).1, prefix, seen[|seen| - 1]);
    }
  }

  /** Two states that `Grouped` describes for the same incidents are the same. */
  lemma GroupedUnique(times: map<string, seq<real>>, order: seq<string>, seen: seq<Incident>)
    requires Grouped(times, order, seen)
    ensures times == GroupedOf(seen).0 && order == GroupedOf(seen).1
  {
    GroupedOfIs(seen);
    var g := GroupedOf(seen);
    assert times.Keys == g.0.Keys;
  }

  /** For each name of `order`, the rounded mean of its list, 0 for an empty list. */
  method MeanPerKey(times: map<string, seq<real>>, order: seq<string>) returns (means: map<string, real>)
    requires forall k :: k in order ==> k in times
    ensures forall k :: k in means <==> k in order
    ensures forall k :: k in means ==> means[k] == Round2(MeanOrZero(times[k]))
  {
    means := map[];
    for j := 0 to |order|
      invariant forall k :: k in means <==> k in order[..j]
      invariant forall k :: k in means ==> means[k] == Round2(MeanOrZero(times[k]))
    {
      var k := order[j];
      var ts := times[k];
      var mttr := if ts != [] then Sum(ts) / |ts| as real else 0.0;
      means := means[k := Round2(mttr)];
    }
    assert order[..|order|] == order;
  }

  /**
   * Whatever state `Grouped` describes, its lists concatenated in key order
   * hold as many hours as there are resolved incidents, with the same sum.
   */
  lemma GroupedTotals(times: map<string, seq<real>>, order: seq<string>, seen: seq<Incident>)
    requires Grouped(times, order, seen)
    ensures forall k :: k in order ==> k in times
    ensures |Flatten(order, times)| == CountResolved(seen)
    ensures Sum(Flatten(order, times)) == Sum(AllHours(seen))
  {
    GroupedUnique(times, order, seen);
    FlattenMatchesAll(seen);
  }

  datatype MttrReport = MttrReport(
    mttrBySeverity: map<string, real>,
    overallMttr: real,
    resolvedIncidentsBySeverity: map<string, nat>,
    totalResolvedIncidents: nat,
    analysisNote: string)

  /**
   * The MTTR tool over every resolved incident, regardless of when it was
   * reported: per severity the rounded mean of its resolution hours, overall
   * the rounded mean of all of them (0 without any), and the number of
   * resolved incidents per severity and in total.
   */
  method GetMttrBySeverity(incidents: seq<Incident>) returns (r: MttrReport)
    ensures forall k :: k in r.mttrBySeverity <==> exists i :: 0 <= i < |incidents| && incidents[i].IsResolved() && incidents[i].severity.Name() == k
    ensures forall k :: k in r.mttrBySeverity ==> r.mttrBySeverity[k] == Round2(MeanOrZero(HoursOf(incidents, k)))
    ensures forall k :: k in r.resolvedIncidentsBySeverity <==> k in r.mttrBySeverity
    ensures forall k :: k in r.resolvedIncidentsBySeverity ==>
      r.resolvedIncidentsBySeverity[k] == |HoursOf(incidents, k)| && r.resolvedIncidentsBySeverity[k] > 0
    ensures r.totalResolvedIncidents == CountResolved(incidents)
    ensures r.overallMttr == if CountResolved(incidents) == 0 then 0.0 else Round2(MeanOrZero(AllHours(incidents)))
    ensures r.analysisNote == "MTTR calculated in hours for resolved incidents only"
    ensures CountsTotal(r.resolvedIncidentsBySeverity) == r.totalResolvedIncidents
    ensures var n, scaled := r.totalResolvedIncidents as real, Times(r.totalResolvedIncidents, r.overallMttr);
      scaled - 0.01 * n <= WeightedMttr(r) <= scaled + 0.01 * n
  {
    var times, order := GroupBySeverity(incidents);
    var mttrBySeverity := MeanPerKey(times, order);
    var allTimes := Flatten(order, times);
    var overallMttr := if allTimes != [] then Round2(Sum(allTimes) / |allTimes| as real) else 0.0;
    var resolvedCounts := map k | k in times :: |times[k]|;
    GroupedTotals(times, order, incidents);
    GroupedOrderExact(incidents);
    r := MttrReport(mttrBySeverity, overallMttr, resolvedCounts, |allTimes|, "MTTR calculated in hours for resolved incidents only");
    MttrConsistent(incidents, r);
  }

  /** A report with the per-severity maps of the MTTR tool has counts and means that agree with its totals. */
  lemma MttrConsistent(incidents: seq<Incident>, r: MttrReport)
    requires forall k :: k in r.mttrBySeverity <==> exists i :: 0 <= i < |incidents| && incidents[i].IsResolved() && incidents[i].severity.Name() == k
    requires forall k :: k in r.mttrBySeverity ==> r.mttrBySeverity[k] == Round2(MeanOrZero(HoursOf(incidents, k)))
    requires forall k :: k in r.resolvedIncidentsBySeverity <==> k in r.mttrBySeverity
    requires forall k :: k in r.resolvedIncidentsBySeverity ==> r.resolvedIncidentsBySeverity[k] == |HoursOf(incidents, k)|
    requires r.totalResolvedIncidents == CountResolved(incidents)
    requires r.overallMttr == if CountResolved(incidents) == 0 then 0.0 else Round2(MeanOrZero(AllHours(incidents)))
    ensures CountsTotal(r.resolvedIncidentsBySeverity) == r.totalResolvedIncidents
    ensures var n, scaled := r.totalResolvedIncidents as real, Times(r.totalResolvedIncidents, r.overallMttr);
      scaled - 0.01 * n <= WeightedMttr(r) <= scaled + 0.01 * n
  {
    forall s: Severity
      ensures ValueOr(r.resolvedIncidentsBySeverity, s.Name()) == |HoursOf(incidents, s.Name())|
      ensures |HoursOf(incidents, s.Name())| > 0 ==>
        RealOr(r.mttrBySeverity, s.Name()) == Round2(MeanOrZero(HoursOf(incidents, s.Name())))
    {
      MttrPerSeverity(incidents, r, s);
    }
    MttrReportTotals(incidents, r);
  }

  /** The key order lists exactly the severities with a resolved incident. */
  lemma {:induction false} GroupedOrderExact(seen: seq<Incident>)
    ensures forall k :: k in SeverityOrder(seen) <==> exists i :: 0 <= i < |seen| && seen[i].IsResolved() && seen[i].severity.Name() == k
  {
    if seen != [] {
      var prefix := seen[..|seen| - 1];
      GroupedOrderExact(prefix);
      forall k | k in SeverityOrder(seen)
        ensures exists i :: 0 <= i < |seen| && seen[i].IsResolved() && seen[i].severity.Name() == k
      {
        if k in SeverityOrder(prefix) {
          var i :| 0 <= i < |prefix| && prefix[i].IsResolved() && prefix[i].severity.Name() == k;
          assert seen[i] == prefix[i];
        } else {
          assert seen[|seen| - 1].severity.Name() == k;
        }
      }
      forall k | exists i :: 0 <= i < |seen| && seen[i].IsResolved() && seen[i].severity.Name() == k
        ensures k in SeverityOrder(seen)
      {
        var i :| 0 <= i < |seen| && seen[i].IsResolved() && seen[i].severity.Name() == k;
        if i < |seen| - 1 {
          assert prefix[i] == seen[i];
        }
      }
    }
  }

  // ---------------------------------------------------------------------------
  // Per-severity totals of the MTTR tool
  // ---------------------------------------------------------------------------

  /** The value under `k`, 0.0 when absent. */
  function RealOr(m: map<string, real>, k: string): real
  {
    if k in m then m[k] else 0.0
  }

  /** The resolved counts of the four severities added up. */
  function CountsTotal(c: map<string, nat>): nat
  {
    ValueOr(c, Critical.Name()) + ValueOr(c, High.Name()) + ValueOr(c, Medium.Name()) + ValueOr(c, Low.Name())
  }

  /** `n` copies of `x` added up: a product by a count, written so that it unfolds one step at a time. */
  function Times(n: nat, x: real): real
  {
    if n == 0 then 0.0 else Times(n - 1, x) + x
  }

  /** Adding up `n` copies of `x` is multiplying `x` by `n`. */
  lemma {:induction false} TimesIsProduct(n: nat, x: real)
    ensures Times(n, x) == n as real * x
  {
    if n > 0 {
      TimesIsProduct(n - 1, x);
      assert (n - 1) as real * x + x == n as real * x;
    }
  }

  /** The MTTR under `k` weighted by its resolved count. */
  function Weighted(counts: map<string, nat>, mttr: map<string, real>, k: string): real
  {
    Times(ValueOr(counts, k), RealOr(mttr, k))
  }

  /** The per-severity MTTRs of a report, each weighted by its resolved count, added up. */
  function WeightedMttr(r: MttrReport): real
  {
    var c, m := r.resolvedIncidentsBySeverity, r.mttrBySeverity;
    Weighted(c, m, Critical.Name()) + Weighted(c, m, High.Name()) + Weighted(c, m, Medium.Name()) + Weighted(c, m, Low.Name())
  }

  /** The hours of one more resolved incident go to its own severity only. */
  lemma HoursOfStep(prefix: seq<Incident>, last: Incident, s: Severity)
    requires last.IsResolved()
    ensures var hs := HoursOf(prefix + [last], s.Name());
      && |hs| == |HoursOf(prefix, s.Name())| + (if last.severity == s then 1 else 0)
      && Sum(hs) == Sum(HoursOf(prefix, s.Name())) + (if last.severity == s then ResolutionHours(last) else 0.0)
  {
    var all := prefix + [last];
    assert all[..|all| - 1] == prefix;
    var before := HoursOf(prefix, s.Name());
    NameInjective(last.severity, s);
    if last.severity == s {
      var h := ResolutionHours(last);
      assert HoursOf(all, s.Name()) == before + [h];
      SumAppend(before, [h]);
      assert Sum([h]) == h by {
        assert [h][..0] == [];
      }
    } else {
      assert HoursOf(all, s.Name()) == before;
    }
  }

  /**
   * Every resolved incident has exactly one severity: the four lists of
   * hours hold one value per resolved incident and add up to all the hours.
   */
  lemma {:induction false} HoursOfPartition(incidents: seq<Incident>)
    ensures |HoursOf(incidents, Critical.Name())| + |HoursOf(incidents, High.Name())|
          + |HoursOf(incidents, Medium.Name())| + |HoursOf(incidents, Low.Name())| == CountResolved(incidents)
    ensures Sum(HoursOf(incidents, Critical.Name())) + Sum(HoursOf(incidents, High.Name()))
          + Sum(HoursOf(incidents, Medium.Name())) + Sum(HoursOf(incidents, Low.Name())) == Sum(AllHours(incidents))
  {
    if incidents != [] {
      var prefix, last := incidents[..|incidents| - 1], incidents[|incidents| - 1];
      HoursOfPartition(prefix);
      assert incidents == prefix + [last];
      if last.IsResolved() {
        var h := ResolutionHours(last);
        assert AllHours(incidents) == AllHours(prefix) + [h];
        SumAppend(AllHours(prefix), [h]);
        assert Sum([h]) == h by {
          assert [h][..0] == [];
        }
        HoursOfStep(prefix, last, Critical);
        HoursOfStep(prefix, last, High);
        HoursOfStep(prefix, last, Medium);
        HoursOfStep(prefix, last, Low);
        assert Sum(AllHours(incidents)) == Sum(AllHours(prefix)) + h;
        match last.severity
        case Critical =>
        case High =>
        case Medium =>
        case Low =>
      } else {
        assert AllHours(incidents) == AllHours(prefix);
        assert HoursOf(incidents, Critical.Name()) == HoursOf(prefix, Critical.Name());
        assert HoursOf(incidents, High.Name()) == HoursOf(prefix, High.Name());
        assert HoursOf(incidents, Medium.Name()) == HoursOf(prefix, Medium.Name());
        assert HoursOf(incidents, Low.Name()) == HoursOf(prefix, Low.Name());
      }
    }
  }

  /** The per-severity means weighted by their counts add up to the total of all resolution hours. */
  lemma WeightedMeanExact(incidents: seq<Incident>)
    ensures WeightedMean(HoursOf(incidents, Critical.Name())) + WeightedMean(HoursOf(incidents, High.Name()))
          + WeightedMean(HoursOf(incidents, Medium.Name())) + WeightedMean(HoursOf(incidents, Low.Name()))
         == Sum(AllHours(incidents))
  {
    HoursOfPartition(incidents);
    WeightedFour(HoursOf(incidents, Critical.Name()), HoursOf(incidents, High.Name()),
                 HoursOf(incidents, Medium.Name()), HoursOf(incidents, Low.Name()), AllHours(incidents));
  }

  /** Four lists whose totals make up a fifth: their count-weighted means make up its total. */
  lemma WeightedFour(c: seq<real>, a: seq<real>, b: seq<real>, d: seq<real>, all: seq<real>)
    requires Sum(c) + Sum(a) + Sum(b) + Sum(d) == Sum(all)
    ensures WeightedMean(c) + WeightedMean(a) + WeightedMean(b) + WeightedMean(d) == Sum(all)
  {
    CountTimesMean(c);
    CountTimesMean(a);
    CountTimesMean(b);
    CountTimesMean(d);
  }

  /** The mean of `xs` weighted by the number of samples. */
  function WeightedMean(xs: seq<real>): real
  {
    |xs| as real * MeanOrZero(xs)
  }

  /** A mean times the number of samples is their sum. */
  lemma CountTimesMean(xs: seq<real>)
    ensures |xs| as real * MeanOrZero(xs) == Sum(xs)
  {
    if xs == [] {
      assert Sum(xs) == 0.0;
    } else {
      assert MeanOrZero(xs) * |xs| as real == Sum(xs);
    }
  }

  /** A rounded mean times the number of samples misses their sum by at most half a cent per sample. */
  lemma RoundedCountTimesMean(xs: seq<real>)
    ensures var n := |xs| as real;
      Sum(xs) - 0.005 * n <= n * Round2(MeanOrZero(xs)) <= Sum(xs) + 0.005 * n
  {
    CountTimesMean(xs);
    ScaleWithin(|xs| as real, Round2(MeanOrZero(xs)), MeanOrZero(xs), Sum(xs));
  }

  /** Scaling a value within half a cent of `y` by `n` lands within `n` half cents of `n * y`. */
  lemma ScaleWithin(n: real, x: real, y: real, ny: real)
    requires n >= 0.0 && y - 0.005 <= x <= y + 0.005 && n * y == ny
    ensures ny - 0.005 * n <= n * x <= ny + 0.005 * n
  {
    var d := x - y;
    assert n * x == ny + n * d;
    ScaledBelow(n, d, n * d);
    ScaledAbove(n, d, n * d);
  }

  /** A multiplier of at most half a cent scales to at most `n` half cents. */
  lemma ScaledAbove(n: real, d: real, nd: real)
    requires n >= 0.0 && d <= 0.005 && nd == n * d
    ensures nd <= 0.005 * n
  {
    MulMono(n, d, 0.005);
    assert n * 0.005 == 0.005 * n;
  }

  /** A multiplier of at least minus half a cent scales to at least minus `n` half cents. */
  lemma ScaledBelow(n: real, d: real, nd: real)
    requires n >= 0.0 && -0.005 <= d && nd == n * d
    ensures -0.005 * n <= nd
  {
    MulMono(n, 0.0, d + 0.005);
    assert n * (d + 0.005) == nd + n * 0.005;
    assert n * 0.005 == 0.005 * n;
  }

  /** Multiplying by a non-negative factor keeps order. */
  lemma MulMono(n: real, a: real, b: real)
    requires n >= 0.0 && a <= b
    ensures n * a <= n * b
  {
    assert n * b - n * a == n * (b - a);
  }

  /**
   * For a report whose fields are those of the MTTR tool, the per-severity
   * counts add up to the resolved total, and the per-severity MTTRs
   * weighted by their counts are within one cent per resolved incident of
   * the overall MTTR times the total.
   */
  lemma MttrReportTotals(incidents: seq<Incident>, r: MttrReport)
    requires forall s: Severity :: ValueOr(r.resolvedIncidentsBySeverity, s.Name()) == |HoursOf(incidents, s.Name())|
    requires forall s: Severity :: |HoursOf(incidents, s.Name())| > 0 ==>
      RealOr(r.mttrBySeverity, s.Name()) == Round2(MeanOrZero(HoursOf(incidents, s.Name())))
    requires r.totalResolvedIncidents == CountResolved(incidents)
    requires r.overallMttr == if CountResolved(incidents) == 0 then 0.0 else Round2(MeanOrZero(AllHours(incidents)))
    ensures CountsTotal(r.resolvedIncidentsBySeverity) == r.totalResolvedIncidents
    ensures var n, scaled := r.totalResolvedIncidents as real, Times(r.totalResolvedIncidents, r.overallMttr);
      scaled - 0.01 * n <= WeightedMttr(r) <= scaled + 0.01 * n
  {
    HoursOfPartition(incidents);
    var counts, mttr := r.resolvedIncidentsBySeverity, r.mttrBySeverity;
    var c, a, b, d := HoursOf(incidents, Critical.Name()), HoursOf(incidents, High.Name()),
                      HoursOf(incidents, Medium.Name()), HoursOf(incidents, Low.Name());
    WeightedTerm(counts, mttr, c, Critical.Name());
    WeightedTerm(counts, mttr, a, High.Name());
    WeightedTerm(counts, mttr, b, Medium.Name());
    WeightedTerm(counts, mttr, d, Low.Name());
    SumWithin4(Weighted(counts, mttr, Critical.Name()), Weighted(counts, mttr, High.Name()),
               Weighted(counts, mttr, Medium.Name()), Weighted(counts, mttr, Low.Name()),
               Sum(c), Sum(a), Sum(b), Sum(d), |c| as real, |a| as real, |b| as real, |d| as real);
    ReportWithin(r, AllHours(incidents));
  }

  /**
   * A weighted total within half a cent per incident of all the hours is
   * within a cent per incident of the rounded overall MTTR times the count.
   */
  lemma ReportWithin(r: MttrReport, all: seq<real>)
    requires r.totalResolvedIncidents == |all|
    requires r.overallMttr == if |all| == 0 then 0.0 else Round2(MeanOrZero(all))
    requires var n := r.totalResolvedIncidents as real;
      Sum(all) - 0.005 * n <= WeightedMttr(r) <= Sum(all) + 0.005 * n
    ensures var n, scaled := r.totalResolvedIncidents as real, Times(r.totalResolvedIncidents, r.overallMttr);
      scaled - 0.01 * n <= WeightedMttr(r) <= scaled + 0.01 * n
  {
    OverallTerm(all, r.totalResolvedIncidents, r.overallMttr);
    CloseWithin(WeightedMttr(r), Sum(all), r.totalResolvedIncidents as real, Times(r.totalResolvedIncidents, r.overallMttr));
  }

  /** Four terms, each within half a cent per sample of its own sum, add up to within half a cent per sample of the total. */
  lemma SumWithin4(w1: real, w2: real, w3: real, w4: real, s1: real, s2: real, s3: real, s4: real,
                   n1: real, n2: real, n3: real, n4: real)
    requires s1 - 0.005 * n1 <= w1 <= s1 + 0.005 * n1
    requires s2 - 0.005 * n2 <= w2 <= s2 + 0.005 * n2
    requires s3 - 0.005 * n3 <= w3 <= s3 + 0.005 * n3
    requires s4 - 0.005 * n4 <= w4 <= s4 + 0.005 * n4
    ensures var s, n := s1 + s2 + s3 + s4, n1 + n2 + n3 + n4;
      s - 0.005 * n <= w1 + w2 + w3 + w4 <= s + 0.005 * n
  {
    AddWithin(w1, w2, s1, s2, n1, n2);
    AddWithin(w1 + w2, w3, s1 + s2, s3, n1 + n2, n3);
    AddWithin(w1 + w2 + w3, w4, s1 + s2 + s3, s4, n1 + n2 + n3, n4);
  }

  /** One severity's term of the weighted total is within half a cent per incident of its hours. */
  lemma WeightedTerm(counts: map<string, nat>, mttr: map<string, real>, hs: seq<real>, k: string)
    requires ValueOr(counts, k) == |hs|
    requires |hs| > 0 ==> RealOr(mttr, k) == Round2(MeanOrZero(hs))
    ensures var n := |hs| as real;
      Sum(hs) - 0.005 * n <= Weighted(counts, mttr, k) <= Sum(hs) + 0.005 * n
  {
    RoundedCountTimesMean(hs);
    TimesIsProduct(|hs|, RealOr(mttr, k));
  }

  /** The overall MTTR times the resolved count is within half a cent per incident of all the hours. */
  lemma OverallTerm(all: seq<real>, count: nat, overall: real)
    requires count == |all|
    requires overall == if count == 0 then 0.0 else Round2(MeanOrZero(all))
    ensures var n := count as real;
      Sum(all) - 0.005 * n <= Times(count, overall) <= Sum(all) + 0.005 * n
  {
    RoundedCountTimesMean(all);
    TimesIsProduct(count, overall);
  }

  /** Two terms each within a tolerance of their summand add up within the summed tolerance. */
  lemma AddWithin(w1: real, w2: real, s1: real, s2: real, n1: real, n2: real)
    requires s1 - 0.005 * n1 <= w1 <= s1 + 0.005 * n1 && s2 - 0.005 * n2 <= w2 <= s2 + 0.005 * n2
    ensures (s1 + s2) - 0.005 * (n1 + n2) <= w1 + w2 <= (s1 + s2) + 0.005 * (n1 + n2)
  {
  }

  /** Two values each within half a cent per sample of the same total are within a cent per sample of each other. */
  lemma CloseWithin(w: real, total: real, n: real, scaled: real)
    requires total - 0.005 * n <= w <= total + 0.005 * n
    requires total - 0.005 * n <= scaled <= total + 0.005 * n
    ensures scaled - 0.01 * n <= w <= scaled + 0.01 * n
  {
  }

  /** What the MTTR tool reports for each severity, present or absent. */
  lemma {:induction false} MttrPerSeverity(incidents: seq<Incident>, r: MttrReport, s: Severity)
    requires forall k :: k in r.mttrBySeverity <==> exists i :: 0 <= i < |incidents| && incidents[i].IsResolved() && incidents[i].severity.Name() == k
    requires forall k :: k in r.mttrBySeverity ==> r.mttrBySeverity[k] == Round2(MeanOrZero(HoursOf(incidents, k)))
    requires forall k :: k in r.resolvedIncidentsBySeverity <==> k in r.mttrBySeverity
    requires forall k :: k in r.resolvedIncidentsBySeverity ==> r.resolvedIncidentsBySeverity[k] == |HoursOf(incidents, k)|
    ensures ValueOr(r.resolvedIncidentsBySeverity, s.Name()) == |HoursOf(incidents, s.Name())|
    ensures |HoursOf(incidents, s.Name())| > 0 ==> RealOr(r.mttrBySeverity, s.Name()) == Round2(MeanOrZero(HoursOf(incidents, s.Name())))
  {
    var k := s.Name();
    if k !in r.mttrBySeverity {
      GroupedOrderExact(incidents);
      AbsentHours(incidents, k);
    }
  }

  /** A critical outage resolved 6.5 hours after it was reported at second 1000. */
  function Outage(): Incident
  {
    Incident("INC-301", "outage", Critical, 1000, Some(1000 + 23400), 50, None)
  }

  /** Reported one day before `now`, the outage is in the default 30-day summary. */
  lemma OutageSelected()
    ensures Selected([Outage()], 1000 + SecondsPerDay, None, DefaultDays) == [Outage()]
  {
    var inc, now := Outage(), 1000 + SecondsPerDay;
    var p := (i: Incident) => InWindow(i, now, DefaultDays);
    assert p(inc);
    assert [inc][..0] == [];
    assert Filter([inc], p) == Filter([inc][..0], p) + [inc];
  }

  /** The MTTR of the critical severity over the outage alone is 6.5 hours. */
  lemma OutageMttr()
    ensures HoursOf([Outage()], Critical.Name()) == [6.5]
    ensures Round2(MeanOrZero(HoursOf([Outage()], Critical.Name()))) == 6.5
  {
    var inc := Outage();
    assert [inc][..0] == [];
    assert ResolutionHours(inc) == 6.5;
    assert HoursOf([inc], Critical.Name()) == [6.5];
    assert Sum([6.5]) == 6.5 by {
      assert [6.5][..0] == [];
    }
    assert MeanOrZero([6.5]) == 6.5;
    assert IsCents(6.5);
    Round2OfCents(6.5);
  }
}
