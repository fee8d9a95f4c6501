/**
 * The delivery tools: metrics of one sprint, looked up by name or taken as
 * the latest, and the velocity trend over the most recent sprints. The
 * sprint list is a parameter, in its stored chronological order.
 */
module JiraTools {
  import opened Wrappers
  import opened Sequences
  import opened Numeric
  import opened JiraModel

  datatype SprintSummary = SprintSummary(
    sprintName: string,
    plannedPoints: nat,
    completedPoints: nat,
    velocity: real,
    totalTickets: nat,
    completedTickets: nat,
    inProgressTickets: nat,
    blockedTickets: nat,
    dateRange: string)

  /** The tool's answer: the metrics, or only an error message. */
  datatype SprintLookup = SprintFound(summary: SprintSummary) | SprintNotFound(error: string)

  /**
   * The metrics of one sprint. Completed tickets are those whose status is
   * done, whether or not they carry a completion time.
   */
  function Summarize(s: SprintMetrics): (m: SprintSummary)
    ensures m.totalTickets == |s.tickets|
    ensures m.completedTickets == CountStatus(s.tickets, Done)
    ensures m.inProgressTickets == CountStatus(s.tickets, InProgress)
    ensures m.blockedTickets == CountStatus(s.tickets, Blocked)
    ensures m.completedTickets + m.inProgressTickets + m.blockedTickets + CountStatus(s.tickets, Todo) == m.totalTickets
    ensures CountCompleted(s.tickets) <= m.completedTickets
    ensures m.plannedPoints == s.plannedPoints && m.completedPoints == s.completedPoints
    ensures m.sprintName == s.sprintName && m.velocity == s.Velocity()
    ensures m.dateRange == s.startDate + " to " + s.endDate
  {
    StatusCountsPartition(s.tickets);
    CompletedAtMostDone(s.tickets);
    SprintSummary(
      s.sprintName,
      s.plannedPoints,
      s.completedPoints,
      Round2(if s.plannedPoints > 0 then s.completedPoints as real / s.plannedPoints as real * 100.0 else 0.0),
      |s.tickets|,
      CountStatus(s.tickets, Done),
      CountStatus(s.tickets, InProgress),
      CountStatus(s.tickets, Blocked),
      s.startDate + " to " + s.endDate)
  }

  /**
   * The tool counts a done ticket as completed even without a completion
   * time, where the ticket model's `is_completed` does not.
   */
  lemma SummaryCountsDoneNotCompleted()
    ensures var t := JiraTicket("QUAL-1", "t", Done, 3, "a", 0, None);
      var s := SprintMetrics("Sprint", "2024-01-01", "2024-01-14", 3, 0, [t]);
      Summarize(s).completedTickets == 1 && CountCompleted(s.tickets) == 0
  {
    DoneButNotCompleted();
  }

  /** Whether sprint `s` has the name `name`. */
  predicate Named(name: string, s: SprintMetrics)
  {
    s.sprintName == name
  }

  /**
   * The sprint metrics tool. A given name selects the first sprint with that
   * name, or yields only an error when there is none; no name selects the
   * last sprint, which the caller must make sure exists.
   */
  function GetSprintMetrics(sprints: seq<SprintMetrics>, sprintName: Option<string>): (r: SprintLookup)
    requires Given(sprintName) || sprints != []
    ensures r.SprintNotFound? <==> Given(sprintName) && forall i :: 0 <= i < |sprints| ==> !Named(sprintName.value, sprints[i])
    ensures r.SprintNotFound? ==> r.error == "Sprint '" + sprintName.value + "' not found"
    ensures r.SprintFound? ==>
      exists i :: (&& 0 <= i < |sprints| && r.summary == Summarize(sprints[i])
                   && (Given(sprintName) ==> Named(sprintName.value, sprints[i]) && forall j :: 0 <= j < i ==> !Named(sprintName.value, sprints[j]))
                   && (!Given(sprintName) ==> i == |sprints| - 1))
  {
    if Given(sprintName) then
      match FirstIndex(sprints, (s: SprintMetrics) => Named(sprintName.value, s))
      case None => SprintNotFound("Sprint '" + sprintName.value + "' not found")
      case Some(i) => SprintFound(Summarize(sprints[i]))
    else
      SprintFound(Summarize(sprints[|sprints| - 1]))
  }

  /**
   * Python's `xs[-n:]`: the last `n` elements for positive `n` (all of them
   * when there are fewer), the whole list for 0, and the list without its
   * first `-n` elements for negative `n`.
   */
  function Window<T>(xs: seq<T>, n: int): (w: seq<T>)
    ensures |w| <= |xs| && w == xs[|xs| - |w|..]
    ensures n > 0 ==> |w| == if n < |xs| then n else |xs|
    ensures n == 0 ==> w == xs
    ensures n < 0 ==> |w| == if -n < |xs| then |xs| + n else 0
  {
    if n > 0 then (if n < |xs| then xs[|xs| - n..] else xs)
    else if n == 0 then xs
    else if -n < |xs| then xs[-n..]
    else []
  }

  datatype SprintVelocity = SprintVelocity(sprintName: string, velocity: real)

  datatype Trend = Improving | Declining | Stable | InsufficientData
  {
    function Name(): string
    {
      match this
      case Improving => "improving"
      case Declining => "declining"
      case Stable => "stable"
      case InsufficientData => "insufficient_data"
    }
  }

  /** The velocity values of `xs`, in order. */
  function Velocities(xs: seq<SprintVelocity>): (vs: seq<real>)
    ensures |vs| == |xs|
    ensures forall i :: 0 <= i < |xs| ==> vs[i] == xs[i].velocity
  {
    if xs == [] then [] else Velocities(xs[..|xs| - 1]) + [xs[|xs| - 1].velocity]
  }

  /** Percentage change from the first to the last velocity; 0 without two values or a positive first one. */
  function VelocityChange(vs: seq<real>): real
  {
    if |vs| >= 2 && vs[0] > 0.0 then (vs[|vs| - 1] - vs[0]) / vs[0] * 100.0 else 0.0
  }

  function Classify(vs: seq<real>): Trend
  {
    if |vs| < 2 then InsufficientData
    else if VelocityChange(vs) > 5.0 then Improving
    else if VelocityChange(vs) < -5.0 then Declining
    else Stable
  }

  /**
   * From a positive first velocity, the trend improves exactly when the last
   * velocity exceeds the first by more than 5%, and declines exactly when it
   * falls more than 5% short; from a first velocity of 0 it is always stable.
   */
  lemma TrendDirection(vs: seq<real>)
    requires |vs| >= 2
    ensures vs[0] > 0.0 ==> (Classify(vs) == Improving <==> vs[|vs| - 1] > 1.05 * vs[0])
    ensures vs[0] > 0.0 ==> (Classify(vs) == Declining <==> vs[|vs| - 1] < 0.95 * vs[0])
    ensures vs[0] <= 0.0 ==> Classify(vs) == Stable
  {
    if vs[0] > 0.0 {
      var first, last := vs[0], vs[|vs| - 1];
      var change := (last - first) / first * 100.0;
      assert VelocityChange(vs) == change;
      var above, below := change - 5.0, change + 5.0;
      assert above * first == (last - 1.05 * first) * 100.0;
      assert below * first == (last - 0.95 * first) * 100.0;
      SignOfProduct(above, first);
      SignOfProduct(below, first);
    } else {
      assert VelocityChange(vs) == 0.0;
    }
  }

  /** Multiplying by a positive factor keeps the sign. */
  lemma SignOfProduct(a: real, b: real)
    requires b > 0.0
    ensures a > 0.0 <==> a * b > 0.0
    ensures a < 0.0 <==> a * b < 0.0
  {
  }

  /** Index of the first lowest velocity, as Python's `min` keeps the first of equal keys. */
  function LowestIndex(xs: seq<SprintVelocity>): (k: nat)
    requires xs != []
    ensures k < |xs|
    ensures forall j :: 0 <= j < |xs| ==> xs[k].velocity <= xs[j].velocity
    ensures forall j :: 0 <= j < k ==> xs[j].velocity > xs[k].velocity
  {
    if |xs| == 1 then 0
    else
      var k := LowestIndex(xs[..|xs| - 1]);
      if xs[|xs| - 1].velocity < xs[k].velocity then |xs| - 1 else k
  }

  /** Index of the first highest velocity, as Python's `max` keeps the first of equal keys. */
  function HighestIndex(xs: seq<SprintVelocity>): (k: nat)
    requires xs != []
    ensures k < |xs|
    ensures forall j :: 0 <= j < |xs| ==> xs[j].velocity <= xs[k].velocity
    ensures forall j :: 0 <= j < k ==> xs[j].velocity < xs[k].velocity
  {
    if |xs| == 1 then 0
    else
      var k := HighestIndex(xs[..|xs| - 1]);
      if xs[|xs| - 1].velocity > xs[k].velocity then |xs| - 1 else k
  }

  datatype VelocityTrend = VelocityTrend(
    sprints: seq<SprintVelocity>,
    averageVelocity: real,
    velocityChange: real,
    trend: Trend,
    lowestVelocitySprint: SprintVelocity,
    highestVelocitySprint: SprintVelocity,
    analysisPeriod: string)

  /** The loop of the trend tool: one rounded velocity entry per sprint, in order. */
  method SprintVelocities(sprints: seq<SprintMetrics>) returns (sprintVelocities: seq<SprintVelocity>)
    ensures |sprintVelocities| == |sprints|
    ensures forall i :: 0 <= i < |sprints| ==>
      sprintVelocities[i] == SprintVelocity(sprints[i].sprintName, sprints[i].Velocity())
  {
    sprintVelocities := [];
    for i := 0 to |sprints|
      invariant |sprintVelocities| == i
      invariant forall j :: 0 <= j < i ==> sprintVelocities[j] == SprintVelocity(sprints[j].sprintName, sprints[j].Velocity())
    {
      var sprint := sprints[i];
      var velocity := if sprint.plannedPoints > 0 then sprint.completedPoints as real / sprint.plannedPoints as real * 100.0 else 0.0;
      sprintVelocities := sprintVelocities + [SprintVelocity(sprint.sprintName, Round2(velocity))];
    }
  }

  /**
   * The statistics of the trend tool over the velocity entries: the rounded
   * mean, the rounded change and its classification, and the first lowest
   * and first highest entry.
   */
  function TrendOf(sprintVelocities: seq<SprintVelocity>, numSprints: int): (r: VelocityTrend)
    requires sprintVelocities != []
    requires forall i :: 0 <= i < |sprintVelocities| ==> IsCents(sprintVelocities[i].velocity)
    ensures r.sprints == sprintVelocities
    ensures r.velocityChange == Round2(VelocityChange(Velocities(sprintVelocities)))
    ensures r.trend == Classify(Velocities(sprintVelocities))
    ensures exists i :: (&& 0 <= i < |sprintVelocities| && r.lowestVelocitySprint == sprintVelocities[i]
                         && forall j :: 0 <= j < i ==> sprintVelocities[j].velocity > sprintVelocities[i].velocity)
    ensures exists i :: (&& 0 <= i < |sprintVelocities| && r.highestVelocitySprint == sprintVelocities[i]
                         && forall j :: 0 <= j < i ==> sprintVelocities[j].velocity < sprintVelocities[i].velocity)
    ensures forall i :: 0 <= i < |sprintVelocities| ==>
      r.lowestVelocitySprint.velocity <= sprintVelocities[i].velocity <= r.highestVelocitySprint.velocity
    ensures r.averageVelocity == Round2(MeanOrZero(Velocities(sprintVelocities)))
    ensures r.lowestVelocitySprint.velocity <= r.averageVelocity <= r.highestVelocitySprint.velocity
    ensures r.analysisPeriod == "Last " + IntToString(numSprints) + " sprints"
  {
    var velocities := Velocities(sprintVelocities);
    var avgVelocity := MeanOrZero(velocities);
    var velocityChange := VelocityChange(velocities);
    var trend := Classify(velocities);
    var lo, hi := LowestIndex(sprintVelocities), HighestIndex(sprintVelocities);
    var minSprint, maxSprint := sprintVelocities[lo], sprintVelocities[hi];
    AverageBetween(sprintVelocities, minSprint.velocity, maxSprint.velocity);
    VelocityTrend(sprintVelocities, Round2(avgVelocity), Round2(velocityChange), trend, minSprint, maxSprint,
                  "Last " + IntToString(numSprints) + " sprints")
  }

  /** The trend tool's default window: the six most recent sprints. */
  const DefaultNumSprints := 6

  /**
   * The velocity trend tool over the last `numSprints` sprints. The window
   * must not be empty: the lowest and highest sprint do not exist otherwise.
   */
  method GetVelocityTrend(allSprints: seq<SprintMetrics>, numSprints: int) returns (r: VelocityTrend)
    requires Window(allSprints, numSprints) != []
    ensures var w := Window(allSprints, numSprints);
      && |r.sprints| == |w|
      && forall i :: 0 <= i < |w| ==> r.sprints[i] == SprintVelocity(w[i].sprintName, w[i].Velocity())
    ensures r == TrendOf(r.sprints, numSprints)
  {
    var sprints := Window(allSprints, numSprints);
    var sprintVelocities := SprintVelocities(sprints);
    r := TrendOf(sprintVelocities, numSprints);
  }

  /**
   * The rounded mean of velocities that all have two decimals lies between
   * any two-decimal lower and upper bound of them.
   */
  lemma AverageBetween(xs: seq<SprintVelocity>, lo: real, hi: real)
    requires xs != [] && IsCents(lo) && IsCents(hi)
    requires forall i :: 0 <= i < |xs| ==> lo <= xs[i].velocity <= hi
    ensures lo <= Round2(MeanOrZero(Velocities(xs))) <= hi
  {
    var vs := Velocities(xs);
    assert AllWithin(vs, lo, hi);
    MeanWithin(vs, lo, hi);
    Round2Within(MeanOrZero(vs), lo, hi);
  }

  /** Two sprints at 96.0 and 72.92: the change is -24.04% and the trend is declining. */
  lemma TrendScenario()
    ensures Round2(VelocityChange([96.0, 72.92])) == -24.04
    ensures Classify([96.0, 72.92]) == Declining
  {
    var change := (72.92 - 96.0) / 96.0 * 100.0;
    assert VelocityChange([96.0, 72.92]) == change;
    assert change * 100.0 == -2404.0 - 1.0 / 6.0;
    assert (change * 100.0).Floor == -2405;
  }
}
