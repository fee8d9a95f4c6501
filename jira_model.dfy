/**
 * Delivery records: tickets with a status, and sprints with planned and
 * completed story points. Story points can never be negative, so every
 * point field is a `nat`. Timestamps are integer seconds.
 */
module JiraModel {
  import opened Wrappers
  import opened Numeric

  datatype TicketStatus = Todo | InProgress | Done | Blocked

  datatype JiraTicket = JiraTicket(
    id: string,
    title: string,
    status: TicketStatus,
    storyPoints: nat,
    assignedTo: string,
    createdAt: int,
    completedAt: Option<int>)
  {
    /** A ticket counts as completed only when it is done and carries a completion time. */
    predicate IsCompleted()
    {
      status == Done && completedAt.Some?
    }
  }

  /** `completed / planned * 100` as an exact percentage, 0 when nothing was planned. */
  function CompletionPercent(completed: nat, planned: nat): (p: real)
    ensures p >= 0.0
    ensures planned == 0 ==> p == 0.0
    ensures planned > 0 ==> p * planned as real == 100.0 * completed as real
    ensures completed <= planned ==> p <= 100.0
  {
    if planned == 0 then 0.0 else completed as real / planned as real * 100.0
  }

  datatype SprintMetrics = SprintMetrics(
    sprintName: string,
    startDate: string,
    endDate: string,
    plannedPoints: nat,
    completedPoints: nat,
    tickets: seq<JiraTicket>)
  {
    /**
     * The sprint's velocity: the completion percentage rounded to two
     * decimals, 0 when nothing was planned.
     */
    function Velocity(): (v: real)
      ensures IsCents(v) && v >= 0.0
      ensures plannedPoints == 0 ==> v == 0.0
      ensures CompletionPercent(completedPoints, plannedPoints) - 0.005 <= v
      ensures v <= CompletionPercent(completedPoints, plannedPoints) + 0.005
      ensures completedPoints <= plannedPoints ==> v <= 100.0
    {
      var exact := CompletionPercent(completedPoints, plannedPoints);
      assert IsCents(0.0) && IsCents(100.0);
      Round2OfCents(0.0);
      Round2Monotone(0.0, exact);
      if completedPoints <= plannedPoints then
        Round2Within(exact, 0.0, 100.0);
        Round2(exact)
      else
        Round2(exact)
    }
  }

  /** How many of `tickets` have status `s`. */
  function CountStatus(tickets: seq<JiraTicket>, s: TicketStatus): (n: nat)
    ensures n <= |tickets|
  {
    if tickets == [] then 0
    else CountStatus(tickets[..|tickets| - 1], s) + (if tickets[|tickets| - 1].status == s then 1 else 0)
  }

  /** How many of `tickets` are completed in the sense of `IsCompleted`. */
  function CountCompleted(tickets: seq<JiraTicket>): (n: nat)
    ensures n <= |tickets|
  {
    if tickets == [] then 0
    else CountCompleted(tickets[..|tickets| - 1]) + (if tickets[|tickets| - 1].IsCompleted() then 1 else 0)
  }

  /** Every ticket has exactly one of the four statuses. */
  lemma {:induction false} StatusCountsPartition(tickets: seq<JiraTicket>)
    ensures CountStatus(tickets, Todo) + CountStatus(tickets, InProgress)
          + CountStatus(tickets, Done) + CountStatus(tickets, Blocked) == |tickets|
  {
    if tickets != [] {
      StatusCountsPartition(tickets[..|tickets| - 1]);
    }
  }

  /** Completed tickets are a subset of the done tickets. */
  lemma {:induction false} CompletedAtMostDone(tickets: seq<JiraTicket>)
    ensures CountCompleted(tickets) <= CountStatus(tickets, Done)
  {
    if tickets != [] {
      CompletedAtMostDone(tickets[..|tickets| - 1]);
    }
  }

  /**
   * A done ticket without a completion time is counted as done but not as
   * completed, so the two counts can differ.
   */
  lemma DoneButNotCompleted()
    ensures var t := JiraTicket("QUAL-1", "t", Done, 3, "a", 0, None);
      CountStatus([t], Done) == 1 && CountCompleted([t]) == 0
  {
    var t := JiraTicket("QUAL-1", "t", Done, 3, "a", 0, None);
    assert [t][..0] == [];
  }

  /** A sprint that completed 35 of 48 planned points has velocity 72.92. */
  lemma VelocityScenario()
    ensures SprintMetrics("Sprint", "2024-01-01", "2024-01-14", 48, 35, []).Velocity() == 72.92
  {
    var exact := 35.0 / 48.0 * 100.0;
    assert exact * 100.0 == 7291.0 + 2.0 / 3.0;
    assert (exact * 100.0).Floor == 7291;
  }
}
