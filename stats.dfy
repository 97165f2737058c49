/**
 * The statistics cards shown above the ticket lists of both pages: the total
 * and the number of tickets in each of three statuses, counted with
 * `tickets.filter(t => t.status === ...).length`.
 */
module Statistics {
  import opened Records
  import opened Seqs

  predicate HasStatus(t: ViewTicket, status: string) {
    t.status == status
  }

  function StatusTest(status: string): ViewTicket -> bool {
    t => HasStatus(t, status)
  }

  /** The figures on the statistics cards. */
  datatype Stats = Stats(total: nat, open: nat, inProgress: nat, resolved: nat)

  /** `tickets.filter(t => t.status === status).length`: the number of positions holding that status. */
  function CountStatus(tickets: seq<ViewTicket>, status: string): (n: nat)
    ensures n <= |tickets|
    ensures n == |set i | 0 <= i < |tickets| && tickets[i].status == status|
  {
    CountIsPositions(tickets, StatusTest(status));
    assert Positions(tickets, StatusTest(status)) == set i | 0 <= i < |tickets| && tickets[i].status == status;
    Count(tickets, StatusTest(status))
  }

  /** Total and the number of `open`, `in-progress` and `resolved` tickets. */
  function TicketStats(tickets: seq<ViewTicket>): (s: Stats)
    ensures s.total == |tickets|
    ensures s.open <= s.total && s.inProgress <= s.total && s.resolved <= s.total
    ensures s.open + s.inProgress + s.resolved <= s.total
    ensures s.open == CountStatus(tickets, "open")
    ensures s.inProgress == CountStatus(tickets, "in-progress")
    ensures s.resolved == CountStatus(tickets, "resolved")
  {
    CountExclusive3(tickets, StatusTest("open"), StatusTest("in-progress"), StatusTest("resolved"));
    Stats(|tickets|, CountStatus(tickets, "open"), CountStatus(tickets, "in-progress"), CountStatus(tickets, "resolved"))
  }
}
