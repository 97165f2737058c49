/**
 * The mock data service: fixed users and a module-level ticket array that
 * `updateTicket` replaces with an updated copy. The module state becomes the
 * field of a `MockStore` object.
 */
module MockDataService {
  import opened Wrappers
  import opened Records
  import opened Seqs
  import DataService

  /** The three fixed users. */
  const MockUsers: seq<UserRecord> := [
    UserRecord("1", "123456", "Admin Utama", "IT", Some("admin@rri.co.id"), Some("08123456789"), AdminRole, Some("2023-01-01T00:00:00Z")),
    UserRecord("2", "234567", "Pengguna Satu", "Teknik", Some("user1@rri.co.id"), Some("08234567890"), UserRole, Some("2023-01-02T00:00:00Z")),
    UserRecord("3", "345678", "Pengguna Dua", "Siaran", Some("user2@rri.co.id"), Some("08345678901"), UserRole, Some("2023-01-03T00:00:00Z"))
  ]

  const OwnerTwo := UserRecord("2", "234567", "Pengguna Satu", "Teknik", None, None, UserRole, None)
  const OwnerThree := UserRecord("3", "345678", "Pengguna Dua", "Siaran", None, None, UserRole, None)

  /** The initial contents of `mockTickets`. Note the status spelling `in_progress` of the second one. */
  const InitialTickets: seq<Ticket> := [
    Ticket("ticket-001", "Komputer tidak bisa menyala", "Komputer di ruang siaran tidak bisa menyala sama sekali",
           "Hardware", "high", "open", "2", None,
           Some("2023-08-15T10:30:00Z"), Some("2023-08-15T10:30:00Z"), Some(OwnerTwo)),
    Ticket("ticket-002", "Aplikasi siaran error", "Aplikasi siaran mengalami crash saat digunakan untuk rekaman",
           "Software", "medium", "in_progress", "3", Some("Sedang dilakukan pengecekan aplikasi"),
           Some("2023-08-14T08:15:00Z"), Some("2023-08-15T09:20:00Z"), Some(OwnerThree)),
    Ticket("ticket-003", "Jaringan internet lambat", "Koneksi internet sangat lambat di ruang produksi",
           "Network", "low", "resolved", "2", Some("Router telah di-restart dan koneksi sudah normal kembali"),
           Some("2023-08-13T13:45:00Z"), Some("2023-08-14T10:15:00Z"), Some(OwnerTwo))
  ]

  /**
   * `{...ticket, ...data, updated_at: now}`: every key present in `data`
   * overwrites its field, even with the empty string; `updated_at` is now.
   */
  function Merge(t: Ticket, data: DataService.TicketChanges, now: string): (r: Ticket)
    ensures r.status == (if data.status.Some? then data.status.value else t.status)
    ensures r.admin_response == (if data.admin_response.Some? then data.admin_response else t.admin_response)
    ensures r.updated_at == Some(now)
    ensures r.id == t.id && r.title == t.title && r.user_id == t.user_id && r.created_at == t.created_at
    ensures r.(status := t.status, admin_response := t.admin_response, updated_at := t.updated_at) == t
  {
    t.(status := data.status.GetOr(t.status),
       admin_response := if data.admin_response.Some? then data.admin_response else t.admin_response,
       updated_at := Some(now))
  }

  /** `mockTickets.map(...)`: merge every ticket with that id, keep the others. */
  function MergeWhereId(tickets: seq<Ticket>, id: string, data: DataService.TicketChanges, now: string): (r: seq<Ticket>)
    ensures |r| == |tickets|
    ensures forall i :: 0 <= i < |tickets| && tickets[i].id != id ==> r[i] == tickets[i]
    ensures forall i :: 0 <= i < |tickets| && tickets[i].id == id ==> r[i] == Merge(tickets[i], data, now)
  {
    seq(|tickets|, i requires 0 <= i < |tickets| => if tickets[i].id == id then Merge(tickets[i], data, now) else tickets[i])
  }

  function TicketWithId(id: string): Ticket -> bool {
    (t: Ticket) => t.id == id
  }

  /** With no ticket of that id the array comes out equal to what went in. */
  lemma {:induction false} MergeMissingIdIsIdentity(tickets: seq<Ticket>, id: string, data: DataService.TicketChanges, now: string)
    requires forall t :: t in tickets ==> t.id != id
    ensures MergeWhereId(tickets, id, data, now) == tickets
  {
    var r := MergeWhereId(tickets, id, data, now);
    assert |r| == |tickets|;
    forall i | 0 <= i < |tickets| ensures r[i] == tickets[i] {
      assert tickets[i] in tickets;
    }
  }

  /**
   * The two services disagree on an empty status: the mock store writes it,
   * the database service leaves the column alone.
   */
  lemma EmptyStatusDiffersBetweenServices(t: Ticket, row: DataService.TicketRow, now: string)
    requires t.status != "" && row.status != ""
    ensures Merge(t, DataService.TicketChanges(Some(""), None), now).status == ""
    ensures DataService.ApplyPatch(row, DataService.BuildPatch(DataService.TicketChanges(Some(""), None), now)).status == row.status
  {
  }

  class MockStore {
    var mockTickets: seq<Ticket>

    constructor ()
      ensures mockTickets == InitialTickets
    {
      mockTickets := InitialTickets;
    }

    /** `getUsers`: the fixed users, as they are. */
    method GetUsers() returns (r: ServiceResult<seq<UserRecord>>)
      ensures r == Ok(MockUsers)
    {
      r := Ok(MockUsers);
    }

    /** `getTickets`: the current array, in stored order. */
    method GetTickets() returns (r: ServiceResult<seq<Ticket>>)
      ensures r.Ok? && r.data == mockTickets
    {
      r := Ok(mockTickets);
    }

    /**
     * `updateTicket`: replace the array by its merged copy and return the
     * first ticket with that id, if any. The result is `ok` either way.
     */
    method UpdateTicket(ticketId: string, data: DataService.TicketChanges, now: string) returns (r: ServiceResult<Option<Ticket>>)
      modifies this
      ensures mockTickets == MergeWhereId(old(mockTickets), ticketId, data, now)
      ensures |mockTickets| == |old(mockTickets)|
      ensures r.Ok? && r.data == Find(mockTickets, TicketWithId(ticketId))
      ensures (forall t :: t in old(mockTickets) ==> t.id != ticketId) ==> mockTickets == old(mockTickets) && r == Ok(None)
      ensures r.data.Some? ==> r.data.value.id == ticketId && r.data.value.updated_at == Some(now)
    {
      ghost var before := mockTickets;
      mockTickets := MergeWhereId(mockTickets, ticketId, data, now);
      if forall t :: t in before ==> t.id != ticketId {
        MergeMissingIdIsIdentity(before, ticketId, data, now);
      }
      r := Ok(Find(mockTickets, TicketWithId(ticketId)));
      if r.data.Some? {
        var i :| 0 <= i < |mockTickets| && mockTickets[i] == r.data.value && TicketWithId(ticketId)(mockTickets[i]);
        assert before[i].id == ticketId;
      }
    }
  }
}
