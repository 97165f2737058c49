/**
 * The user Dashboard: the list of the session user's own tickets, built from
 * the data service's ticket list, and the create-ticket dialog. React state
 * becomes the fields of `DashboardPage`.
 */
module Dashboard {
  import opened Wrappers
  import opened Records
  import opened Seqs
  import opened Statistics
  import Storage
  import DataService
  import MockDataService

  /** The create-ticket form. */
  datatype TicketForm = TicketForm(title: string, description: string, category: string, priority: string)

  /** The form as the page starts and as it is reset after a successful create. */
  const EmptyForm := TicketForm("", "", "", "medium")

  /** A title, description or category left empty; the priority always has a value. */
  predicate FormIncomplete(f: TicketForm) {
    f.title == "" || f.description == "" || f.category == ""
  }

  /** The request `handleCreateTicket` sends: the form's fields and the session user's id. */
  function CreateRequest(f: TicketForm, userId: string): (req: DataService.NewTicket)
    ensures req.user_id == userId
    ensures req.title == f.title && req.description == f.description && req.category == f.category && req.priority == f.priority
  {
    DataService.NewTicket(f.title, f.description, f.category, f.priority, userId)
  }

  /**
   * A service ticket in the page's shape. The owner fields come from the
   * joined user when it has a non-empty value, otherwise from the session;
   * missing timestamps become `fallbackTime` (empty when listing, now when
   * creating).
   */
  function ToView(t: Ticket, session: SessionUser, fallbackTime: string): (v: ViewTicket)
    ensures v.id == t.id && v.title == t.title && v.description == t.description && v.category == t.category
    ensures v.priority == t.priority && v.status == t.status && v.userId == t.user_id && v.adminResponse == t.admin_response
    ensures t.user.None? ==> v.userName == session.name && v.userNip == session.nip && v.userDivision == session.division
    ensures t.user.Some? ==>
              v.userName == OrElse(t.user.value.name, session.name) &&
              v.userNip == OrElse(t.user.value.nip, session.nip) &&
              v.userDivision == OrElse(t.user.value.division, session.division)
    ensures v.createdAt == OrElse(t.created_at.GetOr(""), fallbackTime)
    ensures v.updatedAt == OrElse(t.updated_at.GetOr(""), fallbackTime)
  {
    ViewTicket(
      t.id, t.title, t.description, t.category, t.priority, t.status, t.user_id,
      if t.user.Some? then OrElse(t.user.value.name, session.name) else session.name,
      if t.user.Some? then OrElse(t.user.value.nip, session.nip) else session.nip,
      if t.user.Some? then OrElse(t.user.value.division, session.division) else session.division,
      OrElse(t.created_at.GetOr(""), fallbackTime),
      OrElse(t.updated_at.GetOr(""), fallbackTime),
      t.admin_response)
  }

  function OwnedBy(userId: string): Ticket -> bool {
    (t: Ticket) => t.user_id == userId
  }

  /** The page's list: the fetched tickets owned by the session user, in fetch order, each mapped to the page's shape. */
  function OwnTickets(fetched: seq<Ticket>, session: SessionUser): (r: seq<ViewTicket>)
    ensures |r| == Count(fetched, OwnedBy(session.id))
    ensures |r| == |set i | 0 <= i < |fetched| && fetched[i].user_id == session.id|
    ensures forall i :: 0 <= i < |r| ==> r[i] == ToView(Filter(fetched, OwnedBy(session.id))[i], session, "")
    ensures forall v :: v in r ==> v.userId == session.id
  {
    var own := Filter(fetched, OwnedBy(session.id));
    CountIsPositions(fetched, OwnedBy(session.id));
    assert Positions(fetched, OwnedBy(session.id)) == set i | 0 <= i < |fetched| && fetched[i].user_id == session.id;
    seq(|own|, i requires 0 <= i < |own| => ToView(own[i], session, ""))
  }

  /** Every fetched ticket of the session user appears in the list, and every listed ticket comes from one. */
  lemma OwnTicketsExactly(fetched: seq<Ticket>, session: SessionUser)
    ensures forall t :: t in fetched && t.user_id == session.id ==> ToView(t, session, "") in OwnTickets(fetched, session)
    ensures forall v :: v in OwnTickets(fetched, session) ==>
              exists t :: t in fetched && t.user_id == session.id && v == ToView(t, session, "")
    ensures IsSubsequence(Filter(fetched, OwnedBy(session.id)), fetched)
  {
    var own := Filter(fetched, OwnedBy(session.id));
    var r := OwnTickets(fetched, session);
    forall t | t in fetched && t.user_id == session.id ensures ToView(t, session, "") in r {
      assert t in own;
      var i :| 0 <= i < |own| && own[i] == t;
      assert r[i] == ToView(t, session, "");
    }
    forall v | v in r ensures exists t :: t in fetched && t.user_id == session.id && v == ToView(t, session, "") {
      var i :| 0 <= i < |r| && r[i] == v;
      assert own[i] in own;
    }
    FilterIsSubsequence(fetched, OwnedBy(session.id));
  }

  /**
   * The mock data spells the in-progress status `in_progress`, the pages count
   * `in-progress`: the mock ticket that is in progress shows up in no card.
   */
  lemma MockInProgressIsNotCounted(session: SessionUser)
    ensures MockDataService.InitialTickets[1].status == "in_progress"
    ensures var views := seq(3, i requires 0 <= i < 3 => ToView(MockDataService.InitialTickets[i], session, ""));
            TicketStats(views).open == 1 && TicketStats(views).inProgress == 0 && TicketStats(views).resolved == 1
  {
    var views := seq(3, i requires 0 <= i < 3 => ToView(MockDataService.InitialTickets[i], session, ""));
    assert views[0].status == "open" && views[1].status == "in_progress" && views[2].status == "resolved";
    assert views[1..][1..] == views[2..];
    assert views[2..][1..] == [];
    assert Filter(views[2..], StatusTest("open")) == [];
    assert Filter(views[2..], StatusTest("in-progress")) == [];
    assert Filter(views[2..], StatusTest("resolved")) == [views[2]];
    assert Filter(views[1..], StatusTest("in-progress")) == [];
    assert Filter(views, StatusTest("in-progress")) == [];
    assert Filter(views, StatusTest("open")) == [views[0]];
    assert Filter(views, StatusTest("resolved")) == [views[2]];
  }

  /** The result of the create handler: the validation toast, the failure toast, or success. */
  datatype CreateOutcome = Incomplete | Failed | Created

  class DashboardPage {
    var user: Option<SessionUser>
    var tickets: seq<ViewTicket>
    var isDialogOpen: bool
    var newTicket: TicketForm

    /** The initial `useState` values. */
    constructor ()
      ensures user == None && tickets == [] && !isDialogOpen && newTicket == EmptyForm
    {
      user := None;
      tickets := [];
      isDialogOpen := false;
      newTicket := EmptyForm;
    }

    /** The four statistics cards. */
    function Cards(): (s: Stats)
      reads this
      ensures s == TicketStats(tickets)
      ensures s.total == |tickets| && s.open + s.inProgress + s.resolved <= s.total
    {
      TicketStats(tickets)
    }

    /**
     * The mount effect: without a session nothing changes (the page navigates
     * away); otherwise the session becomes `user` and, when the fetch
     * succeeds, the list becomes the session user's own tickets.
     */
    method LoadUserData(storage: Storage.BrowserStorage, backend: DataService.Backend)
      modifies this
      ensures storage.currentUser.None? ==> user == old(user) && tickets == old(tickets)
      ensures storage.currentUser.Some? ==> user == storage.currentUser
      ensures storage.currentUser.Some? && backend.configured ==>
                tickets == OwnTickets(DataService.JoinAll(backend.tickets, backend.users), storage.currentUser.value)
      ensures !backend.configured ==> tickets == old(tickets)
      ensures isDialogOpen == old(isDialogOpen) && newTicket == old(newTicket)
    {
      if storage.currentUser.None? {
        return;
      }
      var session := storage.currentUser.value;
      user := Some(session);
      var result := backend.GetTickets();
      if result.Ok? {
        tickets := OwnTickets(result.data, session);
      }
    }

    /**
     * `handleCreateTicket`: reject an incomplete form before any service call;
     * otherwise send the request with the session user's id and, on success,
     * append the created ticket, reset the form and close the dialog. A failed
     * call leaves the list, the form and the dialog as they were.
     */
    method HandleCreateTicket(backend: DataService.Backend, newId: string, now: string) returns (outcome: CreateOutcome)
      requires backend.Valid()
      modifies this, backend
      ensures backend.Valid() && backend.users == old(backend.users) && backend.configured == old(backend.configured)
      ensures user == old(user)
      ensures FormIncomplete(old(newTicket)) ==> outcome == Incomplete && backend.tickets == old(backend.tickets)
      ensures !FormIncomplete(old(newTicket)) && user.None? ==> outcome == Failed && backend.tickets == old(backend.tickets)
      ensures outcome != Created ==>
                tickets == old(tickets) && newTicket == old(newTicket) && isDialogOpen == old(isDialogOpen) &&
                backend.tickets == old(backend.tickets)
      ensures outcome == Created ==>
                && user.Some?
                && var row := DataService.InsertedRow(DataService.InsertRecord(CreateRequest(old(newTicket), user.value.id)), newId, now);
                && row.user_id == user.value.id && row.status == DataService.OpenStatus
                && backend.tickets == old(backend.tickets) + [row]
                && tickets == old(tickets) + [ToView(DataService.Joined(row, backend.users), user.value, now)]
                && newTicket == EmptyForm && !isDialogOpen
      ensures outcome == Created <==>
                !FormIncomplete(old(newTicket)) && user.Some? && backend.configured &&
                !DataService.HasTicketId(old(backend.tickets), newId) && DataService.HasUserId(backend.users, user.value.id)
    {
      if FormIncomplete(newTicket) {
        return Incomplete;
      }
      if user.None? {
        return Failed;
      }
      var request := CreateRequest(newTicket, user.value.id);
      var result := backend.CreateTicket(request, newId, now);
      if result.Fail? {
        return Failed;
      }
      tickets := tickets + [ToView(result.data, user.value, now)];
      newTicket := EmptyForm;
      isDialogOpen := false;
      outcome := Created;
    }
  }
}
