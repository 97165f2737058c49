/**
 * The Admin page: the ticket filter effect, the statistics cards and the
 * update dialog. React state becomes the fields of `AdminPage`; the filter
 * effect, which only recomputes the filtered list from state, is a function.
 */
module Admin {
  import opened Wrappers
  import opened Records
  import opened Seqs
  import opened Text
  import opened Statistics
  import Storage

  /** The value of the status and priority selects that switches their filter off. */
  const All := "all"

  /**
   * The free-text test: case-insensitive on title, description, owner name and
   * owner division, but the owner's NIP is searched for the term as typed.
   */
  function MatchesSearch(t: ViewTicket, term: string): (r: bool)
    ensures term == "" ==> r
    ensures Includes(t.userNip, term) ==> r
    ensures !r ==> && !Includes(ToLower(t.title), ToLower(term)) && !Includes(ToLower(t.description), ToLower(term))
                   && !Includes(ToLower(t.userName), ToLower(term)) && !Includes(ToLower(t.userDivision), ToLower(term))
                   && !Includes(t.userNip, term)
  {
    IncludesEmpty(ToLower(t.title));
    var q := ToLower(term);
    Includes(ToLower(t.title), q)
    || Includes(ToLower(t.description), q)
    || Includes(ToLower(t.userName), q)
    || Includes(t.userNip, term)
    || Includes(ToLower(t.userDivision), q)
  }

  predicate HasPriority(t: ViewTicket, priority: string) {
    t.priority == priority
  }

  predicate StatusMatches(t: ViewTicket, statusFilter: string) {
    statusFilter == All || t.status == statusFilter
  }

  predicate PriorityMatches(t: ViewTicket, priorityFilter: string) {
    priorityFilter == All || t.priority == priorityFilter
  }

  /** All three filters at once: an empty term and `all` switch a filter off. */
  predicate Selected(t: ViewTicket, term: string, statusFilter: string, priorityFilter: string) {
    (term == "" || MatchesSearch(t, term)) && StatusMatches(t, statusFilter) && PriorityMatches(t, priorityFilter)
  }

  /** The three tests as the callbacks handed to `filter`. */
  function SearchTest(term: string): ViewTicket -> bool {
    t => MatchesSearch(t, term)
  }

  function PriorityTest(priorityFilter: string): ViewTicket -> bool {
    t => HasPriority(t, priorityFilter)
  }

  /** `Selected` as one callback. */
  function SelectedTest(term: string, statusFilter: string, priorityFilter: string): ViewTicket -> bool {
    t => Selected(t, term, statusFilter, priorityFilter)
  }

  /** The filter effect: search, then status, then priority, each skipped when switched off. */
  function FilterTickets(tickets: seq<ViewTicket>, term: string, statusFilter: string, priorityFilter: string): (r: seq<ViewTicket>)
    ensures IsSubsequence(r, tickets)
    ensures forall t :: t in r <==> t in tickets && Selected(t, term, statusFilter, priorityFilter)
    ensures statusFilter != All ==> forall t :: t in r ==> t.status == statusFilter
    ensures priorityFilter != All ==> forall t :: t in r ==> t.priority == priorityFilter
  {
    var bySearch := Stage(tickets, term != "", SearchTest(term));
    var byStatus := Stage(bySearch, statusFilter != All, StatusTest(statusFilter));
    var byPriority := Stage(byStatus, priorityFilter != All, PriorityTest(priorityFilter));
    SubsequenceTransitive(byStatus, bySearch, tickets);
    SubsequenceTransitive(byPriority, byStatus, tickets);
    byPriority
  }

  /** The three sequential filters are one filter by the conjunction of the three tests. */
  lemma FilterTicketsIsConjunction(tickets: seq<ViewTicket>, term: string, statusFilter: string, priorityFilter: string)
    ensures FilterTickets(tickets, term, statusFilter, priorityFilter)
         == Filter(tickets, SelectedTest(term, statusFilter, priorityFilter))
  {
    StagesAreConjunction(tickets, term != "", SearchTest(term),
                         statusFilter != All, StatusTest(statusFilter),
                         priorityFilter != All, PriorityTest(priorityFilter));
    FilterCongruent(tickets,
      Conj3(term != "", SearchTest(term), statusFilter != All, StatusTest(statusFilter), priorityFilter != All, PriorityTest(priorityFilter)),
      SelectedTest(term, statusFilter, priorityFilter));
  }

  /** Applying the same three tests in the opposite order (priority, status, search) gives the same list. */
  lemma FilterOrderIrrelevant(tickets: seq<ViewTicket>, term: string, statusFilter: string, priorityFilter: string)
    ensures Stage(Stage(Stage(tickets, priorityFilter != All, PriorityTest(priorityFilter)),
                        statusFilter != All, StatusTest(statusFilter)),
                  term != "", SearchTest(term))
         == FilterTickets(tickets, term, statusFilter, priorityFilter)
  {
    StagesAreConjunction(tickets, priorityFilter != All, PriorityTest(priorityFilter),
                         statusFilter != All, StatusTest(statusFilter),
                         term != "", SearchTest(term));
    FilterCongruent(tickets,
      Conj3(priorityFilter != All, PriorityTest(priorityFilter), statusFilter != All, StatusTest(statusFilter), term != "", SearchTest(term)),
      SelectedTest(term, statusFilter, priorityFilter));
    FilterTicketsIsConjunction(tickets, term, statusFilter, priorityFilter);
  }

  /** The filter keeps every copy of a selected ticket and no copy of any other. */
  lemma FilterTicketsMultiplicity(tickets: seq<ViewTicket>, term: string, statusFilter: string, priorityFilter: string)
    ensures forall t :: multiset(FilterTickets(tickets, term, statusFilter, priorityFilter))[t]
                     == if Selected(t, term, statusFilter, priorityFilter) then multiset(tickets)[t] else 0
  {
    FilterTicketsIsConjunction(tickets, term, statusFilter, priorityFilter);
    FilterMultiplicity(tickets, SelectedTest(term, statusFilter, priorityFilter));
  }

  /** With an empty search term and both selects on `all`, every ticket is listed, in order. */
  lemma FilterTicketsDefaults(tickets: seq<ViewTicket>)
    ensures FilterTickets(tickets, "", All, All) == tickets
  {
  }

  /** Filtering an already filtered list with the same settings changes nothing. */
  lemma FilterTicketsIdempotent(tickets: seq<ViewTicket>, term: string, statusFilter: string, priorityFilter: string)
    ensures var once := FilterTickets(tickets, term, statusFilter, priorityFilter);
            FilterTickets(once, term, statusFilter, priorityFilter) == once
  {
    var once := FilterTickets(tickets, term, statusFilter, priorityFilter);
    FilterTicketsIsConjunction(once, term, statusFilter, priorityFilter);
    FilterTrue(once, SelectedTest(term, statusFilter, priorityFilter));
  }

  /**
   * Changing only the letter case of the search term changes nothing for the
   * case-folded fields: a ticket whose NIP contains neither spelling matches
   * both or neither.
   */
  lemma SearchIgnoresCaseOutsideNip(t: ViewTicket, a: string, b: string)
    requires ToLower(a) == ToLower(b)
    requires !Includes(t.userNip, a) && !Includes(t.userNip, b)
    ensures MatchesSearch(t, a) == MatchesSearch(t, b)
  {
  }

  /** Only title, description, owner name, owner NIP and owner division are searched. */
  lemma SearchReadsOnlyFiveFields(t: ViewTicket, u: ViewTicket, term: string)
    requires t.title == u.title && t.description == u.description && t.userName == u.userName
    requires t.userNip == u.userNip && t.userDivision == u.userDivision
    ensures MatchesSearch(t, term) == MatchesSearch(u, term)
  {
  }

  /** The NIP is matched case-sensitively: `ADMIN` finds NIP `ADMIN001`, `admin` does not. */
  lemma NipSearchIsCaseSensitive()
    ensures var t := ViewTicket("", "", "", "", "", "", "admin_1", "", "ADMIN001", "", "", "", None);
            MatchesSearch(t, "ADMIN") && !MatchesSearch(t, "admin")
  {
    var t := ViewTicket("", "", "", "", "", "", "admin_1", "", "ADMIN001", "", "", "", None);
    assert OccursAt("ADMIN001", "ADMIN", 0);
    FirstCharAbsent("ADMIN001", "admin");
    FirstCharAbsent("", ToLower("admin"));
  }

  /**
   * The list `handleUpdateTicket` builds with `tickets.map`: the ticket with
   * the selected id gets the dialog's status and response, each only when
   * non-empty, and `updatedAt := now`; every other ticket is kept.
   */
  function UpdateTickets(tickets: seq<ViewTicket>, id: string, newStatus: string, adminResponse: string, now: string): (r: seq<ViewTicket>)
    ensures |r| == |tickets|
    ensures forall i :: 0 <= i < |tickets| && tickets[i].id != id ==> r[i] == tickets[i]
    ensures forall i :: 0 <= i < |tickets| && tickets[i].id == id ==>
              && r[i].status == (if newStatus == "" then tickets[i].status else newStatus)
              && r[i].adminResponse == (if adminResponse == "" then tickets[i].adminResponse else Some(adminResponse))
              && r[i].updatedAt == now
              && r[i].(status := tickets[i].status, adminResponse := tickets[i].adminResponse, updatedAt := tickets[i].updatedAt) == tickets[i]
  {
    seq(|tickets|, i requires 0 <= i < |tickets| =>
      var t := tickets[i];
      if t.id == id then
        t.(status := OrElse(newStatus, t.status),
           adminResponse := if adminResponse != "" then Some(adminResponse) else t.adminResponse,
           updatedAt := now)
      else t)
  }

  /** Submitting the dialog with both fields left empty only refreshes `updatedAt`. */
  lemma EmptyDialogOnlyTouchesTimestamp(tickets: seq<ViewTicket>, id: string, now: string)
    ensures var r := UpdateTickets(tickets, id, "", "", now);
            forall i :: 0 <= i < |tickets| ==> r[i] == (if tickets[i].id == id then tickets[i].(updatedAt := now) else tickets[i])
  {
  }

  class AdminPage {
    var user: Option<SessionUser>
    var tickets: seq<ViewTicket>
    var selectedTicket: Option<ViewTicket>
    var isDialogOpen: bool
    var adminResponse: string
    var newStatus: string
    var searchTerm: string
    var statusFilter: string
    var priorityFilter: string

    /** The initial `useState` values. */
    constructor ()
      ensures user == None && tickets == [] && selectedTicket == None && !isDialogOpen
      ensures adminResponse == "" && newStatus == "" && searchTerm == "" && statusFilter == All && priorityFilter == All
    {
      user := None;
      tickets := [];
      selectedTicket := None;
      isDialogOpen := false;
      adminResponse := "";
      newStatus := "";
      searchTerm := "";
      statusFilter := All;
      priorityFilter := All;
    }

    /** `filteredTickets`, which the filter effect recomputes whenever one of its inputs changes. */
    function FilteredTickets(): (r: seq<ViewTicket>)
      reads this
      ensures IsSubsequence(r, tickets)
      ensures forall t :: t in r <==> t in tickets && Selected(t, searchTerm, statusFilter, priorityFilter)
    {
      FilterTickets(tickets, searchTerm, statusFilter, priorityFilter)
    }

    /**
     * The mount effect: without a session, or with a non-admin session, the page
     * navigates away and keeps its state; otherwise it takes the session and the
     * tickets stored under the `tickets` key, when there are any.
     */
    method Load(storage: Storage.BrowserStorage)
      modifies this
      ensures storage.currentUser.None? || storage.currentUser.value.role != AdminRole ==>
                user == old(user) && tickets == old(tickets)
      ensures storage.currentUser.Some? && storage.currentUser.value.role == AdminRole ==>
                user == storage.currentUser &&
                tickets == (if storage.tickets.Some? then storage.tickets.value else old(tickets))
      ensures selectedTicket == old(selectedTicket) && isDialogOpen == old(isDialogOpen)
      ensures adminResponse == old(adminResponse) && newStatus == old(newStatus)
      ensures searchTerm == old(searchTerm) && statusFilter == old(statusFilter) && priorityFilter == old(priorityFilter)
    {
      if storage.currentUser.None? || storage.currentUser.value.role != AdminRole {
        return;
      }
      user := storage.currentUser;
      if storage.tickets.Some? {
        tickets := storage.tickets.value;
      }
    }

    /** Open the dialog on `t`, prefilled with its response (or empty) and its status. */
    method OpenTicketDialog(t: ViewTicket)
      modifies this
      ensures selectedTicket == Some(t) && isDialogOpen
      ensures adminResponse == t.adminResponse.GetOr("") && newStatus == t.status
      ensures user == old(user) && tickets == old(tickets)
      ensures searchTerm == old(searchTerm) && statusFilter == old(statusFilter) && priorityFilter == old(priorityFilter)
    {
      selectedTicket := Some(t);
      adminResponse := t.adminResponse.GetOr("");
      newStatus := t.status;
      isDialogOpen := true;
    }

    /**
     * Save the dialog: rebuild the list, store it under `tickets`, put it in
     * state and close and clear the dialog. Without a selected ticket nothing
     * happens.
     */
    method HandleUpdateTicket(storage: Storage.BrowserStorage, now: string)
      modifies this, storage
      ensures old(selectedTicket).None? ==>
                tickets == old(tickets) && selectedTicket == None && isDialogOpen == old(isDialogOpen) &&
                adminResponse == old(adminResponse) && newStatus == old(newStatus) && storage.tickets == old(storage.tickets)
      ensures old(selectedTicket).Some? ==>
                && tickets == UpdateTickets(old(tickets), old(selectedTicket).value.id, old(newStatus), old(adminResponse), now)
                && storage.tickets == Some(tickets)
                && !isDialogOpen && selectedTicket == None && adminResponse == "" && newStatus == ""
      ensures |tickets| == |old(tickets)|
      ensures storage.registeredUsers == old(storage.registeredUsers) && storage.currentUser == old(storage.currentUser)
      ensures user == old(user)
      ensures searchTerm == old(searchTerm) && statusFilter == old(statusFilter) && priorityFilter == old(priorityFilter)
    {
      if selectedTicket.None? {
        return;
      }
      var updated := UpdateTickets(tickets, selectedTicket.value.id, newStatus, adminResponse, now);
      storage.tickets := Some(updated);
      tickets := updated;
      isDialogOpen := false;
      selectedTicket := None;
      adminResponse := "";
      newStatus := "";
    }
  }
}
