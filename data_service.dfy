/**
 * The hosted-database data service. The database client is replaced by an
 * in-memory `Backend`: a flag saying whether the client is configured and
 * the two tables, `users` and `tickets`, with the constraints of their
 * schema (unique ids, unique NIP, `tickets.user_id` references `users.id`).
 * An insert that would break a constraint fails with the database's error
 * code; the message text of such errors belongs to the server and is a
 * placeholder here.
 */
module DataService {
  import opened Wrappers
  import opened Records
  import opened Seqs
  import Storage

  const NotConfigured := "Supabase client not configured"
  const NipNotFound := "NIP tidak ditemukan"
  /** The second password every account accepts in the demo login. */
  const DemoPassword := "password123"
  /** The status every new ticket gets. */
  const OpenStatus := "open"

  /** PostgreSQL's `unique_violation` and `foreign_key_violation`, and the client's "not exactly one row" code. */
  const UniqueViolation := "23505"
  const ForeignKeyViolation := "23503"
  const NotSingleRow := "PGRST116"

  datatype DbError = DbError(code: string, message: string)

  const DuplicateKey := DbError(UniqueViolation, "duplicate key value violates unique constraint")
  const MissingOwner := DbError(ForeignKeyViolation, "insert or update on table \"tickets\" violates foreign key constraint")
  const NoSingleRow := DbError(NotSingleRow, "JSON object requested, multiple (or no) rows returned")

  /** A row of `users`. */
  datatype UserRow = UserRow(
    id: string,
    nip: string,
    name: string,
    division: string,
    email: Option<string>,
    phone: Option<string>,
    role: Role,
    password: string,
    created_at: string)

  /** A row of `tickets`. */
  datatype TicketRow = TicketRow(
    id: string,
    title: string,
    description: string,
    category: string,
    priority: string,
    status: string,
    user_id: string,
    admin_response: Option<string>,
    created_at: string,
    updated_at: string)

  predicate UserIdsUnique(users: seq<UserRow>) {
    forall i, j :: 0 <= i < j < |users| ==> users[i].id != users[j].id
  }

  predicate UserNipsUnique(users: seq<UserRow>) {
    forall i, j :: 0 <= i < j < |users| ==> users[i].nip != users[j].nip
  }

  predicate TicketIdsUnique(tickets: seq<TicketRow>) {
    forall i, j :: 0 <= i < j < |tickets| ==> tickets[i].id != tickets[j].id
  }

  predicate HasUserId(users: seq<UserRow>, id: string) {
    exists u :: u in users && u.id == id
  }

  predicate HasUserNip(users: seq<UserRow>, nip: string) {
    exists u :: u in users && u.nip == nip
  }

  predicate HasTicketId(tickets: seq<TicketRow>, id: string) {
    exists t :: t in tickets && t.id == id
  }

  /** The table constraints. */
  predicate TablesValid(users: seq<UserRow>, tickets: seq<TicketRow>) {
    && UserIdsUnique(users)
    && UserNipsUnique(users)
    && TicketIdsUnique(tickets)
    && forall t :: t in tickets ==> HasUserId(users, t.user_id)
  }

  /** The columns `getUsers` selects (everything but the password). */
  function ListedUser(u: UserRow): (r: UserRecord)
    ensures r.id == u.id && r.nip == u.nip && r.name == u.name && r.division == u.division
    ensures r.email == u.email && r.phone == u.phone && r.role == u.role && r.created_at == Some(u.created_at)
  {
    UserRecord(u.id, u.nip, u.name, u.division, u.email, u.phone, u.role, Some(u.created_at))
  }

  function UserWithId(id: string): UserRow -> bool {
    (u: UserRow) => u.id == id
  }

  function RowWithNip(nip: string): UserRow -> bool {
    (u: UserRow) => u.nip == nip
  }

  function TicketWithId(id: string): TicketRow -> bool {
    (t: TicketRow) => t.id == id
  }

  /** The embedded owner `user:users(id, nip, name, division, email, phone, role)`. */
  function Owner(users: seq<UserRow>, userId: string): (r: Option<UserRecord>)
    ensures r.None? <==> !HasUserId(users, userId)
    ensures r.Some? ==> r.value.id == userId && r.value.created_at == None
    ensures r.Some? ==> exists u :: u in users && u.id == userId && r.value == ListedUser(u).(created_at := None)
  {
    match Find(users, UserWithId(userId))
    case None => None
    case Some(u) => Some(ListedUser(u).(created_at := None))
  }

  /** A ticket row with its owner joined in, as every ticket query returns it. */
  function Joined(row: TicketRow, users: seq<UserRow>): (t: Ticket)
    ensures t.id == row.id && t.title == row.title && t.description == row.description
    ensures t.category == row.category && t.priority == row.priority && t.status == row.status
    ensures t.user_id == row.user_id && t.admin_response == row.admin_response
    ensures t.created_at == Some(row.created_at) && t.updated_at == Some(row.updated_at)
    ensures t.user == Owner(users, row.user_id)
  {
    Ticket(row.id, row.title, row.description, row.category, row.priority, row.status, row.user_id,
           row.admin_response, Some(row.created_at), Some(row.updated_at), Owner(users, row.user_id))
  }

  /** Every row of the tickets table, each with its owner joined in. */
  function JoinAll(rows: seq<TicketRow>, users: seq<UserRow>): (r: seq<Ticket>)
    ensures |r| == |rows|
    ensures forall i :: 0 <= i < |rows| ==> r[i] == Joined(rows[i], users)
  {
    seq(|rows|, i requires 0 <= i < |rows| => Joined(rows[i], users))
  }

  /** The optional fields `updateTicket` receives. */
  datatype TicketChanges = TicketChanges(status: Option<string>, admin_response: Option<string>)

  /** The object handed to `.update(...)`: `None` is a key left out of it. */
  datatype Patch = Patch(status: Option<string>, admin_response: Option<string>, updated_at: string)

  /** JavaScript truthiness of an optional string: present and non-empty. */
  predicate Truthy(s: Option<string>) {
    s.Some? && s.value != ""
  }

  /**
   * The patch `updateTicket` sends: `status` and `admin_response` only when
   * supplied and non-empty, `updated_at` always.
   */
  function BuildPatch(data: TicketChanges, now: string): (p: Patch)
    ensures p.status.Some? <==> Truthy(data.status)
    ensures p.admin_response.Some? <==> Truthy(data.admin_response)
    ensures p.status.Some? ==> p.status == data.status
    ensures p.admin_response.Some? ==> p.admin_response == data.admin_response
    ensures p.updated_at == now
  {
    Patch(if Truthy(data.status) then data.status else None,
          if Truthy(data.admin_response) then data.admin_response else None,
          now)
  }

  /** What the database does to one row with a patch: the keys present overwrite their columns. */
  function ApplyPatch(row: TicketRow, p: Patch): (r: TicketRow)
    ensures r.status == p.status.GetOr(row.status)
    ensures r.admin_response == (if p.admin_response.Some? then p.admin_response else row.admin_response)
    ensures r.updated_at == p.updated_at
    ensures r.(status := row.status, admin_response := row.admin_response, updated_at := row.updated_at) == row
  {
    row.(status := p.status.GetOr(row.status),
         admin_response := if p.admin_response.Some? then p.admin_response else row.admin_response,
         updated_at := p.updated_at)
  }

  /** `UPDATE tickets SET ... WHERE id = ticketId`. */
  function PatchWhereId(tickets: seq<TicketRow>, id: string, p: Patch): (r: seq<TicketRow>)
    ensures |r| == |tickets|
    ensures forall i :: 0 <= i < |tickets| ==> r[i] == (if tickets[i].id == id then ApplyPatch(tickets[i], p) else tickets[i])
  {
    seq(|tickets|, i requires 0 <= i < |tickets| => if tickets[i].id == id then ApplyPatch(tickets[i], p) else tickets[i])
  }

  /** An update that supplies only a status leaves the stored admin response as it was. */
  lemma StatusOnlyUpdateKeepsResponse(row: TicketRow, status: string, now: string)
    ensures ApplyPatch(row, BuildPatch(TicketChanges(Some(status), None), now)).admin_response == row.admin_response
  {
  }

  /** An empty status or response in the request is ignored, exactly as if it were left out. */
  lemma EmptyFieldsAreIgnored(data: TicketChanges, now: string)
    requires data.status == Some("") && data.admin_response == Some("")
    ensures BuildPatch(data, now) == BuildPatch(TicketChanges(None, None), now)
  {
  }

  /** The demo password rule: the NIP itself or `password123`. The stored password is not an input. */
  function DemoPasswordAccepts(password: string, nip: string): (r: bool)
    ensures password == nip ==> r
    ensures password == DemoPassword ==> r
    ensures password != nip && password != DemoPassword ==> !r
  {
    password == nip || password == DemoPassword
  }

  /** Whether `loginUser` accepts: the NIP is in the table and the password passes the demo rule. */
  predicate LoginAccepted(users: seq<UserRow>, nip: string, password: string) {
    HasUserNip(users, nip) && DemoPasswordAccepts(password, nip)
  }

  /** Two user tables that differ at most in their password column. */
  predicate SameButPasswords(users: seq<UserRow>, others: seq<UserRow>) {
    |users| == |others| && forall i :: 0 <= i < |users| ==> users[i] == others[i].(password := users[i].password)
  }

  /** The stored password plays no part in the database login: changing it changes no outcome. */
  lemma StoredPasswordIgnored(users: seq<UserRow>, others: seq<UserRow>, nip: string, password: string)
    requires SameButPasswords(users, others)
    ensures LoginAccepted(users, nip, password) <==> LoginAccepted(others, nip, password)
  {
    if HasUserNip(users, nip) {
      var u :| u in users && u.nip == nip;
      var i :| 0 <= i < |users| && users[i] == u;
      assert others[i] in others;
    }
    if HasUserNip(others, nip) {
      var u :| u in others && u.nip == nip;
      var i :| 0 <= i < |others| && others[i] == u;
      assert users[i] in users;
    }
  }

  /** The session the database login stores: the whole `users` row, password included. */
  function RowSession(u: UserRow): (s: SessionUser)
    ensures s.id == u.id && s.nip == u.nip && s.name == u.name && s.division == u.division && s.role == u.role
    ensures s.email == u.email && s.phone == u.phone && s.password == Some(u.password)
  {
    SessionUser(u.id, u.name, u.nip, u.division, u.role, u.email, u.phone, Some(u.password))
  }

  /** The fields `createTicket` receives. */
  datatype NewTicket = NewTicket(title: string, description: string, category: string, priority: string, user_id: string)

  /** The object handed to `.insert(...)` by `createTicket`. */
  datatype TicketInsert = TicketInsert(title: string, description: string, category: string, priority: string, status: string, user_id: string)

  /** The insert record: the caller's fields unchanged and the status forced to `open`. */
  function InsertRecord(req: NewTicket): (r: TicketInsert)
    ensures r.status == OpenStatus
    ensures r.title == req.title && r.description == req.description && r.category == req.category
    ensures r.priority == req.priority && r.user_id == req.user_id
  {
    TicketInsert(req.title, req.description, req.category, req.priority, OpenStatus, req.user_id)
  }

  /** The row the database stores for an insert, with the generated id and both timestamps defaulted to now. */
  function InsertedRow(rec: TicketInsert, id: string, now: string): (r: TicketRow)
    ensures r.id == id && r.status == rec.status && r.user_id == rec.user_id
    ensures r.title == rec.title && r.description == rec.description && r.category == rec.category && r.priority == rec.priority
    ensures r.admin_response == None && r.created_at == now && r.updated_at == now
  {
    TicketRow(id, rec.title, rec.description, rec.category, rec.priority, rec.status, rec.user_id, None, now, now)
  }

  /**
   * Creating a ticket and then listing the tickets shows it exactly once, last,
   * with the generated id, status `open`, the caller's fields and its owner.
   */
  lemma CreatedTicketIsListedOnce(users: seq<UserRow>, tickets: seq<TicketRow>, req: NewTicket, id: string, now: string)
    requires TablesValid(users, tickets)
    requires !HasTicketId(tickets, id) && HasUserId(users, req.user_id)
    ensures var listed := JoinAll(tickets + [InsertedRow(InsertRecord(req), id, now)], users);
            && |listed| == |tickets| + 1
            && var t := listed[|tickets|];
            && t.id == id && t.status == OpenStatus && t.user_id == req.user_id
            && t.title == req.title && t.description == req.description
            && t.category == req.category && t.priority == req.priority
            && t.user.Some? && t.user.value.id == req.user_id
            && forall i :: 0 <= i < |tickets| ==> listed[i].id != id
  {
    var listed := JoinAll(tickets + [InsertedRow(InsertRecord(req), id, now)], users);
    forall i | 0 <= i < |tickets| ensures listed[i].id != id {
      assert listed[i].id == tickets[i].id;
      assert tickets[i] in tickets;
    }
  }

  /** Whatever status a caller may have in mind, a created ticket starts `open`. */
  lemma CreatedTicketIsOpen(req: NewTicket, id: string, now: string)
    ensures InsertedRow(InsertRecord(req), id, now).status == OpenStatus
  {
  }

  /** The fields `registerUser` receives. */
  datatype NewUser = NewUser(name: string, nip: string, division: string, email: Option<string>, phone: Option<string>, password: string)

  /** The row inserted by `registerUser`: the caller's fields, role `user`, generated id and timestamp. */
  function RegisteredRow(data: NewUser, id: string, now: string): (r: UserRow)
    ensures r.role == UserRole
    ensures r.id == id && r.nip == data.nip && r.name == data.name && r.division == data.division
    ensures r.email == data.email && r.phone == data.phone && r.password == data.password && r.created_at == now
  {
    UserRow(id, data.nip, data.name, data.division, data.email, data.phone, UserRole, data.password, now)
  }

  /** `registerUser`'s error mapping: any unique violation reads as a taken NIP. */
  function RegisterErrorMessage(e: DbError): (msg: string)
    ensures e.code == UniqueViolation ==> msg == NipRegisteredMessage
    ensures e.code != UniqueViolation ==> msg == e.message
  {
    if e.code == UniqueViolation then NipRegisteredMessage else e.message
  }

  lemma AppendUserKeepsValid(users: seq<UserRow>, tickets: seq<TicketRow>, u: UserRow)
    requires TablesValid(users, tickets)
    requires !HasUserId(users, u.id) && !HasUserNip(users, u.nip)
    ensures TablesValid(users + [u], tickets)
  {
    var us := users + [u];
    forall i, j | 0 <= i < j < |us| ensures us[i].id != us[j].id && us[i].nip != us[j].nip {
      if j == |users| {
        assert us[i] in users;
      }
    }
    forall t | t in tickets ensures HasUserId(us, t.user_id) {
      var w :| w in users && w.id == t.user_id;
      assert w in us;
    }
  }

  lemma AppendTicketKeepsValid(users: seq<UserRow>, tickets: seq<TicketRow>, t: TicketRow)
    requires TablesValid(users, tickets)
    requires !HasTicketId(tickets, t.id) && HasUserId(users, t.user_id)
    ensures TablesValid(users, tickets + [t])
  {
    var ts := tickets + [t];
    forall i, j | 0 <= i < j < |ts| ensures ts[i].id != ts[j].id {
      if j == |tickets| {
        assert ts[i] in tickets;
      }
    }
  }

  lemma PatchKeepsValid(users: seq<UserRow>, tickets: seq<TicketRow>, id: string, p: Patch)
    requires TablesValid(users, tickets)
    ensures TablesValid(users, PatchWhereId(tickets, id, p))
  {
    var ts := PatchWhereId(tickets, id, p);
    forall t | t in ts ensures HasUserId(users, t.user_id) {
      var i :| 0 <= i < |ts| && ts[i] == t;
      assert tickets[i] in tickets;
    }
  }

  class Backend {
    /** Whether the client was created (both environment values present). */
    var configured: bool
    var users: seq<UserRow>
    var tickets: seq<TicketRow>

    predicate Valid()
      reads this
    {
      TablesValid(users, tickets)
    }

    constructor (configured: bool, users: seq<UserRow>, tickets: seq<TicketRow>)
      requires TablesValid(users, tickets)
      ensures Valid() && this.configured == configured && this.users == users && this.tickets == tickets
    {
      this.configured := configured;
      this.users := users;
      this.tickets := tickets;
    }

    /** `getUsers`: every user without the password column. */
    method GetUsers() returns (r: ServiceResult<seq<UserRecord>>)
      ensures !configured ==> r == Fail(NotConfigured)
      ensures configured ==> r.Ok? && |r.data| == |users|
      ensures configured ==> forall i :: 0 <= i < |users| ==> r.data[i] == ListedUser(users[i])
    {
      if !configured {
        return Fail(NotConfigured);
      }
      var rows := users;
      r := Ok(seq(|rows|, i requires 0 <= i < |rows| => ListedUser(rows[i])));
    }

    /** `getTickets`: every ticket with its owner joined in. */
    method GetTickets() returns (r: ServiceResult<seq<Ticket>>)
      ensures !configured ==> r == Fail(NotConfigured)
      ensures configured ==> r == Ok(JoinAll(tickets, users))
    {
      if !configured {
        return Fail(NotConfigured);
      }
      r := Ok(JoinAll(tickets, users));
    }

    /**
     * `updateTicket`: patch the row with that id and return it, joined. With
     * no such row the update touches nothing and `.single()` fails.
     */
    method UpdateTicket(ticketId: string, data: TicketChanges, now: string) returns (r: ServiceResult<Ticket>)
      requires Valid()
      modifies this
      ensures Valid()
      ensures configured == old(configured) && users == old(users)
      ensures !configured ==> r == Fail(NotConfigured) && tickets == old(tickets)
      ensures configured ==> tickets == PatchWhereId(old(tickets), ticketId, BuildPatch(data, now))
      ensures configured && !HasTicketId(old(tickets), ticketId) ==> r == Fail(NoSingleRow.message) && tickets == old(tickets)
      ensures configured && HasTicketId(old(tickets), ticketId) ==>
                exists i :: 0 <= i < |tickets| && old(tickets)[i].id == ticketId &&
                  r == Ok(Joined(ApplyPatch(old(tickets)[i], BuildPatch(data, now)), users))
    {
      if !configured {
        return Fail(NotConfigured);
      }
      var patch := BuildPatch(data, now);
      var before := tickets;
      tickets := PatchWhereId(tickets, ticketId, patch);
      PatchKeepsValid(users, before, ticketId, patch);
      var i := FirstIndex(before, TicketWithId(ticketId));
      if i.None? {
        assert tickets == before;
        return Fail(NoSingleRow.message);
      }
      r := Ok(Joined(tickets[i.value], users));
    }

    /**
     * `loginUser` against the `users` table: look the NIP up, accept the NIP
     * itself or the demo password, and store the whole row as the session.
     */
    method LoginUser(storage: Storage.BrowserStorage, nip: string, password: string) returns (r: ServiceResult<UserRow>)
      requires Valid()
      modifies storage
      ensures storage.registeredUsers == old(storage.registeredUsers) && storage.tickets == old(storage.tickets)
      ensures !configured ==> r == Fail(NotConfigured) && storage.currentUser == old(storage.currentUser)
      ensures configured && !HasUserNip(users, nip) ==> r == Fail(NipNotFound) && storage.currentUser == old(storage.currentUser)
      ensures configured ==> forall u :: u in users && u.nip == nip ==>
                if DemoPasswordAccepts(password, u.nip) then r == Ok(u) && storage.currentUser == Some(RowSession(u))
                else r == Fail(WrongPasswordMessage) && storage.currentUser == old(storage.currentUser)
      ensures r.Ok? <==> configured && LoginAccepted(users, nip, password)
    {
      if !configured {
        return Fail(NotConfigured);
      }
      var found := Find(users, RowWithNip(nip));
      if found.None? {
        return Fail(NipNotFound);
      }
      var u := found.value;
      forall w | w in users && w.nip == nip ensures w == u {
        var i :| 0 <= i < |users| && users[i] == u;
        var j :| 0 <= j < |users| && users[j] == w;
        assert i == j;
      }
      if DemoPasswordAccepts(password, u.nip) {
        storage.currentUser := Some(RowSession(u));
        r := Ok(u);
      } else {
        r := Fail(WrongPasswordMessage);
      }
    }

    /** `createTicket`: insert the record (status `open`) and return the new row, joined. */
    method CreateTicket(req: NewTicket, newId: string, now: string) returns (r: ServiceResult<Ticket>)
      requires Valid()
      modifies this
      ensures Valid()
      ensures configured == old(configured) && users == old(users)
      ensures !configured ==> r == Fail(NotConfigured) && tickets == old(tickets)
      ensures configured && HasTicketId(old(tickets), newId) ==> r == Fail(DuplicateKey.message) && tickets == old(tickets)
      ensures configured && !HasTicketId(old(tickets), newId) && !HasUserId(users, req.user_id) ==>
                r == Fail(MissingOwner.message) && tickets == old(tickets)
      ensures r.Ok? <==> configured && !HasTicketId(old(tickets), newId) && HasUserId(users, req.user_id)
      ensures r.Ok? ==>
                && tickets == old(tickets) + [InsertedRow(InsertRecord(req), newId, now)]
                && r.data == Joined(InsertedRow(InsertRecord(req), newId, now), users)
    {
      if !configured {
        return Fail(NotConfigured);
      }
      if HasTicketId(tickets, newId) {
        return Fail(DuplicateKey.message);
      }
      if !HasUserId(users, req.user_id) {
        return Fail(MissingOwner.message);
      }
      var row := InsertedRow(InsertRecord(req), newId, now);
      AppendTicketKeepsValid(users, tickets, row);
      tickets := tickets + [row];
      r := Ok(Joined(row, users));
    }

    /** `registerUser`: insert a `user` row; a taken NIP (or id) comes back as `NIP sudah terdaftar`. */
    method RegisterUser(data: NewUser, newId: string, now: string) returns (r: ServiceResult<UserRow>)
      requires Valid()
      modifies this
      ensures Valid()
      ensures configured == old(configured) && tickets == old(tickets)
      ensures !configured ==> r == Fail(NotConfigured) && users == old(users)
      ensures configured && (HasUserNip(old(users), data.nip) || HasUserId(old(users), newId)) ==>
                r == Fail(NipRegisteredMessage) && users == old(users)
      ensures r.Ok? <==> configured && !HasUserNip(old(users), data.nip) && !HasUserId(old(users), newId)
      ensures r.Ok? ==> users == old(users) + [RegisteredRow(data, newId, now)] && r.data == RegisteredRow(data, newId, now)
    {
      if !configured {
        return Fail(NotConfigured);
      }
      if HasUserNip(users, data.nip) || HasUserId(users, newId) {
        return Fail(RegisterErrorMessage(DuplicateKey));
      }
      var row := RegisteredRow(data, newId, now);
      AppendUserKeepsValid(users, tickets, row);
      users := users + [row];
      r := Ok(row);
    }
  }
}
