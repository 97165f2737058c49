/**
 * The records the helpdesk passes around. The TypeScript interfaces are
 * structural; each becomes a datatype here, with optional properties as
 * `Option` fields and string-typed enumerations (status, priority) kept as
 * strings, because the code compares them as strings and does not agree on
 * their spelling (`in-progress` on the pages, `in_progress` in the mock data).
 */
module Records {
  import opened Wrappers
  import opened Seqs

  /** `'user' | 'admin'`. */
  datatype Role = UserRole | AdminRole

  /** The `ok / data / error` result object every service function returns. */
  datatype ServiceResult<T> = Ok(data: T) | Fail(error: string)

  /** The error texts both user services return for a taken NIP and for a wrong password. */
  const NipRegisteredMessage := "NIP sudah terdaftar"
  const WrongPasswordMessage := "Password salah"

  /** JavaScript `a || b` on two strings: the empty string is falsy. */
  function OrElse(a: string, b: string): (r: string)
    ensures a != "" ==> r == a
    ensures a == "" ==> r == b
  {
    if a != "" then a else b
  }

  /** A user as the services expose it (no password): `UserRecord`. */
  datatype UserRecord = UserRecord(
    id: string,
    nip: string,
    name: string,
    division: string,
    email: Option<string>,
    phone: Option<string>,
    role: Role,
    created_at: Option<string>)

  /** A ticket as the data services return it, with the owner joined in as `user`. */
  datatype Ticket = Ticket(
    id: string,
    title: string,
    description: string,
    category: string,
    priority: string,
    status: string,
    user_id: string,
    admin_response: Option<string>,
    created_at: Option<string>,
    updated_at: Option<string>,
    user: Option<UserRecord>)

  /** A ticket as the Admin and Dashboard pages hold it in state (camel-case, owner fields flattened). */
  datatype ViewTicket = ViewTicket(
    id: string,
    title: string,
    description: string,
    category: string,
    priority: string,
    status: string,
    userId: string,
    userName: string,
    userNip: string,
    userDivision: string,
    createdAt: string,
    updatedAt: string,
    adminResponse: Option<string>)

  /**
   * The JSON object stored under the `currentUser` key. Different writers
   * store different shapes: the pages store `{id, name, nip, division, role}`,
   * the local user service adds email and phone, and the database login stores
   * the whole `users` row, password included. `password` records which.
   */
  datatype SessionUser = SessionUser(
    id: string,
    name: string,
    nip: string,
    division: string,
    role: Role,
    email: Option<string>,
    phone: Option<string>,
    password: Option<string>)

  /**
   * An element of the array stored under the `registeredUsers` key. The
   * Register page stores no role; the local user service stores role `'user'`.
   */
  datatype LocalUser = LocalUser(
    id: string,
    name: string,
    nip: string,
    division: string,
    email: Option<string>,
    phone: Option<string>,
    role: Option<Role>,
    password: string,
    createdAt: string)

  /** No two registered users share a NIP. */
  predicate NipsUnique(users: seq<LocalUser>) {
    forall i, j :: 0 <= i < j < |users| ==> users[i].nip != users[j].nip
  }

  /** `users.some(u => u.nip === nip)`: true exactly when `find` by that NIP finds a record. */
  function NipTaken(users: seq<LocalUser>, nip: string): (r: bool)
    ensures r <==> Find(users, UserWithNip(nip)).Some?
  {
    exists u :: u in users && u.nip == nip
  }

  /** Appending a user whose NIP is not yet taken keeps NIPs unique. */
  lemma AppendFreshNip(users: seq<LocalUser>, u: LocalUser)
    requires NipsUnique(users) && !NipTaken(users, u.nip)
    ensures NipsUnique(users + [u])
  {
    forall i, j | 0 <= i < j < |users + [u]| ensures (users + [u])[i].nip != (users + [u])[j].nip {
      if j == |users| {
        assert users[i] in users;
      }
    }
  }

  function UserWithNip(nip: string): LocalUser -> bool {
    (u: LocalUser) => u.nip == nip
  }

  /** `users.find(u => u.nip === nip)`. */
  function FindByNip(users: seq<LocalUser>, nip: string): (r: Option<LocalUser>)
    ensures r.None? <==> !NipTaken(users, nip)
    ensures r.Some? ==> r.value in users && r.value.nip == nip
    ensures r.Some? ==> exists i :: 0 <= i < |users| && users[i] == r.value && forall j :: 0 <= j < i ==> users[j].nip != nip
  {
    Find(users, UserWithNip(nip))
  }

  /** While NIPs are unique, the record found is the only one with that NIP. */
  lemma FindByNipIsTheOnlyMatch(users: seq<LocalUser>, nip: string)
    requires NipsUnique(users) && NipTaken(users, nip)
    ensures forall u :: u in users && u.nip == nip ==> u == FindByNip(users, nip).value
  {
    var found := FindByNip(users, nip).value;
    forall u | u in users && u.nip == nip ensures u == found {
      var i :| 0 <= i < |users| && users[i] == found;
      var j :| 0 <= j < |users| && users[j] == u;
    }
  }
}
