/**
 * The user service's local fallback: the registered-users array and the
 * session kept in browser storage.
 */
module UserService {
  import opened Wrappers
  import opened Records
  import Storage

  const NipUnknown := "NIP tidak terdaftar"

  datatype RegisterPayload = RegisterPayload(name: string, nip: string, division: string, email: Option<string>, phone: Option<string>, password: string)

  /** The stored record: `user_<nip>_<millis>` as id, role `user`, the payload's fields. */
  function LocalRecord(p: RegisterPayload, nowMillis: string, nowIso: string): (u: LocalUser)
    ensures u.id == "user_" + p.nip + "_" + nowMillis
    ensures u.role == Some(UserRole) && u.createdAt == nowIso
    ensures u.nip == p.nip && u.name == p.name && u.division == p.division
    ensures u.email == p.email && u.phone == p.phone && u.password == p.password
  {
    LocalUser("user_" + p.nip + "_" + nowMillis, p.name, p.nip, p.division, p.email, p.phone, Some(UserRole), p.password, nowIso)
  }

  /** The session `loginUser` stores: the record's identity, role and contacts, never the password. */
  function SessionOf(u: LocalUser): (s: SessionUser)
    ensures s.id == u.id && s.name == u.name && s.nip == u.nip && s.division == u.division
    ensures s.email == u.email && s.phone == u.phone && s.password == None
    ensures s.role == u.role.GetOr(UserRole)
  {
    SessionUser(u.id, u.name, u.nip, u.division, u.role.GetOr(UserRole), u.email, u.phone, None)
  }

  /** `registerUser` (local branch): refuse a taken NIP, otherwise append the record and save. */
  method RegisterUser(storage: Storage.BrowserStorage, payload: RegisterPayload, nowMillis: string, nowIso: string)
    returns (r: ServiceResult<LocalUser>)
    modifies storage
    ensures NipTaken(old(storage.RegisteredUsers()), payload.nip) ==>
              r == Fail(NipRegisteredMessage) && storage.registeredUsers == old(storage.registeredUsers)
    ensures !NipTaken(old(storage.RegisteredUsers()), payload.nip) ==>
              && r == Ok(LocalRecord(payload, nowMillis, nowIso))
              && storage.registeredUsers == Some(old(storage.RegisteredUsers()) + [LocalRecord(payload, nowMillis, nowIso)])
    ensures NipsUnique(old(storage.RegisteredUsers())) ==> NipsUnique(storage.RegisteredUsers())
    ensures storage.currentUser == old(storage.currentUser) && storage.tickets == old(storage.tickets)
  {
    var users := storage.RegisteredUsers();
    if NipTaken(users, payload.nip) {
      return Fail(NipRegisteredMessage);
    }
    var record := LocalRecord(payload, nowMillis, nowIso);
    if NipsUnique(users) {
      AppendFreshNip(users, record);
    }
    storage.registeredUsers := Some(users + [record]);
    r := Ok(record);
  }

  /** `loginUser` (local branch): find the NIP, compare the password exactly, store the session. */
  method LoginUser(storage: Storage.BrowserStorage, nip: string, password: string) returns (r: ServiceResult<SessionUser>)
    modifies storage
    ensures storage.registeredUsers == old(storage.registeredUsers) && storage.tickets == old(storage.tickets)
    ensures !NipTaken(storage.RegisteredUsers(), nip) ==> r == Fail(NipUnknown) && storage.currentUser == old(storage.currentUser)
    ensures NipTaken(storage.RegisteredUsers(), nip) ==>
              var u := FindByNip(storage.RegisteredUsers(), nip).value;
              if u.password == password then r == Ok(SessionOf(u)) && storage.currentUser == Some(SessionOf(u))
              else r == Fail(WrongPasswordMessage) && storage.currentUser == old(storage.currentUser)
    ensures r.Ok? ==> r.data.password == None
  {
    var users := storage.RegisteredUsers();
    var found := FindByNip(users, nip);
    if found.None? {
      return Fail(NipUnknown);
    }
    if found.value.password != password {
      return Fail(WrongPasswordMessage);
    }
    var session := SessionOf(found.value);
    storage.currentUser := Some(session);
    r := Ok(session);
  }

  /** `logout`: remove the session key. */
  method Logout(storage: Storage.BrowserStorage)
    modifies storage
    ensures storage.currentUser == None
    ensures storage.registeredUsers == old(storage.registeredUsers) && storage.tickets == old(storage.tickets)
  {
    storage.currentUser := None;
  }
}
