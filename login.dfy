/**
 * The Login page's two submit handlers: the user login against the
 * `registeredUsers` array and the hard-coded administrator login. Both
 * write nothing but the `currentUser` key, and only on success.
 */
module Login {
  import opened Wrappers
  import opened Records
  import Storage

  datatype LoginError = MissingCredentials | WrongPassword | UnknownNip

  const AdminUsername := "admin"
  const AdminPassword := "admin123"

  /** The fixed identity the administrator login stores. */
  const AdminSession := SessionUser("admin_1", "Administrator", "ADMIN001", "IT Support", AdminRole, None, None, None)

  /** The session the user login stores: identity fields of the record and role `user`, whatever the record says. */
  function UserSession(u: LocalUser): (s: SessionUser)
    ensures s.id == u.id && s.name == u.name && s.nip == u.nip && s.division == u.division
    ensures s.role == UserRole && s.password == None && s.email == None && s.phone == None
  {
    SessionUser(u.id, u.name, u.nip, u.division, UserRole, None, None, None)
  }

  /** `handleUserLogin`. */
  method HandleUserLogin(storage: Storage.BrowserStorage, nip: string, password: string) returns (e: Option<LoginError>)
    modifies storage
    ensures storage.registeredUsers == old(storage.registeredUsers) && storage.tickets == old(storage.tickets)
    ensures nip == "" || password == "" ==> e == Some(MissingCredentials)
    ensures nip != "" && password != "" && !NipTaken(storage.RegisteredUsers(), nip) ==> e == Some(UnknownNip)
    ensures nip != "" && password != "" && NipTaken(storage.RegisteredUsers(), nip) ==>
              var u := FindByNip(storage.RegisteredUsers(), nip).value;
              if u.password == password then e == None && storage.currentUser == Some(UserSession(u))
              else e == Some(WrongPassword)
    ensures e.Some? ==> storage.currentUser == old(storage.currentUser)
    ensures e.None? ==> storage.currentUser.Some? && storage.currentUser.value.role == UserRole
    ensures NipsUnique(storage.RegisteredUsers()) ==>
              (e.None? <==> nip != "" && password != "" &&
                            exists u :: u in storage.RegisteredUsers() && u.nip == nip && u.password == password)
  {
    if nip == "" || password == "" {
      return Some(MissingCredentials);
    }
    var registeredUsers := storage.RegisteredUsers();
    var registeredUser := FindByNip(registeredUsers, nip);
    if registeredUser.Some? && NipsUnique(registeredUsers) {
      FindByNipIsTheOnlyMatch(registeredUsers, nip);
    }
    if registeredUser.None? {
      return Some(UnknownNip);
    }
    if registeredUser.value.password != password {
      return Some(WrongPassword);
    }
    storage.currentUser := Some(UserSession(registeredUser.value));
    e := None;
  }

  /** `handleAdminLogin`: one fixed username and password, never looked up in storage. */
  method HandleAdminLogin(storage: Storage.BrowserStorage, username: string, password: string) returns (ok: bool)
    modifies storage
    ensures ok <==> username == AdminUsername && password == AdminPassword
    ensures ok ==> storage.currentUser == Some(AdminSession)
    ensures !ok ==> storage.currentUser == old(storage.currentUser)
    ensures storage.registeredUsers == old(storage.registeredUsers) && storage.tickets == old(storage.tickets)
  {
    ok := username == AdminUsername && password == AdminPassword;
    if ok {
      storage.currentUser := Some(AdminSession);
    }
  }
}
