/**
 * The Register page's submit handler: a chain of checks with early returns,
 * then an append to the `registeredUsers` array in browser storage.
 */
module Register {
  import opened Wrappers
  import opened Records
  import Storage

  /** The form state, `confirmPassword` included. */
  datatype RegisterForm = RegisterForm(
    name: string,
    nip: string,
    division: string,
    email: string,
    phone: string,
    password: string,
    confirmPassword: string)

  /** The error toasts of the handler, in the order it checks for them. */
  datatype RegisterError = MissingFields | PasswordMismatch | PasswordTooShort | NipAlreadyRegistered

  const MinPasswordLength := 6

  /** Name, NIP, division or password left empty (email and phone are optional). */
  predicate RequiredMissing(f: RegisterForm) {
    f.name == "" || f.nip == "" || f.division == "" || f.password == ""
  }

  /** The checks in the handler's order; the first one that fails decides the error. */
  function Validate(f: RegisterForm, users: seq<LocalUser>): (e: Option<RegisterError>)
    ensures e == Some(MissingFields) <==> RequiredMissing(f)
    ensures e == Some(PasswordMismatch) <==> !RequiredMissing(f) && f.password != f.confirmPassword
    ensures e == Some(PasswordTooShort) <==>
              !RequiredMissing(f) && f.password == f.confirmPassword && |f.password| < MinPasswordLength
    ensures e == Some(NipAlreadyRegistered) <==>
              !RequiredMissing(f) && f.password == f.confirmPassword && |f.password| >= MinPasswordLength && NipTaken(users, f.nip)
    ensures e == None ==> |f.password| >= MinPasswordLength && !NipTaken(users, f.nip)
  {
    if RequiredMissing(f) then Some(MissingFields)
    else if f.password != f.confirmPassword then Some(PasswordMismatch)
    else if |f.password| < MinPasswordLength then Some(PasswordTooShort)
    else if NipTaken(users, f.nip) then Some(NipAlreadyRegistered)
    else None
  }

  /** Only the last check looks at the stored users: any other outcome is the same whatever is stored. */
  lemma FormChecksIgnoreStoredUsers(f: RegisterForm, users: seq<LocalUser>, others: seq<LocalUser>)
    requires Validate(f, users).Some? && Validate(f, users) != Some(NipAlreadyRegistered)
    ensures Validate(f, others) == Validate(f, users)
  {
  }

  /** The record the page stores: the form's fields without the confirmation, id `user_<nip>_<millis>`, no role. */
  function NewUser(f: RegisterForm, nowMillis: string, nowIso: string): (u: LocalUser)
    ensures u.id == "user_" + f.nip + "_" + nowMillis && u.createdAt == nowIso && u.role == None
    ensures u.name == f.name && u.nip == f.nip && u.division == f.division
    ensures u.email == Some(f.email) && u.phone == Some(f.phone) && u.password == f.password
  {
    LocalUser("user_" + f.nip + "_" + nowMillis, f.name, f.nip, f.division, Some(f.email), Some(f.phone), None, f.password, nowIso)
  }

  /**
   * `handleRegister`: validate, and when every check passes append the new
   * record to the stored array. A failed check leaves storage as it was.
   */
  method HandleRegister(storage: Storage.BrowserStorage, form: RegisterForm, nowMillis: string, nowIso: string)
    returns (e: Option<RegisterError>)
    modifies storage
    ensures e == Validate(form, old(storage.RegisteredUsers()))
    ensures e.Some? ==> storage.registeredUsers == old(storage.registeredUsers)
    ensures e.None? ==> storage.registeredUsers == Some(old(storage.RegisteredUsers()) + [NewUser(form, nowMillis, nowIso)])
    ensures NipsUnique(old(storage.RegisteredUsers())) ==> NipsUnique(storage.RegisteredUsers())
    ensures storage.currentUser == old(storage.currentUser) && storage.tickets == old(storage.tickets)
  {
    if RequiredMissing(form) {
      return Some(MissingFields);
    }
    if form.password != form.confirmPassword {
      return Some(PasswordMismatch);
    }
    if |form.password| < MinPasswordLength {
      return Some(PasswordTooShort);
    }
    var existingUsers := storage.RegisteredUsers();
    if NipTaken(existingUsers, form.nip) {
      return Some(NipAlreadyRegistered);
    }
    var newUser := NewUser(form, nowMillis, nowIso);
    if NipsUnique(existingUsers) {
      AppendFreshNip(existingUsers, newUser);
    }
    storage.registeredUsers := Some(existingUsers + [newUser]);
    e := None;
  }
}
