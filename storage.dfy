/**
 * The browser's `localStorage`, reduced to the three keys the core reads and
 * writes. A missing key is `None`; a present key holds the already-parsed
 * JSON value.
 */
module Storage {
  import opened Wrappers
  import opened Records

  class BrowserStorage {
    /** Key `registeredUsers`. */
    var registeredUsers: Option<seq<LocalUser>>
    /** Key `currentUser`: the session. */
    var currentUser: Option<SessionUser>
    /** Key `tickets`, read and written by the Admin page. */
    var tickets: Option<seq<ViewTicket>>

    /** An empty storage: a fresh browser profile. */
    constructor ()
      ensures registeredUsers == None && currentUser == None && tickets == None
    {
      registeredUsers := None;
      currentUser := None;
      tickets := None;
    }

    /** `JSON.parse(localStorage.getItem('registeredUsers') || '[]')`. */
    function RegisteredUsers(): (users: seq<LocalUser>)
      reads this
      ensures registeredUsers.None? ==> users == []
      ensures registeredUsers.Some? ==> users == registeredUsers.value
    {
      registeredUsers.GetOr([])
    }
  }
}
