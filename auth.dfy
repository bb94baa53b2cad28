/**
 * The session (src/contexts/AuthContext.tsx): the current user, login by username and
 * password, logout, and the three role checks the rest of the app asks.
 */
module Auth {
  import opened Base
  import opened Schema

  /** `isAdmin`: the current user's role is admin. */
  predicate IsAdmin(user: Option<User>)
  {
    user.Some? && user.value.role == Admin
  }

  /** `isManager`: the role is admin or manager. */
  predicate IsManager(user: Option<User>)
  {
    user.Some? && user.value.role in {Admin, Manager}
  }

  /** `isCashier`: the role is admin, manager or cashier. */
  predicate IsCashier(user: Option<User>)
  {
    user.Some? && user.value.role in {Admin, Manager, Cashier}
  }

  /**
   * The checks form a hierarchy, admin over manager over cashier; with nobody signed in all
   * three fail, and with anybody signed in the cashier check passes.
   */
  lemma RoleHierarchy(user: Option<User>)
    ensures IsAdmin(user) ==> IsManager(user)
    ensures IsManager(user) ==> IsCashier(user)
    ensures user.None? ==> !IsAdmin(user) && !IsManager(user) && !IsCashier(user)
    ensures user.Some? ==> IsCashier(user)
    ensures IsManager(user) && !IsAdmin(user) ==> user.value.role == Manager
  {
  }

  /** The login query: the first active user with that username, in the username index's order. */
  function FindActive(users: seq<User>, username: string): (r: Option<User>)
  {
    if users == [] then None
    else if users[0].username == username && users[0].active then Some(users[0])
    else FindActive(users[1..], username)
  }

  /**
   * The query finds nothing exactly when no active user has that username; otherwise it finds
   * an active user with that username, before which no other one is.
   */
  lemma {:induction false} FindActiveSpec(users: seq<User>, username: string)
    ensures FindActive(users, username).None? <==>
      forall i :: 0 <= i < |users| ==> !(users[i].username == username && users[i].active)
    ensures FindActive(users, username).Some? ==>
      exists i :: 0 <= i < |users| && users[i] == FindActive(users, username).value &&
        users[i].username == username && users[i].active &&
        forall j :: 0 <= j < i ==> !(users[j].username == username && users[j].active)
  {
    if users != [] && !(users[0].username == username && users[0].active) {
      FindActiveSpec(users[1..], username);
      if FindActive(users[1..], username).Some? {
        var i :| 0 <= i < |users[1..]| && users[1..][i] == FindActive(users, username).value &&
          users[1..][i].username == username && users[1..][i].active &&
          forall j :: 0 <= j < i ==> !(users[1..][j].username == username && users[1..][j].active);
        assert users[i + 1] == users[1..][i];
        assert forall j :: 1 <= j < i + 1 ==> users[j] == users[1..][j - 1];
      }
      assert forall i :: 1 <= i < |users| ==> users[i] == users[1..][i - 1];
    }
  }

  /** Whether the credentials are accepted: the found user's password equals the one given. */
  predicate Accepts(users: seq<User>, username: string, password: string)
  {
    FindActive(users, username).Some? && FindActive(users, username).value.password == password
  }

  /**
   * Only the first active user with a username is tried: a second active account sharing
   * the username cannot sign in with its own password when it differs from the first's.
   */
  lemma OnlyFirstMatchTried(first: User, second: User)
    requires first.username == second.username && first.active && second.active
    requires first.password != second.password
    ensures !Accepts([first, second], second.username, second.password)
    ensures Accepts([first, second], first.username, first.password)
  {
  }

  /** The session state the provider holds. */
  class AuthProvider {
    var currentUser: Option<User>

    /** Mounting the provider: the user restored from the browser's storage, if any. */
    constructor (stored: Option<User>)
      ensures currentUser == stored
    {
      currentUser := stored;
    }

    /**
     * `login`. `lookupFailed` stands for the query throwing; the result is then false. On
     * success the found user becomes the current user; otherwise the session is unchanged.
     */
    method Login(users: seq<User>, username: string, password: string, lookupFailed: bool) returns (ok: bool)
      modifies this
      ensures ok <==> !lookupFailed && Accepts(users, username, password)
      ensures ok ==> currentUser == FindActive(users, username) && currentUser.value.username == username &&
                     currentUser.value.active && currentUser.value.password == password
      ensures !ok ==> currentUser == old(currentUser)
    {
      if lookupFailed {
        return false;
      }
      var user := FindActive(users, username);
      FindActiveSpec(users, username);
      if user.Some? && user.value.password == password {
        currentUser := user;
        return true;
      }
      return false;
    }

    /** `logout`: nobody is signed in, so every role check fails. */
    method Logout()
      modifies this
      ensures currentUser == None
      ensures !IsAdmin(currentUser) && !IsManager(currentUser) && !IsCashier(currentUser)
    {
      currentUser := None;
    }
  }
}
