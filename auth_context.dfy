/**
 * The session gate of `AuthProvider`: an in-memory user slot, either empty
 * (anonymous) or holding the signed-in user, mirrored into two entries of the
 * browser's local string store. The store is a `map<string, string>`; a key
 * absent from the map is `getItem` returning `null`.
 */
module Auth {
  import opened Lists

  /** The one credential pair the mock login accepts. */
  const AdminEmail: string := "admin@example.com"
  const AdminPassword: string := "password123"

  /** The two local-store keys the gate writes and clears. */
  const AuthKey: string := "isAuthenticated"
  const EmailKey: string := "userEmail"

  datatype User = User(email: string)

  type Storage = map<string, string>

  /** The gate's whole state: the user slot and the local store. */
  datatype Session = Session(user: Option<User>, storage: Storage)

  /** `isAuthenticated: !!user`. */
  predicate Authenticated(s: Session)
  {
    s.user.Some?
  }

  /** The credential check inside `login`. */
  predicate ValidCredentials(email: string, password: string)
  {
    email == AdminEmail && password == AdminPassword
  }

  /** `login(email, password)`: the reported success and the state afterwards. */
  function LoginStep(s: Session, email: string, password: string): (r: (Session, bool))
    ensures r.1 <==> email == "admin@example.com" && password == "password123"
    ensures r.1 ==> r.0.user == Some(User(email))
    ensures r.1 ==> AuthKey in r.0.storage && r.0.storage[AuthKey] == "true"
    ensures r.1 ==> EmailKey in r.0.storage && r.0.storage[EmailKey] == email
    ensures r.1 ==> forall k :: k != AuthKey && k != EmailKey ==>
                      (k in r.0.storage <==> k in s.storage) &&
                      (k in s.storage ==> r.0.storage[k] == s.storage[k])
    ensures !r.1 ==> r.0 == s
  {
    if ValidCredentials(email, password) then
      (Session(Some(User(email)), s.storage[AuthKey := "true"][EmailKey := email]), true)
    else
      (s, false)
  }

  /** `logout()`: empties the user slot and removes the two keys, leaving every other key. */
  function LogoutStep(s: Session): (r: Session)
    ensures r.user == None
    ensures AuthKey !in r.storage && EmailKey !in r.storage
    ensures forall k :: k != AuthKey && k != EmailKey ==>
              (k in r.storage <==> k in s.storage) &&
              (k in s.storage ==> r.storage[k] == s.storage[k])
  {
    Session(None, s.storage - {AuthKey, EmailKey})
  }

  /** The stored evidence of an earlier sign-in: `isAuthenticated` is exactly "true"
      and `userEmail` is present and not the empty string (which JavaScript treats as false). */
  predicate HasStoredSession(storage: Storage)
  {
    AuthKey in storage && storage[AuthKey] == "true" && EmailKey in storage && storage[EmailKey] != ""
  }

  /** The mount effect: rehydrates the user from the store when both flags are there. */
  function RestoreStep(s: Session): (r: Session)
    ensures r.storage == s.storage
    ensures HasStoredSession(s.storage) ==> r.user == Some(User(s.storage[EmailKey]))
    ensures !HasStoredSession(s.storage) ==> r.user == s.user
  {
    if HasStoredSession(s.storage) then Session(Some(User(s.storage[EmailKey])), s.storage) else s
  }

  /** The state of a freshly mounted provider over a given store: the user slot starts
      empty and the mount effect then runs once. */
  function Started(storage: Storage): (r: Session)
    ensures r.storage == storage
    ensures Authenticated(r) <==> HasStoredSession(storage)
    ensures Authenticated(r) ==> r.user.value.email == storage[EmailKey] && r.user.value.email != ""
  {
    RestoreStep(Session(None, storage))
  }

  /** Login succeeds exactly for the literal pair, and a failed login changes nothing. */
  lemma LoginSucceedsOnlyForAdmin(s: Session, email: string, password: string)
    ensures LoginStep(s, email, password).1 <==> ValidCredentials(email, password)
    ensures Authenticated(LoginStep(s, email, password).0) <==>
            ValidCredentials(email, password) || Authenticated(s)
  {
  }

  /** A successful login followed by logout is anonymous with both keys gone,
      and every other key is as it was before the login. */
  lemma LoginThenLogout(s: Session, email: string, password: string)
    requires ValidCredentials(email, password)
    ensures var t := LogoutStep(LoginStep(s, email, password).0);
      && !Authenticated(t)
      && AuthKey !in t.storage && EmailKey !in t.storage
      && t.storage == s.storage - {AuthKey, EmailKey}
  {
    var t := LogoutStep(LoginStep(s, email, password).0);
    assert t.storage == s.storage - {AuthKey, EmailKey};
  }

  /** A restart after a successful login, without logout, signs the same user back in. */
  lemma RestartAfterLogin(s: Session, email: string, password: string)
    requires ValidCredentials(email, password)
    ensures Started(LoginStep(s, email, password).0.storage).user == Some(User(email))
  {
    assert email != "";
  }

  /** A restart after logout stays anonymous, whatever else the store holds. */
  lemma RestartAfterLogout(s: Session)
    ensures !Authenticated(Started(LogoutStep(s).storage))
  {
  }

  /** The provider component: the `user` state slot and the local store it writes. */
  class AuthProvider {
    var user: Option<User>
    var storage: Storage

    function State(): Session
      reads this
    {
      Session(user, storage)
    }

    /** Mounting the provider over the store left by earlier runs. */
    constructor (persisted: Storage)
      ensures State() == Started(persisted)
    {
      user := None;
      storage := persisted;
      new;
      Restore();
    }

    /** The value of `isAuthenticated` the provider exposes. */
    function IsAuthenticated(): (b: bool)
      reads this
      ensures b <==> Authenticated(State())
    {
      user != None
    }

    method Login(email: string, password: string) returns (ok: bool)
      modifies this
      ensures ok == ValidCredentials(email, password)
      ensures (State(), ok) == LoginStep(old(State()), email, password)
    {
      if ValidCredentials(email, password) {
        user := Some(User(email));
        storage := storage[AuthKey := "true"];
        storage := storage[EmailKey := email];
        return true;
      }
      return false;
    }

    method Logout()
      modifies this
      ensures State() == LogoutStep(old(State()))
    {
      user := None;
      storage := storage - {AuthKey};
      storage := storage - {EmailKey};
    }

    /** The mount effect, run once when the provider is first rendered. */
    method Restore()
      modifies this
      ensures State() == RestoreStep(old(State()))
    {
      var flag := AuthKey in storage && storage[AuthKey] == "true";
      var email := if EmailKey in storage then Some(storage[EmailKey]) else None;
      if flag && email.Some? && email.value != "" {
        user := Some(User(email.value));
      }
    }
  }
}
