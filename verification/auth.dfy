/**
 * The session store: the in-memory `authData` and its cookie copy, changed
 * by login, logout and the rehydration that runs when the store is created.
 */
module Auth {
  import opened Wrappers
  import opened Js
  import opened Http

  /** The object kept in memory and in the `authData` cookie. A token the
      server did not send, or one cleared by logout, is `None`. */
  datatype AuthData = AuthData(token: Option<string>)

  /** `authData?.token` */
  function TokenOf(authData: Option<AuthData>): Option<string>
  {
    if authData.Some? then authData.value.token else None
  }

  /** `!!authData?.token`: a missing session, a missing or null token and
      the empty token all count as logged out. */
  predicate LoggedIn(authData: Option<AuthData>)
  {
    TruthyString(TokenOf(authData))
  }

  lemma LoggedInIffNonEmptyToken(authData: Option<AuthData>)
    ensures LoggedIn(authData) <==> exists t :: t != "" && authData == Some(AuthData(Some(t)))
  {
  }

  class AuthStore {
    /** The session the client currently uses. */
    var authData: Option<AuthData>
    /** The `authData` cookie: present with a value, or absent. */
    var cookie: Option<AuthData>

    /** Creating the store starts with no session and then runs
        `readAuthData`, so the session is the cookie's when there is one. */
    constructor (jar: Option<AuthData>)
      ensures cookie == jar
      ensures authData == jar
    {
      authData := None;
      cookie := jar;
      new;
      ReadAuthData();
    }

    /** `readAuthData`: a stored cookie (always an object, so truthy)
        replaces the session; without one the session is left as it is. */
    method ReadAuthData()
      modifies this
      ensures cookie == old(cookie)
      ensures authData == if cookie.Some? then cookie else old(authData)
    {
      if cookie.Some? {
        authData := cookie;
      }
    }

    /** `saveAuthData(data)` */
    method SaveAuthData(data: AuthData)
      modifies this
      ensures authData == Some(data) && cookie == Some(data)
    {
      authData := Some(data);
      cookie := Some(data);
    }

    /** `removeAuthData()` */
    method RemoveAuthData()
      modifies this
      ensures authData == None && cookie == None
    {
      authData := None;
      cookie := None;
    }

    /** `register`: the outcome of `POST /auth/register` never touches the
        session; any failure becomes the fixed registration error. */
    method Register(response: Response<()>) returns (r: Result<()>)
      ensures response.Ok? ==> r == Success(())
      ensures response.Err? ==> r == Failure(DefaultMessage(Operation.Register))
    {
      if response.Ok? {
        r := Success(());
      } else {
        r := Failure(DefaultMessage(Operation.Register));
      }
    }

    /** `login`: on success the returned token is saved in memory and in the
        cookie; on failure nothing changes and the fixed login error is
        thrown. */
    method Login(response: Response<Option<string>>) returns (r: Result<()>)
      modifies this
      ensures response.Ok? ==> r == Success(()) &&
                               authData == Some(AuthData(response.payload)) &&
                               cookie == Some(AuthData(response.payload))
      ensures response.Err? ==> r == Failure(DefaultMessage(Operation.Login)) &&
                                authData == old(authData) && cookie == old(cookie)
    {
      if response.Ok? {
        SaveAuthData(AuthData(response.payload));
        r := Success(());
      } else {
        r := Failure(DefaultMessage(Operation.Login));
      }
    }

    /** `logout`: the token of the live session object is cleared first,
        then the session and the cookie are removed, whatever the state
        before. */
    method Logout()
      modifies this
      ensures authData == None && cookie == None
    {
      if authData.Some? {
        authData := Some(authData.value.(token := None));
      }
      RemoveAuthData();
    }
  }

  /** A page reload after a successful login finds the same session in the
      new store; after a failed one, the session the cookie already held. */
  method ReloadAfterLogin(jar: Option<AuthData>, response: Response<Option<string>>)
    returns (r: Result<()>, restored: Option<AuthData>)
    ensures response.Ok? ==> r.Success? && restored == Some(AuthData(response.payload))
    ensures response.Err? ==> r.Failure? && restored == jar
  {
    var store := new AuthStore(jar);
    r := store.Login(response);
    var reloaded := new AuthStore(store.cookie);
    restored := reloaded.authData;
  }

  /** A page reload after logout finds no session, and a second logout
      leaves the session and the cookie as the first one left them: logging
      out is idempotent. `once` and `twice` are the (session, cookie) pairs
      after the first and the second logout. */
  method ReloadAfterLogout(jar: Option<AuthData>)
    returns (once: (Option<AuthData>, Option<AuthData>), twice: (Option<AuthData>, Option<AuthData>),
             restored: Option<AuthData>, loggedIn: bool)
    ensures once == twice
    ensures restored == None && !loggedIn
  {
    var store := new AuthStore(jar);
    store.Logout();
    once := (store.authData, store.cookie);
    store.Logout();
    twice := (store.authData, store.cookie);
    var reloaded := new AuthStore(store.cookie);
    restored := reloaded.authData;
    loggedIn := LoggedIn(restored);
  }

  /** Saving a session and reloading gives that session back. */
  method ReloadAfterSave(jar: Option<AuthData>, data: AuthData) returns (restored: Option<AuthData>)
    ensures restored == Some(data)
  {
    var store := new AuthStore(jar);
    store.SaveAuthData(data);
    var reloaded := new AuthStore(store.cookie);
    restored := reloaded.authData;
  }
}
