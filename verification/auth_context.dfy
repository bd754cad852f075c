/**
 * The session provider (src/context/AuthContext.tsx): the current user,
 * the `loading` and `error` flags, and the three `localStorage` keys that
 * keep a session across reloads. `JSON.parse` and `JSON.stringify` of the
 * stored user are opaque functions given as parameters; every awaited call
 * is a `Response` parameter.
 */
module AuthContext {
  import opened Wrappers
  import opened Domain

  const AccessTokenKey := "accessToken"
  const RefreshTokenKey := "refreshToken"
  const UserKey := "user"
  const SessionKeys: set<string> := {AccessTokenKey, RefreshTokenKey, UserKey}

  const LoginFailedMessage := "Invalid email or password. Please try again."
  const RegistrationFailedMessage := "Registration failed. Please try again."

  /** `AuthUser`: the user's record plus both tokens. */
  datatype AuthUser = AuthUser(details: User, accessToken: string, refreshToken: string)

  /** What the `try` block of `login` gathers: the tokens, and the user fetched by the token's subject. */
  datatype LoginResult = LoginResult(accessToken: string, refreshToken: string, details: User)

  /** `localStorage.getItem(key)`, kept only when truthy. */
  function Stored(storage: map<string, string>, key: string): (v: Option<string>)
    ensures v.Some? <==> key in storage && storage[key] != ""
    ensures v.Some? ==> v.value == storage[key]
  {
    if key in storage && storage[key] != "" then Some(storage[key]) else None
  }

  /** The outcome of the restore effect: the user it sets, if any, and the storage it leaves. */
  datatype Restore = Restore(user: Option<AuthUser>, storage: map<string, string>)

  predicate HasStoredSession(storage: map<string, string>)
  {
    Stored(storage, AccessTokenKey).Some? && Stored(storage, RefreshTokenKey).Some? && Stored(storage, UserKey).Some?
  }

  /** The restore effect's decision, from the storage it finds. */
  function Restored(storage: map<string, string>, parse: string -> Option<User>): (r: Restore)
    ensures r.user.Some? <==> HasStoredSession(storage) && parse(storage[UserKey]).Some?
    ensures r.user.Some? ==>
      r.user.value == AuthUser(parse(storage[UserKey]).value, storage[AccessTokenKey], storage[RefreshTokenKey])
      && r.storage == storage
    ensures HasStoredSession(storage) && parse(storage[UserKey]).None? ==>
      r.storage == storage - SessionKeys
    ensures !HasStoredSession(storage) ==> r.storage == storage
  {
    var accessToken := Stored(storage, AccessTokenKey);
    var refreshToken := Stored(storage, RefreshTokenKey);
    var userData := Stored(storage, UserKey);
    if accessToken.Some? && refreshToken.Some? && userData.Some? then
      match parse(userData.value)
      case Some(parsed) => Restore(Some(AuthUser(parsed, accessToken.value, refreshToken.value)), storage)
      case None => Restore(None, storage - SessionKeys)
    else
      Restore(None, storage)
  }

  /** The storage after a successful login. */
  function LoggedInStorage(storage: map<string, string>, result: LoginResult, stringify: User -> string): (s: map<string, string>)
    ensures s.Keys == storage.Keys + SessionKeys
    ensures s[AccessTokenKey] == result.accessToken && s[RefreshTokenKey] == result.refreshToken
    ensures s[UserKey] == stringify(result.details)
    ensures forall k :: k in storage && k !in SessionKeys ==> s[k] == storage[k]
  {
    storage[AccessTokenKey := result.accessToken][RefreshTokenKey := result.refreshToken][UserKey := stringify(result.details)]
  }

  /** The storage after `logout`. */
  function LoggedOutStorage(storage: map<string, string>): (s: map<string, string>)
    ensures s.Keys == storage.Keys - SessionKeys
    ensures forall k :: k in s ==> s[k] == storage[k]
  {
    storage - SessionKeys
  }

  /**
   * A session written by a successful login is restored by the next load as
   * the same user with the same tokens, provided the tokens are non-empty and
   * parsing undoes stringifying.
   */
  lemma LoginThenRestore(storage: map<string, string>, result: LoginResult, stringify: User -> string, parse: string -> Option<User>)
    requires result.accessToken != "" && result.refreshToken != "" && stringify(result.details) != ""
    requires parse(stringify(result.details)) == Some(result.details)
    ensures var s := LoggedInStorage(storage, result, stringify);
      Restored(s, parse) == Restore(Some(AuthUser(result.details, result.accessToken, result.refreshToken)), s)
  {
    var s := LoggedInStorage(storage, result, stringify);
    assert HasStoredSession(s);
  }

  /** After logout the next load finds no session and changes nothing. */
  lemma LogoutThenRestore(storage: map<string, string>, parse: string -> Option<User>)
    ensures Restored(LoggedOutStorage(storage), parse) == Restore(None, LoggedOutStorage(storage))
  {
    var s := LoggedOutStorage(storage);
    assert AccessTokenKey !in s;
  }

  /** A failed parse clears the session, so the following load does not try again. */
  lemma FailedRestoreIsFinal(storage: map<string, string>, parse: string -> Option<User>)
    requires HasStoredSession(storage) && parse(storage[UserKey]).None?
    ensures Restored(Restored(storage, parse).storage, parse) == Restore(None, storage - SessionKeys)
  {
    assert AccessTokenKey !in storage - SessionKeys;
  }

  class AuthProvider {
    var user: Option<AuthUser>
    var loading: bool
    var error: Option<string>
    /** `localStorage`. */
    var storage: map<string, string>

    constructor (storage: map<string, string>)
      ensures user == None && loading && error == None && this.storage == storage
    {
      user := None;
      loading := true;
      error := None;
      this.storage := storage;
    }

    /** The mount effect: restore a stored session, then stop loading in every case. */
    method RestoreSession(parse: string -> Option<User>)
      modifies this
      ensures var r := Restored(old(storage), parse);
        && storage == r.storage
        && (r.user.Some? ==> user == r.user)
        && (r.user.None? ==> user == old(user))
      ensures !loading && error == old(error)
    {
      var r := Restored(storage, parse);
      if r.user.Some? {
        user := r.user;
      }
      storage := r.storage;
      loading := false;
    }

    /** `login`: it never throws; a failure only records the error message. */
    method Login(reply: Response<LoginResult>, stringify: User -> string) returns (c: Completion<()>)
      modifies this
      ensures c == Returned(()) && !loading
      ensures reply.Success? ==>
        && user == Some(AuthUser(reply.value.details, reply.value.accessToken, reply.value.refreshToken))
        && storage == LoggedInStorage(old(storage), reply.value, stringify)
        && error == None
      ensures reply.Failure? ==>
        user == old(user) && storage == old(storage) && error == Some(LoginFailedMessage)
    {
      loading := true;
      error := None;
      match reply {
        case Success(result) =>
          user := Some(AuthUser(result.details, result.accessToken, result.refreshToken));
          storage := storage[AccessTokenKey := result.accessToken];
          storage := storage[RefreshTokenKey := result.refreshToken];
          storage := storage[UserKey := stringify(result.details)];
        case Failure =>
          error := Some(LoginFailedMessage);
      }
      loading := false;
      c := Returned(());
    }

    /** `register`: it rethrows a failure to its caller. */
    method Register(reply: Response<User>) returns (c: Completion<User>)
      modifies this
      ensures !loading && user == old(user) && storage == old(storage)
      ensures reply.Success? ==> c == Returned(reply.value) && error == None
      ensures reply.Failure? ==> c == Threw && error == Some(RegistrationFailedMessage)
    {
      loading := true;
      error := None;
      match reply {
        case Success(created) =>
          c := Returned(created);
        case Failure =>
          error := Some(RegistrationFailedMessage);
          c := Threw;
      }
      loading := false;
    }

    /** `registerWithInvite`: unlike `register`, it swallows a failure. */
    method RegisterWithInvite(reply: Response<()>) returns (c: Completion<()>)
      modifies this
      ensures c == Returned(()) && !loading && user == old(user) && storage == old(storage)
      ensures error == (if reply.Failure? then Some(RegistrationFailedMessage) else None)
    {
      loading := true;
      error := None;
      if reply.Failure? {
        error := Some(RegistrationFailedMessage);
      }
      loading := false;
      c := Returned(());
    }

    /** `logout`: forget the user and the three stored keys, and nothing else. */
    method Logout()
      modifies this
      ensures user == None && storage == LoggedOutStorage(old(storage))
      ensures loading == old(loading) && error == old(error)
    {
      user := None;
      storage := storage - {AccessTokenKey};
      storage := storage - {RefreshTokenKey};
      storage := storage - {UserKey};
    }

    method ClearError()
      modifies this
      ensures error == None
      ensures user == old(user) && loading == old(loading) && storage == old(storage)
    {
      error := None;
    }
  }
}
