/**
 * The session store (src/store/authSlice.ts): the signed-in user, a loading flag and an error
 * message, with the user mirrored in `localStorage` under `userInfo`. Each reducer is a step
 * function on a `Session` (the slice state together with the storage snapshot); `AuthStore`
 * holds the state in fields and its methods are proved to perform exactly those steps.
 */
module AuthSlice {
  import opened Wrappers
  import opened JsValues
  import opened Users
  import opened Storage
  import UserJson

  const UserInfoKey: string := "userInfo"

  datatype AuthState = AuthState(user: Option<User>, loading: bool, error: Option<string>)

  datatype Session = Session(auth: AuthState, items: map<string, string>)

  /**
   * `initialState`: a falsy stored `userInfo` (absent or empty) gives no user; otherwise the stored
   * text goes through `JSON.parse`, which throws (Err) on text it cannot read.
   */
  function InitialState(items: map<string, string>): (r: Result<AuthState, UserJson.SyntaxError>)
    ensures r.Ok? ==> !r.value.loading && r.value.error == None
    ensures r.Ok? && r.value.user == None <==>
              UserInfoKey !in items || items[UserInfoKey] == "" || items[UserInfoKey] == "null"
    ensures r.Ok? && r.value.user.Some? ==>
              UserInfoKey in items && UserJson.Parse(items[UserInfoKey]) == Ok(r.value.user)
    ensures r.Err? <==>
              UserInfoKey in items && items[UserInfoKey] != "" && UserJson.Parse(items[UserInfoKey]).Err?
  {
    var stored := GetItem(items, UserInfoKey);
    if !Truthy(stored) then Ok(AuthState(None, false, None))
    else match UserJson.Parse(stored.value)
      case Err(e) => Err(e)
      case Ok(u) => Ok(AuthState(u, false, None))
  }

  /** `setCredentials(p)`: no check of `p`; memory and the stored copy are replaced together. */
  function AfterSetCredentials(s: Session, p: User): (r: Session)
    ensures r.auth == s.auth.(user := Some(p))
    ensures UserInfoKey in r.items && UserJson.Parse(r.items[UserInfoKey]) == Ok(Some(p))
    ensures AgreeExcept(r.items, s.items, UserInfoKey)
  {
    UserJson.ParseEncode(p);
    Session(s.auth.(user := Some(p)), s.items[UserInfoKey := UserJson.Encode(p)])
  }

  /** `logout`: no user in memory and no stored copy. */
  function AfterLogout(s: Session): (r: Session)
    ensures r.auth == s.auth.(user := None)
    ensures UserInfoKey !in r.items && AgreeExcept(r.items, s.items, UserInfoKey)
  {
    Session(s.auth.(user := None), s.items - {UserInfoKey})
  }

  /** `setLoading(b)`: only the loading flag changes. */
  function AfterSetLoading(s: Session, b: bool): (r: Session)
    ensures r.auth.loading == b
    ensures r.auth.user == s.auth.user && r.auth.error == s.auth.error && r.items == s.items
  {
    s.(auth := s.auth.(loading := b))
  }

  /** `setError(e)`: only the error message changes. */
  function AfterSetError(s: Session, e: Option<string>): (r: Session)
    ensures r.auth.error == e
    ensures r.auth.user == s.auth.user && r.auth.loading == s.auth.loading && r.items == s.items
  {
    s.(auth := s.auth.(error := e))
  }

  /** After `setCredentials(p)` a fresh start reads `p` back from storage. */
  lemma SetCredentialsSurvivesReload(s: Session, p: User)
    ensures InitialState(AfterSetCredentials(s, p).items) == Ok(AuthState(Some(p), false, None))
  {
    var r := AfterSetCredentials(s, p);
    UserJson.ParseEncode(p);
    assert r.items[UserInfoKey] == UserJson.Encode(p);
    assert UserJson.Encode(p)[0] == '{';
  }

  /** After `logout` a fresh start is anonymous, whatever else is stored. */
  lemma LogoutSurvivesReload(s: Session)
    ensures InitialState(AfterLogout(s).items) == Ok(AuthState(None, false, None))
  {
  }

  /** Logging out twice is the same as logging out once. */
  lemma LogoutIdempotent(s: Session)
    ensures AfterLogout(AfterLogout(s)) == AfterLogout(s)
  {
    assert AfterLogout(s).items - {UserInfoKey} == AfterLogout(s).items;
  }

  /** Logging out discards whatever credentials were set before. */
  lemma LogoutAfterSetCredentials(s: Session, p: User)
    ensures AfterLogout(AfterSetCredentials(s, p)) == AfterLogout(s)
  {
    assert (s.items[UserInfoKey := UserJson.Encode(p)]) - {UserInfoKey} == s.items - {UserInfoKey};
  }

  /** The slice's state object, with `localStorage` shared with the other slices. */
  class AuthStore {
    var user: Option<User>
    var loading: bool
    var error: Option<string>
    const storage: LocalStorage

    function Current(): Session
      reads this, storage
    {
      Session(AuthState(user, loading, error), storage.items)
    }

    /** The store is created from storage; the source throws at start-up on unreadable text. */
    constructor (storage: LocalStorage)
      requires InitialState(storage.items).Ok?
      ensures this.storage == storage
      ensures Current() == Session(InitialState(storage.items).value, storage.items)
    {
      var init := InitialState(storage.items).value;
      this.storage := storage;
      user := init.user;
      loading := init.loading;
      error := init.error;
    }

    method SetCredentials(p: User)
      modifies this, storage
      ensures Current() == AfterSetCredentials(old(Current()), p)
    {
      user := Some(p);
      storage.SetItem(UserInfoKey, UserJson.Encode(p));
    }

    method Logout()
      modifies this, storage
      ensures Current() == AfterLogout(old(Current()))
    {
      user := None;
      storage.RemoveItem(UserInfoKey);
    }

    method SetLoading(b: bool)
      modifies this
      ensures Current() == AfterSetLoading(old(Current()), b)
    {
      loading := b;
    }

    method SetError(e: Option<string>)
      modifies this
      ensures Current() == AfterSetError(old(Current()), e)
    {
      error := e;
    }
  }
}
