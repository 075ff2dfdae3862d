/** The session provider of the Vite variant (src/contexts/auth-context.tsx):
    it holds the signed-in `user` and an `isLoading` flag, and mirrors the
    session into `localStorage` under `auth_token` (read by the request
    interceptor) and `user_data` (the stored user). */
module AuthContext {
  import opened Common
  import opened Types
  import opened Http
  import opened Storage
  import opened UserJson
  import SrcApiClient

  const AuthTokenKey := SrcApiClient.AuthTokenKey
  const UserDataKey := "user_data"
  const UseAuthMessage := "useAuth must be used within AuthProvider"

  /** What the init effect finds in storage. `Malformed` is a `user_data`
      that does not decode as the stored user's shape. That includes every
      text `JSON.parse` rejects, where the effect throws before it settles,
      but also valid JSON of another form, which the source would accept. */
  datatype Restore = NoSession | Restored(user: User) | Malformed

  /** The user is restored only when both keys hold a non-empty value and
      the stored user decodes; the stored user is ignored without a token. */
  function RestoreFrom(items: map<string, string>): (r: Restore)
    ensures !Truthy(Lookup(items, AuthTokenKey)) ==> r == NoSession
    ensures !Truthy(Lookup(items, UserDataKey)) ==> r == NoSession
    ensures r.Restored? ==> UserDataKey in items && Decode(items[UserDataKey]) == Some(r.user)
    ensures r.Malformed? <==> Truthy(Lookup(items, AuthTokenKey)) && Truthy(Lookup(items, UserDataKey)) && Decode(items[UserDataKey]).None?
  {
    var token := Lookup(items, AuthTokenKey);
    var userData := Lookup(items, UserDataKey);
    if Truthy(token) && Truthy(userData) then
      match Decode(userData.value)
      case Some(u) => Restored(u)
      case None => Malformed
    else NoSession
  }

  /** The user `login` derives from the username alone. */
  function SignedInUser(username: string): User {
    User(username, username + "@plaxo.com", username)
  }

  /** The storage `login` leaves behind for a token and a username. */
  function AfterLogin(items: map<string, string>, token: string, username: string): map<string, string> {
    items[AuthTokenKey := token][UserDataKey := Encode(SignedInUser(username))]
  }

  /** Round trip: once login has stored a non-empty token, a fresh init
      restores exactly the user login stored, whatever else storage holds. */
  lemma LoginThenRestore(items: map<string, string>, token: string, username: string)
    requires token != ""
    ensures RestoreFrom(AfterLogin(items, token, username)) == Restored(SignedInUser(username))
  {
    var after := AfterLogin(items, token, username);
    assert AuthTokenKey != UserDataKey;
    assert after[AuthTokenKey] == token;
    DecodeEncode(SignedInUser(username));
    EncodeNonEmpty(SignedInUser(username));
  }

  /** An empty access token is stored but restores no one. */
  lemma EmptyTokenRestoresNoOne(items: map<string, string>, username: string)
    ensures RestoreFrom(AfterLogin(items, "", username)) == NoSession
  {
    assert AuthTokenKey != UserDataKey;
    assert AfterLogin(items, "", username)[AuthTokenKey] == "";
  }

  /** After logout neither key is left, so a fresh init restores no one. */
  lemma LogoutThenRestore(items: map<string, string>)
    ensures RestoreFrom(items - {AuthTokenKey, UserDataKey}) == NoSession
  {
    assert AuthTokenKey !in items - {AuthTokenKey, UserDataKey};
  }

  /** `useAuth()`: throws outside the provider. */
  function UseAuth(context: Option<AuthProvider>): (r: Checked<AuthProvider>)
    ensures r.Throws? <==> context.None?
    ensures r.Throws? ==> r.message == UseAuthMessage
    ensures context.Some? ==> r == Returns(context.value)
  {
    UseContext(context, UseAuthMessage)
  }

  class AuthProvider {
    const store: LocalStorage
    var user: Option<User>
    var isLoading: bool

    /** The state the provider mounts with, before its effect runs. */
    constructor (store: LocalStorage)
      ensures this.store == store && user == None && isLoading
    {
      this.store := store;
      user := None;
      isLoading := true;
    }

    /** The mount effect. Settles `isLoading` unless the stored user does not
        decode as the stored user's shape, in which case the effect stops
        before `setIsLoading(false)` and nothing changes, as the source does
        when `JSON.parse` throws. */
    method InitEffect()
      modifies this`user, this`isLoading
      ensures RestoreFrom(store.items).Restored? ==> user == Some(RestoreFrom(store.items).user) && !isLoading
      ensures RestoreFrom(store.items).NoSession? ==> user == old(user) && !isLoading
      ensures RestoreFrom(store.items).Malformed? ==> user == old(user) && isLoading == old(isLoading)
    {
      var token := store.GetItem(AuthTokenKey);
      if token.Some? && token.value != "" {
        var userData := store.GetItem(UserDataKey);
        if userData.Some? && userData.value != "" {
          var parsed := Decode(userData.value);
          if parsed.None? {
            return;
          }
          user := parsed;
        }
      }
      isLoading := false;
    }

    /** Posts the credentials. Only a resolved post writes: the token, then
        the derived user, into storage, and the user into state. A rejection
        propagates and writes nothing. */
    method Login(username: string, password: string, response: Result<LoginResponse>)
      returns (sent: Request, outcome: Result<()>)
      modifies this`user, store
      ensures sent == SrcApiClient.RequestOf(SrcApiClient.Login(username, password))
      ensures response.Err? ==> outcome == Err(response.error) && user == old(user) && store.items == old(store.items)
      ensures response.Ok? ==> outcome == Ok(()) && user == Some(SignedInUser(username))
      ensures response.Ok? ==> store.items == AfterLogin(old(store.items), response.value.access_token, username)
    {
      sent := SrcApiClient.RequestOf(SrcApiClient.Login(username, password));
      match response
      case Err(e) =>
        outcome := Err(e);
      case Ok(body) =>
        var userData := SignedInUser(username);
        store.SetItem(AuthTokenKey, body.access_token);
        store.SetItem(UserDataKey, Encode(userData));
        user := Some(userData);
        outcome := Ok(());
    }

    /** Drops both keys and the user, and no other key; a second logout
        changes nothing. */
    method Logout()
      modifies this`user, store
      ensures user == None && store.items == old(store.items) - {AuthTokenKey, UserDataKey}
      ensures old(user) == None && AuthTokenKey !in old(store.items) && UserDataKey !in old(store.items) ==> store.items == old(store.items)
    {
      store.RemoveItem(AuthTokenKey);
      store.RemoveItem(UserDataKey);
      user := None;
    }

    /** A page reload after login: a new provider over the same storage,
        once its effect has run, holds the same user, and has settled. */
    method LoginThenReload(username: string, password: string, response: Result<LoginResponse>)
      returns (reloaded: AuthProvider)
      requires response.Ok? && response.value.access_token != ""
      modifies this`user, store
      ensures fresh(reloaded) && reloaded.store == store
      ensures reloaded.user == user == Some(SignedInUser(username)) && !reloaded.isLoading
    {
      var items := store.items;
      var _, _ := Login(username, password, response);
      LoginThenRestore(items, response.value.access_token, username);
      reloaded := new AuthProvider(store);
      reloaded.InitEffect();
    }
  }
}
