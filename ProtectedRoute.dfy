/** The gate of the Vite variant (src/components/auth/protected-route.tsx):
    a spinner while the session loads, the login page without a user, the
    protected children otherwise. */
module ProtectedRoute {
  import opened Common
  import opened UserJson
  import Storage
  import AuthContext

  datatype RouteView = Spinner | LoginPage | Children

  function View(isLoading: bool, user: Option<User>): (v: RouteView)
    ensures v == Spinner <==> isLoading
    ensures v == LoginPage <==> !isLoading && user.None?
    ensures v == Children <==> !isLoading && user.Some?
  {
    if isLoading then Spinner
    else if user.None? then LoginPage
    else Children
  }

  /** What a freshly mounted provider shows once its effect has run on the
      given storage: the user and the loading flag its init leaves. */
  function FreshState(items: map<string, string>): (bool, Option<User>) {
    match AuthContext.RestoreFrom(items)
    case NoSession => (false, None)
    case Restored(u) => (false, Some(u))
    case Malformed => (true, None)
  }

  /** On a fresh page the children show exactly when storage restores a
      user, and a stored user that does not decode as the stored user's
      shape leaves the spinner up for good. */
  lemma FreshGate(items: map<string, string>)
    ensures View(FreshState(items).0, FreshState(items).1) == Children <==> AuthContext.RestoreFrom(items).Restored?
    ensures View(FreshState(items).0, FreshState(items).1) == Spinner <==> AuthContext.RestoreFrom(items).Malformed?
    ensures View(FreshState(items).0, FreshState(items).1) == LoginPage <==> AuthContext.RestoreFrom(items).NoSession?
  {
  }

  /** A fresh provider mounted over storage whose init effect has run
      shows the view of `FreshState`. */
  method Mount(store: Storage.LocalStorage) returns (provider: AuthContext.AuthProvider, v: RouteView)
    ensures fresh(provider) && provider.store == store
    ensures (provider.isLoading, provider.user) == FreshState(store.items)
    ensures v == View(FreshState(store.items).0, FreshState(store.items).1)
  {
    provider := new AuthContext.AuthProvider(store);
    provider.InitEffect();
    v := View(provider.isLoading, provider.user);
  }
}
