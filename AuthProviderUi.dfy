/** The session provider of the Next.js variant (components/auth-provider.tsx):
    a UI-level `isAuthenticated` flag and an `isLoading` flag layered over the
    long-lived API client, with a navigation after login and logout. */
module AuthProviderUi {
  import opened Common
  import opened Types
  import opened Http
  import ApiClient

  const UseAuthMessage := "useAuth must be used within an AuthProvider"
  const AfterLoginPath := "/payments"
  const AfterLogoutPath := "/"

  /** `useAuth()`: throws when the context is `undefined`. */
  function UseAuth(context: Option<AuthProvider>): (r: Checked<AuthProvider>)
    ensures r.Throws? <==> context.None?
    ensures r.Throws? ==> r.message == UseAuthMessage
    ensures context.Some? ==> r == Returns(context.value)
  {
    UseContext(context, UseAuthMessage)
  }

  class AuthProvider {
    const client: ApiClient.Client
    var isAuthenticated: bool
    var isLoading: bool

    constructor (client: ApiClient.Client)
      ensures this.client == client && !isAuthenticated && isLoading
    {
      this.client := client;
      isAuthenticated := false;
      isLoading := true;
    }

    /** The mount effect: the flag takes the client's view, and loading settles. */
    method InitEffect()
      modifies this`isAuthenticated, this`isLoading
      ensures isAuthenticated == client.IsAuthenticated() && !isLoading
    {
      isAuthenticated := client.IsAuthenticated();
      isLoading := false;
    }

    /** Awaits the client's login; only when it resolves does the flag turn
        on and the router move to the payments page. The flag turns on for
        any resolved login, so with an empty access token it disagrees with
        the client, which then holds no usable token. */
    method Login(username: string, password: string, response: Result<LoginResponse>)
      returns (sent: Request, navigation: Option<string>, outcome: Result<()>)
      modifies this`isAuthenticated, client`token, client.store
      ensures sent == ApiClient.RequestFor(ApiClient.Endpoint.Login(username, password))
      ensures response.Err? ==> outcome == Err(response.error) && navigation == None && isAuthenticated == old(isAuthenticated)
      ensures response.Err? ==> client.token == old(client.token) && client.store.items == old(client.store.items)
      ensures response.Ok? ==> outcome == Ok(()) && navigation == Some(AfterLoginPath) && isAuthenticated
      ensures response.Ok? ==> client.token == Some(response.value.access_token)
      ensures response.Ok? ==> client.store.items == if client.inBrowser then old(client.store.items)[ApiClient.TokenKey := response.value.access_token] else old(client.store.items)
      ensures response.Ok? ==> (client.IsAuthenticated() <==> response.value.access_token != "")
    {
      sent, outcome := client.Login(username, password, response);
      navigation := None;
      if outcome.Ok? {
        isAuthenticated := true;
        navigation := Some(AfterLoginPath);
      }
    }

    /** Logs the client out, lowers the flag, and moves to the landing page. */
    method Logout() returns (navigation: string)
      modifies this`isAuthenticated, client`token, client.store
      ensures navigation == AfterLogoutPath && !isAuthenticated
      ensures client.token == None && !client.IsAuthenticated()
      ensures client.store.items == if client.inBrowser then old(client.store.items) - {ApiClient.TokenKey} else old(client.store.items)
    {
      client.Logout();
      isAuthenticated := false;
      navigation := AfterLogoutPath;
    }
  }
}
