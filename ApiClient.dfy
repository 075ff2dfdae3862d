/** The session-holding API client of the Next.js variant (lib/api-client.ts):
    a long-lived object that keeps the bearer token in a field mirrored into
    `localStorage` under `plaxo_token`, decorates every request with it, and
    exposes one method per backend endpoint. */
module ApiClient {
  import opened Common
  import opened Types
  import opened Http
  import opened Storage

  const TokenKey := "plaxo_token"
  const DefaultBaseUrl := "http://localhost:3010/api"

  /** The body `GET /api/config` answers with. */
  datatype ConfigResponse = ConfigResponse(apiBaseUrl: string)

  /** One call per endpoint method of the client, with its arguments. */
  datatype Endpoint =
    | Login(username: string, password: string)
    | PaymentById(id: string)
    | PaymentsByApplication(applicationId: string, status: Option<string>)
    | PaymentsBySubscription(subscriptionId: string)
    | SubscriptionById(id: string)
    | SubscriptionsByApplication(applicationId: string, status: Option<string>)
    | SubscriptionsByCustomer(customerId: string)
    | CancelSubscription(id: string)
    | SuspendSubscription(id: string)
    | RenewalsDue
    | CreateApplication(data: ApplicationForm)
    | AllApplications
    | ApplicationById(id: string)

  /** The path of each endpoint, segment by segment. */
  function Segments(e: Endpoint): seq<string> {
    match e
    case Login(_, _) => ["auth", "login"]
    case PaymentById(id) => ["payments", id]
    case PaymentsByApplication(applicationId, _) => ["payments", "application", applicationId]
    case PaymentsBySubscription(subscriptionId) => ["payments", "subscription", subscriptionId]
    case SubscriptionById(id) => ["subscriptions", id]
    case SubscriptionsByApplication(applicationId, _) => ["subscriptions", "application", applicationId]
    case SubscriptionsByCustomer(customerId) => ["subscriptions", "customer", customerId]
    case CancelSubscription(id) => ["subscriptions", id, "cancel"]
    case SuspendSubscription(id) => ["subscriptions", id, "suspend"]
    case RenewalsDue => ["subscriptions", "renewals", "due"]
    case CreateApplication(_) => ["applications"]
    case AllApplications => ["applications"]
    case ApplicationById(id) => ["applications", id]
  }

  function VerbOf(e: Endpoint): Verb {
    match e
    case Login(_, _) => Post
    case CreateApplication(_) => Post
    case CancelSubscription(_) => Put
    case SuspendSubscription(_) => Put
    case _ => Get
  }

  function BodyOf(e: Endpoint): Body {
    match e
    case Login(username, password) => LoginBody(username, password)
    case CreateApplication(data) => ApplicationBody(data)
    case _ => NoBody
  }

  /** `params: status ? { status } : {}`: the status travels as a query
      parameter exactly when it is a non-empty string, and verbatim. */
  function StatusParams(status: Option<string>): (p: map<string, string>)
    ensures "status" in p <==> Truthy(status)
    ensures forall k :: k in p ==> k == "status"
    ensures "status" in p ==> p["status"] == status.value
  {
    if Truthy(status) then map["status" := status.value] else map[]
  }

  function ParamsOf(e: Endpoint): map<string, string> {
    match e
    case PaymentsByApplication(_, status) => StatusParams(status)
    case SubscriptionsByApplication(_, status) => StatusParams(status)
    case _ => map[]
  }

  /** The request an endpoint method hands to axios. Only the two list
      fetches by application carry query parameters; only cancel and suspend
      are PUT requests, on `/subscriptions/{id}/cancel` and `.../suspend`. */
  function RequestFor(e: Endpoint): (r: Request)
    ensures (e.PaymentsByApplication? || e.SubscriptionsByApplication?) ==> r.params == StatusParams(e.status)
    ensures !(e.PaymentsByApplication? || e.SubscriptionsByApplication?) ==> r.params == map[]
    ensures r.verb == Put <==> (e.CancelSubscription? || e.SuspendSubscription?)
    ensures r.verb == Post <==> (e.Login? || e.CreateApplication?)
    ensures r.body != NoBody <==> (e.Login? || e.CreateApplication?)
  {
    Request(VerbOf(e), PathOf(Segments(e)), ParamsOf(e), BodyOf(e))
  }

  lemma PathOfOne(a: string)
    ensures PathOf([a]) == "/" + a
  {
    assert [a][1..] == [];
    assert PathOf([a]) == "/" + a + "";
  }

  lemma PathOfTwo(a: string, b: string)
    ensures PathOf([a, b]) == "/" + a + "/" + b
  {
    assert [a, b][1..] == [b];
    PathOfOne(b);
    assert PathOf([a, b]) == "/" + a + ("/" + b);
  }

  lemma PathOfThree(a: string, b: string, c: string)
    ensures PathOf([a, b, c]) == "/" + a + "/" + b + "/" + c
  {
    assert [a, b, c][1..] == [b, c];
    PathOfTwo(b, c);
    assert PathOf([a, b, c]) == "/" + a + ("/" + b + "/" + c);
  }

  /** The endpoint paths exactly as the template strings of the source spell them. */
  function TemplatePath(e: Endpoint): string {
    match e
    case Login(_, _) => "/auth/login"
    case PaymentById(id) => "/payments/" + id
    case PaymentsByApplication(applicationId, _) => "/payments/application/" + applicationId
    case PaymentsBySubscription(subscriptionId) => "/payments/subscription/" + subscriptionId
    case SubscriptionById(id) => "/subscriptions/" + id
    case SubscriptionsByApplication(applicationId, _) => "/subscriptions/application/" + applicationId
    case SubscriptionsByCustomer(customerId) => "/subscriptions/customer/" + customerId
    case CancelSubscription(id) => "/subscriptions/" + id + "/cancel"
    case SuspendSubscription(id) => "/subscriptions/" + id + "/suspend"
    case RenewalsDue => "/subscriptions/renewals/due"
    case CreateApplication(_) => "/applications"
    case AllApplications => "/applications"
    case ApplicationById(id) => "/applications/" + id
  }

  lemma PaymentPathsAreTemplates(e: Endpoint)
    requires e.PaymentById? || e.PaymentsByApplication? || e.PaymentsBySubscription?
    ensures PathOf(Segments(e)) == TemplatePath(e)
  {
    match e
    case PaymentById(id) =>
      PathOfTwo("payments", id);
      assert "/" + "payments" + "/" == "/payments/";
    case PaymentsByApplication(x, _) =>
      PathOfThree("payments", "application", x);
      assert "/" + "payments" + "/" + "application" + "/" == "/payments/application/";
    case PaymentsBySubscription(x) =>
      PathOfThree("payments", "subscription", x);
      assert "/" + "payments" + "/" + "subscription" + "/" == "/payments/subscription/";
  }

  lemma SubscriptionPathsAreTemplates(e: Endpoint)
    requires e.SubscriptionById? || e.SubscriptionsByApplication? || e.SubscriptionsByCustomer?
    ensures PathOf(Segments(e)) == TemplatePath(e)
  {
    match e
    case SubscriptionById(id) =>
      PathOfTwo("subscriptions", id);
      assert "/" + "subscriptions" + "/" == "/subscriptions/";
    case SubscriptionsByApplication(x, _) =>
      PathOfThree("subscriptions", "application", x);
      assert "/" + "subscriptions" + "/" + "application" + "/" == "/subscriptions/application/";
    case SubscriptionsByCustomer(x) =>
      PathOfThree("subscriptions", "customer", x);
      assert "/" + "subscriptions" + "/" + "customer" + "/" == "/subscriptions/customer/";
  }

  lemma ActionPathsAreTemplates(e: Endpoint)
    requires e.CancelSubscription? || e.SuspendSubscription? || e.RenewalsDue?
    ensures PathOf(Segments(e)) == TemplatePath(e)
  {
    match e
    case CancelSubscription(id) =>
      PathOfThree("subscriptions", id, "cancel");
      assert "/" + "subscriptions" + "/" == "/subscriptions/";
    case SuspendSubscription(id) =>
      PathOfThree("subscriptions", id, "suspend");
      assert "/" + "subscriptions" + "/" == "/subscriptions/";
    case RenewalsDue =>
      PathOfThree("subscriptions", "renewals", "due");
      assert "/" + "subscriptions" + "/" + "renewals" + "/" + "due" == "/subscriptions/renewals/due";
  }

  lemma OtherPathsAreTemplates(e: Endpoint)
    requires e.Login? || e.CreateApplication? || e.AllApplications? || e.ApplicationById?
    ensures PathOf(Segments(e)) == TemplatePath(e)
  {
    match e
    case Login(_, _) =>
      PathOfTwo("auth", "login");
      assert "/" + "auth" + "/" + "login" == "/auth/login";
    case CreateApplication(_) => PathOfOne("applications");
    case AllApplications => PathOfOne("applications");
    case ApplicationById(id) =>
      PathOfTwo("applications", id);
      assert "/" + "applications" + "/" == "/applications/";
  }

  /** The path every endpoint method requests is the source's template string. */
  lemma PathIsTemplate(e: Endpoint)
    ensures RequestFor(e).path == TemplatePath(e)
  {
    if e.PaymentById? || e.PaymentsByApplication? || e.PaymentsBySubscription? {
      PaymentPathsAreTemplates(e);
    } else if e.SubscriptionById? || e.SubscriptionsByApplication? || e.SubscriptionsByCustomer? {
      SubscriptionPathsAreTemplates(e);
    } else if e.CancelSubscription? || e.SuspendSubscription? || e.RenewalsDue? {
      ActionPathsAreTemplates(e);
    } else {
      OtherPathsAreTemplates(e);
    }
  }

  /** No identifier argument contains a `/` (the backend's ids are UUIDs). */
  predicate IdsSlashFree(e: Endpoint) {
    match e
    case PaymentById(id) => SlashFree(id)
    case PaymentsByApplication(applicationId, _) => SlashFree(applicationId)
    case PaymentsBySubscription(subscriptionId) => SlashFree(subscriptionId)
    case SubscriptionById(id) => SlashFree(id)
    case SubscriptionsByApplication(applicationId, _) => SlashFree(applicationId)
    case SubscriptionsByCustomer(customerId) => SlashFree(customerId)
    case CancelSubscription(id) => SlashFree(id)
    case SuspendSubscription(id) => SlashFree(id)
    case ApplicationById(id) => SlashFree(id)
    case _ => true
  }

  /** A status that sends no parameter is the same call as no status at all. */
  function Normalized(e: Endpoint): Endpoint {
    match e
    case PaymentsByApplication(applicationId, status) =>
      PaymentsByApplication(applicationId, if Truthy(status) then status else None)
    case SubscriptionsByApplication(applicationId, status) =>
      SubscriptionsByApplication(applicationId, if Truthy(status) then status else None)
    case _ => e
  }

  lemma SegmentsSlashFree(e: Endpoint)
    requires IdsSlashFree(e)
    ensures forall k :: 0 <= k < |Segments(e)| ==> SlashFree(Segments(e)[k])
  {
  }

  /** No two endpoint calls share a request: the request an endpoint method
      issues determines the method and its arguments (up to a status that
      sends no parameter), as long as the identifiers hold no `/`. */
  lemma RequestIdentifiesEndpoint(e1: Endpoint, e2: Endpoint)
    requires IdsSlashFree(e1) && IdsSlashFree(e2)
    requires RequestFor(e1) == RequestFor(e2)
    ensures Normalized(e1) == Normalized(e2)
  {
    SegmentsSlashFree(e1);
    SegmentsSlashFree(e2);
    PathInjective(Segments(e1), Segments(e2));
  }

  class Client {
    /** The page's `localStorage`. */
    const store: LocalStorage
    /** `typeof window !== "undefined"`: false while rendering on the server. */
    const inBrowser: bool
    var token: Option<string>
    var baseURL: string

    /** In the browser, the storage mirrors the token field. */
    ghost predicate InSync()
      reads this, store
    {
      inBrowser ==> store.GetItem(TokenKey) == token
    }

    /** `!!this.token`. */
    predicate IsAuthenticated()
      reads this
    {
      Truthy(token)
    }

    /** `new ApiClient()`: loads the persisted token, then applies the
        outcome of the config fetch. */
    constructor (store: LocalStorage, inBrowser: bool, config: Result<ConfigResponse>)
      ensures this.store == store && this.inBrowser == inBrowser
      ensures token == (if inBrowser then store.GetItem(TokenKey) else None)
      ensures baseURL == (if inBrowser && config.Ok? then config.value.apiBaseUrl else DefaultBaseUrl)
      ensures InSync()
    {
      this.store := store;
      this.inBrowser := inBrowser;
      token := None;
      baseURL := DefaultBaseUrl;
      new;
      LoadToken();
      InitializeConfig(config);
    }

    method LoadToken()
      modifies this`token
      ensures token == (if inBrowser then store.GetItem(TokenKey) else old(token))
    {
      if inBrowser {
        token := store.GetItem(TokenKey);
      }
    }

    /** The base URL follows the config response when it arrives, and keeps
        its previous value when the fetch fails. */
    method InitializeConfig(config: Result<ConfigResponse>)
      modifies this`baseURL
      ensures baseURL == (if inBrowser && config.Ok? then config.value.apiBaseUrl else old(baseURL))
    {
      if inBrowser {
        match config
        case Ok(body) => baseURL := body.apiBaseUrl;
        case Err(_) =>
      }
    }

    /** The request interceptor: reads the token field at the time of the
        request and edits the config's headers in place. */
    method Intercept(config: RequestConfig) returns (r: RequestConfig)
      modifies config
      ensures r == config && config.headers == WithBearer(old(config.headers), token)
    {
      if IsAuthenticated() {
        config.headers := config.headers[Authorization := Bearer(token.value)];
      }
      r := config;
    }

    /** Posts the credentials; only a resolved post stores the token, in
        the field and (in the browser) in storage. A rejection propagates
        unchanged and leaves both as they were. */
    method Login(username: string, password: string, response: Result<LoginResponse>)
      returns (sent: Request, outcome: Result<()>)
      modifies this`token, store
      ensures sent == RequestFor(Endpoint.Login(username, password))
      ensures response.Err? ==> outcome == Err(response.error) && token == old(token) && store.items == old(store.items)
      ensures response.Ok? ==> outcome == Ok(()) && token == Some(response.value.access_token)
      ensures response.Ok? ==> store.items == if inBrowser then old(store.items)[TokenKey := response.value.access_token] else old(store.items)
      ensures response.Ok? ==> InSync() && (IsAuthenticated() <==> response.value.access_token != "")
    {
      sent := RequestFor(Endpoint.Login(username, password));
      match response
      case Err(e) =>
        outcome := Err(e);
      case Ok(body) =>
        token := Some(body.access_token);
        if inBrowser {
          store.SetItem(TokenKey, body.access_token);
        }
        outcome := Ok(());
    }

    /** Drops the token from the field and from storage and touches no other
        key; when there is nothing left to drop it changes nothing. */
    method Logout()
      modifies this`token, store
      ensures token == None && !IsAuthenticated() && InSync()
      ensures store.items == if inBrowser then old(store.items) - {TokenKey} else old(store.items)
      ensures old(token) == None && TokenKey !in old(store.items) ==> store.items == old(store.items)
    {
      token := None;
      if inBrowser {
        store.RemoveItem(TokenKey);
      }
    }
  }
}
