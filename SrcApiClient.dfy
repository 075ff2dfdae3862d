/** The API client of the Vite variant (src/lib/api-client.ts): one axios
    instance created at load with a base URL and a JSON content type, whose
    request interceptor re-reads `auth_token` from `localStorage` on every
    request, and endpoint tables whose URLs are template strings with the
    optional status appended as a query. */
module SrcApiClient {
  import opened Common
  import opened Text
  import opened Http
  import opened Storage
  import ApiClient

  const AuthTokenKey := "auth_token"
  const FallbackBaseUrl := "http://localhost:3001"
  const ContentType := "Content-Type"

  /** The headers the instance is created with. */
  const DefaultHeaders: Headers := map[ContentType := "application/json"]

  /** `import.meta.env.VITE_API_URL || 'http://localhost:3001'`: an unset or
      empty variable falls back. */
  function BaseUrl(env: Option<string>): (u: string)
    ensures Truthy(env) ==> u == env.value
    ensures !Truthy(env) ==> u == FallbackBaseUrl
    ensures u != ""
  {
    if Truthy(env) then env.value else FallbackBaseUrl
  }

  /** One call per method of `paymentApi`, `subscriptionApi`,
      `applicationApi` and `authApi`. The `create` calls forward the
      caller's object, whose shape is not modelled. */
  datatype Call =
    | PaymentById(id: string)
    | CreatePayment
    | PaymentsByApplication(applicationId: string, status: Option<string>)
    | PaymentsBySubscription(subscriptionId: string)
    | SubscriptionById(id: string)
    | CreateSubscription
    | SubscriptionsByApplication(applicationId: string, status: Option<string>)
    | SubscriptionsByCustomer(customerId: string)
    | Cancel(id: string)
    | Suspend(id: string)
    | DueForRenewal
    | AllApplications
    | ApplicationById(id: string)
    | CreateApplication
    | Login(username: string, password: string)

  /** `${status ? `?status=${status}` : ''}`. */
  function StatusQuery(status: Option<string>): string {
    if Truthy(status) then "?status=" + status.value else ""
  }

  /** The URL string each call passes to axios. */
  function UrlOf(c: Call): string {
    match c
    case PaymentById(id) => "/payments/" + id
    case CreatePayment => "/payments"
    case PaymentsByApplication(applicationId, status) => "/payments/application/" + applicationId + StatusQuery(status)
    case PaymentsBySubscription(subscriptionId) => "/payments/subscription/" + subscriptionId
    case SubscriptionById(id) => "/subscriptions/" + id
    case CreateSubscription => "/subscriptions"
    case SubscriptionsByApplication(applicationId, status) => "/subscriptions/application/" + applicationId + StatusQuery(status)
    case SubscriptionsByCustomer(customerId) => "/subscriptions/customer/" + customerId
    case Cancel(id) => "/subscriptions/" + id + "/cancel"
    case Suspend(id) => "/subscriptions/" + id + "/suspend"
    case DueForRenewal => "/subscriptions/renewals/due"
    case AllApplications => "/applications"
    case ApplicationById(id) => "/applications/" + id
    case CreateApplication => "/applications"
    case Login(_, _) => "/auth/login"
  }

  function VerbOf(c: Call): Verb {
    match c
    case CreatePayment => Post
    case CreateSubscription => Post
    case CreateApplication => Post
    case Login(_, _) => Post
    case Cancel(_) => Put
    case Suspend(_) => Put
    case _ => Get
  }

  /** The request each call issues: the query, if any, is part of the URL
      and axios gets no separate parameters. Only cancel and suspend are PUT
      requests; only the create calls and login send a body. */
  function RequestOf(c: Call): (r: Request)
    ensures r.path == UrlOf(c) && r.params == map[]
    ensures r.verb == Put <==> (c.Cancel? || c.Suspend?)
    ensures r.verb == Get <==> !(c.Cancel? || c.Suspend? || c.CreatePayment? || c.CreateSubscription? || c.CreateApplication? || c.Login?)
    ensures r.body != NoBody <==> (c.CreatePayment? || c.CreateSubscription? || c.CreateApplication? || c.Login?)
  {
    var body := match c
      case Login(username, password) => LoginBody(username, password)
      case CreatePayment => Forwarded
      case CreateSubscription => Forwarded
      case CreateApplication => Forwarded
      case _ => NoBody;
    Request(VerbOf(c), UrlOf(c), map[], body)
  }

  predicate QueryFree(s: string) {
    forall i :: 0 <= i < |s| ==> s[i] != '?'
  }

  /** The path before the first `?` and the query after it. */
  function PathPart(u: string): string {
    u[..FirstIndexOf('?', u)]
  }

  function QueryPart(u: string): Option<string> {
    var k := FirstIndexOf('?', u);
    if k < |u| then Some(u[k + 1..]) else None
  }

  /** A base without `?` followed by the status query splits back into the
      base and the query: there is a query exactly when the status is
      truthy, and it carries the status verbatim, unencoded. */
  lemma QuerySplits(base: string, status: Option<string>)
    requires QueryFree(base)
    ensures PathPart(base + StatusQuery(status)) == base
    ensures QueryPart(base + StatusQuery(status)).Some? <==> Truthy(status)
    ensures Truthy(status) ==> QueryPart(base + StatusQuery(status)) == Some("status=" + status.value)
  {
    var q := StatusQuery(status);
    FirstIndexAfterPrefix('?', base, q);
    assert (base + q)[..|base|] == base;
    if Truthy(status) {
      assert (base + q)[|base| + 1..] == "status=" + status.value;
    }
  }

  /** The list fetches by application: the URL is the route followed by the
      status query, the route is what precedes the first `?` when the id
      holds none, and the query is `status=` followed by the status
      verbatim, present exactly when the status is a non-empty string. */
  lemma ByApplicationUrls(c: Call)
    requires c.PaymentsByApplication? || c.SubscriptionsByApplication?
    requires QueryFree(c.applicationId)
    ensures c.PaymentsByApplication? ==> PathPart(UrlOf(c)) == "/payments/application/" + c.applicationId
    ensures c.SubscriptionsByApplication? ==> PathPart(UrlOf(c)) == "/subscriptions/application/" + c.applicationId
    ensures QueryPart(UrlOf(c)).Some? <==> Truthy(c.status)
    ensures Truthy(c.status) ==> QueryPart(UrlOf(c)) == Some("status=" + c.status.value)
  {
    var route := if c.PaymentsByApplication? then "/payments/application/" + c.applicationId
                 else "/subscriptions/application/" + c.applicationId;
    assert QueryFree(route) by {
      assert route[..|route| - |c.applicationId|] == (if c.PaymentsByApplication? then "/payments/application/" else "/subscriptions/application/");
      assert route[|route| - |c.applicationId|..] == c.applicationId;
    }
    QuerySplits(route, c.status);
  }

  /** The query string axios appends for a params map holding at most a
      `status` key whose value is URL-safe (axios percent-encodes any other
      value, which is not modelled). */
  function QueryOfParams(params: map<string, string>): string {
    if "status" in params then "?status=" + params["status"] else ""
  }

  /** The two clients agree on the list fetches by application: the Vite
      variant's URL is the Next.js variant's path followed by the query its
      parameters would produce. */
  lemma VariantsAgreeOnListFetches(applicationId: string, status: Option<string>)
    ensures UrlOf(PaymentsByApplication(applicationId, status))
         == ApiClient.RequestFor(ApiClient.Endpoint.PaymentsByApplication(applicationId, status)).path
          + QueryOfParams(ApiClient.RequestFor(ApiClient.Endpoint.PaymentsByApplication(applicationId, status)).params)
    ensures UrlOf(SubscriptionsByApplication(applicationId, status))
         == ApiClient.RequestFor(ApiClient.Endpoint.SubscriptionsByApplication(applicationId, status)).path
          + QueryOfParams(ApiClient.RequestFor(ApiClient.Endpoint.SubscriptionsByApplication(applicationId, status)).params)
  {
    ApiClient.PathIsTemplate(ApiClient.Endpoint.PaymentsByApplication(applicationId, status));
    ApiClient.PathIsTemplate(ApiClient.Endpoint.SubscriptionsByApplication(applicationId, status));
  }

  /** The axios instance. Its base URL and default headers are fixed at
      creation; the token is never cached, only read from storage. */
  class Instance {
    const store: LocalStorage
    const baseURL: string
    const headers: Headers

    constructor (store: LocalStorage, env: Option<string>)
      ensures this.store == store && baseURL == BaseUrl(env) && headers == DefaultHeaders
    {
      this.store := store;
      baseURL := BaseUrl(env);
      headers := DefaultHeaders;
    }

    /** The request interceptor: the token is whatever storage holds under
        `auth_token` at this moment. */
    method Intercept(config: RequestConfig) returns (r: RequestConfig)
      modifies config
      ensures r == config && config.headers == WithBearer(old(config.headers), store.GetItem(AuthTokenKey))
    {
      var token := store.GetItem(AuthTokenKey);
      if token.Some? && token.value != "" {
        config.headers := config.headers[Authorization := Bearer(token.value)];
      }
      r := config;
    }

    /** Issues a call: a fresh config with the instance's headers, passed
        through the interceptor. The content type always survives, and the
        bearer header is present exactly when storage holds a non-empty
        token right now. */
    method Send(c: Call) returns (config: RequestConfig)
      ensures fresh(config) && config.request == RequestOf(c)
      ensures config.headers == WithBearer(headers, store.GetItem(AuthTokenKey))
      ensures headers == DefaultHeaders ==> ContentType in config.headers && config.headers[ContentType] == "application/json"
      ensures Authorization !in headers ==> (Authorization in config.headers <==> Truthy(store.GetItem(AuthTokenKey)))
    {
      config := new RequestConfig(RequestOf(c), headers);
      config := Intercept(config);
    }

    /** Removing the token (what the auth context's logout does) takes the
        bearer header off the very next request. */
    method SendAfterRemoval(c: Call) returns (config: RequestConfig)
      requires headers == DefaultHeaders
      modifies store
      ensures store.items == old(store.items) - {AuthTokenKey}
      ensures Authorization !in config.headers
    {
      store.RemoveItem(AuthTokenKey);
      config := Send(c);
    }
  }
}
