/** What the two API clients hand to axios: a request (verb, path relative
    to the base URL, query parameters, body), the header set an interceptor
    edits in place, and the rule both interceptors follow for the bearer
    token. */
module Http {
  import opened Common
  import opened Types
  import opened Text

  datatype Verb = Get | Post | Put

  /** The JSON body of a request; `Forwarded` is a caller's object passed on
      as it is (the src variant's `create` calls), whose shape is not modelled. */
  datatype Body = NoBody | LoginBody(username: string, password: string) | ApplicationBody(form: ApplicationForm) | Forwarded

  datatype Request = Request(verb: Verb, path: string, params: map<string, string>, body: Body)

  type Headers = map<string, string>

  const Authorization := "Authorization"

  /** The header a held token turns into. */
  function Bearer(token: string): string {
    "Bearer " + token
  }

  /** What an interceptor does to `config.headers`: a truthy token sets
      `Authorization` to its bearer form; any other token (null or empty)
      leaves the headers exactly as they were. No other header changes. */
  function WithBearer(headers: Headers, token: Option<string>): (h: Headers)
    ensures Truthy(token) ==> Authorization in h && h[Authorization] == Bearer(token.value)
    ensures !Truthy(token) ==> h == headers
    ensures forall k :: k != Authorization ==> (k in h <==> k in headers)
    ensures forall k :: k != Authorization && k in headers ==> h[k] == headers[k]
  {
    if Truthy(token) then headers[Authorization := Bearer(token.value)] else headers
  }

  /** The axios request config an interceptor receives; it edits `headers`
      in place and returns the same object. */
  class RequestConfig {
    const request: Request
    var headers: Headers

    constructor (request: Request, headers: Headers)
      ensures this.request == request && this.headers == headers
    {
      this.request := request;
      this.headers := headers;
    }
  }

  /** A path built from segments, `/s0/s1/...`, as the template strings of
      the endpoint methods build it. */
  function PathOf(segments: seq<string>): string {
    if segments == [] then "" else "/" + segments[0] + PathOf(segments[1..])
  }

  predicate SlashFree(s: string) {
    forall i :: 0 <= i < |s| ==> s[i] != '/'
  }

  /** Segments without a `/` can be read back from the path they build: two
      such segment lists that build the same path are the same list. */
  lemma {:induction false} PathInjective(a: seq<string>, b: seq<string>)
    requires forall k :: 0 <= k < |a| ==> SlashFree(a[k])
    requires forall k :: 0 <= k < |b| ==> SlashFree(b[k])
    requires PathOf(a) == PathOf(b)
    ensures a == b
    decreases |a|
  {
    if a != [] && b != [] {
      var ra, rb := PathOf(a[1..]), PathOf(b[1..]);
      assert PathOf(a)[1..] == a[0] + ra;
      assert PathOf(b)[1..] == b[0] + rb;
      FirstIndexAfterPrefix('/', a[0], ra);
      FirstIndexAfterPrefix('/', b[0], rb);
      var joined := a[0] + ra;
      assert joined == b[0] + rb;
      assert a[0] == joined[..|a[0]|] && ra == joined[|a[0]|..];
      assert b[0] == joined[..|b[0]|] && rb == joined[|b[0]|..];
      PathInjective(a[1..], b[1..]);
      assert a == [a[0]] + a[1..] && b == [b[0]] + b[1..];
    }
  }
}
