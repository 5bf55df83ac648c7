/** Translation of a rule's `auth` mapping into arguments of the delivery
    request: HTTP basic credentials, an `Authorization` header, or nothing. */
module Authentication {
  import opened Wrappers
  import opened Rules

  /** `m.get(key, '')`. */
  function Get(m: map<string, string>, key: string): string
  {
    if key in m then m[key] else ""
  }

  datatype BasicCredentials = BasicCredentials(username: string, password: string)

  /** The extra keyword arguments of `requests.post`: either empty or holding
      only `auth`, the basic-auth pair. */
  datatype RequestArgs = RequestArgs(auth: Option<BasicCredentials>)

  /** The value of an `Authorization` header: the scheme, one space, the credentials. */
  function AuthorizationValue(scheme: string, credentials: string): string
  {
    scheme + " " + credentials
  }

  /** Splits a header value at its first space into scheme and credentials
      (the reading a receiver gives to `scheme SP credentials`). */
  function SplitAuthorization(value: string): (string, string)
  {
    if value == [] then ([], [])
    else if value[0] == ' ' then ([], value[1..])
    else
      var rest := SplitAuthorization(value[1..]);
      ([value[0]] + rest.0, rest.1)
  }

  /** The header built for header-type auth gives back its scheme and its
      credentials whenever the scheme itself holds no space. */
  lemma {:induction false} AuthorizationValueParses(scheme: string, credentials: string)
    requires ' ' !in scheme
    ensures SplitAuthorization(AuthorizationValue(scheme, credentials)) == (scheme, credentials)
  {
    var v := AuthorizationValue(scheme, credentials);
    if scheme != [] {
      assert v[0] == scheme[0] && v[1..] == AuthorizationValue(scheme[1..], credentials);
      AuthorizationValueParses(scheme[1..], credentials);
      assert [scheme[0]] + scheme[1..] == scheme;
    }
  }

  /** The keyword arguments for a rule's auth: the basic pair, defaulting
      missing fields to the empty string, exactly when the type is `basic`. */
  function AuthArgs(auth: Auth): (args: RequestArgs)
    ensures args.auth.Some? <==> auth.kind == Some("basic")
    ensures args.auth.Some? ==>
      args.auth.value.username == (if "username" in auth.basic then auth.basic["username"] else "")
      && args.auth.value.password == (if "password" in auth.basic then auth.basic["password"] else "")
  {
    if auth.kind == Some("basic") then
      RequestArgs(Some(BasicCredentials(Get(auth.basic, "username"), Get(auth.basic, "password"))))
    else
      RequestArgs(None)
  }

  /** The headers after the rule's auth is applied to them: for header-type
      auth an `Authorization` entry is set, every other entry is kept; for any
      other type nothing changes. */
  function AuthHeaders(auth: Auth, headers: map<string, string>): (h: map<string, string>)
    ensures h.Keys == if auth.kind == Some("header") then headers.Keys + {"Authorization"} else headers.Keys
    ensures forall k :: k in headers && k != "Authorization" ==> h[k] == headers[k]
    ensures auth.kind == Some("header") ==>
      h["Authorization"] == AuthorizationValue(Get(auth.header, "type"), Get(auth.header, "credentials"))
    ensures auth.kind != Some("header") ==> h == headers
  {
    if auth.kind == Some("header") then
      headers["Authorization" := AuthorizationValue(Get(auth.header, "type"), Get(auth.header, "credentials"))]
    else
      headers
  }

  /** A mutable header dictionary, shared between the delivery step and the
      auth translation. */
  class Headers {
    var entries: map<string, string>

    constructor (entries: map<string, string>)
      ensures this.entries == entries
    {
      this.entries := entries;
    }
  }

  /** Converts the rule's auth into `requests` arguments, writing an
      `Authorization` header into the caller's dictionary for header auth. */
  method EventAuthToRequests(rule: Rule, headers: Headers) returns (args: RequestArgs)
    modifies headers
    ensures headers.entries == AuthHeaders(rule.auth, old(headers.entries))
    ensures args == AuthArgs(rule.auth)
  {
    args := RequestArgs(None);
    if rule.auth.kind == Some("basic") {
      var basic := rule.auth.basic;
      args := RequestArgs(Some(BasicCredentials(Get(basic, "username"), Get(basic, "password"))));
    } else if rule.auth.kind == Some("header") {
      var header := rule.auth.header;
      headers.entries := headers.entries["Authorization" := AuthorizationValue(Get(header, "type"), Get(header, "credentials"))];
    }
  }
}
