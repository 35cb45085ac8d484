/**
 * The HTTP client of the front end: its configuration, the two interceptors
 * every call passes through (bearer token out, forced logout on 401 in), the
 * three authentication calls, and the work-log upload that builds a multipart
 * body. The `authToken` entry of browser storage is a field of the client; the
 * network is an outcome handed to each call.
 */
module ApiService {
  import opened Js
  import Decimal

  /** The browser-storage key of the bearer token. */
  const AuthTokenKey := "authToken"

  const DefaultBaseUrl := "http://localhost:8000"
  const DefaultTimeout := 10000

  type Headers = map<string, string>

  const JsonHeaders: Headers := map["Content-Type" := "application/json"]
  const MultipartHeaders: Headers := map["Content-Type" := "multipart/form-data"]

  /** `API_BASE_URL`: the environment value when non-empty, otherwise the local default. */
  function BaseUrl(env: Option<string>): (url: string)
    ensures url != ""
    ensures env.Some? && env.value != "" ==> url == env.value
    ensures env.None? || env.value == "" ==> url == DefaultBaseUrl
  {
    if env.Some? && env.value != "" then env.value else DefaultBaseUrl
  }

  /**
   * `API_TIMEOUT`: `parseInt` of the environment value (an unset variable reads
   * as the text "undefined"), with `NaN` and `0` both replaced by 10000.
   */
  function ApiTimeout(env: Option<string>): (t: int)
    ensures t != 0
    ensures t == DefaultTimeout || Decimal.ParseInt(if env.Some? then env.value else "undefined") == Some(t)
    ensures var p := Decimal.ParseInt(if env.Some? then env.value else "undefined");
      (p.Some? && p.value != 0 ==> t == p.value) && (p.None? || p == Some(0) ==> t == DefaultTimeout)
  {
    var parsed := Decimal.ParseInt(if env.Some? then env.value else "undefined");
    if parsed.None? || parsed.value == 0 then DefaultTimeout else parsed.value
  }

  /** A positive timeout written in decimal is taken as is. */
  lemma ApiTimeoutOfNumeral(n: nat)
    requires n > 0
    ensures ApiTimeout(Some(Decimal.ToDecimal(n))) == n
  {
    Decimal.ParseIntOfDecimal(n);
  }

  /** An unset variable is read as the text "undefined", which is `NaN`, so the default applies. */
  lemma ApiTimeoutUnset()
    ensures ApiTimeout(None) == DefaultTimeout
  {
    assert !IsWhitespace('u') && !IsDigit('u');
    Decimal.ParseIntNaN("undefined");
  }

  /** A zero or empty setting falls back to 10000 as well. */
  lemma ApiTimeoutZeroOrEmpty()
    ensures ApiTimeout(Some("0")) == DefaultTimeout
    ensures ApiTimeout(Some("")) == DefaultTimeout
  {
    Decimal.ParseIntOfDecimal(0);
    assert Decimal.ToDecimal(0) == "0";
    Decimal.ParseIntNaN("");
  }

  // ---------------------------------------------------------------- Requests and responses

  datatype Body = NoBody | JsonBody(json: JsObject) | FormBody(entries: seq<(string, string)>)

  /** A request as it leaves the client, after the request interceptor. */
  datatype Request = Request(verb: string, url: string, headers: Headers, body: Body)

  /** What the network gives back: a response with a status and a JSON body, or no response at all. */
  datatype HttpOutcome = Reply(status: int, data: JsObject) | NoReply

  /** How a call's promise settles. */
  datatype Outcome<T> = Resolved(value: T) | Rejected(error: HttpOutcome)

  /** The client resolves 2xx responses and rejects everything else. */
  predicate Succeeded(o: HttpOutcome)
  {
    o.Reply? && 200 <= o.status < 300
  }

  predicate Unauthorized(o: HttpOutcome)
  {
    o.Reply? && o.status == 401
  }

  function Settle(o: HttpOutcome): (r: Outcome<JsObject>)
    ensures r.Resolved? <==> Succeeded(o)
    ensures r.Resolved? ==> r.value == o.data
    ensures r.Rejected? ==> r.error == o
  {
    if Succeeded(o) then Resolved(o.data) else Rejected(o)
  }

  predicate HasToken(storage: map<string, string>)
  {
    AuthTokenKey in storage && storage[AuthTokenKey] != ""
  }

  /**
   * The request interceptor: `Authorization: Bearer <token>` is set exactly when
   * the stored token is present and non-empty; no other header is touched.
   */
  function WithAuth(storage: map<string, string>, headers: Headers): (h: Headers)
    ensures HasToken(storage) ==> "Authorization" in h && h["Authorization"] == "Bearer " + storage[AuthTokenKey]
    ensures !HasToken(storage) ==> h == headers
    ensures forall k :: k != "Authorization" ==> (k in h <==> k in headers)
    ensures forall k :: k != "Authorization" && k in h ==> h[k] == headers[k]
  {
    if HasToken(storage) then headers["Authorization" := "Bearer " + storage[AuthTokenKey]] else headers
  }

  /** The response interceptor's effect on storage: a 401 removes the token, anything else leaves it. */
  function AfterResponse(storage: map<string, string>, o: HttpOutcome): (s: map<string, string>)
    ensures Unauthorized(o) ==> AuthTokenKey !in s && forall k :: k != AuthTokenKey ==> (k in s <==> k in storage)
    ensures !Unauthorized(o) ==> s == storage
    ensures forall k :: k in s ==> k in storage && s[k] == storage[k]
  {
    if Unauthorized(o) then storage - {AuthTokenKey} else storage
  }

  /** The token a login response carries, if `response.data.token` is truthy. */
  function LoginToken(data: JsObject): Option<string>
  {
    if Truthy(Get(data, "token")) then Some(Get(data, "token").s) else None
  }

  // ---------------------------------------------------------------- Work-log upload

  /** The multipart entries `submitLog` appends: the fields whose value is neither null nor undefined, in order. */
  function PresentFields(fields: seq<(string, JsValue)>): seq<(string, string)>
    decreases |fields|
  {
    if fields == [] then []
    else if fields[0].1.Str? then [(fields[0].0, fields[0].1.s)] + PresentFields(fields[1..])
    else PresentFields(fields[1..])
  }

  /** Filtering distributes over concatenation, so the upload keeps the fields' relative order. */
  lemma {:induction false} PresentFieldsAppend(a: seq<(string, JsValue)>, b: seq<(string, JsValue)>)
    ensures PresentFields(a + b) == PresentFields(a) + PresentFields(b)
    decreases |a|
  {
    if a == [] {
      assert a + b == b;
    } else {
      var ab := a + b;
      assert ab[0] == a[0] && ab[1..] == a[1..] + b;
      PresentFieldsAppend(a[1..], b);
      if a[0].1.Str? {
        var head := [(a[0].0, a[0].1.s)];
        assert PresentFields(ab) == head + (PresentFields(a[1..]) + PresentFields(b));
        assert PresentFields(a) == head + PresentFields(a[1..]);
      } else {
        assert PresentFields(ab) == PresentFields(a[1..]) + PresentFields(b);
        assert PresentFields(a) == PresentFields(a[1..]);
      }
    }
  }

  /** A pair is uploaded exactly when the object holds that key with that string value. */
  lemma {:induction false} PresentFieldsMembership(fields: seq<(string, JsValue)>, key: string, value: string)
    ensures (key, value) in PresentFields(fields) <==> (key, Str(value)) in fields
    decreases |fields|
  {
    if fields != [] {
      PresentFieldsMembership(fields[1..], key, value);
      assert fields == [fields[0]] + fields[1..];
    }
  }

  /** `new FormData()` filled by the `forEach` loop of `submitLog`. */
  method BuildFormData(fields: seq<(string, JsValue)>) returns (entries: seq<(string, string)>)
    ensures entries == PresentFields(fields)
  {
    entries := [];
    var i := 0;
    while i < |fields|
      invariant 0 <= i <= |fields|
      invariant entries == PresentFields(fields[..i])
    {
      var (key, value) := fields[i];
      if value != Null && value != Undefined {
        entries := entries + [(key, value.s)];
      }
      PresentFieldsAppend(fields[..i], [fields[i]]);
      assert fields[..i + 1] == fields[..i] + [fields[i]];
      i := i + 1;
    }
    assert fields[..|fields|] == fields;
  }

  // ---------------------------------------------------------------- The client

  class ApiClient {
    /** `window.localStorage`. */
    var storage: map<string, string>
    /** Where `window.location.href` was last sent by the client, if anywhere. */
    var redirectedTo: Option<string>
    /** Every request sent, in order, as the request interceptor left it. */
    var sent: seq<Request>

    constructor(storage0: map<string, string>)
      ensures storage == storage0 && redirectedTo.None? && sent == []
    {
      storage := storage0;
      redirectedTo := None;
      sent := [];
    }

    /** One call through both interceptors; a 401 also sends the page to `/login`, and the error is still rejected. */
    method Send(verb: string, url: string, headers: Headers, body: Body, outcome: HttpOutcome) returns (r: Outcome<JsObject>)
      modifies this
      ensures sent == old(sent) + [Request(verb, url, WithAuth(old(storage), headers), body)]
      ensures r == Settle(outcome)
      ensures storage == AfterResponse(old(storage), outcome)
      ensures redirectedTo == if Unauthorized(outcome) then Some("/login") else old(redirectedTo)
    {
      sent := sent + [Request(verb, url, WithAuth(storage, headers), body)];
      if Succeeded(outcome) {
        r := Resolved(outcome.data);
      } else {
        if outcome.Reply? && outcome.status == 401 {
          storage := storage - {AuthTokenKey};
          redirectedTo := Some("/login");
        }
        r := Rejected(outcome);
      }
    }

    /**
     * `authAPI.login`: posts the credentials and stores `data.token` when it is
     * truthy; a response carrying only `access_token` stores nothing. A rejected
     * post writes nothing itself (the 401 interceptor may already have cleared).
     */
    method Login(credentials: JsObject, outcome: HttpOutcome) returns (r: Outcome<JsObject>)
      modifies this
      ensures sent == old(sent) + [Request("POST", "/auth/login", WithAuth(old(storage), JsonHeaders), JsonBody(credentials))]
      ensures r == Settle(outcome)
      ensures storage ==
        if Succeeded(outcome) && LoginToken(outcome.data).Some? then old(storage)[AuthTokenKey := LoginToken(outcome.data).value]
        else AfterResponse(old(storage), outcome)
      ensures redirectedTo == if Unauthorized(outcome) then Some("/login") else old(redirectedTo)
    {
      r := Send("POST", "/auth/login", JsonHeaders, JsonBody(credentials), outcome);
      if r.Resolved? && Truthy(Get(r.value, "token")) {
        storage := storage[AuthTokenKey := Get(r.value, "token").s];
      }
    }

    /** `authAPI.logout`: posts, and removes the token in a `finally`, whether or not the post succeeded. */
    method Logout(outcome: HttpOutcome) returns (r: Outcome<()>)
      modifies this
      ensures sent == old(sent) + [Request("POST", "/auth/logout", WithAuth(old(storage), JsonHeaders), NoBody)]
      ensures r == if Succeeded(outcome) then Resolved(()) else Rejected(outcome)
      ensures storage == old(storage) - {AuthTokenKey}
      ensures redirectedTo == if Unauthorized(outcome) then Some("/login") else old(redirectedTo)
    {
      var posted := Send("POST", "/auth/logout", JsonHeaders, NoBody, outcome);
      storage := storage - {AuthTokenKey};
      r := if posted.Resolved? then Resolved(()) else Rejected(posted.error);
    }

    /** `authAPI.register`: posts the payload; it writes no storage of its own. */
    method Register(payload: JsObject, outcome: HttpOutcome) returns (r: Outcome<JsObject>)
      modifies this
      ensures sent == old(sent) + [Request("POST", "/auth/register", WithAuth(old(storage), JsonHeaders), JsonBody(payload))]
      ensures r == Settle(outcome)
      ensures storage == AfterResponse(old(storage), outcome)
      ensures redirectedTo == if Unauthorized(outcome) then Some("/login") else old(redirectedTo)
    {
      r := Send("POST", "/auth/register", JsonHeaders, JsonBody(payload), outcome);
    }

    /** `workLogAPI.submitLog`: a multipart post of the fields that are set. */
    method SubmitLog(logData: seq<(string, JsValue)>, outcome: HttpOutcome) returns (r: Outcome<JsObject>)
      modifies this
      ensures sent == old(sent) +
        [Request("POST", "/work-logs", WithAuth(old(storage), MultipartHeaders), FormBody(PresentFields(logData)))]
      ensures r == Settle(outcome)
      ensures storage == AfterResponse(old(storage), outcome)
      ensures redirectedTo == if Unauthorized(outcome) then Some("/login") else old(redirectedTo)
    {
      var entries := BuildFormData(logData);
      r := Send("POST", "/work-logs", MultipartHeaders, FormBody(entries), outcome);
    }
  }

  // ---------------------------------------------------------------- Token lifecycle across calls

  /**
   * A login followed by any request: the request carries the new token when
   * the login response had a truthy `token`, and otherwise whatever the
   * storage held before (nothing, from a fresh browser).
   */
  method LoginThenRequest(storage0: map<string, string>, credentials: JsObject, loginData: JsObject, headers: Headers)
    returns (sentHeaders: Headers)
    ensures LoginToken(loginData).Some? ==> sentHeaders == headers["Authorization" := "Bearer " + LoginToken(loginData).value]
    ensures LoginToken(loginData).None? ==> sentHeaders == WithAuth(storage0, headers)
  {
    var api := new ApiClient(storage0);
    var _ := api.Login(credentials, Reply(200, loginData));
    var _ := api.Send("GET", "/employees", headers, NoBody, Reply(200, map[]));
    sentHeaders := api.sent[1].headers;
  }

  /** After a logout, succeeded or not, the next request carries no bearer header added by the client. */
  method LogoutThenRequest(storage0: map<string, string>, logoutOutcome: HttpOutcome, headers: Headers)
    returns (sentHeaders: Headers)
    ensures sentHeaders == headers
  {
    var api := new ApiClient(storage0);
    var _ := api.Logout(logoutOutcome);
    var _ := api.Send("GET", "/employees", headers, NoBody, Reply(200, map[]));
    sentHeaders := api.sent[1].headers;
  }

  /** After any call answered with 401, the next request carries no bearer header added by the client. */
  method UnauthorizedThenRequest(storage0: map<string, string>, data: JsObject, headers: Headers)
    returns (sentHeaders: Headers, location: Option<string>)
    ensures sentHeaders == headers
    ensures location == Some("/login")
  {
    var api := new ApiClient(storage0);
    var _ := api.Send("GET", "/work-logs", JsonHeaders, NoBody, Reply(401, data));
    var _ := api.Send("GET", "/employees", headers, NoBody, Reply(200, map[]));
    sentHeaders := api.sent[1].headers;
    location := api.redirectedTo;
  }
}
