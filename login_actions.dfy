/**
 * The identifier web application's logon and consent controller: form
 * validation, the two requests to the identity endpoint, the classification of
 * its HTTP replies, the mandatory check that the reply echoes the request's
 * state token, the replacement of the session's `hello` descriptor, and the
 * navigation decision taken once a step has succeeded.
 *
 * The network is not modelled: the state token a request carries and the reply
 * the endpoint gives are inputs. Navigation is a returned value instead of a
 * call on the browser's history or location.
 */
module LoginActions {
  import opened Wrappers
  import opened Strings
  import Oidc

  /** A URL query as the application holds it: parameter name to value. */
  type Query = map<string, string>

  /** The `details` member of a hello descriptor, as far as navigation reads it. */
  datatype Details = Details(flow: Option<string>, next: Option<string>, continueUri: Option<string>)

  /** The session's hello descriptor; it is only ever replaced as a whole. */
  datatype Hello = Hello(success: Option<bool>, username: Option<string>, details: Option<Details>)

  /** The causes of a failed round trip, each ending up under the `http` key. */
  datatype HttpError =
    | LogonFailed                            // the logon endpoint answered 204
    | UnexpectedStatus(status: int)          // any status other than 200 and 204
    | UnexpectedState(state: Option<string>) // the reply did not echo the request's token
    | Transport(message: string)             // the request itself failed

  datatype ErrorValue = Text(message: string) | Http(cause: HttpError)

  /** A field-keyed error map (`username`, `password`, `http`). */
  type Errors = map<string, ErrorValue>

  /** What a logon or consent step resolves with. */
  datatype Response = Response(success: bool, state: Option<string>, errors: Option<Errors>, hello: Option<Hello>)

  /**
   * The identity endpoint's answer: an HTTP reply with its status, its JSON body
   * (read only for status 200) and its `kopano-konnect-state` header, or a
   * failure of the request itself.
   */
  datatype Reply =
    | HttpReply(status: int, body: Response, stateHeader: Option<string>)
    | NetworkFailure(message: string)

  /** The body posted to the logon endpoint; the hello request is built from the store's flow and query. */
  datatype LogonRequest = LogonRequest(params: seq<string>, helloFlow: string, helloQuery: Query, state: string)

  /** The body posted to the consent endpoint. */
  datatype ConsentRequest = ConsentRequest(
    allow: bool, scope: string, clientId: string, redirectUri: string, ref: string, flowNonce: string, state: string)

  /** The Redux actions the controller dispatches, in the order it dispatches them. */
  datatype Action =
    | RequestLogon(username: string, password: string)
    | ReceiveHello(hello: Hello)
    | ReceiveLogon(success: bool, errors: Option<Errors>)
    | ReceiveValidateLogon(fieldErrors: Errors)
    | RequestConsent(allow: bool)
    | ReceiveConsent(success: bool, errors: Option<Errors>)

  /** The navigation the flow takes after a step. */
  datatype Navigation =
    | Stay                   // nothing happens
    | Replace(path: string)  // history.replace inside the application
    | Push(path: string)     // history.push inside the application
    | External(url: string)  // window.location.replace

  /** The browser's current location, as navigation reads it. */
  datatype Location = Location(origin: string, search: string, hash: string)

  const UsernameMissing := "Enter an username"
  const PasswordMissing := "Enter a password"

  /** The error result every failed round trip is normalised to. */
  function HttpFailure(e: HttpError): (r: Response)
    ensures !r.success && r.errors.Some? && "http" in r.errors.value
  {
    Response(false, None, Some(map["http" := Http(e)]), None)
  }

  /** Status classification for the logon endpoint. */
  function ClassifyLogonReply(reply: Reply): (r: Result<Response, HttpError>)
    ensures r.Ok? <==> reply.HttpReply? && (reply.status == 200 || reply.status == 204)
    ensures reply.HttpReply? && reply.status == 200 ==> r == Ok(reply.body)
    ensures reply.HttpReply? && reply.status == 204 ==>
      r == Ok(Response(false, reply.stateHeader, Some(map["http" := Http(LogonFailed)]), None))
  {
    match reply
    case NetworkFailure(m) => Err(Transport(m))
    case HttpReply(status, body, header) =>
      if status == 200 then Ok(body)
      else if status == 204 then Ok(Response(false, header, Some(map["http" := Http(LogonFailed)]), None))
      else Err(UnexpectedStatus(status))
  }

  /** Status classification for the consent endpoint: 204 is a successful cancel reply. */
  function ClassifyConsentReply(reply: Reply): (r: Result<Response, HttpError>)
    ensures r.Ok? <==> reply.HttpReply? && (reply.status == 200 || reply.status == 204)
    ensures reply.HttpReply? && reply.status == 200 ==> r == Ok(reply.body)
    ensures reply.HttpReply? && reply.status == 204 ==> r == Ok(Response(true, reply.stateHeader, None, None))
  {
    match reply
    case NetworkFailure(m) => Err(Transport(m))
    case HttpReply(status, body, header) =>
      if status == 200 then Ok(body)
      else if status == 204 then Ok(Response(true, header, None, None))
      else Err(UnexpectedStatus(status))
  }

  /** The state guard: a reply that does not echo `token` becomes an error. */
  function CheckState(r: Result<Response, HttpError>, token: string): (c: Result<Response, HttpError>)
    ensures c.Ok? ==> c.value.state == Some(token) && r == c
    ensures r.Ok? && r.value.state == Some(token) ==> c == r
    ensures r.Ok? && r.value.state != Some(token) ==> c == Err(UnexpectedState(r.value.state))
    ensures r.Err? ==> c == r
  {
    match r
    case Err(e) => Err(e)
    case Ok(resp) => if resp.state != Some(token) then Err(UnexpectedState(resp.state)) else Ok(resp)
  }

  /** The round trip of the logon step after classification and the state guard. */
  function CheckedLogon(reply: Reply, token: string): Result<Response, HttpError>
  {
    CheckState(ClassifyLogonReply(reply), token)
  }

  function CheckedConsent(reply: Reply, token: string): Result<Response, HttpError>
  {
    CheckState(ClassifyConsentReply(reply), token)
  }

  /** What `executeLogon` resolves with. */
  function LogonOutcome(reply: Reply, token: string): (r: Response)
    ensures r.success ==> r.state == Some(token)
    ensures r.success ==> reply.HttpReply? && reply.status == 200 && r == reply.body
    ensures reply.HttpReply? && reply.status == 200 && reply.body.state == Some(token) ==> r == reply.body
    ensures reply.HttpReply? && reply.status == 204 && reply.stateHeader == Some(token) ==>
      r == Response(false, Some(token), Some(map["http" := Http(LogonFailed)]), None)
    ensures CheckedLogon(reply, token).Err? ==> r == HttpFailure(CheckedLogon(reply, token).error)
  {
    match CheckedLogon(reply, token)
    case Ok(resp) => resp
    case Err(e) => HttpFailure(e)
  }

  /** What `executeConsent` resolves with. */
  function ConsentOutcome(reply: Reply, token: string): (r: Response)
    ensures r.success ==> r.state == Some(token)
    ensures r.success ==>
      && reply.HttpReply?
      && ((reply.status == 200 && r == reply.body) || (reply.status == 204 && r == Response(true, Some(token), None, None)))
    ensures CheckedConsent(reply, token).Err? ==> r == HttpFailure(CheckedConsent(reply, token).error)
    ensures reply.HttpReply? && reply.status == 200 && reply.body.state == Some(token) ==> r == reply.body
    ensures reply.HttpReply? && reply.status == 204 && reply.stateHeader == Some(token) ==>
      r == Response(true, Some(token), None, None)
  {
    match CheckedConsent(reply, token)
    case Ok(resp) => resp
    case Err(e) => HttpFailure(e)
  }

  /** The hello descriptor logon installs first, before the request is sent. */
  function ResetHello(username: string): Hello
  {
    Hello(None, Some(username), None)
  }

  /** The hello descriptor in force once the logon step has settled. */
  function HelloAfterLogon(username: string, reply: Reply, token: string): (h: Hello)
    ensures CheckedLogon(reply, token).Err? ==> h == ResetHello(username)
    ensures CheckedLogon(reply, token).Ok? && CheckedLogon(reply, token).value.hello.Some? ==>
      h == CheckedLogon(reply, token).value.hello.value
    ensures CheckedLogon(reply, token).Ok? && CheckedLogon(reply, token).value.hello.None? ==>
      h == Hello(Some(CheckedLogon(reply, token).value.success), Some(username), None)
  {
    match CheckedLogon(reply, token)
    case Err(_) => ResetHello(username)
    case Ok(resp) =>
      if resp.hello.Some? then resp.hello.value else Hello(Some(resp.success), Some(username), None)
  }

  /** The actions the logon step dispatches after its first two. */
  function SettleLogonActions(username: string, reply: Reply, token: string): seq<Action>
  {
    match CheckedLogon(reply, token)
    case Ok(resp) => [ReceiveHello(HelloAfterLogon(username, reply, token)), ReceiveLogon(resp.success, resp.errors)]
    case Err(e) => [ReceiveValidateLogon(map["http" := Http(e)])]
  }

  /** `query.key || ''`: the parameter's value, or "" when it is missing. */
  function Param(query: Query, key: string): string
  {
    if key in query then query[key] else ""
  }

  function ConsentRequestFor(allow: bool, query: Query, token: string): (r: ConsentRequest)
    ensures r.state == token && r.allow == allow
    ensures r.scope == Param(query, "scope") && r.clientId == Param(query, "client_id")
    ensures r.redirectUri == Param(query, "redirect_uri") && r.ref == Param(query, "state")
    ensures r.flowNonce == Param(query, "nonce")
  {
    ConsentRequest(allow, Param(query, "scope"), Param(query, "client_id"), Param(query, "redirect_uri"),
                   Param(query, "state"), Param(query, "nonce"), token)
  }

  /** The three flows whose navigation is driven by the server's hello details. */
  predicate IsServerFlow(flow: string)
  {
    flow == Oidc.FlowOAuth || flow == Oidc.FlowConsent || flow == Oidc.FlowOIDC
  }

  /** JavaScript truthiness of an optional string. */
  predicate Truthy(v: Option<string>)
  {
    v.Some? && v.value != ""
  }

  /** The legacy open-redirect guard: `q.continue && q.continue.indexOf(origin) === 0`. */
  predicate LegacyContinueAllowed(q: Query, origin: string)
  {
    "continue" in q && q["continue"] != "" && StartsWith(q["continue"], origin)
  }

  /**
   * The navigation decision of `advanceLogonFlow`. In the server-driven flows the
   * source dereferences `hello.details`, so a caller must have a hello with
   * details in place there.
   */
  function AdvanceNavigation(
    success: bool, flow: string, query: Query, hello: Option<Hello>, loc: Location,
    done: bool, extraQuery: Query, stringify: Query -> string): (nav: Navigation)
    requires success && IsServerFlow(flow) ==> hello.Some? && hello.value.details.Some?
    ensures nav == Stay <==> !success
    ensures nav.Push? ==> nav.path == "/welcome"
    ensures nav.Replace? ==> nav == Replace("/consent" + loc.search + loc.hash) && !done && IsServerFlow(flow)
    ensures nav.External? && !IsServerFlow(flow) ==>
      LegacyContinueAllowed(query + extraQuery, loc.origin) && nav.url == (query + extraQuery)["continue"]
    ensures nav.External? && IsServerFlow(flow) ==>
      var d := hello.value.details.value;
      d.flow == Some(flow) && Truthy(d.continueUri) &&
      nav.url == d.continueUri.value + "?" + stringify(query + extraQuery)
    ensures success && IsServerFlow(flow) ==>
      var d := hello.value.details.value;
      && (d.flow == Some(flow) && !done && d.next == Some("consent") ==> nav == Replace("/consent" + loc.search + loc.hash))
      && (d.flow == Some(flow) && !(!done && d.next == Some("consent")) && Truthy(d.continueUri) ==>
            nav == External(d.continueUri.value + "?" + stringify(query + extraQuery)))
      && (d.flow != Some(flow) || (!(!done && d.next == Some("consent")) && !Truthy(d.continueUri)) ==>
            nav == Push("/welcome"))
    ensures success && !IsServerFlow(flow) && LegacyContinueAllowed(query + extraQuery, loc.origin) ==>
      nav == External((query + extraQuery)["continue"])
  {
    if !success then Stay
    else
      var q := query + extraQuery;
      if IsServerFlow(flow) then
        var d := hello.value.details.value;
        if d.flow != Some(flow) then Push("/welcome")
        else if !done && d.next == Some("consent") then Replace("/consent" + loc.search + loc.hash)
        else if Truthy(d.continueUri) then External(d.continueUri.value + "?" + stringify(q))
        else Push("/welcome")
      else if LegacyContinueAllowed(q, loc.origin) then External(q["continue"])
      else Push("/welcome")
  }

  /** A hello whose flow differs from the store's flow falls through to /welcome. */
  lemma MismatchedFlowFallsThrough(
    flow: string, query: Query, hello: Hello, loc: Location, done: bool, extraQuery: Query, stringify: Query -> string)
    requires IsServerFlow(flow) && hello.details.Some? && hello.details.value.flow != Some(flow)
    ensures AdvanceNavigation(true, flow, query, Some(hello), loc, done, extraQuery, stringify) == Push("/welcome")
  {
  }

  /** A pending consent step is shown before any continuation, and never by a redirect. */
  lemma ConsentComesFirst(
    flow: string, query: Query, hello: Hello, loc: Location, extraQuery: Query, stringify: Query -> string)
    requires IsServerFlow(flow) && hello.details.Some?
    requires hello.details.value.flow == Some(flow) && hello.details.value.next == Some("consent")
    ensures AdvanceNavigation(true, flow, query, Some(hello), loc, false, extraQuery, stringify)
         == Replace("/consent" + loc.search + loc.hash)
  {
  }

  /**
   * In legacy flows the application leaves for `continue` exactly when the
   * guard admits it, and otherwise goes to /welcome.
   */
  lemma LegacyRedirectIffGuard(
    flow: string, query: Query, hello: Option<Hello>, loc: Location, done: bool, extraQuery: Query,
    stringify: Query -> string)
    requires !IsServerFlow(flow)
    ensures var nav := AdvanceNavigation(true, flow, query, hello, loc, done, extraQuery, stringify);
      (nav.External? <==> LegacyContinueAllowed(query + extraQuery, loc.origin)) &&
      (!nav.External? ==> nav == Push("/welcome"))
  {
  }

  /** A continuation on another origin is refused. */
  lemma LegacyRejectsOtherOrigin(hello: Option<Hello>, stringify: Query -> string)
    ensures AdvanceNavigation(true, "", map["continue" := "https://evil.example/x"], hello,
      Location("https://app.example", "", ""), false, map[], stringify) == Push("/welcome")
  {
    assert "https://evil.example/x"[..|"https://app.example"|] != "https://app.example" by {
      assert "https://evil.example/x"[8] != "https://app.example"[8];
    }
  }

  /**
   * The guard is a string-prefix test, so a continuation whose host merely
   * begins with the application's host is admitted.
   */
  lemma LegacyPrefixAdmitsLookalikeHost(hello: Option<Hello>, stringify: Query -> string)
    ensures AdvanceNavigation(true, "", map["continue" := "https://app.example.evil.com/x"], hello,
      Location("https://app.example", "", ""), false, map[], stringify) == External("https://app.example.evil.com/x")
  {
    assert "https://app.example.evil.com/x"[..|"https://app.example"|] == "https://app.example";
  }

  /**
   * Completing consent (`done` with the reply's state under `konnect`) in a
   * matching flow with a continuation leaves for it, with the state in the query.
   */
  lemma ConsentCompletionContinues(
    flow: string, query: Query, hello: Hello, loc: Location, state: string, stringify: Query -> string)
    requires IsServerFlow(flow) && hello.details.Some?
    requires hello.details.value.flow == Some(flow) && Truthy(hello.details.value.continueUri)
    ensures var q := query + map["konnect" := state];
      q["konnect"] == state &&
      AdvanceNavigation(true, flow, query, Some(hello), loc, true, map["konnect" := state], stringify)
        == External(hello.details.value.continueUri.value + "?" + stringify(q))
  {
  }

  /** A 204 logon reply never yields success, whatever header it carries. */
  lemma Logon204Fails(reply: Reply, token: string)
    requires reply.HttpReply? && reply.status == 204
    ensures var r := LogonOutcome(reply, token);
      !r.success && r.errors.Some? && "http" in r.errors.value
  {
  }

  /** A 204 consent reply that echoes the token is a success carrying that token. */
  lemma Consent204Succeeds(reply: Reply, token: string)
    requires reply.HttpReply? && reply.status == 204 && reply.stateHeader == Some(token)
    ensures ConsentOutcome(reply, token) == Response(true, Some(token), None, None)
  {
  }

  /** A classified reply whose state differs from the token fails, for both steps. */
  lemma StateMismatchFails(reply: Reply, token: string)
    requires reply.HttpReply? && (reply.status == 200 || reply.status == 204)
    requires reply.status == 200 ==> reply.body.state != Some(token)
    requires reply.status == 204 ==> reply.stateHeader != Some(token)
    ensures var s := if reply.status == 200 then reply.body.state else reply.stateHeader;
      LogonOutcome(reply, token) == HttpFailure(UnexpectedState(s)) &&
      ConsentOutcome(reply, token) == HttpFailure(UnexpectedState(s))
  {
  }

  /** The error map `validateUsernamePassword` produces for a form. */
  function FieldErrors(username: string, password: string, isSignedIn: bool): (errors: Errors)
    ensures "username" in errors <==> username == ""
    ensures "password" in errors <==> password == "" && !isSignedIn
    ensures errors.Keys <= {"username", "password"}
    ensures "username" in errors ==> errors["username"] == Text(UsernameMissing)
    ensures "password" in errors ==> errors["password"] == Text(PasswordMissing)
  {
    var u: Errors := if username == "" then map["username" := Text(UsernameMissing)] else map[];
    if password == "" && !isSignedIn then u["password" := Text(PasswordMissing)] else u
  }

  /** `validateUsernamePassword`'s error map, filled field by field. */
  method ValidationErrors(username: string, password: string, isSignedIn: bool) returns (errors: Errors)
    ensures "username" in errors <==> username == ""
    ensures "password" in errors <==> password == "" && !isSignedIn
    ensures errors.Keys <= {"username", "password"}
    ensures errors == FieldErrors(username, password, isSignedIn)
  {
    errors := map[];
    if username == "" {
      errors := errors["username" := Text(UsernameMissing)];
    }
    if password == "" && !isSignedIn {
      errors := errors["password" := Text(PasswordMissing)];
    }
  }

  /**
   * The application store, as far as the controller reads and writes it: the
   * flow and query captured at start, the hello descriptor, the validation
   * errors, and the log of dispatched actions.
   */
  class Store {
    const flow: string
    const query: Query
    var hello: Option<Hello>
    var errors: Errors
    var dispatched: seq<Action>

    constructor (flow: string, query: Query, hello: Option<Hello>)
      ensures this.flow == flow && this.query == query && this.hello == hello
      ensures errors == map[] && dispatched == []
    {
      this.flow := flow;
      this.query := query;
      this.hello := hello;
      errors := map[];
      dispatched := [];
    }

    /** Dispatch: log the action; receiveHello replaces hello, receiveValidateLogon replaces errors. */
    method Dispatch(a: Action)
      modifies this
      ensures dispatched == old(dispatched) + [a]
      ensures hello == if a.ReceiveHello? then Some(a.hello) else old(hello)
      ensures errors == if a.ReceiveValidateLogon? then a.fieldErrors else old(errors)
    {
      dispatched := dispatched + [a];
      match a {
        case ReceiveHello(h) => hello := Some(h);
        case ReceiveValidateLogon(e) => errors := e;
        case _ =>
      }
    }

    /** `executeLogon`: reset hello, post the credentials, classify, check the state, settle. */
    method ExecuteLogon(username: string, password: string, token: string, reply: Reply)
      returns (sent: LogonRequest, result: Response)
      modifies this
      ensures sent == LogonRequest([username, password, "1"], flow, query, token)
      ensures result == LogonOutcome(reply, token)
      ensures hello == Some(HelloAfterLogon(username, reply, token))
      ensures dispatched == old(dispatched) + [RequestLogon(username, password), ReceiveHello(ResetHello(username))]
                            + SettleLogonActions(username, reply, token)
      ensures errors == if CheckedLogon(reply, token).Ok? then old(errors) else result.errors.value
    {
      Dispatch(RequestLogon(username, password));
      Dispatch(ReceiveHello(Hello(None, Some(username), None)));
      sent := LogonRequest([username, password, "1"], flow, query, token);

      var response := Response(false, None, None, None);
      var failure: Option<HttpError> := None;
      match reply {
        case NetworkFailure(m) =>
          failure := Some(Transport(m));
        case HttpReply(status, body, header) =>
          if status == 200 {
            response := body;
          } else if status == 204 {
            response := Response(false, header, Some(map["http" := Http(LogonFailed)]), None);
          } else {
            failure := Some(UnexpectedStatus(status));
          }
      }
      if failure.None? && response.state != Some(token) {
        failure := Some(UnexpectedState(response.state));
      }

      if failure.None? {
        var h := response.hello;
        if h.None? {
          h := Some(Hello(Some(response.success), Some(username), None));
        }
        Dispatch(ReceiveHello(h.value));
        Dispatch(ReceiveLogon(response.success, response.errors));
        result := response;
      } else {
        var errs := map["http" := Http(failure.value)];
        Dispatch(ReceiveValidateLogon(errs));
        result := Response(false, None, Some(errs), None);
      }
    }

    /** `executeConsent`: post the decision, classify, check the state, record the result. */
    method ExecuteConsent(allow: bool, token: string, reply: Reply) returns (sent: ConsentRequest, result: Response)
      modifies this
      ensures sent == ConsentRequestFor(allow, query, token)
      ensures result == ConsentOutcome(reply, token)
      ensures hello == old(hello)
      ensures dispatched == old(dispatched) + [RequestConsent(allow)] +
        (if CheckedConsent(reply, token).Ok? then [ReceiveConsent(result.success, result.errors)]
         else [ReceiveValidateLogon(result.errors.value)])
      ensures errors == if CheckedConsent(reply, token).Ok? then old(errors) else result.errors.value
    {
      Dispatch(RequestConsent(allow));
      sent := ConsentRequest(allow, Param(query, "scope"), Param(query, "client_id"),
                             Param(query, "redirect_uri"), Param(query, "state"), Param(query, "nonce"), token);

      var response := Response(false, None, None, None);
      var failure: Option<HttpError> := None;
      match reply {
        case NetworkFailure(m) =>
          failure := Some(Transport(m));
        case HttpReply(status, body, header) =>
          if status == 200 {
            response := body;
          } else if status == 204 {
            response := Response(true, header, None, None);
          } else {
            failure := Some(UnexpectedStatus(status));
          }
      }
      if failure.None? && response.state != Some(token) {
        failure := Some(UnexpectedState(response.state));
      }

      if failure.None? {
        Dispatch(ReceiveConsent(response.success, response.errors));
        result := response;
      } else {
        var errs := map["http" := Http(failure.value)];
        Dispatch(ReceiveValidateLogon(errs));
        result := Response(false, None, Some(errs), None);
      }
    }

    /** `validateUsernamePassword`: record the error map; the step succeeds iff it is empty. */
    method ValidateUsernamePassword(username: string, password: string, isSignedIn: bool)
      returns (valid: bool, errs: Errors)
      modifies this
      ensures errs == FieldErrors(username, password, isSignedIn)
      ensures valid <==> errs == map[]
      ensures errors == errs && hello == old(hello)
      ensures dispatched == old(dispatched) + [ReceiveValidateLogon(errs)]
    {
      errs := ValidationErrors(username, password, isSignedIn);
      Dispatch(ReceiveValidateLogon(errs));
      valid := |errs| == 0;
    }

    /** `executeLogonIfFormValid`: the logon request is sent only when validation passes. */
    method ExecuteLogonIfFormValid(username: string, password: string, isSignedIn: bool, token: string, reply: Reply)
      returns (sent: Option<LogonRequest>, result: Response)
      modifies this
      ensures sent.None? <==> username == "" || (password == "" && !isSignedIn)
      ensures sent.None? ==>
        && result == Response(false, None, Some(errors), None)
        && errors == FieldErrors(username, password, isSignedIn) && errors != map[]
        && hello == old(hello)
        && dispatched == old(dispatched) + [ReceiveValidateLogon(errors)]
      ensures sent.Some? ==>
        && sent.value == LogonRequest([username, password, "1"], flow, query, token)
        && result == LogonOutcome(reply, token)
        && hello == Some(HelloAfterLogon(username, reply, token))
        && errors == (if CheckedLogon(reply, token).Ok? then map[] else result.errors.value)
        && dispatched == old(dispatched) + [ReceiveValidateLogon(map[]), RequestLogon(username, password),
                                            ReceiveHello(ResetHello(username))]
                         + SettleLogonActions(username, reply, token)
    {
      var valid, errs := ValidateUsernamePassword(username, password, isSignedIn);
      if !valid {
        assert username != "" ==> "password" in errs;
        sent := None;
        result := Response(false, None, Some(errs), None);
        return;
      }
      var r;
      r, result := ExecuteLogon(username, password, token, reply);
      sent := Some(r);
    }

    /** `advanceLogonFlow`: take the navigation; its default action also clears the errors. */
    method AdvanceLogonFlow(success: bool, loc: Location, done: bool, extraQuery: Query, stringify: Query -> string)
      returns (nav: Navigation)
      requires success && IsServerFlow(flow) ==> hello.Some? && hello.value.details.Some?
      modifies this
      ensures nav == AdvanceNavigation(success, flow, query, old(hello), loc, done, extraQuery, stringify)
      ensures hello == old(hello)
      ensures errors == if nav.Push? then map[] else old(errors)
      ensures dispatched == old(dispatched) + (if nav.Push? then [ReceiveValidateLogon(map[])] else [])
    {
      nav := AdvanceNavigation(success, flow, query, hello, loc, done, extraQuery, stringify);
      if nav.Push? {
        Dispatch(ReceiveValidateLogon(map[]));
      }
    }
  }
}
