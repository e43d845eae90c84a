/**
 * Decoding and validation of an OpenID Connect authentication request
 * (OpenID Connect Core 1.0, sections 3.1.2.1, 3.2.2.1 and 6.1): splitting the
 * space-separated parameters into sets, choosing the flow and the response
 * encoding, parsing `max_age`, merging a request object, the ordered
 * validation with its error codes (section 3.1.2.6), offline-access handling
 * (section 11), and the id_token_hint check.
 *
 * The form decoder, the JWT parser and the URL parser are library calls: the
 * decoded form is the input, and the parsers are oracles whose answers are
 * parameters.
 */
module Authentication {
  import opened Wrappers
  import opened Strings
  import opened Urls
  import Oidc

  /** The flow chosen from the response type; NoFlow is Go's empty string. */
  datatype Flow = NoFlow | CodeFlow | ImplicitFlow | HybridFlow

  /**
   * The two error shapes of the request: an error reported to the client
   * through its redirect URI, and a bad request answered directly. Both carry
   * the request's `state`.
   */
  datatype AuthError =
    | AuthenticationError(errorID: string, description: string, state: string)
    | AuthenticationBadRequest(errorID: string, description: string, state: string)

  /** The `claims` parameter, kept as the client sent it. */
  datatype ClaimsRequest = ClaimsRequest(raw: string)

  /** The request's form parameters; a parameter that is absent is "". */
  datatype Form = Form(
    scope: string, claims: Option<ClaimsRequest>, responseType: string, responseMode: string,
    clientID: string, redirectURI: string, state: string, nonce: string, prompt: string,
    idTokenHint: string, maxAge: string, request: string, requestURI: string, registration: string)

  /** The claims of a request object (section 6.1); a claim that is absent is "". */
  datatype RequestObjectClaims = RequestObjectClaims(
    scope: string, claims: Option<ClaimsRequest>, responseType: string, clientID: string,
    redirectURI: string, state: string, nonce: string, prompt: string, idTokenHint: string,
    maxAge: string, registration: string)

  /** A parsed `request` token; `claims` is None when the token does not hold request-object claims. */
  datatype RequestObject = RequestObject(claims: Option<RequestObjectClaims>)

  /** Why decoding fails: a rejected request, or a `max_age` that is not a usable integer. */
  datatype DecodeError = Rejected(error: AuthError) | InvalidMaxAge(raw: string)

  // ---------------------------------------------------------------------------
  // max_age: strconv.ParseInt(s, 10, 64), then time.Duration(v) * time.Second

  const MinInt64: int := -0x8000_0000_0000_0000
  const MaxInt64: int := 0x7FFF_FFFF_FFFF_FFFF
  const NanosPerSecond: int := 1_000_000_000

  predicate IsDigit(c: char)
  {
    '0' <= c <= '9'
  }

  predicate AllDigits(s: string)
  {
    forall i :: 0 <= i < |s| ==> IsDigit(s[i])
  }

  /** The value of a string of decimal digits. */
  function DigitsValue(s: string): nat
    requires AllDigits(s)
  {
    if s == [] then 0 else DigitsValue(s[..|s| - 1]) * 10 + (s[|s| - 1] as int - '0' as int)
  }

  predicate HasSign(s: string)
  {
    |s| > 0 && (s[0] == '+' || s[0] == '-')
  }

  /** The digits of a number: the string without one leading sign. */
  function Magnitude(s: string): (m: string)
    ensures |m| + 1 >= |s|
  {
    if HasSign(s) then s[1..] else s
  }

  /** The value a signed decimal string denotes. */
  function SignedValue(s: string): int
    requires AllDigits(Magnitude(s))
  {
    if HasSign(s) && s[0] == '-' then 0 - DigitsValue(Magnitude(s)) else DigitsValue(Magnitude(s))
  }

  /**
   * strconv.ParseInt(s, 10, 64): an optional sign, at least one decimal digit
   * and nothing else, with a value inside the signed 64-bit range; None is the
   * syntax or range error.
   */
  function ParseInt64(s: string): (r: Option<int>)
    ensures r.Some? <==>
      Magnitude(s) != [] && AllDigits(Magnitude(s)) && MinInt64 <= SignedValue(s) <= MaxInt64
    ensures r.Some? ==> r.value == SignedValue(s) && MinInt64 <= r.value <= MaxInt64
  {
    var digits := Magnitude(s);
    if digits == [] || !AllDigits(digits) then None
    else
      var v := SignedValue(s);
      if MinInt64 <= v <= MaxInt64 then Some(v) else None
  }

  /** A character that is neither a digit nor a leading sign makes parsing fail. */
  lemma ParseRejectsNonDigit(s: string, i: nat)
    requires i < |s| && !IsDigit(s[i]) && !(i == 0 && (s[0] == '+' || s[0] == '-'))
    ensures ParseInt64(s) == None
  {
    var m := Magnitude(s);
    if HasSign(s) {
      assert i >= 1 && m[i - 1] == s[i];
    } else {
      assert m[i] == s[i];
    }
  }

  /** The decimal digits of a natural number (strconv.FormatUint). */
  function DecimalDigits(n: nat): (s: string)
    ensures s != [] && AllDigits(s)
    ensures n > 0 ==> s[0] != '0'
  {
    var d := ['0' + (n % 10) as char];
    if n < 10 then d else DecimalDigits(n / 10) + d
  }

  /** strconv.FormatInt(v, 10). */
  function FormatInt64(v: int): string
  {
    if v < 0 then "-" + DecimalDigits(-v) else DecimalDigits(v)
  }

  lemma {:induction false} DigitsValueOfDecimal(n: nat)
    ensures DigitsValue(DecimalDigits(n)) == n
  {
    var s := DecimalDigits(n);
    if n >= 10 {
      DigitsValueOfDecimal(n / 10);
      assert s[..|s| - 1] == DecimalDigits(n / 10);
    }
  }

  /** Every 64-bit value survives formatting and parsing back. */
  lemma ParseFormatRoundTrip(v: int)
    requires MinInt64 <= v <= MaxInt64
    ensures ParseInt64(FormatInt64(v)) == Some(v)
  {
    var s := FormatInt64(v);
    if v < 0 {
      DigitsValueOfDecimal(-v);
      assert s[1..] == DecimalDigits(-v);
    } else {
      DigitsValueOfDecimal(v);
      var d := DecimalDigits(v);
      assert IsDigit(d[0]);
    }
  }

  /** Go's int64 arithmetic: the value congruent to `x` modulo 2^64 in the signed range. */
  function WrapInt64(x: int): (r: int)
    ensures MinInt64 <= r <= MaxInt64
    ensures MinInt64 <= x <= MaxInt64 ==> r == x
    ensures (r - x) % 0x1_0000_0000_0000_0000 == 0
  {
    (x - MinInt64) % 0x1_0000_0000_0000_0000 + MinInt64
  }

  /** As written: time.Duration(v) * time.Second, in nanoseconds, wrapping on overflow. */
  function MaxAgeAsWritten(seconds: int): int
  {
    WrapInt64(seconds * NanosPerSecond)
  }

  /**
   * Every `max_age` from 9223372037 to 18446744073 seconds parses as an int64,
   * yet its duration wraps to a negative value.
   */
  lemma MaxAgeAsWrittenWraps(seconds: int)
    requires MaxInt64 < seconds * NanosPerSecond < 0x1_0000_0000_0000_0000
    ensures ParseInt64(FormatInt64(seconds)) == Some(seconds)
    ensures MaxAgeAsWritten(seconds) < 0
  {
    ParseFormatRoundTrip(seconds);
    var x := seconds * NanosPerSecond;
    assert (x - MinInt64) % 0x1_0000_0000_0000_0000 == x - MinInt64 - 0x1_0000_0000_0000_0000;
  }

  /** The smallest such value. */
  lemma MaxAgeAsWrittenWrapsAt()
    ensures MaxAgeAsWritten(9223372037) < 0
  {
    MaxAgeAsWrittenWraps(9223372037);
  }

  /**
   * Corrected: the duration of `seconds`, refused when it does not fit in a
   * time.Duration.
   */
  function MaxAgeDuration(seconds: int): (r: Option<int>)
    ensures r.Some? <==> MinInt64 <= seconds * NanosPerSecond <= MaxInt64
    ensures r.Some? ==> r.value == seconds * NanosPerSecond && r.value == MaxAgeAsWritten(seconds)
  {
    var d := seconds * NanosPerSecond;
    if MinInt64 <= d <= MaxInt64 then Some(d) else None
  }

  /**
   * The `MaxAge` a non-empty raw `max_age` gives, in nanoseconds, as the
   * decoder computes it: the parsed seconds times 10^9, wrapping in int64;
   * None when the value does not parse.
   */
  function ParseMaxAge(raw: string): (r: Option<int>)
    ensures r.Some? <==> ParseInt64(raw).Some?
    ensures r.Some? ==> MinInt64 <= r.value <= MaxInt64
    ensures r.Some? && MinInt64 <= ParseInt64(raw).value * NanosPerSecond <= MaxInt64 ==>
      r.value == ParseInt64(raw).value * NanosPerSecond
    ensures r.Some? ==> (r.value - ParseInt64(raw).value * NanosPerSecond) % 0x1_0000_0000_0000_0000 == 0
  {
    match ParseInt64(raw)
    case None => None
    case Some(v) => Some(MaxAgeAsWritten(v))
  }

  /** The decimal rendering of any number of seconds with a representable duration decodes to that duration. */
  lemma ParseMaxAgeOfFormatted(seconds: int)
    requires MinInt64 <= seconds * NanosPerSecond <= MaxInt64
    ensures ParseMaxAge(FormatInt64(seconds)) == Some(seconds * NanosPerSecond)
  {
    ParseFormatRoundTrip(seconds);
  }

  /** The decoder accepts a max_age whose duration overflows, and stores a negative MaxAge. */
  lemma ParseMaxAgeAcceptsOverflow()
    ensures ParseMaxAge(FormatInt64(9223372037)).Some?
    ensures ParseMaxAge(FormatInt64(9223372037)).value < 0
  {
    MaxAgeAsWrittenWraps(9223372037);
  }

  /**
   * Corrected decoding of max_age: a value whose duration does not fit in a
   * time.Duration is refused instead of wrapped, so an accepted non-negative
   * max_age never gives a negative MaxAge.
   */
  function CorrectedMaxAge(raw: string): (r: Option<int>)
    ensures r.Some? <==>
      ParseInt64(raw).Some? && MinInt64 <= ParseInt64(raw).value * NanosPerSecond <= MaxInt64
    ensures r.Some? ==> ParseInt64(raw).Some? && r.value == ParseInt64(raw).value * NanosPerSecond
    ensures r.Some? ==> r == ParseMaxAge(raw)
    ensures r.Some? && ParseInt64(raw).value >= 0 ==> r.value >= 0
  {
    match ParseInt64(raw)
    case None => None
    case Some(v) => MaxAgeDuration(v)
  }

  // ---------------------------------------------------------------------------
  // response_type and response_mode

  /** The response types the flow switch recognises, and the flow each selects. */
  function FlowFor(responseType: string): (f: Flow)
    ensures f == CodeFlow <==> responseType == Oidc.ResponseTypeCode
    ensures f == ImplicitFlow <==>
      responseType == Oidc.ResponseTypeIDToken || responseType == Oidc.ResponseTypeIDTokenToken
    ensures f == HybridFlow <==>
      || responseType == Oidc.ResponseTypeCodeIDToken || responseType == Oidc.ResponseTypeCodeToken
      || responseType == Oidc.ResponseTypeCodeIDTokenToken
  {
    if responseType == Oidc.ResponseTypeCode then CodeFlow
    else if responseType == Oidc.ResponseTypeIDToken || responseType == Oidc.ResponseTypeIDTokenToken then ImplicitFlow
    else if || responseType == Oidc.ResponseTypeCodeIDToken || responseType == Oidc.ResponseTypeCodeToken
            || responseType == Oidc.ResponseTypeCodeIDTokenToken then HybridFlow
    else NoFlow
  }

  /**
   * UseFragment: set by the implicit and hybrid response types, then
   * overridden by response_mode `fragment` or `query` (section 2.1 of OAuth 2.0
   * Multiple Response Type Encoding Practices).
   */
  function UseFragmentFor(responseType: string, responseMode: string): (b: bool)
    ensures responseMode == Oidc.ResponseModeFragment ==> b
    ensures responseMode == Oidc.ResponseModeQuery ==> !b
    ensures responseMode != Oidc.ResponseModeFragment && responseMode != Oidc.ResponseModeQuery ==>
      (b <==> FlowFor(responseType) == ImplicitFlow || FlowFor(responseType) == HybridFlow)
  {
    var fragment := FlowFor(responseType) == ImplicitFlow || FlowFor(responseType) == HybridFlow;
    if responseMode == Oidc.ResponseModeFragment then true
    else if responseMode == Oidc.ResponseModeQuery then false
    else fragment
  }

  lemma TokensOfTwo(a: string, b: string)
    requires a != "" && ' ' !in a && ' ' !in b
    ensures SpaceTokens(a + " " + b) == {a, b}
  {
    assert Join([a, b], ' ') == a + " " + b;
    SpaceTokensOfJoin([a, b]);
  }

  lemma TokensOfOne(a: string)
    requires a != "" && ' ' !in a
    ensures SpaceTokens(a) == {a}
  {
    assert Join([a], ' ') == a;
    SpaceTokensOfJoin([a]);
  }

  lemma TokensOfIDTokenToken()
    ensures SpaceTokens(Oidc.ResponseTypeIDTokenToken) == {Oidc.ResponseTypeIDToken, Oidc.ResponseTypeToken}
  {
    assert Oidc.ResponseTypeIDToken + " " + Oidc.ResponseTypeToken == Oidc.ResponseTypeIDTokenToken;
    TokensOfTwo(Oidc.ResponseTypeIDToken, Oidc.ResponseTypeToken);
  }

  lemma TokensOfCodeIDToken()
    ensures SpaceTokens(Oidc.ResponseTypeCodeIDToken) == {Oidc.ResponseTypeCode, Oidc.ResponseTypeIDToken}
  {
    assert Oidc.ResponseTypeCode + " " + Oidc.ResponseTypeIDToken == Oidc.ResponseTypeCodeIDToken;
    TokensOfTwo(Oidc.ResponseTypeCode, Oidc.ResponseTypeIDToken);
  }

  lemma TokensOfCodeToken()
    ensures SpaceTokens(Oidc.ResponseTypeCodeToken) == {Oidc.ResponseTypeCode, Oidc.ResponseTypeToken}
  {
    assert Oidc.ResponseTypeCode + " " + Oidc.ResponseTypeToken == Oidc.ResponseTypeCodeToken;
    TokensOfTwo(Oidc.ResponseTypeCode, Oidc.ResponseTypeToken);
  }

  lemma TokensOfCons(a: string, rest: string)
    requires ' ' !in a && rest != ""
    ensures SpaceTokens(a + " " + rest) == {a} + SpaceTokens(rest)
  {
    var s := a + " " + rest;
    IndexOfAfterPiece(a, ' ', rest);
    assert s[..|a|] == a && s[|a| + 1..] == rest;
    assert Split(s, ' ') == [a] + Split(rest, ' ');
  }

  lemma TokensOfCodeIDTokenToken()
    ensures SpaceTokens(Oidc.ResponseTypeCodeIDTokenToken) ==
      {Oidc.ResponseTypeCode, Oidc.ResponseTypeIDToken, Oidc.ResponseTypeToken}
  {
    assert Oidc.ResponseTypeCode + " " + Oidc.ResponseTypeIDTokenToken == Oidc.ResponseTypeCodeIDTokenToken;
    TokensOfCons(Oidc.ResponseTypeCode, Oidc.ResponseTypeIDTokenToken);
    TokensOfIDTokenToken();
  }

  /**
   * The flow agrees with the parsed response-type set: the code and hybrid
   * flows hold `code`, the implicit flow holds `id_token` and not `code`.
   */
  lemma FlowAgreesWithResponseTypes(responseType: string)
    ensures FlowFor(responseType) == CodeFlow || FlowFor(responseType) == HybridFlow ==>
      Oidc.ResponseTypeCode in SpaceTokens(responseType)
    ensures FlowFor(responseType) == ImplicitFlow ==>
      Oidc.ResponseTypeIDToken in SpaceTokens(responseType) && Oidc.ResponseTypeCode !in SpaceTokens(responseType)
  {
    match FlowFor(responseType)
    case NoFlow =>
    case CodeFlow =>
      TokensOfOne(Oidc.ResponseTypeCode);
    case ImplicitFlow =>
      if responseType == Oidc.ResponseTypeIDToken {
        TokensOfOne(Oidc.ResponseTypeIDToken);
      } else {
        TokensOfIDTokenToken();
      }
    case HybridFlow =>
      if responseType == Oidc.ResponseTypeCodeIDToken {
        TokensOfCodeIDToken();
      } else if responseType == Oidc.ResponseTypeCodeToken {
        TokensOfCodeToken();
      } else {
        TokensOfCodeIDTokenToken();
      }
  }

  /** The response types validation lets through (the nonce aside). */
  predicate KnownResponseType(responseType: string)
  {
    FlowFor(responseType) != NoFlow || responseType == Oidc.ResponseTypeToken
  }

  // ---------------------------------------------------------------------------
  // Request objects

  /** A request-object value replaces the request's value unless it is empty. */
  function Merge(current: string, fromObject: string): (r: string)
    ensures fromObject != "" ==> r == fromObject
    ensures fromObject == "" ==> r == current
  {
    if fromObject != "" then fromObject else current
  }

  /** The raw parameters once a request object's claims are applied. */
  function Merged(form: Form, roc: RequestObjectClaims): Form
  {
    form.(claims := if roc.claims.Some? then roc.claims else form.claims,
          redirectURI := Merge(form.redirectURI, roc.redirectURI),
          state := Merge(form.state, roc.state),
          nonce := Merge(form.nonce, roc.nonce),
          prompt := Merge(form.prompt, roc.prompt),
          idTokenHint := Merge(form.idTokenHint, roc.idTokenHint),
          maxAge := Merge(form.maxAge, roc.maxAge),
          registration := Merge(form.registration, roc.registration))
  }

  /** Applying the same request object twice changes nothing more. */
  lemma MergedIdempotent(form: Form, roc: RequestObjectClaims)
    ensures Merged(Merged(form, roc), roc) == Merged(form, roc)
  {
  }

  /** Only the parameters a request object may carry change; the rest are the form's. */
  lemma MergedKeepsOthers(form: Form, roc: RequestObjectClaims)
    ensures var m := Merged(form, roc);
      && m.scope == form.scope && m.responseType == form.responseType && m.clientID == form.clientID
      && m.responseMode == form.responseMode && m.request == form.request && m.requestURI == form.requestURI
  {
  }

  /** The consistency checks of section 6.1, in the order they are made. */
  function RequestObjectRejection(
    scopes: set<string>, responseType: string, clientID: string, state: string, roc: RequestObjectClaims): (r: Option<AuthError>)
    ensures r.Some? ==> r.value.AuthenticationBadRequest? && r.value.errorID == Oidc.ErrorOAuth2InvalidRequest
    ensures r.Some? ==> r.value.state == state
    ensures r.None? <==>
      && Oidc.ScopeOpenID in scopes
      && (roc.responseType == "" || roc.responseType == responseType)
      && (roc.clientID == "" || roc.clientID == clientID)
  {
    if Oidc.ScopeOpenID !in scopes then
      Some(AuthenticationBadRequest(Oidc.ErrorOAuth2InvalidRequest,
        "openid scope required when using the request parameter", state))
    else if roc.responseType != "" && roc.responseType != responseType then
      Some(AuthenticationBadRequest(Oidc.ErrorOAuth2InvalidRequest, "request object response_type mismatch", state))
    else if roc.clientID != "" && roc.clientID != clientID then
      Some(AuthenticationBadRequest(Oidc.ErrorOAuth2InvalidRequest, "request object client_id mismatch", state))
    else None
  }

  /** The request-object claims decoding applies, if any. */
  function AppliedClaims(form: Form, requestParse: Result<RequestObject, string>): Option<RequestObjectClaims>
  {
    if form.request != "" && requestParse.Ok? then requestParse.value.claims else None
  }

  /** The raw parameters in force after decoding. */
  function DecodedForm(form: Form, requestParse: Result<RequestObject, string>): Form
  {
    match AppliedClaims(form, requestParse)
    case None => form
    case Some(roc) => Merged(form, roc)
  }

  /** The scope set in force after decoding. */
  function DecodedScopes(form: Form, requestParse: Result<RequestObject, string>): set<string>
  {
    match AppliedClaims(form, requestParse)
    case None => SpaceTokens(form.scope)
    case Some(roc) => if roc.scope != "" then SpaceTokens(roc.scope) else SpaceTokens(form.scope)
  }

  /** Why the `request` parameter is refused: the JWT parser failed, or the object is inconsistent. */
  function RequestFailure(form: Form, requestParse: Result<RequestObject, string>): (r: Option<AuthError>)
    ensures r.Some? ==> r.value.AuthenticationBadRequest? && r.value.state == form.state
    ensures r.Some? ==> form.request != ""
  {
    if form.request != "" && requestParse.Err? then
      Some(AuthenticationBadRequest(Oidc.ErrorOAuth2InvalidRequest, requestParse.error, form.state))
    else
      match AppliedClaims(form, requestParse)
      case None => None
      case Some(roc) => RequestObjectRejection(SpaceTokens(form.scope), form.responseType, form.clientID, form.state, roc)
  }

  /** The first reason decoding fails, in the order the decoder meets them. */
  function DecodeFailure(form: Form, requestParse: Result<RequestObject, string>): (r: Option<DecodeError>)
    ensures r.Some? && r.value.Rejected? ==> r.value.error.state == form.state
    ensures form.request == "" ==>
      (r.Some? <==> form.maxAge != "" && ParseInt64(form.maxAge).None?)
  {
    if RequestFailure(form, requestParse).Some? then Some(Rejected(RequestFailure(form, requestParse).value))
    else
      var raw := DecodedForm(form, requestParse).maxAge;
      if raw != "" && ParseMaxAge(raw).None? then Some(InvalidMaxAge(raw)) else None
  }

  /** A request object is accepted only on a request whose own scope asks for openid. */
  lemma RequestObjectNeedsOpenID(form: Form, requestParse: Result<RequestObject, string>)
    requires AppliedClaims(form, requestParse).Some? && Oidc.ScopeOpenID !in SpaceTokens(form.scope)
    ensures DecodeFailure(form, requestParse).Some?
    ensures DecodeFailure(form, requestParse).value.Rejected?
    ensures DecodeFailure(form, requestParse).value.error.errorID == Oidc.ErrorOAuth2InvalidRequest
  {
  }

  /** The response-type check of validation (section 3.1.2.2 and 3.2.2.1), with its nonce rule. */
  function ResponseTypeFailure(responseType: string, nonce: string, state: string): (r: Option<AuthError>)
    ensures r.Some? ==> r.value.AuthenticationError? && r.value.state == state
    ensures r.None? <==> KnownResponseType(responseType) && (FlowFor(responseType) == ImplicitFlow ==> nonce != "")
    ensures !KnownResponseType(responseType) ==> r.Some? && r.value.errorID == Oidc.ErrorOAuth2UnsupportedResponseType
    ensures KnownResponseType(responseType) && r.Some? ==> r.value.errorID == Oidc.ErrorOAuth2InvalidRequest
  {
    var f := FlowFor(responseType);
    if f == CodeFlow || f == HybridFlow || responseType == Oidc.ResponseTypeToken then None
    else if f == ImplicitFlow then
      if nonce == "" then Some(AuthenticationError(Oidc.ErrorOAuth2InvalidRequest, "nonce is required for implicit flow", state))
      else None
    else Some(AuthenticationError(Oidc.ErrorOAuth2UnsupportedResponseType, "", state))
  }

  // ---------------------------------------------------------------------------

  /** The decoded authentication request, which decoding and validation update in place. */
  class AuthenticationRequest {
    /** The raw parameters, as decoded from the form and then from a request object. */
    var raw: Form

    var scopes: set<string>
    var responseTypes: set<string>
    var prompts: set<string>
    var redirectURI: Option<URL>
    /** The subject of the verified id_token_hint. */
    var idTokenHint: Option<string>
    /** In nanoseconds, as a time.Duration. */
    var maxAge: int
    var request: Option<RequestObject>
    var useFragment: bool
    var flow: Flow

    /** The form decoding step: raw parameters set, sets empty, everything else zero. */
    constructor (form: Form)
      ensures raw == form
      ensures scopes == {} && responseTypes == {} && prompts == {}
      ensures redirectURI == None && idTokenHint == None && maxAge == 0 && request == None
      ensures !useFragment && flow == NoFlow
    {
      raw := form;
      scopes, responseTypes, prompts := {}, {}, {};
      redirectURI, idTokenHint, maxAge, request := None, None, 0, None;
      useFragment, flow := false, NoFlow;
    }

    /** An error reported through the redirect URI, carrying the request's state. */
    function NewError(id: string, description: string): (e: AuthError)
      reads this
      ensures e.AuthenticationError? && e.errorID == id && e.description == description && e.state == raw.state
    {
      AuthenticationError(id, description, raw.state)
    }

    /** An error answered as a bad request, carrying the request's state. */
    function NewBadRequest(id: string, description: string): (e: AuthError)
      reads this
      ensures e.AuthenticationBadRequest? && e.errorID == id && e.description == description && e.state == raw.state
    {
      AuthenticationBadRequest(id, description, raw.state)
    }

    /**
     * `NewAuthenticationRequest`: decode the form, apply a request object, parse
     * the space-separated sets, choose the flow and the encoding, parse max_age.
     * `requestParse` is the JWT parser's answer for the `request` parameter and
     * `parseURL` the URL parser.
     */
    static method NewAuthenticationRequest(
      form: Form, requestParse: Result<RequestObject, string>, parseURL: string -> Option<URL>)
      returns (ar: AuthenticationRequest?, err: Option<DecodeError>)
      ensures err == DecodeFailure(form, requestParse)
      ensures err.None? <==> ar != null
      ensures ar != null ==>
        && fresh(ar)
        && ar.raw == DecodedForm(form, requestParse)
        && ar.scopes == DecodedScopes(form, requestParse)
        && ar.redirectURI == parseURL(ar.raw.redirectURI)
        && ar.responseTypes == SpaceTokens(form.responseType)
        && ar.prompts == SpaceTokens(ar.raw.prompt)
        && ar.flow == FlowFor(form.responseType)
        && ar.useFragment == UseFragmentFor(form.responseType, form.responseMode)
        && ar.maxAge == (if ar.raw.maxAge == "" then 0 else ParseMaxAge(ar.raw.maxAge).value)
        && ar.idTokenHint == None
        && ar.request == (if form.request != "" then Some(requestParse.value) else None)
    {
      var a := new AuthenticationRequest(form);
      ghost var initial := (a.responseTypes, a.prompts, a.flow, a.useFragment, a.idTokenHint, a.maxAge);
      var rejected := a.DecodeRequestParameter(requestParse);
      assert (a.responseTypes, a.prompts, a.flow, a.useFragment, a.idTokenHint, a.maxAge) == initial;
      if rejected.Some? {
        return null, Some(Rejected(rejected.value));
      }
      ghost var decoded := (a.raw, a.scopes, a.request, a.idTokenHint);
      a.DecodeDerived(parseURL);
      assert (a.raw, a.scopes, a.request, a.idTokenHint) == decoded;
      if a.raw.maxAge != "" {
        var parsed := ParseMaxAge(a.raw.maxAge);
        if parsed.None? {
          return null, Some(InvalidMaxAge(a.raw.maxAge));
        }
        a.maxAge := parsed.value;
      }
      return a, None;
    }

    /**
     * The first stage of `NewAuthenticationRequest`: parse the scope early, then
     * parse the `request` parameter and apply its claims.
     */
    method DecodeRequestParameter(requestParse: Result<RequestObject, string>) returns (rejected: Option<AuthError>)
      requires scopes == {} && request == None
      modifies this`scopes, this`raw, this`request
      ensures rejected == RequestFailure(old(raw), requestParse)
      ensures rejected.None? ==>
        && raw == DecodedForm(old(raw), requestParse)
        && scopes == DecodedScopes(old(raw), requestParse)
        && request == (if old(raw).request != "" then Some(requestParse.value) else None)
    {
      if raw.scope != "" {
        scopes := SplitTokens(raw.scope);
      }
      if raw.request != "" {
        if requestParse.Err? {
          return Some(NewBadRequest(Oidc.ErrorOAuth2InvalidRequest, requestParse.error));
        }
        if requestParse.value.claims.Some? {
          var e := ApplyRequestObject(requestParse.value.claims.value);
          if e.Some? {
            return e;
          }
        }
        request := Some(requestParse.value);
      }
      return None;
    }

    /**
     * The second stage of `NewAuthenticationRequest`: parse the redirect URI
     * and the response-type and prompt sets, then choose the flow.
     */
    method DecodeDerived(parseURL: string -> Option<URL>)
      requires responseTypes == {} && prompts == {} && flow == NoFlow && !useFragment
      modifies this`redirectURI, this`responseTypes, this`prompts, this`flow, this`useFragment
      ensures redirectURI == parseURL(raw.redirectURI)
      ensures responseTypes == SpaceTokens(raw.responseType) && prompts == SpaceTokens(raw.prompt)
      ensures flow == FlowFor(raw.responseType) && useFragment == UseFragmentFor(raw.responseType, raw.responseMode)
    {
      redirectURI := parseURL(raw.redirectURI);
      if raw.responseType != "" {
        responseTypes := SplitTokens(raw.responseType);
      }
      if raw.prompt != "" {
        prompts := SplitTokens(raw.prompt);
      }
      SelectFlow();
    }

    /**
     * The two switches of `NewAuthenticationRequest` on response_type and
     * response_mode, which set the flow and the response encoding.
     */
    method SelectFlow()
      requires flow == NoFlow && !useFragment
      modifies this`flow, this`useFragment
      ensures flow == FlowFor(raw.responseType)
      ensures useFragment == UseFragmentFor(raw.responseType, raw.responseMode)
    {
      var rt := raw.responseType;
      if rt == Oidc.ResponseTypeCode {
        flow := CodeFlow;
      } else if rt == Oidc.ResponseTypeIDToken || rt == Oidc.ResponseTypeIDTokenToken {
        useFragment := true;
        flow := ImplicitFlow;
      } else if rt == Oidc.ResponseTypeCodeIDToken || rt == Oidc.ResponseTypeCodeToken || rt == Oidc.ResponseTypeCodeIDTokenToken {
        useFragment := true;
        flow := HybridFlow;
      }

      if raw.responseMode == Oidc.ResponseModeFragment {
        useFragment := true;
      } else if raw.responseMode == Oidc.ResponseModeQuery {
        useFragment := false;
      }
    }

    /**
     * `ApplyRequestObject`: the consistency checks of section 6.1, then the
     * object's non-empty values replace the request's. The scope set is replaced
     * as soon as the openid check passes, before the later checks.
     */
    method ApplyRequestObject(roc: RequestObjectClaims) returns (err: Option<AuthError>)
      modifies this`scopes, this`raw
      ensures err == RequestObjectRejection(old(scopes), raw.responseType, raw.clientID, old(raw.state), roc)
      ensures scopes == if Oidc.ScopeOpenID in old(scopes) && roc.scope != "" then SpaceTokens(roc.scope) else old(scopes)
      ensures raw == if err.None? then Merged(old(raw), roc) else old(raw)
    {
      if Oidc.ScopeOpenID !in scopes {
        return Some(NewBadRequest(Oidc.ErrorOAuth2InvalidRequest, "openid scope required when using the request parameter"));
      }
      if roc.scope != "" {
        scopes := SplitTokens(roc.scope);
      }
      if roc.responseType != "" && roc.responseType != raw.responseType {
        return Some(NewBadRequest(Oidc.ErrorOAuth2InvalidRequest, "request object response_type mismatch"));
      }
      if roc.clientID != "" && roc.clientID != raw.clientID {
        return Some(NewBadRequest(Oidc.ErrorOAuth2InvalidRequest, "request object client_id mismatch"));
      }

      assert RequestObjectRejection(old(scopes), raw.responseType, raw.clientID, raw.state, roc).None?;
      // Each non-empty value of the object replaces the request's own.
      raw := raw.(claims := if roc.claims.Some? then roc.claims else raw.claims);
      raw := raw.(redirectURI := Merge(raw.redirectURI, roc.redirectURI));
      raw := raw.(state := Merge(raw.state, roc.state));
      raw := raw.(nonce := Merge(raw.nonce, roc.nonce));
      raw := raw.(prompt := Merge(raw.prompt, roc.prompt));
      raw := raw.(idTokenHint := Merge(raw.idTokenHint, roc.idTokenHint));
      raw := raw.(maxAge := Merge(raw.maxAge, roc.maxAge));
      raw := raw.(registration := Merge(raw.registration, roc.registration));
      return None;
    }

    /** Checks 1 to 5 of validation, the ones made before the id_token_hint is parsed. */
    function EarlyFailure(): (r: Option<AuthError>)
      reads this
      ensures r.Some? ==> r.value.state == raw.state
    {
      if Oidc.ScopeOpenID !in scopes then
        Some(NewBadRequest(Oidc.ErrorOAuth2InvalidRequest, "missing openid scope in request"))
      else if ResponseTypeFailure(raw.responseType, raw.nonce, raw.state).Some? then
        ResponseTypeFailure(raw.responseType, raw.nonce, raw.state)
      else if Oidc.PromptNone in prompts && |prompts| > 1 then
        Some(NewError(Oidc.ErrorOAuth2InvalidRequest, "cannot request other prompts together with none"))
      else if raw.clientID == "" then
        Some(NewBadRequest(Oidc.ErrorOAuth2InvalidRequest, "missing client_id"))
      else if redirectURI.None? || redirectURI.value.host == "" || redirectURI.value.scheme == "" then
        Some(NewBadRequest(Oidc.ErrorOAuth2InvalidRequest, "invalid or missing redirect_uri"))
      else None
    }

    /** Validation gets as far as the offline-access rule. */
    predicate ReachesOfflineCheck(hint: Result<string, string>)
      reads this
    {
      EarlyFailure().None? && (raw.idTokenHint == "" || hint.Ok?)
    }

    /**
     * The outcome of `Validate`, given the JWT parser's answer `hint` for the
     * id_token_hint (the subject, or the parser's message).
     */
    function ValidationFailure(hint: Result<string, string>): (r: Option<AuthError>)
      reads this
      ensures r.Some? ==> r.value.state == raw.state
    {
      if EarlyFailure().Some? then EarlyFailure()
      else if raw.idTokenHint != "" && hint.Err? then Some(NewBadRequest(Oidc.ErrorOAuth2InvalidRequest, hint.error))
      else if raw.requestURI != "" then Some(NewError(Oidc.ErrorOIDCRequestURINotSupported, ""))
      else if raw.registration != "" then Some(NewError(Oidc.ErrorOIDCRegistrationNotSupported, ""))
      else None
    }

    /** The scope set validation leaves: offline_access dropped unless a code is requested. */
    function ScopesAfterValidation(hint: Result<string, string>): (s: set<string>)
      reads this
      ensures s == scopes || s == scopes - {Oidc.ScopeOfflineAccess}
      ensures Oidc.ScopeOfflineAccess in s ==> Oidc.ResponseTypeCode in responseTypes || !ReachesOfflineCheck(hint)
    {
      if ReachesOfflineCheck(hint) && Oidc.ScopeOfflineAccess in scopes && Oidc.ResponseTypeCode !in responseTypes then
        scopes - {Oidc.ScopeOfflineAccess}
      else scopes
    }

    /** `Validate`: the ordered checks; the first failure wins. */
    method Validate(hint: Result<string, string>) returns (err: Option<AuthError>)
      modifies this`scopes, this`idTokenHint
      ensures err == old(ValidationFailure(hint))
      ensures scopes == old(ScopesAfterValidation(hint))
      ensures idTokenHint == if old(ReachesOfflineCheck(hint)) && raw.idTokenHint != "" && hint.Ok? then Some(hint.value) else old(idTokenHint)
    {
      var early := EarlyFailure();
      if Oidc.ScopeOpenID !in scopes {
        return Some(NewBadRequest(Oidc.ErrorOAuth2InvalidRequest, "missing openid scope in request"));
      }

      var rt := raw.responseType;
      if || rt == Oidc.ResponseTypeCode || rt == Oidc.ResponseTypeCodeIDToken
         || rt == Oidc.ResponseTypeCodeToken || rt == Oidc.ResponseTypeCodeIDTokenToken {
      } else if rt == Oidc.ResponseTypeIDToken || rt == Oidc.ResponseTypeIDTokenToken {
        if raw.nonce == "" {
          return Some(NewError(Oidc.ErrorOAuth2InvalidRequest, "nonce is required for implicit flow"));
        }
      } else if rt == Oidc.ResponseTypeToken {
      } else {
        return Some(NewError(Oidc.ErrorOAuth2UnsupportedResponseType, ""));
      }

      if Oidc.PromptNone in prompts && |prompts| > 1 {
        return Some(NewError(Oidc.ErrorOAuth2InvalidRequest, "cannot request other prompts together with none"));
      }

      if raw.clientID == "" {
        return Some(NewBadRequest(Oidc.ErrorOAuth2InvalidRequest, "missing client_id"));
      }

      if redirectURI.None? || redirectURI.value.host == "" || redirectURI.value.scheme == "" {
        return Some(NewBadRequest(Oidc.ErrorOAuth2InvalidRequest, "invalid or missing redirect_uri"));
      }
      assert early.None?;

      if raw.idTokenHint != "" {
        if hint.Err? {
          return Some(NewBadRequest(Oidc.ErrorOAuth2InvalidRequest, hint.error));
        }
        idTokenHint := Some(hint.value);
      }

      if Oidc.ScopeOfflineAccess in scopes && Oidc.ResponseTypeCode !in responseTypes {
        scopes := scopes - {Oidc.ScopeOfflineAccess};
      }

      if raw.requestURI != "" {
        return Some(NewError(Oidc.ErrorOIDCRequestURINotSupported, ""));
      }
      if raw.registration != "" {
        return Some(NewError(Oidc.ErrorOIDCRegistrationNotSupported, ""));
      }
      return None;
    }

    /** `Verify`: a verified id_token_hint must name the signed-in user. */
    function Verify(userID: string): (r: Option<AuthError>)
      reads this
      ensures r.Some? <==> idTokenHint.Some? && idTokenHint.value != userID
      ensures r.Some? ==> r.value == AuthenticationError(Oidc.ErrorOIDCLoginRequired, "userid mismatch", raw.state)
    {
      if idTokenHint.Some? && userID != idTokenHint.value then
        Some(NewError(Oidc.ErrorOIDCLoginRequired, "userid mismatch"))
      else None
    }
  }

  /**
   * The loop that fills a Go map from the space-separated tokens of `raw`
   * (its caller skips an empty `raw`).
   */
  method SplitTokens(raw: string) returns (m: set<string>)
    requires raw != ""
    ensures m == SpaceTokens(raw)
  {
    var parts := Split(raw, ' ');
    m := {};
    for i := 0 to |parts|
      invariant m == set t | t in parts[..i]
    {
      m := m + {parts[i]};
    }
    assert parts[..|parts|] == parts;
  }

  /** Validation accepts exactly the requests that pass all seven checks. */
  lemma ValidationSucceedsIff(ar: AuthenticationRequest, hint: Result<string, string>)
    ensures ar.ValidationFailure(hint).None? <==>
      && Oidc.ScopeOpenID in ar.scopes
      && KnownResponseType(ar.raw.responseType)
      && (FlowFor(ar.raw.responseType) == ImplicitFlow ==> ar.raw.nonce != "")
      && !(Oidc.PromptNone in ar.prompts && |ar.prompts| > 1)
      && ar.raw.clientID != ""
      && ar.redirectURI.Some? && ar.redirectURI.value.host != "" && ar.redirectURI.value.scheme != ""
      && (ar.raw.idTokenHint == "" || hint.Ok?)
      && ar.raw.requestURI == ""
      && ar.raw.registration == ""
  {
  }

  /** A missing openid scope is reported first, whatever else is wrong. */
  lemma OpenIDCheckedFirst(ar: AuthenticationRequest, hint: Result<string, string>)
    requires Oidc.ScopeOpenID !in ar.scopes
    ensures ar.ValidationFailure(hint) ==
      Some(AuthenticationBadRequest(Oidc.ErrorOAuth2InvalidRequest, "missing openid scope in request", ar.raw.state))
  {
  }

  /** An unknown response type is reported before the prompt, client and redirect checks. */
  lemma ResponseTypeCheckedSecond(ar: AuthenticationRequest, hint: Result<string, string>)
    requires Oidc.ScopeOpenID in ar.scopes && !KnownResponseType(ar.raw.responseType)
    ensures ar.ValidationFailure(hint) ==
      Some(AuthenticationError(Oidc.ErrorOAuth2UnsupportedResponseType, "", ar.raw.state))
  {
  }

  /**
   * With openid present and an acceptable response type, `none` combined with
   * another prompt is reported before a missing client_id or redirect URI.
   */
  lemma PromptNoneCheckedBeforeClient(ar: AuthenticationRequest, hint: Result<string, string>)
    requires Oidc.ScopeOpenID in ar.scopes && ResponseTypeFailure(ar.raw.responseType, ar.raw.nonce, ar.raw.state).None?
    requires Oidc.PromptNone in ar.prompts && |ar.prompts| > 1
    ensures ar.ValidationFailure(hint) ==
      Some(AuthenticationError(Oidc.ErrorOAuth2InvalidRequest, "cannot request other prompts together with none", ar.raw.state))
  {
  }

  /** A missing nonce for an implicit response type is reported before the prompt, client and redirect checks. */
  lemma NonceCheckedBeforePrompt(ar: AuthenticationRequest, hint: Result<string, string>)
    requires Oidc.ScopeOpenID in ar.scopes && FlowFor(ar.raw.responseType) == ImplicitFlow && ar.raw.nonce == ""
    ensures ar.ValidationFailure(hint) ==
      Some(AuthenticationError(Oidc.ErrorOAuth2InvalidRequest, "nonce is required for implicit flow", ar.raw.state))
  {
  }

  /** A missing client_id is reported before the redirect URI and everything after it. */
  lemma ClientIDBeforeRedirect(ar: AuthenticationRequest, hint: Result<string, string>)
    requires Oidc.ScopeOpenID in ar.scopes && ResponseTypeFailure(ar.raw.responseType, ar.raw.nonce, ar.raw.state).None?
    requires !(Oidc.PromptNone in ar.prompts && |ar.prompts| > 1)
    requires ar.raw.clientID == ""
    ensures ar.ValidationFailure(hint) ==
      Some(AuthenticationBadRequest(Oidc.ErrorOAuth2InvalidRequest, "missing client_id", ar.raw.state))
  {
  }

  /** An invalid redirect URI is reported before the id_token_hint is looked at. */
  lemma RedirectBeforeHint(ar: AuthenticationRequest, hint: Result<string, string>)
    requires Oidc.ScopeOpenID in ar.scopes && ResponseTypeFailure(ar.raw.responseType, ar.raw.nonce, ar.raw.state).None?
    requires !(Oidc.PromptNone in ar.prompts && |ar.prompts| > 1) && ar.raw.clientID != ""
    requires ar.redirectURI.None? || ar.redirectURI.value.host == "" || ar.redirectURI.value.scheme == ""
    ensures ar.ValidationFailure(hint) ==
      Some(AuthenticationBadRequest(Oidc.ErrorOAuth2InvalidRequest, "invalid or missing redirect_uri", ar.raw.state))
  {
  }

  /** Once the first five checks pass, an id_token_hint that does not parse is a bad request with the parser's message. */
  lemma HintBeforeRequestURI(ar: AuthenticationRequest, hint: Result<string, string>)
    requires ar.EarlyFailure().None? && ar.raw.idTokenHint != "" && hint.Err?
    ensures ar.ValidationFailure(hint) ==
      Some(AuthenticationBadRequest(Oidc.ErrorOAuth2InvalidRequest, hint.error, ar.raw.state))
  {
  }

  /** request_uri is refused before registration, and only once the earlier checks pass. */
  lemma RequestURIBeforeRegistration(ar: AuthenticationRequest, hint: Result<string, string>)
    requires ar.ReachesOfflineCheck(hint) && ar.raw.requestURI != ""
    ensures ar.ValidationFailure(hint) == Some(AuthenticationError(Oidc.ErrorOIDCRequestURINotSupported, "", ar.raw.state))
  {
  }

  /** registration is checked last: it is the error exactly when every other check passes and it is present. */
  lemma RegistrationLast(ar: AuthenticationRequest, hint: Result<string, string>)
    ensures ar.ValidationFailure(hint) == Some(AuthenticationError(Oidc.ErrorOIDCRegistrationNotSupported, "", ar.raw.state))
      <==> ar.ReachesOfflineCheck(hint) && ar.raw.requestURI == "" && ar.raw.registration != ""
  {
  }

  /**
   * offline_access survives validation exactly when it was asked for and
   * either a code is requested or validation stopped before the rule; no
   * other scope is touched.
   */
  lemma OfflineAccessRule(ar: AuthenticationRequest, hint: Result<string, string>)
    ensures Oidc.ScopeOfflineAccess in ar.ScopesAfterValidation(hint) <==>
      Oidc.ScopeOfflineAccess in ar.scopes && (Oidc.ResponseTypeCode in ar.responseTypes || !ar.ReachesOfflineCheck(hint))
    ensures ar.ScopesAfterValidation(hint) - {Oidc.ScopeOfflineAccess} == ar.scopes - {Oidc.ScopeOfflineAccess}
  {
  }

  /** In the code and hybrid flows validation never drops offline_access. */
  lemma CodeFlowsKeepOfflineAccess(ar: AuthenticationRequest, hint: Result<string, string>)
    requires ar.responseTypes == SpaceTokens(ar.raw.responseType)
    requires FlowFor(ar.raw.responseType) == CodeFlow || FlowFor(ar.raw.responseType) == HybridFlow
    ensures ar.ScopesAfterValidation(hint) == ar.scopes
  {
    FlowAgreesWithResponseTypes(ar.raw.responseType);
  }
}
