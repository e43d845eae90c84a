# Konnect logon, consent and authentication-request logic in Dafny

This project models four pieces of decision logic from the Konnect OpenID
Connect provider and proves properties about them:

- **The identifier web application's logon/consent controller**
  (`identifier/src/actions/login-actions.js`), module `LoginActions`. It covers:
  - form validation;
  - the logon and consent requests to the identity endpoint;
  - the classification of the endpoint's HTTP replies (200 / 204 / other);
  - the mandatory check that the reply echoes the request's `state` token;
  - the replacement of the session's `hello` descriptor;
  - the `advanceLogonFlow` navigation decision.

  The application store is the class `Store` with `hello` and `errors` fields
  and a log of dispatched actions. The request token and the endpoint's reply
  are inputs. Navigation is a returned `Navigation` value: `Stay`,
  `Replace(path)`, `Push(path)` or `External(url)`.
- **OpenID Connect authentication-request decoding and validation**
  (`oidc/payload/authentication.go`), module `Authentication`. It covers:
  - the space-separated `scope`, `response_type` and `prompt` sets;
  - the flow and fragment choice, and the `response_mode` override;
  - `max_age`;
  - request objects (section 6.1 of OpenID Connect Core 1.0);
  - the ordered checks of `Validate`, with their error codes (section 3.1.2.6);
  - offline access (section 11);
  - the id_token_hint check of `Verify`.

  The request is the class `AuthenticationRequest`, whose fields decoding and
  validation update in place.
- **The Kopano Core identity manager** (`identity/managers/kc.go`), module
  `KCManager`. `Authenticate` and `Authorize` choose between an error, a
  redirect to the sign-in or consent form, and a grant with scopes. `Fetch` and
  `ApprovedScopes` make the user lookup and reference checks.
- **Daemon start-up** (`cmd/konnectd/bootstrap.go`), module `Bootstrap`. It
  covers `makeURIPath` and the checks and fallbacks of `initialize`:
  - the identity-manager argument;
  - the `iss` checks;
  - the endpoint URIs;
  - trusted proxies;
  - the encryption-secret size rule;
  - the flag → environment → default fallbacks;
  - the configuration files;
  - the signing method;
  - the signing-key list.

Helper modules: `Wrappers` (Option and Result), `Strings` (Go's
`strings.Split`, `Join`, `TrimPrefix`, `TrimSuffix`, `TrimSpace` and the
JavaScript prefix test), `Urls` (the parsed-URL fields the code reads) and
`Oidc` (protocol constants).

The OpenID Connect constants live in a Go package that is not part of this
model. `Oidc` uses the parameter values and error codes of OpenID Connect
Core 1.0 and RFC 6749. `defaultListenAddr`, `defaultIdentifierClientPath` and
`encryption.KeySize` are declared elsewhere too, so they are parameters
(`Defaults`, `keySize`).

Where the code's behaviour is surprising, the model follows the code:

- A hello whose `details.flow` differs from the store's flow falls through to
  the default action, which clears the errors and pushes `/welcome`. It is not
  a no-op (`MismatchedFlowFallsThrough`).
- The legacy `continue` guard is a string-prefix test against the page
  origin, not an origin comparison. `LegacyPrefixAdmitsLookalikeHost` shows a
  look-alike host that passes it.
- Logon resets `hello` to `{username}` before the request is sent. A failed
  logon therefore leaves `hello` at that reset value, not at its earlier value.

## Model

| member | source | states |
|---|---|---|
| `LoginActions.HttpFailure` | identifier/src/actions/login-actions.js:108-117 | every failed round trip becomes `success:false` with an `http` error |
| `LoginActions.ClassifyLogonReply` | identifier/src/actions/login-actions.js:76-92 | logon: 200 gives the body; 204 gives `success:false`, the header's state and an `http` error; any other status or a transport failure is an error |
| `LoginActions.ClassifyConsentReply` | identifier/src/actions/login-actions.js:140-154 | consent: 200 gives the body; 204 gives `success:true` with the header's state; anything else is an error |
| `LoginActions.CheckState` | identifier/src/actions/login-actions.js:93-96 | a classified reply passes iff its state equals the request token, and then it is returned unchanged; a mismatch becomes an unexpected-state error |
| `LoginActions.LogonOutcome` | identifier/src/actions/login-actions.js:75-118 | the logon result is successful only for a 200 reply whose state is the token, and such a reply's body is the result; a 204 echoing the token gives `success:false` with the logon-failed `http` error; every error becomes the `http` failure |
| `LoginActions.ConsentOutcome` | identifier/src/actions/login-actions.js:140-172 | the consent result is successful only for a 200 or 204 reply whose state is the token; a matching 200 gives its body and a matching 204 gives `{success:true, state:token}`; every error becomes the `http` failure |
| `LoginActions.HelloAfterLogon` | identifier/src/actions/login-actions.js:98-106 | after a state-matched reply, hello is the reply's hello if present, else `{success, username}`; after an error it stays at the reset `{username}` |
| `LoginActions.ConsentRequestFor` | identifier/src/actions/login-actions.js:128-135 | the consent body takes scope, client_id, redirect_uri, state (as ref) and nonce from the query, `''` when missing, plus the token |
| `LoginActions.AdvanceNavigation` | identifier/src/actions/login-actions.js:213-253 | nothing happens iff `success` is false; with matching flows, not done and `next == consent` the location is replaced with `/consent` plus search and hash; otherwise a truthy continue_uri is redirected to with the merged query; a mismatched flow, or neither case, pushes `/welcome`; in legacy flows the prefix guard decides between the redirect and `/welcome` |
| `LoginActions.MismatchedFlowFallsThrough` | identifier/src/actions/login-actions.js:226-229 | in the oauth/consent/oidc flows, a hello flow that differs from the store's flow pushes `/welcome` |
| `LoginActions.ConsentComesFirst` | identifier/src/actions/login-actions.js:231-234 | with matching flows, not done, and `next == consent`, the location is replaced with `/consent` plus search and hash, never redirected |
| `LoginActions.ConsentCompletionContinues` | identifier/src/actions/login-actions.js:235-237 | completing consent with `{konnect: state}` redirects to continue_uri with the merged query, where the extra key wins |
| `LoginActions.LegacyRedirectIffGuard` | identifier/src/actions/login-actions.js:242-252 | in legacy flows the redirect happens iff `continue` starts with the page origin, and otherwise `/welcome` is pushed |
| `LoginActions.LegacyRejectsOtherOrigin` | identifier/src/actions/login-actions.js:244-247 | a continue URL on another origin is refused and falls through to `/welcome` |
| `LoginActions.LegacyPrefixAdmitsLookalikeHost` | identifier/src/actions/login-actions.js:244-245 | the prefix test admits `https://app.example.evil.com/x` for origin `https://app.example` |
| `LoginActions.Logon204Fails` | identifier/src/actions/login-actions.js:80-88 | a 204 logon reply never gives success and always carries an `http` error |
| `LoginActions.Consent204Succeeds` | identifier/src/actions/login-actions.js:145-150 | a 204 consent reply that echoes the token is `{success:true, state:token}` |
| `LoginActions.StateMismatchFails` | identifier/src/actions/login-actions.js:93-96 | a 200 or 204 reply with a different state fails the same way for logon and consent |
| `LoginActions.FieldErrors` | identifier/src/actions/login-actions.js:179-186 | a `username` error iff the username is empty; a `password` error iff the password is empty and the user is not signed in; no other keys |
| `LoginActions.ValidationErrors` | identifier/src/actions/login-actions.js:179-186 | the two-step map-building gives exactly `FieldErrors`: each key iff its field is missing, no other keys |
| `LoginActions.Store.ValidateUsernamePassword` | identifier/src/actions/login-actions.js:176-195 | records `FieldErrors` in the store; the step succeeds iff the map is empty |
| `LoginActions.Store.ExecuteLogon` | identifier/src/actions/login-actions.js:58-119 | sends `[username, password, "1"]` with the token; the result, the new hello, the new errors and the dispatched actions follow the outcome functions |
| `LoginActions.Store.ExecuteConsent` | identifier/src/actions/login-actions.js:122-173 | sends the consent body; the result and the errors follow `ConsentOutcome`; hello is unchanged |
| `LoginActions.Store.ExecuteLogonIfFormValid` | identifier/src/actions/login-actions.js:198-210 | no request is sent iff validation fails, and then the result is `{success:false, errors}` with the field errors and hello unchanged; otherwise it is the logon, and the errors are cleared after a successful logon or are the logon's error otherwise |
| `LoginActions.Store.AdvanceLogonFlow` | identifier/src/actions/login-actions.js:213-253 | takes the navigation `AdvanceNavigation` decides; errors are cleared exactly when it pushes `/welcome` |
| `Strings.SpaceTokens` | oidc/payload/authentication.go:89-95 | the token set is empty iff the raw string is empty; no token contains a space |
| `Strings.SpaceTokensOfJoin` | oidc/payload/authentication.go:122-131 | the tokens of a space-joined list are exactly the list's elements |
| `Strings.JoinSplit` | oidc/payload/authentication.go:92-94 | joining the pieces of a single-space split gives back the raw string |
| `Strings.SplitJoin` | oidc/payload/authentication.go:123-125 | splitting a join of space-free pieces gives back the pieces |
| `Authentication.SplitTokens` | oidc/payload/authentication.go:92-94 | the map-filling loop yields exactly the space-separated tokens |
| `Authentication.ParseInt64` | oidc/payload/authentication.go:167-170 | a string parses iff, after at most one sign, it is a non-empty run of digits whose signed value is within the int64 range, and then the result is that value |
| `Authentication.ParseRejectsNonDigit` | oidc/payload/authentication.go:167-170 | any character that is not a digit, other than a leading sign, makes parsing fail |
| `Authentication.ParseFormatRoundTrip` | oidc/payload/authentication.go:167-170 | every int64 survives decimal formatting and parsing |
| `Authentication.MaxAgeAsWrittenWraps` | oidc/payload/authentication.go:171 | as written, every max_age from 9223372037 to 18446744073 seconds parses, yet its duration wraps to a negative value |
| `Authentication.MaxAgeAsWrittenWrapsAt` | oidc/payload/authentication.go:171 | as written, max_age 9223372037 gives a negative duration |
| `Authentication.MaxAgeDuration` | oidc/payload/authentication.go:171 | corrected: the duration is exactly seconds × 10^9 and agrees with the as-written value whenever it fits in int64; otherwise it is refused |
| `Authentication.CorrectedMaxAge` | oidc/payload/authentication.go:166-172 | corrected decoding: a max_age is accepted iff it parses as an int64 whose duration fits in int64; then it is exactly the parsed seconds × 10^9, agrees with the decoder, and is never negative for non-negative seconds |
| `Authentication.ParseMaxAge` | oidc/payload/authentication.go:166-172 | a raw max_age decodes iff it parses as an int64; the result is the int64 congruent to the seconds × 10^9 modulo 2^64, so it equals that product whenever it fits and wraps otherwise |
| `Authentication.ParseMaxAgeAcceptsOverflow` | oidc/payload/authentication.go:166-172 | the decoder accepts max_age 9223372037 and stores a negative MaxAge |
| `Authentication.ParseMaxAgeOfFormatted` | oidc/payload/authentication.go:166-172 | the decimal rendering of any representable number of seconds is accepted with its duration |
| `Authentication.FlowFor` | oidc/payload/authentication.go:133-155 | code → code flow; `id_token`, `id_token token` → implicit; the three `code …` hybrids → hybrid; anything else, including `token`, → no flow |
| `Authentication.UseFragmentFor` | oidc/payload/authentication.go:157-164 | response_mode `fragment` forces true and `query` forces false; otherwise true exactly for the implicit and hybrid flows |
| `Authentication.FlowAgreesWithResponseTypes` | oidc/payload/authentication.go:122-155 | the code and hybrid flows have `code` in the response-type set; the implicit flow has `id_token` and not `code` |
| `Authentication.MergedIdempotent` | oidc/payload/authentication.go:211-235 | applying a request object's values twice is the same as once |
| `Authentication.MergedKeepsOthers` | oidc/payload/authentication.go:209-235 | applying an object never changes scope, response_type, client_id, response_mode, request or request_uri |
| `Authentication.RequestObjectRejection` | oidc/payload/authentication.go:182-202 | a request object is refused with `invalid_request` iff openid is missing or a non-empty response_type or client_id differs |
| `Authentication.RequestFailure` | oidc/payload/authentication.go:97-115 | a refused `request` parameter is a bad request that carries the request's state |
| `Authentication.DecodeFailure` | oidc/payload/authentication.go:97-172 | without a request object, decoding fails iff max_age is present and is not an int64 |
| `Authentication.RequestObjectNeedsOpenID` | oidc/payload/authentication.go:182-184 | a request object on a request whose own scope lacks openid makes decoding fail with `invalid_request` |
| `Authentication.ResponseTypeFailure` | oidc/payload/authentication.go:245-271 | the response-type check passes iff the type is known and an implicit type has a nonce; an unknown type gives `unsupported_response_type`, and a known type without its nonce `invalid_request` |
| `Authentication.AuthenticationRequest.NewError` | oidc/payload/authentication.go:341-347 | an authentication error with the given id and description and the request's state |
| `Authentication.AuthenticationRequest.NewBadRequest` | oidc/payload/authentication.go:351-357 | a bad-request error with the given id and description and the request's state |
| `Authentication.AuthenticationRequest.NewAuthenticationRequest` | oidc/payload/authentication.go:76-175 | fails iff `DecodeFailure` does; otherwise each field is its decoded value: sets from the raw strings, flow, fragment and max_age |
| `Authentication.AuthenticationRequest.DecodeRequestParameter` | oidc/payload/authentication.go:89-118 | parses the scope early, then parses and applies the request object; refuses exactly as `RequestFailure` does |
| `Authentication.AuthenticationRequest.DecodeDerived` | oidc/payload/authentication.go:120-131 | sets the redirect URI, response-type and prompt sets, flow and fragment from the raw values |
| `Authentication.AuthenticationRequest.SelectFlow` | oidc/payload/authentication.go:133-164 | the two switches set the flow and the encoding as `FlowFor` and `UseFragmentFor` state |
| `Authentication.AuthenticationRequest.ApplyRequestObject` | oidc/payload/authentication.go:179-237 | refuses as `RequestObjectRejection` does; a non-empty object scope replaces the whole set once openid is present; on success the object's non-empty values replace the request's |
| `Authentication.AuthenticationRequest.EarlyFailure` | oidc/payload/authentication.go:241-287 | the first five checks' error carries the request's state |
| `Authentication.AuthenticationRequest.ValidationFailure` | oidc/payload/authentication.go:240-325 | the validation error carries the request's state; which check wins is stated by `ValidationSucceedsIff` and the ordering lemmas (`OpenIDCheckedFirst` through `RegistrationLast`) |
| `Authentication.AuthenticationRequest.ScopesAfterValidation` | oidc/payload/authentication.go:306-315 | validation removes at most offline_access, and keeps it only with a `code` response type or when validation stopped earlier |
| `Authentication.AuthenticationRequest.Validate` | oidc/payload/authentication.go:240-325 | returns `ValidationFailure`, leaves `ScopesAfterValidation` and records the verified hint's subject |
| `Authentication.AuthenticationRequest.Verify` | oidc/payload/authentication.go:328-337 | fails with `login_required` iff a verified id_token_hint names a subject other than the user |
| `Authentication.ValidationSucceedsIff` | oidc/payload/authentication.go:240-325 | validation succeeds iff all seven checks and the hint parse pass |
| `Authentication.OpenIDCheckedFirst` | oidc/payload/authentication.go:241-243 | a missing openid scope is the error, whatever else is wrong |
| `Authentication.ResponseTypeCheckedSecond` | oidc/payload/authentication.go:245-271 | with openid present, an unknown response type is reported before any later check |
| `Authentication.PromptNoneCheckedBeforeClient` | oidc/payload/authentication.go:273-282 | `none` with other prompts is reported before a missing client_id or redirect URI |
| `Authentication.NonceCheckedBeforePrompt` | oidc/payload/authentication.go:241-265 | with openid present, an implicit response type without a nonce is reported as `invalid_request` before the prompt, client and redirect checks |
| `Authentication.ClientIDBeforeRedirect` | oidc/payload/authentication.go:241-282 | once the openid, response-type and prompt checks pass, a missing client_id is reported before the redirect URI and every later check |
| `Authentication.RedirectBeforeHint` | oidc/payload/authentication.go:241-287 | once the first four checks pass, an invalid or missing redirect URI is reported whatever the id_token_hint |
| `Authentication.HintBeforeRequestURI` | oidc/payload/authentication.go:289-303 | once the first five checks pass, an id_token_hint that does not parse is a bad request with the parser's message, before request_uri and registration |
| `Authentication.RegistrationLast` | oidc/payload/authentication.go:320-322 | the registration error is the outcome iff every other check passes and registration is present |
| `Authentication.RequestURIBeforeRegistration` | oidc/payload/authentication.go:317-322 | once the earlier checks pass, request_uri is refused before registration |
| `Authentication.OfflineAccessRule` | oidc/payload/authentication.go:306-315 | offline_access survives iff requested and (code requested or validation stopped earlier); no other scope changes |
| `Authentication.CodeFlowsKeepOfflineAccess` | oidc/payload/authentication.go:306-315 | in the code and hybrid flows validation keeps the scope set as it is |
| `KCManager.KCIdentityManager.FormRedirect` | identity/managers/kc.go:96-97 | the sign-in form URL with query `flow=<flow>&<original query>` |
| `KCManager.KCIdentityManager.Authenticate` | identity/managers/kc.go:62-107 | `login_required` is returned directly iff not signed in with prompt `none`; a sign-in redirect iff `none` is absent and the user is not signed in or `login`/`select_account` is asked; otherwise the user's auth record |
| `KCManager.KCIdentityManager.Authorize` | identity/managers/kc.go:110-178 | follows the decision table; the request's own scope set loses offline_access exactly for a trusted client with no cookie and no consent prompt |
| `KCManager.UntrustedClientNeedsConsent` | identity/managers/kc.go:127-132 | without a consent cookie an untrusted client is never granted: `interaction_required` under `none`, else the consent redirect |
| `KCManager.DeniedConsentRefuses` | identity/managers/kc.go:139-142 | a consent cookie with allow=false gives `access_denied` |
| `KCManager.AllowedConsentGrants` | identity/managers/kc.go:139-146 | a consent cookie with allow=true grants the consent's approved scopes with no prompt |
| `KCManager.GrantWithoutConsentHasNoOfflineAccess` | identity/managers/kc.go:148-177 | a grant without a cookie needs a trusted client and no consent prompt, and never carries offline_access |
| `KCManager.KCIdentityManager.Fetch` | identity/managers/kc.go:198-219 | succeeds iff the lookup finds a user whose subject is `sub`; the errors are identifier error, no user, wrong user |
| `KCManager.KCIdentityManager.ApprovedScopes` | identity/managers/kc.go:189-195 | fails iff the ref is empty; otherwise no stored scopes |
| `Bootstrap.IssuerCheck` | cmd/konnectd/bootstrap.go:118-128 | iss is accepted iff it parses, is non-empty, has scheme https and has a host |
| `Bootstrap.IssuerCheckOrder` | cmd/konnectd/bootstrap.go:118-128 | a parse failure is reported before emptiness, and emptiness before the scheme |
| `Bootstrap.Fallback` | cmd/konnectd/bootstrap.go:217-231 | the flag if non-empty, else the environment if non-empty, else the default |
| `Bootstrap.FallbackChoices` | cmd/konnectd/bootstrap.go:217-231 | the result is one of the three, and never empty with a non-empty default |
| `Bootstrap.EncryptionSecret` | cmd/konnectd/bootstrap.go:199-215 | a named secret file is accepted iff it reads and holds exactly KeySize bytes; with none named the random KeySize-byte secret is used |
| `Bootstrap.ProxyIPsExact` | cmd/konnectd/bootstrap.go:165-175 | the address list holds exactly the addresses of the entries that parse as one |
| `Bootstrap.ProxyNetsExact` | cmd/konnectd/bootstrap.go:165-175 | the network list holds exactly the networks of the entries that are not addresses but parse as a network |
| `Bootstrap.ProxyEntriesCounted` | cmd/konnectd/bootstrap.go:165-175 | the two lists together have one element per entry that parses as an address or a network; the others are dropped |
| `Bootstrap.CleanKeyPaths` | cmd/konnectd/bootstrap.go:266-271 | every kept signing-key path is non-empty and trimmed; which pieces are kept is stated by the three lemmas below |
| `Bootstrap.CleanKeyPathsComplete` | cmd/konnectd/bootstrap.go:266-271 | every piece that is not blank once trimmed is kept in its trimmed form, padded or not |
| `Bootstrap.CleanKeyPathsSound` | cmd/konnectd/bootstrap.go:266-271 | every kept path is the trim of one of the pieces |
| `Bootstrap.CleanKeyPathsCount` | cmd/konnectd/bootstrap.go:266-271 | there are exactly as many kept paths as pieces that are not blank once trimmed |
| `Bootstrap.SigningKeyPaths` | cmd/konnectd/bootstrap.go:264-272 | flag values win unchanged; otherwise the environment list's paths are non-empty and trimmed |
| `Bootstrap.SigningKeyPathsFromEnv` | cmd/konnectd/bootstrap.go:264-272 | without flag values, the paths are exactly the trims of the non-blank pieces of the variable split on single spaces, one per such piece |
| `Bootstrap.EnvKeyPathsRoundTrip` | cmd/konnectd/bootstrap.go:264-272 | any list of clean, space-free paths joined by spaces in the environment is read back unchanged |
| `Bootstrap.EnvKeyPathsExample` | cmd/konnectd/bootstrap.go:264-272 | an unset variable gives no signing-key paths |
| `Bootstrap.KeyPathsFromEnv` | cmd/konnectd/bootstrap.go:266-271 | the split/trim/append loop yields `SigningKeyPaths([], env)` |
| `Bootstrap.EndpointFailure` | cmd/konnectd/bootstrap.go:132-154 | start-up passes the endpoint flags iff all four URIs parse |
| `Bootstrap.ConfFailure` | cmd/konnectd/bootstrap.go:233-248 | passes iff every named configuration file is accessible once made absolute |
| `Bootstrap.SettingsFailure` | cmd/konnectd/bootstrap.go:199-262 | the later checks pass iff the secret loads, the configuration files are accessible and the signing method is known |
| `Bootstrap.URIFailure` | cmd/konnectd/bootstrap.go:118-154 | the URI checks pass iff iss is accepted and the endpoint URIs parse |
| `Bootstrap.InitSucceedsIff` | cmd/konnectd/bootstrap.go:114-262 | no arguments fails first; start-up succeeds iff every check passes |
| `Bootstrap.Bootstrap.Initialize` | cmd/konnectd/bootstrap.go:109-293 | the error is the first failing check; on success every field holds its resolved value, and with no signing-key file the signing method is PS256 |
| `Bootstrap.Bootstrap.LoadURIs` | cmd/konnectd/bootstrap.go:118-154 | the issuer, base path and endpoint URIs, failing as `URIFailure` does |
| `Bootstrap.Bootstrap.CheckIssuer` | cmd/konnectd/bootstrap.go:118-128 | keeps the parsed iss and fails as `IssuerCheck` does |
| `Bootstrap.Bootstrap.ParseEndpointURIs` | cmd/konnectd/bootstrap.go:132-154 | the four URIs, each parsed in turn, failing at the first that does not parse |
| `Bootstrap.Bootstrap.LoadSettings` | cmd/konnectd/bootstrap.go:165-272 | the proxies, secret, addresses, configuration files and signing settings, failing as `SettingsFailure` does |
| `Bootstrap.Bootstrap.AddTrustedProxies` | cmd/konnectd/bootstrap.go:165-175 | appends the entries that parse as addresses, then the others that parse as networks |
| `Bootstrap.Bootstrap.LoadEncryptionSecret` | cmd/konnectd/bootstrap.go:199-215 | stores the secret that `EncryptionSecret` accepts, and fails as it does |
| `Bootstrap.Bootstrap.ApplyAddresses` | cmd/konnectd/bootstrap.go:217-231 | the listen address and client path resolve flag → environment → default |
| `Bootstrap.Bootstrap.CheckConfFiles` | cmd/konnectd/bootstrap.go:233-248 | the named files are made absolute and checked; the registration file also becomes the authorities file |
| `Bootstrap.Bootstrap.SelectSigning` | cmd/konnectd/bootstrap.go:250-293 | the key id resolves flag → environment, an unknown signing method fails, the key paths come from `SigningKeyPaths`, and an empty key list replaces the method with PS256 |
| `Bootstrap.Bootstrap.MakeURIPath` | cmd/konnectd/bootstrap.go:366-377 | the path keeps the base path but for its last character as prefix and the sub-path but for its first character as suffix, has `/<api>/v1/` right after the base path less one trailing slash, and is at most two characters shorter than the three parts together |
| `Bootstrap.SubpathLeadingSlash` | cmd/konnectd/bootstrap.go:366-376 | one leading slash on the sub-path makes no difference |
| `Bootstrap.BasePathTrailingSlash` | cmd/konnectd/bootstrap.go:366-376 | one trailing slash on the base path makes no difference |
| `Bootstrap.MakeURIPathOfClean` | cmd/konnectd/bootstrap.go:366-376 | with nothing to trim, the path is `base + "/konnect/v1/" + sub` or `base + "/signin/v1/" + sub` |
| `Bootstrap.OnlyOneSlashTrimmed` | cmd/konnectd/bootstrap.go:366-371 | each trim removes at most one slash: base `//` and sub-path `//x` give `//konnect/v1//x` |

## Left out

- Network transport (the axios POST and its `Kopano-Konnect-XSRF` header), `withClientRequestState` and `newHelloRequest` are not part of this model. The request token is an input, and the hello request is the store's flow and query.
- The Redux reducers are not part of this model. Only `receiveHello`, which replaces hello, and `receiveValidateLogon`, which replaces the errors, change store state. Every other action is only logged.
- JavaScript `Error` objects become the tagged `HttpError` variants. Their message texts are not modelled.
- `window.location`, `history` and `queryString.stringify` are not modelled. Navigation is a returned value, and `stringify` is a parameter.
- Promise scheduling and overlapping attempts are not modelled. Each call is one sequential step.
- LoginActions.AdvanceNavigation: requires a hello with `details` in the oauth/consent/oidc flows. There the code dereferences `hello.details` and would throw a TypeError, which is not modelled.
- Form decoding (`DecodeSchema`) and its errors are not modelled. The decoded `Form` is the input. The `claims` parameter is kept as an opaque value.
- JWT parsing and signature checks for `request` and `id_token_hint` are oracles. Their answer is a `Result` input. The request object's signing method is not modelled, because the code does nothing with it.
- `url.Parse`, `net.ParseIP`, `net.ParseCIDR`, `filepath.Abs`, `os.Stat`, `ioutil.ReadFile`, `jwt.GetSigningMethod` and environment access are oracles or inputs.
- The kc.go collaborators are not part of this model: the logon and consent cookie readers, the client registry, the identifier's user lookup, `authorizeScopes` and `consent.ApprovedScopes`. Their answers are inputs. `WriteRedirect` is the returned redirect value, and `IsHandledError` goes with it.
- The auth record implementation is not part of this model. The auth record is a value.
- `ApproveScopes` is not modelled, because it only returns a random string.
- `ScopesSupported` and `ClaimsSupported` are modelled as constant lists with no contract.
- Bootstrap's TLS configuration, logging, the `allow-scope`, `allow-client-guests` and `allow-dynamic-client-registration` flags, and the HTTP transport are not modelled. These are pass-through settings with no checks.
- Bootstrap's key loading is not modelled: `addSignerWithIDFromFile`, the random RSA key, `validateSigners` and the validation-keys path. These are file and crypto I/O.
- `setup` and the provider wiring after `initialize` are not modelled.
- Bootstrap.Bootstrap.MakeURIPath: the unknown-API panic is a precondition, not a modelled failure.
- Integers are unbounded everywhere except `max_age`: its int64 parse range and the int64 wrap of its duration are modelled.
- Bootstrap.Bootstrap.Initialize: key-file loading (`addSignerWithIDFromFile`), `validateSigners` and the validation-key errors are not among its failures; those functions are not part of this model.

## Findings

| source | as written | input that shows it | evidently intended | confidence | as-written member | corrected member |
|---|---|---|---|---|---|---|
| oidc/payload/authentication.go:171 | `time.Duration(maxAgeInt) * time.Second` multiplies in int64 and wraps on overflow | `max_age=9223372037`: it parses as an int64, but 9223372037 × 10^9 exceeds 2^63 − 1, so MaxAge becomes negative | a max_age whose duration does not fit is refused, or the duration is exactly seconds × 10^9 | not executed; the wrap follows from Go's int64 arithmetic | `Authentication.MaxAgeAsWrittenWraps` | `Authentication.CorrectedMaxAge` |
