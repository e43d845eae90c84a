/**
 * The identity manager backed by a Kopano Groupware Core server: how it
 * authenticates a request (signed-in status against the `prompt` values), how
 * it authorizes one (client trust, the consent cookie, `prompt=consent`,
 * `prompt=none` and offline access, section 11 of OpenID Connect Core 1.0),
 * and the user lookup and consent-reference checks.
 *
 * The cookie readers, the client registry and the user lookup are
 * collaborators: their answers are parameters. The HTTP redirect is returned
 * as a value instead of written to the response.
 */
module KCManager {
  import opened Wrappers
  import opened Urls
  import Oidc
  import opened Authentication

  /** A signed-in user; only the subject matters here. */
  datatype User = User(subject: string)

  /** The client registry's answer for the request's client. */
  datatype ClientDetails = ClientDetails(trusted: bool)

  /** A consent cookie's decision. */
  datatype Consent = Consent(allow: bool)

  /**
   * The auth record handed to the provider: the subject, the scopes it may
   * use (None until scopes are authorized) and the user it was made for.
   */
  datatype AuthRecord = AuthRecord(subject: string, authorizedScopes: Option<set<string>>, user: Option<User>)

  /** What `Authenticate` does: fail, redirect to the sign-in form, or return an auth record. */
  datatype AuthenticateResult =
    | Authenticated(record: AuthRecord)
    | AuthenticateFailed(error: AuthError)
    | SignInRedirect(location: URL)

  /**
   * What `Authorize` does: grant, refuse with an error (the auth record is
   * still returned), redirect to the consent form, or pass on a collaborator's
   * error.
   */
  datatype AuthorizeResult =
    | Authorized(record: AuthRecord)
    | Refused(record: AuthRecord, error: AuthError)
    | ConsentRedirect(location: URL)
    | CollaboratorError(message: string)

  /** The answer `Fetch` gives. */
  datatype FetchResult = Fetched(record: AuthRecord) | FetchFailed(message: string)

  class KCIdentityManager {
    /** The sign-in form the user is sent to, as parsed from the configuration. */
    const signInFormURI: URL

    constructor (signInFormURI: URL)
      ensures this.signInFormURI == signInFormURI
    {
      this.signInFormURI := signInFormURI;
    }

    /** The sign-in form, with the flow and the original query appended. */
    function FormRedirect(flow: string, rawQuery: string): (u: URL)
      ensures u.rawQuery == "flow=" + flow + "&" + rawQuery
      ensures u.scheme == signInFormURI.scheme && u.host == signInFormURI.host && u.path == signInFormURI.path
    {
      WithRawQuery(signInFormURI, "flow=" + flow + "&" + rawQuery)
    }

    /**
     * `Authenticate`: `signedIn` is the user from the logon cookie. `none` is
     * looked at before `login`, and `login` before `select_account`.
     */
    method Authenticate(ar: AuthenticationRequest, signedIn: Option<User>, rawQuery: string)
      returns (r: AuthenticateResult)
      ensures r.AuthenticateFailed? <==> signedIn.None? && Oidc.PromptNone in ar.prompts
      ensures r.AuthenticateFailed? ==>
        r.error == AuthenticationError(Oidc.ErrorOIDCLoginRequired, "KCIdentityManager: not signed in", ar.raw.state)
      ensures r.SignInRedirect? <==>
        && Oidc.PromptNone !in ar.prompts
        && (signedIn.None? || Oidc.PromptLogin in ar.prompts || Oidc.PromptSelectAccount in ar.prompts)
      ensures r.SignInRedirect? ==> r.location == FormRedirect(Oidc.FlowOIDC, rawQuery)
      ensures r.Authenticated? ==>
        signedIn.Some? && r.record == AuthRecord(signedIn.value.subject, None, signedIn)
    {
      var user: Option<User> := None;
      var err: Option<AuthError> := None;
      if signedIn.Some? {
        user := signedIn;
      } else {
        err := Some(ar.NewError(Oidc.ErrorOIDCLoginRequired, "KCIdentityManager: not signed in"));
      }

      if Oidc.PromptNone in ar.prompts {
        if err.Some? {
          return AuthenticateFailed(err.value);
        }
      } else if Oidc.PromptLogin in ar.prompts {
        if err.None? {
          err := Some(ar.NewError(Oidc.ErrorOIDCLoginRequired, "KCIdentityManager: prompt=login request"));
        }
      } else if Oidc.PromptSelectAccount in ar.prompts {
        if err.None? {
          err := Some(ar.NewError(Oidc.ErrorOIDCLoginRequired, "KCIdentityManager: prompt=select_account request"));
        }
      }

      if err.Some? {
        return SignInRedirect(FormRedirect(Oidc.FlowOIDC, rawQuery));
      }
      return Authenticated(AuthRecord(user.value.subject, None, user));
    }

    /**
     * The decision `Authorize` makes, as a table over its inputs: `lookup` is
     * the client registry's answer, `cookie` the consent cookie reader's, and
     * `approve` the consent's ApprovedScopes.
     */
    function AuthorizeOutcome(
      prompts: set<string>, scopes: set<string>, state: string, auth: AuthRecord,
      lookup: Result<ClientDetails, string>, cookie: Result<Option<Consent>, string>,
      approve: set<string> -> set<string>, rawQuery: string): AuthorizeResult
    {
      if lookup.Err? then CollaboratorError(lookup.error)
      else if cookie.Err? then CollaboratorError(cookie.error)
      else match cookie.value
        case Some(consent) =>
          if consent.allow then Authorized(auth.(authorizedScopes := Some(approve(scopes))))
          else Refused(auth, AuthenticationError(Oidc.ErrorOAuth2AccessDenied, "consent denied", state))
        case None =>
          if lookup.value.trusted && Oidc.PromptConsent !in prompts then
            Authorized(auth.(authorizedScopes := Some(scopes - {Oidc.ScopeOfflineAccess})))
          else if Oidc.PromptNone in prompts then
            Refused(auth, AuthenticationError(Oidc.ErrorOIDCInteractionRequired, "consent required", state))
          else ConsentRedirect(FormRedirect(Oidc.FlowConsent, rawQuery))
    }

    /**
     * Whether `Authorize` drops offline_access from the request's own scope
     * set: a trusted client's approved scopes are that very set.
     */
    predicate DropsOfflineAccess(
      prompts: set<string>, lookup: Result<ClientDetails, string>, cookie: Result<Option<Consent>, string>)
    {
      lookup.Ok? && lookup.value.trusted && cookie == Ok(None) && Oidc.PromptConsent !in prompts
    }

    /**
     * `Authorize`, step by step as the source reassigns its locals. When the
     * approved scopes are the request's scope set itself (a trusted client),
     * removing offline_access removes it from the request too.
     */
    method Authorize(
      ar: AuthenticationRequest, auth: AuthRecord,
      lookup: Result<ClientDetails, string>, cookie: Result<Option<Consent>, string>,
      approve: set<string> -> set<string>, rawQuery: string)
      returns (r: AuthorizeResult)
      modifies ar`scopes
      ensures r == AuthorizeOutcome(ar.prompts, old(ar.scopes), ar.raw.state, auth, lookup, cookie, approve, rawQuery)
      ensures ar.scopes ==
        if DropsOfflineAccess(ar.prompts, lookup, cookie) then old(ar.scopes) - {Oidc.ScopeOfflineAccess}
        else old(ar.scopes)
    {
      var promptConsent := Oidc.PromptConsent in ar.prompts;
      // None stands for Go's nil map; `shared` records that the map is ar.Scopes.
      var approvedScopes: Option<set<string>> := None;
      var shared := false;

      if lookup.Err? {
        return CollaboratorError(lookup.error);
      }
      if lookup.value.trusted {
        approvedScopes := Some(ar.scopes);
        shared := true;
      } else {
        promptConsent := true;
      }

      if cookie.Err? {
        return CollaboratorError(cookie.error);
      }
      var consent := cookie.value;
      if consent.Some? {
        if !consent.value.allow {
          return Refused(auth, ar.NewError(Oidc.ErrorOAuth2AccessDenied, "consent denied"));
        }
        promptConsent := false;
        approvedScopes := Some(approve(ar.scopes));
        shared := false;
      }

      if consent.None? {
        if approvedScopes.Some? && Oidc.ScopeOfflineAccess in approvedScopes.value {
          if !promptConsent {
            approvedScopes := Some(approvedScopes.value - {Oidc.ScopeOfflineAccess});
            if shared {
              ar.scopes := approvedScopes.value;
            }
          }
        }
      }

      if promptConsent {
        if Oidc.PromptNone in ar.prompts {
          return Refused(auth, ar.NewError(Oidc.ErrorOIDCInteractionRequired, "consent required"));
        }
        return ConsentRedirect(FormRedirect(Oidc.FlowConsent, rawQuery));
      }

      if consent.None? {
        assert approvedScopes.value == old(ar.scopes) - {Oidc.ScopeOfflineAccess};
      }
      return Authorized(auth.(authorizedScopes := approvedScopes));
    }

    /**
     * `Fetch`: `lookup` is the identifier's answer for `sub` (an error, no
     * user, or a user) and `authorizeScopes` the scope filter applied to the
     * user found.
     */
    function Fetch(
      sub: string, scopes: set<string>, lookup: Result<Option<User>, string>,
      authorizeScopes: (User, set<string>) -> set<string>): (r: FetchResult)
      ensures r.Fetched? <==> lookup.Ok? && lookup.value.Some? && lookup.value.value.subject == sub
      ensures r.Fetched? ==>
        r.record == AuthRecord(sub, Some(authorizeScopes(lookup.value.value, scopes)), lookup.value)
      ensures lookup.Err? ==> r == FetchFailed("KCIdentityManager: identifier error")
      ensures lookup == Ok(None) ==> r == FetchFailed("KCIdentityManager: no user")
    {
      match lookup
      case Err(_) => FetchFailed("KCIdentityManager: identifier error")
      case Ok(None) => FetchFailed("KCIdentityManager: no user")
      case Ok(Some(user)) =>
        if user.subject != sub then FetchFailed("KCIdentityManager: wrong user")
        else Fetched(AuthRecord(sub, Some(authorizeScopes(user, scopes)), Some(user)))
    }

    /** `ApprovedScopes`: an empty reference is refused; any other yields no stored scopes. */
    function ApprovedScopes(ref: string): (r: Result<Option<set<string>>, string>)
      ensures r.Err? <==> ref == ""
      ensures r.Ok? ==> r.value == None
    {
      if ref == "" then Err("KCIdentityManager: invalid ref") else Ok(None)
    }

    /** The scopes this manager can fill claims for. */
    function ScopesSupported(): seq<string>
    {
      [Oidc.ScopeProfile, Oidc.ScopeEmail]
    }

    /** The claims this manager can fill. */
    function ClaimsSupported(): seq<string>
    {
      [Oidc.NameClaim, Oidc.EmailClaim]
    }
  }

  /** Without a consent cookie an untrusted client is never granted: consent is always asked for. */
  lemma UntrustedClientNeedsConsent(
    im: KCIdentityManager, prompts: set<string>, scopes: set<string>, state: string, auth: AuthRecord,
    approve: set<string> -> set<string>, rawQuery: string)
    ensures var r := im.AuthorizeOutcome(prompts, scopes, state, auth, Ok(ClientDetails(false)), Ok(None), approve, rawQuery);
      && !r.Authorized?
      && (Oidc.PromptNone in prompts ==>
            r == Refused(auth, AuthenticationError(Oidc.ErrorOIDCInteractionRequired, "consent required", state)))
      && (Oidc.PromptNone !in prompts ==> r == ConsentRedirect(im.FormRedirect(Oidc.FlowConsent, rawQuery)))
  {
  }

  /** A consent cookie that denies gives access_denied, whatever the client and prompts. */
  lemma DeniedConsentRefuses(
    im: KCIdentityManager, prompts: set<string>, scopes: set<string>, state: string, auth: AuthRecord,
    details: ClientDetails, approve: set<string> -> set<string>, rawQuery: string)
    ensures im.AuthorizeOutcome(prompts, scopes, state, auth, Ok(details), Ok(Some(Consent(false))), approve, rawQuery)
      == Refused(auth, AuthenticationError(Oidc.ErrorOAuth2AccessDenied, "consent denied", state))
  {
  }

  /**
   * A consent cookie that allows grants the consent's approved scopes, with no
   * prompt, even for an untrusted client or with prompt=consent.
   */
  lemma AllowedConsentGrants(
    im: KCIdentityManager, prompts: set<string>, scopes: set<string>, state: string, auth: AuthRecord,
    details: ClientDetails, approve: set<string> -> set<string>, rawQuery: string)
    ensures im.AuthorizeOutcome(prompts, scopes, state, auth, Ok(details), Ok(Some(Consent(true))), approve, rawQuery)
      == Authorized(auth.(authorizedScopes := Some(approve(scopes))))
  {
  }

  /**
   * Scopes are granted only when no consent has to be asked for, and a grant
   * without a consent cookie never carries offline_access.
   */
  lemma GrantWithoutConsentHasNoOfflineAccess(
    im: KCIdentityManager, prompts: set<string>, scopes: set<string>, state: string, auth: AuthRecord,
    lookup: Result<ClientDetails, string>, approve: set<string> -> set<string>, rawQuery: string)
    requires im.AuthorizeOutcome(prompts, scopes, state, auth, lookup, Ok(None), approve, rawQuery).Authorized?
    ensures lookup.Ok? && lookup.value.trusted && Oidc.PromptConsent !in prompts
    ensures var g := im.AuthorizeOutcome(prompts, scopes, state, auth, lookup, Ok(None), approve, rawQuery);
      g.record.authorizedScopes == Some(scopes - {Oidc.ScopeOfflineAccess})
  {
  }
}
