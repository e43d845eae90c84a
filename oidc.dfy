/**
 * Protocol constants shared by the request parser, the identity manager and
 * the browser controller. The Go package that declares them is not part of
 * this model; the values are the parameter values and error codes of OpenID
 * Connect Core 1.0 (sections 3.1.2.1, 3.1.2.6 and 11) and of RFC 6749.
 */
module Oidc {

  const ScopeOpenID := "openid"
  const ScopeOfflineAccess := "offline_access"
  const ScopeProfile := "profile"
  const ScopeEmail := "email"

  const ResponseTypeCode := "code"
  const ResponseTypeIDToken := "id_token"
  const ResponseTypeIDTokenToken := "id_token token"
  const ResponseTypeCodeIDToken := "code id_token"
  const ResponseTypeCodeToken := "code token"
  const ResponseTypeCodeIDTokenToken := "code id_token token"
  const ResponseTypeToken := "token"

  const ResponseModeFragment := "fragment"
  const ResponseModeQuery := "query"

  const PromptNone := "none"
  const PromptLogin := "login"
  const PromptConsent := "consent"
  const PromptSelectAccount := "select_account"

  const ErrorOAuth2InvalidRequest := "invalid_request"
  const ErrorOAuth2UnsupportedResponseType := "unsupported_response_type"
  const ErrorOAuth2AccessDenied := "access_denied"
  const ErrorOIDCLoginRequired := "login_required"
  const ErrorOIDCInteractionRequired := "interaction_required"
  const ErrorOIDCRequestURINotSupported := "request_uri_not_supported"
  const ErrorOIDCRegistrationNotSupported := "registration_not_supported"

  const NameClaim := "name"
  const EmailClaim := "email"

  /** Flow names the identifier web application uses in its sign-in URL. */
  const FlowOIDC := "oidc"
  const FlowOAuth := "oauth"
  const FlowConsent := "consent"
}
