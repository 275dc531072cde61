/** API-key authentication: whether the gate is on (read once from the
    environment) and the per-request check of the `X-API-Key` header. */
module Auth {
  import opened Wrappers
  import opened Builtins

  const UnauthorizedStatus: int := 401
  const MissingKeyDetail: string := "API key required. Provide X-API-Key header."
  const InvalidKeyDetail: string := "Invalid API key"
  const ApiKeyChallenge: string := "ApiKey"
  /** What the check hands to the endpoint when authentication is off. */
  const DisabledKey: string := "disabled"

  /** A raised `HTTPException`: status code, detail and `WWW-Authenticate` header. */
  datatype HttpError = HttpError(statusCode: int, detail: string, wwwAuthenticate: string)

  /** The two module-level settings: AUTH_ENABLED and REQUIRED_API_KEY. */
  datatype AuthConfig = AuthConfig(enabled: bool, requiredKey: Option<string>)

  /** `v.lower() == "true"`, stated letter by letter. */
  predicate SpellsTrue(v: string) {
    |v| == 4 && forall i :: 0 <= i < 4 ==> LowerChar(v[i]) == "true"[i]
  }

  /** AUTH_ENABLED: the `AUTH_ENABLED` variable (default "false") lower-cases
      to "true", or an `API_KEY` variable is set at all (even to ""). */
  function AuthEnabled(authEnabledVar: Option<string>, apiKeyVar: Option<string>): (enabled: bool)
    ensures enabled <==> apiKeyVar.Some? || (authEnabledVar.Some? && SpellsTrue(authEnabledVar.value))
  {
    Lower(authEnabledVar.GetOr("false")) == "true" || apiKeyVar.Some?
  }

  /** The two settings as the module computes them from the environment. */
  function LoadConfig(authEnabledVar: Option<string>, apiKeyVar: Option<string>): (config: AuthConfig)
    ensures config.requiredKey == apiKeyVar
    ensures config.enabled == AuthEnabled(authEnabledVar, apiKeyVar)
  {
    AuthConfig(AuthEnabled(authEnabledVar, apiKeyVar), apiKeyVar)
  }

  /** `verify_api_key`: accept everything when off; otherwise reject a
      missing or empty header, then any header other than the configured key. */
  function VerifyApiKey(config: AuthConfig, header: Option<string>): (r: Result<string, HttpError>)
    ensures !config.enabled ==> r == Success(DisabledKey)
    ensures config.enabled && (header.None? || header.value == "") ==>
      r == Failure(HttpError(UnauthorizedStatus, MissingKeyDetail, ApiKeyChallenge))
    ensures config.enabled && header.Some? && header.value != "" && header != config.requiredKey ==>
      r == Failure(HttpError(UnauthorizedStatus, InvalidKeyDetail, ApiKeyChallenge))
    ensures config.enabled && r.Success? ==> header.Some? && header.value != "" && header == config.requiredKey && r.value == header.value
    ensures r.Failure? ==> r.error.statusCode == UnauthorizedStatus && config.enabled
  {
    if !config.enabled then Success(DisabledKey)
    else if header.None? || header.value == "" then
      Failure(HttpError(UnauthorizedStatus, MissingKeyDetail, ApiKeyChallenge))
    else if header != config.requiredKey then
      Failure(HttpError(UnauthorizedStatus, InvalidKeyDetail, ApiKeyChallenge))
    else Success(header.value)
  }

  /** A request passes exactly when the gate is off or it carries the
      configured key, non-empty. */
  lemma AcceptedIff(config: AuthConfig, header: Option<string>)
    ensures VerifyApiKey(config, header).Success? <==>
      !config.enabled || (header.Some? && header.value != "" && header == config.requiredKey)
  {
  }

  /** Switched on by AUTH_ENABLED without any API_KEY, the gate rejects every request. */
  lemma EnabledWithoutKeyRejectsAll(authEnabledVar: string, header: Option<string>)
    requires SpellsTrue(authEnabledVar)
    ensures LoadConfig(Some(authEnabledVar), None).enabled
    ensures VerifyApiKey(LoadConfig(Some(authEnabledVar), None), header).Failure?
  {
  }

  /** An API_KEY set to the empty string switches the gate on and no header can match it. */
  lemma EmptyKeyRejectsAll(authEnabledVar: Option<string>, header: Option<string>)
    ensures VerifyApiKey(LoadConfig(authEnabledVar, Some("")), header).Failure?
  {
  }
}
