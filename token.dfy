/**
 * The token refresh engine: the bearer token of one user, with the
 * expiry check and the exec-helper refresh of its auth-provider config.
 */
module Token {
  import opened Wrappers
  import opened Records

  /** The user's auth-provider config, when both the provider and its config are present. */
  function ProviderConfig(user: User): Option<AuthProviderConfig> {
    if user.authProvider.Some? then user.authProvider.value.config else None
  }

  /** A present expiry whose parsed value lies strictly before now; NaN is never expired. */
  predicate Expired(cfg: AuthProviderConfig, host: Host): (b: bool)
    ensures cfg.expiry == "" ==> !b
    ensures host.parseDate(cfg.expiry).None? ==> !b
    ensures host.parseDate(cfg.expiry).Some? && host.parseDate(cfg.expiry).value >= host.now ==> !b
    ensures cfg.expiry != "" && host.parseDate(cfg.expiry).Some? && host.parseDate(cfg.expiry).value < host.now ==> b
  {
    cfg.expiry != ""
    && var expiration := host.parseDate(cfg.expiry);
    expiration.Some? && expiration.value < host.now
  }

  /** The helper's command line: cmd-path, then a space and cmd-args when those are non-empty. */
  function CommandLine(cfg: AuthProviderConfig): (r: string)
    ensures cfg.cmdPath <= r
    ensures r == cfg.cmdPath <==> cfg.cmdArgs == ""
    ensures cfg.cmdArgs != "" ==> r[|cfg.cmdPath|] == ' ' && r[|cfg.cmdPath| + 1..] == cfg.cmdArgs
  {
    if cfg.cmdArgs != "" then cfg.cmdPath + " " + cfg.cmdArgs else cfg.cmdPath
  }

  /** `'$' + key.slice(1, -1)`: the first and last characters replaced by the root selector. */
  function QueryPath(tokenKey: string): (r: string)
    ensures |r| == if |tokenKey| >= 2 then |tokenKey| - 1 else 1
    ensures r[0] == '$'
    ensures forall k :: 1 <= k < |r| ==> r[k] == tokenKey[k]
  {
    if |tokenKey| >= 2 then "$" + tokenKey[1..|tokenKey| - 1] else "$"
  }

  /** The documented `{<query>}` form becomes `$<query>`. */
  lemma QueryPathOfBraces(query: string)
    ensures QueryPath("{" + query + "}") == "$" + query
  {
    var key := "{" + query + "}";
    assert key[1..|key| - 1] == query;
  }

  /**
   * The auth-provider config after one credential request: unchanged unless
   * expired; when expired, a missing cmd-path, a failing helper, output that is
   * not JSON, a missing token-key or a throwing query is an error; otherwise
   * only access-token is overwritten, with the extracted value.
   */
  function Refresh(cfg: AuthProviderConfig, host: Host): (r: Result<AuthProviderConfig, Error>)
    ensures !Expired(cfg, host) ==> r == Success(cfg)
    ensures Expired(cfg, host) && cfg.cmdPath == "" ==> r == Failure(TokenExpired)
    ensures Expired(cfg, host) && cfg.cmdPath != "" && host.exec(CommandLine(cfg)).code != 0
            ==> r == Failure(RefreshFailed(host.exec(CommandLine(cfg)).stdout))
    ensures Expired(cfg, host) && cfg.cmdPath != "" && host.exec(CommandLine(cfg)).code == 0
            && !host.parsesAsJson(host.exec(CommandLine(cfg)).stdout)
            ==> r == Failure(MalformedOutput(host.exec(CommandLine(cfg)).stdout))
    ensures var out := host.exec(CommandLine(cfg)).stdout;
            Expired(cfg, host) && cfg.cmdPath != "" && host.exec(CommandLine(cfg)).code == 0
            && host.parsesAsJson(out) && cfg.tokenKey.None?
            ==> r == Failure(TypeError("slice"))
    ensures var out := host.exec(CommandLine(cfg)).stdout;
            Expired(cfg, host) && cfg.cmdPath != "" && host.exec(CommandLine(cfg)).code == 0
            && host.parsesAsJson(out) && cfg.tokenKey.Some?
            ==> r == match host.query(out, QueryPath(cfg.tokenKey.value))
                     case None => Failure(MalformedOutput(out))
                     case Some(extracted) => Success(cfg.(accessToken := Some(extracted)))
    ensures r.Success? ==> r.value == cfg.(accessToken := r.value.accessToken)
    ensures r.Success? && Expired(cfg, host) ==>
              var out := host.exec(CommandLine(cfg)).stdout;
              && cfg.cmdPath != ""
              && host.exec(CommandLine(cfg)).code == 0
              && host.parsesAsJson(out)
              && cfg.tokenKey.Some?
              && r.value.accessToken == host.query(out, QueryPath(cfg.tokenKey.value))
              && r.value.accessToken.Some?
  {
    if !Expired(cfg, host) then Success(cfg)
    else if cfg.cmdPath == "" then Failure(TokenExpired)
    else
      var result := host.exec(CommandLine(cfg));
      if result.code != 0 then Failure(RefreshFailed(result.stdout))
      else if !host.parsesAsJson(result.stdout) then Failure(MalformedOutput(result.stdout))
      else if cfg.tokenKey.None? then Failure(TypeError("slice"))
      else
        var extracted := host.query(result.stdout, QueryPath(cfg.tokenKey.value));
        if extracted.None? then Failure(MalformedOutput(result.stdout))
        else Success(cfg.(accessToken := extracted))
  }

  /**
   * The Authorization value for `user`: null when it has neither an
   * auth-provider config nor a static token; the static token whenever it is
   * non-empty; otherwise the (possibly refreshed) access-token. A refresh error
   * propagates even when a static token is present.
   */
  function TokenFor(user: User, host: Host): (r: Result<Option<string>, Error>)
    ensures ProviderConfig(user).None? ==> r.Success?
    ensures r.Success? ==> (r.value.None? <==> ProviderConfig(user).None? && user.token == "")
    ensures r.Success? && user.token != "" ==> r.value == Some(Bearer(user.token))
    ensures r.Success? && user.token == "" && ProviderConfig(user).Some? ==>
              var cfg := Refresh(ProviderConfig(user).value, host);
              cfg.Success? && r.value == Some(Bearer(Stringify(cfg.value.accessToken)))
    ensures r.Failure? <==> ProviderConfig(user).Some? && Refresh(ProviderConfig(user).value, host).Failure?
    ensures r.Failure? ==> r.error == Refresh(ProviderConfig(user).value, host).error
  {
    match ProviderConfig(user)
    case None =>
      Success(if user.token != "" then Some(Bearer(user.token)) else None)
    case Some(cfg) =>
      match Refresh(cfg, host)
      case Failure(e) => Failure(e)
      case Success(renewed) =>
        Success(Some(if user.token != "" then Bearer(user.token) else Bearer(Stringify(renewed.accessToken))))
  }

  /** The user record with its auth-provider config replaced. */
  function WithProviderConfig(user: User, cfg: AuthProviderConfig): User
    requires user.authProvider.Some?
  {
    user.(authProvider := Some(user.authProvider.value.(config := Some(cfg))))
  }

  /** The user record after one credential request: only a successful refresh changes it. */
  function RefreshedUser(user: User, host: Host): (u: User)
    ensures u.(authProvider := user.authProvider) == user
    ensures u.authProvider.Some? <==> user.authProvider.Some?
    ensures u.authProvider.Some? ==> u.authProvider.value.name == user.authProvider.value.name
    ensures ProviderConfig(user).None? ==> u == user
    ensures TokenFor(user, host).Failure? ==> u == user
    ensures ProviderConfig(user).Some? && Refresh(ProviderConfig(user).value, host).Success? ==>
              ProviderConfig(u) == Some(Refresh(ProviderConfig(user).value, host).value)
  {
    match ProviderConfig(user)
    case None => user
    case Some(cfg) =>
      match Refresh(cfg, host)
      case Failure(_) => user
      case Success(renewed) => WithProviderConfig(user, renewed)
  }

  /** A token that is not expired is returned without consulting the helper. */
  lemma UnexpiredNeverRunsHelper(user: User, host: Host,
                                 exec: string -> ExecResult, parsesAsJson: string -> bool,
                                 query: (string, string) -> Option<string>)
    requires ProviderConfig(user).Some?
    requires var cfg := ProviderConfig(user).value;
      cfg.expiry == "" || host.parseDate(cfg.expiry).None? || host.parseDate(cfg.expiry).value >= host.now
    ensures var other := host.(exec := exec, parsesAsJson := parsesAsJson, query := query);
      TokenFor(user, other) == TokenFor(user, host) && RefreshedUser(user, other) == RefreshedUser(user, host)
    ensures RefreshedUser(user, host) == user
    ensures user.token == "" ==> TokenFor(user, host) == Success(Some(Bearer(Stringify(ProviderConfig(user).value.accessToken))))
  {
  }

  /**
   * Expiry is never rewritten: after a successful refresh the config is still
   * expired at that time and at every later one, so the next request runs the
   * helper again.
   */
  lemma RefreshDoesNotExtendExpiry(user: User, host: Host, later: int)
    requires ProviderConfig(user).Some? && Expired(ProviderConfig(user).value, host)
    requires TokenFor(user, host).Success?
    requires later >= host.now
    ensures ProviderConfig(RefreshedUser(user, host)).Some?
    ensures Expired(ProviderConfig(RefreshedUser(user, host)).value, host.(now := later))
  {
  }
}
