/**
 * The KubeConfig aggregate: clusters, users and contexts in document order
 * plus the current-context name, with the context navigator, the credential
 * assembly and the version-checked loader.
 */
module Kube {
  import opened Wrappers
  import opened Records
  import opened Lookup
  import opened Material
  import opened Token
  import opened Options

  const AuthorizationHeader := "Authorization"

  /** The four fields of a KubeConfig, as one value. */
  datatype KubeState = KubeState(
    clusters: seq<Cluster>,
    users: seq<User>,
    contexts: seq<Context>,
    currentContext: string)

  /** The first context of that name (typed contexts have no nested `context` record). */
  function GetContextObject(s: KubeState, name: string): (r: Option<Context>)
    ensures r.Some? <==> FirstIndex(s.contexts, name, ContextNamed).Some?
    ensures r.Some? ==> r.value == s.contexts[FirstIndex(s.contexts, name, ContextNamed).value]
  {
    FindObject(s.contexts, name, "context", ContextNamed, NoMember)
  }

  /** The first cluster of that name, or null. */
  function GetCluster(s: KubeState, name: string): (r: Option<Cluster>)
    ensures r.Some? <==> FirstIndex(s.clusters, name, ClusterNamed).Some?
    ensures r.Some? ==> r.value == s.clusters[FirstIndex(s.clusters, name, ClusterNamed).value]
  {
    FindObject(s.clusters, name, "cluster", ClusterNamed, NoMember)
  }

  /** The first user of that name, or null. */
  function GetUser(s: KubeState, name: string): (r: Option<User>)
    ensures r.Some? <==> FirstIndex(s.users, name, UserNamed).Some?
    ensures r.Some? ==> r.value == s.users[FirstIndex(s.users, name, UserNamed).value]
  {
    FindObject(s.users, name, "user", UserNamed, NoMember)
  }

  /**
   * The cluster named by the current context. Reading `cluster` off a
   * missing context throws; a missing cluster is null.
   */
  function GetCurrentCluster(s: KubeState): (r: Result<Option<Cluster>, Error>)
    ensures r.Failure? <==> GetContextObject(s, s.currentContext).None?
    ensures r.Failure? ==> r.error == TypeError("cluster")
    ensures r.Success? ==> r.value == GetCluster(s, GetContextObject(s, s.currentContext).value.cluster)
  {
    match GetContextObject(s, s.currentContext)
    case None => Failure(TypeError("cluster"))
    case Some(context) => Success(GetCluster(s, context.cluster))
  }

  /** The user named by the current context, as GetCurrentCluster does for clusters. */
  function GetCurrentUser(s: KubeState): (r: Result<Option<User>, Error>)
    ensures r.Failure? <==> GetContextObject(s, s.currentContext).None?
    ensures r.Failure? ==> r.error == TypeError("user")
    ensures r.Success? ==> r.value == GetUser(s, GetContextObject(s, s.currentContext).value.user)
  {
    match GetContextObject(s, s.currentContext)
    case None => Failure(TypeError("user"))
    case Some(context) => Success(GetUser(s, context.user))
  }

  /** Index in `users` of the current user, the record a token refresh rewrites. */
  function ActiveUser(s: KubeState): (r: Result<nat, Error>)
    ensures r.Success? ==> r.value < |s.users| && GetCurrentUser(s) == Success(Some(s.users[r.value]))
    ensures r.Failure? <==> GetCurrentUser(s).Failure? || GetCurrentUser(s) == Success(None)
    ensures GetCurrentUser(s).Failure? ==> r == Failure(GetCurrentUser(s).error)
    ensures GetCurrentUser(s) == Success(None) ==> r == Failure(TypeError("authProvider"))
  {
    match GetContextObject(s, s.currentContext)
    case None => Failure(TypeError("user"))
    case Some(context) =>
      match FirstIndex(s.users, context.user, UserNamed)
      case None => Failure(TypeError("authProvider"))
      case Some(i) => Success(i)
  }

  /**
   * CA from the current cluster, cert and key from the current user, each
   * chosen independently by BufferFromFileOrString; errors surface in the
   * order the source meets them.
   */
  function GetHttpsCredentials(s: KubeState, host: Host): (r: Result<Credentials, Error>)
    ensures match (GetCurrentCluster(s), GetCurrentUser(s))
      case (Success(Some(c)), Success(Some(u))) =>
        var ca := BufferFromFileOrString(c.caFile, c.caData, host);
        var cert := BufferFromFileOrString(u.certFile, u.certData, host);
        var key := BufferFromFileOrString(u.keyFile, u.keyData, host);
        && (r.Success? <==> ca.Success? && cert.Success? && key.Success?)
        && (r.Success? ==> r.value == Credentials(ca.value, cert.value, key.value))
        && (ca.Failure? ==> r == Failure(ca.error))
        && (ca.Success? && cert.Failure? ==> r == Failure(cert.error))
        && (ca.Success? && cert.Success? && key.Failure? ==> r == Failure(key.error))
      case (Success(None), _) => r == Failure(TypeError("caFile"))
      case (Failure(e), _) => r == Failure(e)
      case (Success(Some(c)), _) =>
        var ca := BufferFromFileOrString(c.caFile, c.caData, host);
        r == if ca.Failure? then Failure(ca.error) else Failure(TypeError("certFile"))
    ensures r.Success? ==> ActiveUser(s).Success?
  {
    match GetContextObject(s, s.currentContext)
    case None => Failure(TypeError("cluster"))
    case Some(context) =>
      match GetCluster(s, context.cluster)
      case None => Failure(TypeError("caFile"))
      case Some(cluster) =>
        match BufferFromFileOrString(cluster.caFile, cluster.caData, host)
        case Failure(e) => Failure(e)
        case Success(ca) =>
          match GetUser(s, context.user)
          case None => Failure(TypeError("certFile"))
          case Some(user) =>
            match BufferFromFileOrString(user.certFile, user.certData, host)
            case Failure(e) => Failure(e)
            case Success(cert) =>
              match BufferFromFileOrString(user.keyFile, user.keyData, host)
              case Failure(e) => Failure(e)
              case Success(key) => Success(Credentials(ca, cert, key))
  }

  /** The token the current user yields: the specification of KubeConfig.GetAuthorizationToken. */
  function AuthorizationToken(s: KubeState, host: Host): (r: Result<Option<string>, Error>)
    ensures ActiveUser(s).Failure? ==> r == Failure(ActiveUser(s).error)
    ensures ActiveUser(s).Success? ==> r == TokenFor(s.users[ActiveUser(s).value], host)
  {
    match ActiveUser(s)
    case Failure(e) => Failure(e)
    case Success(i) => TokenFor(s.users[i], host)
  }

  /** The user list after a credential request: only the current user's record may change. */
  function RefreshedUsers(s: KubeState, host: Host): (r: seq<User>)
    ensures |r| == |s.users|
    ensures forall j :: 0 <= j < |s.users| && (ActiveUser(s).Failure? || j != ActiveUser(s).value) ==> r[j] == s.users[j]
    ensures ActiveUser(s).Success? ==> r[ActiveUser(s).value] == RefreshedUser(s.users[ActiveUser(s).value], host)
    ensures AuthorizationToken(s, host).Failure? ==> r == s.users
  {
    match ActiveUser(s)
    case Failure(_) => s.users
    case Success(i) => s.users[i := RefreshedUser(s.users[i], host)]
  }

  /**
   * Navigation resolves to the first context named by currentContext and then
   * to the first cluster and the first user that context names.
   */
  lemma {:induction false} CurrentRecordsAreFirstMatches(s: KubeState, i: nat, j: nat, k: nat)
    requires i < |s.contexts| && s.contexts[i].name == s.currentContext
    requires forall m :: 0 <= m < i ==> s.contexts[m].name != s.currentContext
    requires j < |s.clusters| && s.clusters[j].name == s.contexts[i].cluster
    requires forall m :: 0 <= m < j ==> s.clusters[m].name != s.contexts[i].cluster
    requires k < |s.users| && s.users[k].name == s.contexts[i].user
    requires forall m :: 0 <= m < k ==> s.users[m].name != s.contexts[i].user
    ensures GetCurrentCluster(s) == Success(Some(s.clusters[j]))
    ensures GetCurrentUser(s) == Success(Some(s.users[k]))
    ensures ActiveUser(s) == Success(k)
  {
    FirstMatchIsFirstIndex(s.contexts, s.currentContext, ContextNamed, i);
    FirstMatchIsFirstIndex(s.clusters, s.contexts[i].cluster, ClusterNamed, j);
    FirstMatchIsFirstIndex(s.users, s.contexts[i].user, UserNamed, k);
  }

  /** With no context named by currentContext, both current lookups fail as a property read on null. */
  lemma MissingContextFails(s: KubeState, host: Host)
    requires forall m :: 0 <= m < |s.contexts| ==> s.contexts[m].name != s.currentContext
    ensures GetCurrentCluster(s) == Failure(TypeError("cluster"))
    ensures GetCurrentUser(s) == Failure(TypeError("user"))
    ensures GetHttpsCredentials(s, host) == Failure(TypeError("cluster"))
  {
  }

  /**
   * The two-cluster, two-user, two-context document of the loader test, with
   * context2 current: navigation reaches cluster2 and user2, there is no
   * token, and the credentials are cluster2's and user2's inline data decoded,
   * or the first rejection of the decoder ('_' is outside the base64 alphabet,
   * so the `base-64` decoder rejects the user's data).
   */
  lemma TestDocumentResolvesContext2(host: Host)
    ensures var s := KubeState(
              [Cluster("cluster1", "http://example.com", "", "CADATA", false),
               Cluster("cluster2", "http://example2.com", "", "CADATA2", false)],
              [User("user1", "", "USER_CADATA", "", "USER_CKDATA", "", "", None, None),
               User("user2", "", "USER2_CADATA", "", "USER2_CKDATA", "", "", None, None)],
              [Context("context1", "cluster1", "user1"), Context("context2", "cluster2", "user2")],
              "context2");
            && GetCurrentCluster(s) == Success(Some(s.clusters[1]))
            && GetCurrentUser(s) == Success(Some(s.users[1]))
            && AuthorizationToken(s, host) == Success(None)
            && var ca, cert, key := host.decodeBase64("CADATA2"), host.decodeBase64("USER2_CADATA"),
                                    host.decodeBase64("USER2_CKDATA");
               GetHttpsCredentials(s, host)
               == if ca.None? then Failure(MalformedBase64("CADATA2"))
                  else if cert.None? then Failure(MalformedBase64("USER2_CADATA"))
                  else if key.None? then Failure(MalformedBase64("USER2_CKDATA"))
                  else Success(Credentials(Some(Utf8OfBinary(ca.value)), Some(Utf8OfBinary(cert.value)),
                                           Some(Utf8OfBinary(key.value))))
  {
  }

  class KubeConfig {
    var clusters: seq<Cluster>
    var users: seq<User>
    var contexts: seq<Context>
    var currentContext: string

    /** A fresh config holds nothing; every lookup misses until a document is loaded. */
    constructor ()
      ensures State() == KubeState([], [], [], "")
    {
      clusters, users, contexts, currentContext := [], [], [], "";
    }

    function State(): KubeState
      reads this
    {
      KubeState(clusters, users, contexts, currentContext)
    }

    /** The current-context name: the one last set, or the one the loaded document named. */
    function GetCurrentContext(): (r: string)
      reads this
      ensures r == State().currentContext
    {
      currentContext
    }

    method SetCurrentContext(context: string)
      modifies this
      ensures GetCurrentContext() == context
      ensures clusters == old(clusters) && users == old(users) && contexts == old(contexts)
    {
      currentContext := context;
    }

    /**
     * The bearer token for the current user. A successful refresh overwrites
     * the user's access-token in place; every failure leaves the config as it was.
     */
    method GetAuthorizationToken(host: Host) returns (r: Result<Option<string>, Error>)
      modifies this
      ensures r == AuthorizationToken(old(State()), host)
      ensures users == RefreshedUsers(old(State()), host)
      ensures r.Failure? ==> users == old(users)
      ensures clusters == old(clusters) && contexts == old(contexts) && currentContext == old(currentContext)
    {
      var active := ActiveUser(State());
      if active.Failure? {
        return Failure(active.error);
      }
      var i := active.value;
      var user := users[i];
      var token: Option<string> := None;
      if user.authProvider.Some? && user.authProvider.value.config.Some? {
        var config := user.authProvider.value.config.value;
        token := Some(Bearer(Stringify(config.accessToken)));
        var expiry := config.expiry;
        if expiry != "" {
          var expiration := host.parseDate(expiry);
          if expiration.Some? && expiration.value < host.now {
            if config.cmdPath != "" {
              var cmd := config.cmdPath;
              if config.cmdArgs != "" {
                cmd := cmd + " " + config.cmdArgs;
              }
              var result := host.exec(cmd);
              if result.code != 0 {
                return Failure(RefreshFailed(result.stdout));
              }
              if !host.parsesAsJson(result.stdout) {
                return Failure(MalformedOutput(result.stdout));
              }
              if config.tokenKey.None? {
                return Failure(TypeError("slice"));
              }
              var path := QueryPath(config.tokenKey.value);
              var extracted := host.query(result.stdout, path);
              if extracted.None? {
                return Failure(MalformedOutput(result.stdout));
              }
              config := config.(accessToken := extracted);
              users := users[i := WithProviderConfig(user, config)];
              token := Some(Bearer(Stringify(config.accessToken)));
            } else {
              return Failure(TokenExpired);
            }
          }
        }
      }
      if user.token != "" {
        token := Some(Bearer(user.token));
      }
      return Success(token);
    }

    /**
     * The steps both ApplyTo methods share: CA, cert and key are written first
     * (possibly null), then the token is computed, then the Authorization
     * header is set when the token is non-null. A token error leaves CA, cert
     * and key already written.
     */
    method ApplyTlsAndToken(opts: RequestOptions, host: Host) returns (r: Outcome<Error>)
      modifies this, opts
      ensures clusters == old(clusters) && contexts == old(contexts) && currentContext == old(currentContext)
      ensures opts.auth == old(opts.auth) && opts.strictSSL == old(opts.strictSSL)
      ensures var creds, token := GetHttpsCredentials(old(State()), host), AuthorizationToken(old(State()), host);
              r == if creds.Failure? then Fail(creds.error) else if token.Failure? then Fail(token.error) else Pass
      ensures var creds := GetHttpsCredentials(old(State()), host);
              if creds.Success?
              then opts.ca == creds.value.ca && opts.cert == creds.value.cert && opts.key == creds.value.key
              else opts.ca == old(opts.ca) && opts.cert == old(opts.cert) && opts.key == old(opts.key)
      ensures users == if GetHttpsCredentials(old(State()), host).Success? then RefreshedUsers(old(State()), host) else old(users)
      ensures var token := AuthorizationToken(old(State()), host);
              opts.headers == if r.Pass? && token.Success? && token.value.Some?
                              then old(opts.headers)[AuthorizationHeader := token.value.value]
                              else old(opts.headers)
      ensures r.Pass? ==> GetCurrentUser(old(State())).Success? && GetCurrentUser(old(State())).value.Some?
    {
      var creds := GetHttpsCredentials(State(), host);
      if creds.Failure? {
        return Fail(creds.error);
      }
      opts.ca, opts.cert, opts.key := creds.value.ca, creds.value.cert, creds.value.key;
      var token := GetAuthorizationToken(host);
      if token.Failure? {
        return Fail(token.error);
      }
      if token.value.Some? {
        opts.headers := opts.headers[AuthorizationHeader := token.value.value];
      }
      return Pass;
    }

    /**
     * Writes the current credentials into `opts` for the `request` library:
     * strictSSL=false only for a TLS-skipping cluster, then CA/cert/key and the
     * Authorization header (ApplyTlsAndToken), then the basic-auth object when
     * the user has a username. A failure at one step leaves the earlier writes
     * in place and the later fields untouched.
     */
    method ApplyToRequest(opts: RequestOptions, host: Host) returns (r: Outcome<Error>)
      modifies this, opts
      ensures clusters == old(clusters) && contexts == old(contexts) && currentContext == old(currentContext)
      ensures var cluster, creds, token := GetCurrentCluster(old(State())), GetHttpsCredentials(old(State()), host), AuthorizationToken(old(State()), host);
              r == if cluster.Failure? then Fail(cluster.error)
                   else if cluster.value.None? then Fail(TypeError("skipTLSVerify"))
                   else if creds.Failure? then Fail(creds.error)
                   else if token.Failure? then Fail(token.error)
                   else Pass
      ensures var cluster := GetCurrentCluster(old(State()));
              opts.strictSSL == if cluster.Success? && cluster.value.Some? && cluster.value.value.skipTLSVerify
                                then Some(false) else old(opts.strictSSL)
      ensures var creds := GetHttpsCredentials(old(State()), host);
              if creds.Success?
              then opts.ca == creds.value.ca && opts.cert == creds.value.cert && opts.key == creds.value.key
              else opts.ca == old(opts.ca) && opts.cert == old(opts.cert) && opts.key == old(opts.key)
      ensures users == if GetHttpsCredentials(old(State()), host).Success? then RefreshedUsers(old(State()), host) else old(users)
      ensures var token := AuthorizationToken(old(State()), host);
              opts.headers == if r.Pass? && token.Success? && token.value.Some?
                              then old(opts.headers)[AuthorizationHeader := token.value.value]
                              else old(opts.headers)
      ensures var user := GetCurrentUser(old(State()));
              opts.auth == if r.Pass? && user.Success? && user.value.Some? && user.value.value.username != ""
                           then Some(AuthObject(user.value.value.username, user.value.value.password))
                           else old(opts.auth)
    {
      var cluster := GetCurrentCluster(State());
      var user := GetCurrentUser(State());
      if cluster.Failure? {
        return Fail(cluster.error);
      }
      if cluster.value.None? {
        return Fail(TypeError("skipTLSVerify"));
      }
      if cluster.value.value.skipTLSVerify {
        opts.strictSSL := Some(false);
      }
      r := ApplyTlsAndToken(opts, host);
      if r.Pass? {
        var u := user.value.value;
        if u.username != "" {
          opts.auth := Some(AuthObject(u.username, u.password));
        }
      }
    }

    /**
     * Writes the current credentials into `opts` for the `https` module: as
     * ApplyToRequest, but without the TLS-skip step and with `auth` the string
     * `username:password`.
     */
    method ApplyToHttpsOptions(opts: RequestOptions, host: Host) returns (r: Outcome<Error>)
      modifies this, opts
      ensures clusters == old(clusters) && contexts == old(contexts) && currentContext == old(currentContext)
      ensures var user, creds, token := GetCurrentUser(old(State())), GetHttpsCredentials(old(State()), host), AuthorizationToken(old(State()), host);
              r == if user.Failure? then Fail(user.error)
                   else if creds.Failure? then Fail(creds.error)
                   else if token.Failure? then Fail(token.error)
                   else Pass
      ensures opts.strictSSL == old(opts.strictSSL)
      ensures var creds := GetHttpsCredentials(old(State()), host);
              if creds.Success?
              then opts.ca == creds.value.ca && opts.cert == creds.value.cert && opts.key == creds.value.key
              else opts.ca == old(opts.ca) && opts.cert == old(opts.cert) && opts.key == old(opts.key)
      ensures users == if GetHttpsCredentials(old(State()), host).Success? then RefreshedUsers(old(State()), host) else old(users)
      ensures var token := AuthorizationToken(old(State()), host);
              opts.headers == if r.Pass? && token.Success? && token.value.Some?
                              then old(opts.headers)[AuthorizationHeader := token.value.value]
                              else old(opts.headers)
      ensures var user := GetCurrentUser(old(State()));
              opts.auth == if r.Pass? && user.Success? && user.value.Some? && user.value.value.username != ""
                           then Some(AuthString(user.value.value.username + ":" + Stringify(user.value.value.password)))
                           else old(opts.auth)
    {
      var user := GetCurrentUser(State());
      if user.Failure? {
        return Fail(user.error);
      }
      r := ApplyTlsAndToken(opts, host);
      if r.Pass? {
        var u := user.value.value;
        if u.username != "" {
          opts.auth := Some(AuthString(u.username + ":" + Stringify(u.password)));
        }
      }
    }

    /**
     * Replaces the lists and the current context with those of a parsed
     * document; any apiVersion other than "v1" is rejected and changes nothing.
     */
    method LoadFromString(doc: Document) returns (r: Outcome<Error>)
      modifies this
      ensures r.Fail? <==> doc.apiVersion != "v1"
      ensures r.Fail? ==> r.error == UnknownVersion(doc.apiVersion)
                          && clusters == old(clusters) && users == old(users)
                          && contexts == old(contexts) && currentContext == old(currentContext)
      ensures r.Pass? ==> clusters == doc.clusters && users == doc.users && contexts == doc.contexts
                          && GetCurrentContext() == doc.currentContext
    {
      if doc.apiVersion != "v1" {
        return Fail(UnknownVersion(doc.apiVersion));
      }
      clusters := doc.clusters;
      contexts := doc.contexts;
      users := doc.users;
      currentContext := doc.currentContext;
      return Pass;
    }

    /**
     * Reads the file as text and loads it; a read failure is an error that
     * leaves the config untouched.
     */
    method LoadFromFile(file: string, readText: string -> Option<string>, parse: string -> Document)
      returns (r: Outcome<Error>)
      modifies this
      ensures readText(file).None? ==> r == Fail(ReadFailed(file))
      ensures r.Fail? ==> clusters == old(clusters) && users == old(users)
                          && contexts == old(contexts) && currentContext == old(currentContext)
      ensures readText(file).Some? ==>
                var doc := parse(readText(file).value);
                (r.Pass? <==> doc.apiVersion == "v1")
                && (r.Fail? ==> r.error == UnknownVersion(doc.apiVersion))
                && (r.Pass? ==> clusters == doc.clusters && users == doc.users && contexts == doc.contexts
                                && currentContext == doc.currentContext)
    {
      var text := readText(file);
      if text.None? {
        return Fail(ReadFailed(file));
      }
      r := LoadFromString(parse(text.value));
    }
  }
}
