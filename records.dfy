/**
 * The typed records of a kubeconfig after parsing, the errors the engine
 * raises, and the foreign collaborators it calls (clock, file system,
 * base64 decoder, shell, JSON parser, JSONPath evaluator).
 *
 * JavaScript truthiness: an optional text field is a `string` whose empty
 * value stands for "absent" (both `undefined` and `""` are falsy). The two
 * fields that are concatenated into other strings even when absent
 * (`access-token` and `password`) are `Option<string>`, because an absent
 * one prints as "undefined".
 */
module Records {
  import opened Wrappers

  type Bytes = seq<bv8>

  datatype Cluster = Cluster(
    name: string,
    server: string,
    caFile: string,
    caData: string,
    skipTLSVerify: bool)

  /** The free-form `auth-provider.config` mapping, restricted to the keys the engine reads. */
  datatype AuthProviderConfig = AuthProviderConfig(
    accessToken: Option<string>,
    expiry: string,
    cmdPath: string,
    cmdArgs: string,
    tokenKey: Option<string>)

  datatype AuthProvider = AuthProvider(name: string, config: Option<AuthProviderConfig>)

  datatype User = User(
    name: string,
    certFile: string,
    certData: string,
    keyFile: string,
    keyData: string,
    token: string,
    username: string,
    password: Option<string>,
    authProvider: Option<AuthProvider>)

  /** Contexts refer to their cluster and user by name; references are resolved lazily. */
  datatype Context = Context(name: string, cluster: string, user: string)

  /** A kubeconfig document after YAML parsing and conversion to typed records. */
  datatype Document = Document(
    apiVersion: string,
    clusters: seq<Cluster>,
    contexts: seq<Context>,
    users: seq<User>,
    currentContext: string)

  datatype Error =
    | TypeError(property: string)     // a property read on null/undefined
    | UnknownVersion(version: string) // apiVersion other than "v1"
    | ReadFailed(path: string)        // the file could not be read
    | TokenExpired                    // expired token and no cmd-path
    | RefreshFailed(output: string)   // the helper exited with a non-zero code
    | MalformedOutput(output: string) // helper output is not JSON, or the path query throws
    | MalformedBase64(data: string)   // inline data the base64 decoder rejects

  datatype ExecResult = ExecResult(code: int, stdout: string)

  /**
   * The engine's foreign collaborators, as total functions.
   * `parseDate` gives None where `Date.parse` gives NaN; `readFile` gives None
   * where the read throws; `decodeBase64` is the decoder of the `base-64`
   * package, giving the binary string it returns (one byte per character) and
   * None where it throws; `query` is the JSONPath query over the parsed
   * stdout, rendered as the string it becomes when concatenated, None where it throws.
   */
  datatype Host = Host(
    now: int,
    parseDate: string -> Option<int>,
    readFile: string -> Option<Bytes>,
    decodeBase64: string -> Option<Bytes>,
    exec: string -> ExecResult,
    parsesAsJson: string -> bool,
    query: (string, string) -> Option<string>)

  /** How JavaScript renders a possibly-undefined string inside a concatenation. */
  function Stringify(s: Option<string>): string {
    match s
    case Some(t) => t
    case None => "undefined"
  }

  /** An Authorization header value as RFC 6750 section 2.1 writes it. */
  function Bearer(token: string): string {
    "Bearer " + token
  }

  predicate ClusterNamed(c: Cluster, name: string) { c.name == name }
  predicate UserNamed(u: User, name: string) { u.name == name }
  predicate ContextNamed(c: Context, name: string) { c.name == name }

  /** Typed records carry no nested sub-record under any key. */
  function NoMember<T>(obj: T, key: string): Option<T> { None }
}
