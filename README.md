# KubeConfig credential resolution, modelled in Dafny

This project models the credential-resolution core of the Kubernetes
JavaScript client's `KubeConfig` class (`node-client/src/config.ts`). A
kubeconfig holds clusters, users and contexts in document order, plus the
name of the current context. The client uses it to:

- resolve a name to a record with a first-match scan (`findObject`);
- follow current context → context → cluster / user;
- choose TLS material from a file path or from inline base64 data
  (RFC 4648 section 4). The decoded binary string is UTF-8 encoded on its
  way into a buffer;
- produce a bearer token (RFC 6750 section 2.1) through a small
  expiry/refresh state machine. A successful refresh overwrites the user's
  `access-token` in place;
- write CA, certificate, key, the Authorization header, basic auth and the
  TLS-skip flag into a caller-owned request-options object;
- accept a document only when its `apiVersion` is `v1`.

Layout:

- `wrappers.dfy`: `Option`, `Result` and `Outcome`.
- `records.dfy`: the typed records, the error kinds and the `Host` record of
  outside services. `Host` holds the clock, date parsing, file reads, base64
  decoding, the helper command, JSON validity and the JSONPath query.
- `lookup.dfy`: the first-match resolver, and a loosely typed JavaScript
  value for the resolver's unit test.
- `material.dfy`: the file-or-inline choice of TLS bytes, and the UTF-8
  encoding of the decoded binary string.
- `token.dfy`: the token and refresh rules, as pure functions of one user
  record.
- `options.dfy`: the mutable request-options object.
- `kubeconfig.dfy`: the navigation functions over a `KubeState` value, and
  the `KubeConfig` class. The class's methods change its fields and the
  options object in place. Each method is proved against those functions.

JavaScript truthiness is modelled directly:

- An optional string field is a `string`, and the empty string stands for
  absent.
- `access-token` and `password` are concatenated into strings, so they are
  `Option<string>`; an absent value renders as `undefined`.
- `token-key` is an `Option`, because slicing an absent key throws.
- Reading a property of `null` becomes `TypeError(property)`, in the order the
  code performs the reads.

## Model

| member | source | states |
|---|---|---|
| Lookup.FirstIndex | node-client/src/config.ts:59-60 | A found position is in range and its element carries the requested name |
| Lookup.FirstIndexIsFirstMatch | node-client/src/config.ts:59-67 | The scan stops at the first match, so every earlier element has another name; it finds nothing exactly when no element has the name |
| Lookup.FirstMatchIsFirstIndex | node-client/src/config.ts:59-66 | Conversely, a matching element with no earlier match is the one the scan stops at |
| Lookup.FindObject | node-client/src/config.ts:58-68 | The result is null exactly when the scan finds no match. Otherwise it belongs to the first match, and is that element's truthy `key` sub-record, or the element itself when there is none |
| Lookup.FindObjectFindsFirstMatch | node-client/src/config.ts:58-68 | findObject is null exactly when no element has the name. Otherwise it returns the first matching element's truthy `key` sub-record, or the element itself |
| Lookup.FindObjectIgnoresLaterDuplicates | node-client/src/config.ts:58-68 | Appending elements after a match never changes the answer, so a later duplicate name is never returned |
| Lookup.FindObjectTestCases | dist/config_test.js:29-36 | The three unit-test lookups: the nested `cluster` sub-object for "foo", the element itself for "bar" (empty `context` key), null for an unknown name |
| Material.EncodeChar | node-client/src/config.ts:103 | One character of the binary string becomes one byte below 0x80, else a two-byte UTF-8 sequence (lead `110xxxxx`, continuation `10xxxxxx`) |
| Material.Utf8OfBinary | node-client/src/config.ts:103 | The buffer made from the binary string is one byte longer than the string for each character from 0x80 on |
| Material.Utf8OfBinaryRoundTrip | node-client/src/config.ts:103 | The UTF-8 encoding loses nothing: the binary string is read back from the buffer |
| Material.AsciiPassesThrough | node-client/src/config.ts:103 | A decoded payload of ASCII characters, such as PEM text, reaches the buffer unchanged |
| Material.BufferFromFileOrString | node-client/src/config.ts:98-106 | A non-empty file path wins and yields the file's bytes, and a failed read is an error. Otherwise non-empty data that the decoder accepts yields the UTF-8 encoding of the decoded binary string. Data that it rejects is a MalformedBase64 error. Null comes back exactly when both are empty |
| Material.FileShadowsData | node-client/src/config.ts:99-101 | With a file path, the inline data is never consulted |
| Token.Expired | node-client/src/config.ts:115-118 | A refresh is due only for a present expiry that parses to a time strictly before now. An empty expiry, an unparseable one (NaN), or one at or after now never refreshes |
| Token.CommandLine | node-client/src/config.ts:119-123 | The command starts with cmd-path. It is exactly cmd-path when cmd-args is empty, and otherwise continues with one space and then cmd-args |
| Token.QueryPath | node-client/src/config.ts:131-133 | The path is `$` followed by the token key without its first and last characters (length and every character stated) |
| Token.QueryPathOfBraces | node-client/src/config.ts:132-133 | The documented `{query}` form becomes `$query` |
| Token.Refresh | node-client/src/config.ts:115-140 | An unexpired config is unchanged. When expired, each exit in source order: no cmd-path is the 'Token is expired' error; a non-zero exit is the refresh error; output that is not JSON is MalformedOutput; an absent token-key is the TypeError of `slice`; a throwing query is MalformedOutput. Otherwise the refresh succeeds, and changes only `access-token`, to the query result over the helper's output along `QueryPath(token-key)` |
| Token.TokenFor | node-client/src/config.ts:108-147 | Null exactly when there is neither a provider config nor a token. A non-empty `token` wins. Otherwise the result is `Bearer` plus the (possibly refreshed) access-token. It fails exactly when the refresh fails, even if a static token is present |
| Token.RefreshedUser | node-client/src/config.ts:111-136 | The user record changes only through a successful refresh of its provider config. Every other field of the user, and the provider's name, stays the same |
| Token.UnexpiredNeverRunsHelper | node-client/src/config.ts:115-118 | With expiry absent, unparseable or not strictly before now: the helper, JSON parser and query are never consulted, the user is unchanged, and the token is `Bearer` plus the access-token |
| Token.RefreshDoesNotExtendExpiry | node-client/src/config.ts:115-136 | After a successful refresh the config is still expired, at that time and at any later one, so the next request refreshes again |
| Kube.GetContextObject | node-client/src/config.ts:74-76 | Found exactly when some context has the name; the result is the context at the first matching position |
| Kube.GetCluster | node-client/src/config.ts:82-84 | Found exactly when some cluster has the name; the result is the first such cluster |
| Kube.GetUser | node-client/src/config.ts:90-92 | Found exactly when some user has the name; the result is the first such user |
| Kube.GetCurrentCluster | node-client/src/config.ts:70-80 | Fails as a read of `cluster` on null exactly when no context is current; otherwise it is getCluster of the current context's cluster name |
| Kube.GetCurrentUser | node-client/src/config.ts:86-88 | Fails as a read of `user` on null exactly when no context is current; otherwise it is getUser of the current context's user name |
| Kube.ActiveUser | node-client/src/config.ts:109-111 | The position of the current user record, when it exists. A missing context or user is the TypeError that the token code's first reads raise |
| Kube.GetHttpsCredentials | node-client/src/config.ts:149-158 | CA comes from the current cluster and cert and key from the current user, each chosen independently by BufferFromFileOrString. It succeeds exactly when all three do. Otherwise the error is the first failure in the order CA, cert, key. A null cluster fails at `caFile`. A null user fails at `certFile`, unless the CA has already failed |
| Kube.AuthorizationToken | node-client/src/config.ts:108-147 | The token is TokenFor the current user record; missing records fail as the source's property reads do |
| Kube.RefreshedUsers | node-client/src/config.ts:131-135 | Only the current user's record may change, into RefreshedUser of it; on any token error the list is unchanged |
| Kube.CurrentRecordsAreFirstMatches | node-client/src/config.ts:70-92 | Navigation reaches the first context named by currentContext, then the first cluster and the first user that context names |
| Kube.MissingContextFails | node-client/src/config.ts:78-80 | Without a context named by currentContext, current-cluster, current-user and credentials all fail on the null context |
| Kube.TestDocumentResolvesContext2 | dist/config_test.js:40-73 | For the loader test's document with context2 current, navigation reaches cluster2 and user2 and there is no token. The credentials are the encoded decodings of the inline data, or the decoder's first rejection in the order CA, cert, key |
| Kube.KubeConfig.constructor | node-client/src/config.ts:35 | A new config holds no clusters, users or contexts, and no current context |
| Kube.KubeConfig.GetCurrentContext | node-client/src/config.ts:49-51 | Returns the stored current-context name, whether it was last set or loaded |
| Kube.KubeConfig.SetCurrentContext | node-client/src/config.ts:49-55 | getCurrentContext then returns the name just set; the lists are unchanged |
| Kube.KubeConfig.GetAuthorizationToken | node-client/src/config.ts:108-147 | Returns AuthorizationToken of the prior state. Users become RefreshedUsers, so a successful refresh overwrites the current user's access-token in place. Any failure leaves the config unchanged. Clusters, contexts and current context never change |
| Kube.KubeConfig.ApplyTlsAndToken | node-client/src/config.ts:162-169 | CA, cert and key are overwritten, possibly with null, before the token is computed, so a token error leaves them written. Authorization is set only for a non-null token. `auth` and `strictSSL` are untouched |
| Kube.KubeConfig.ApplyToRequest | node-client/src/config.ts:175-196 | The outcome is the first error among cluster lookup, null cluster, credentials and token. strictSSL becomes false only for a TLS-skipping cluster. The basic-auth object is set only after success with a non-empty username. No other option field or header changes |
| Kube.KubeConfig.ApplyToHttpsOptions | node-client/src/config.ts:160-173 | As ApplyToRequest, without the TLS-skip step, and with `auth` the string `username:password` (an absent password renders `undefined`) |
| Kube.KubeConfig.LoadFromString | node-client/src/config.ts:198-207 | Fails with the unknown-version error, changing nothing, exactly when apiVersion is not `v1`; otherwise clusters, contexts, users and current context are those of the document |
| Kube.KubeConfig.LoadFromFile | node-client/src/config.ts:94-96 | A failed read is a ReadFailed error that changes nothing. Otherwise it behaves as LoadFromString on the parsed text: it fails with UnknownVersion of the document's apiVersion exactly when that is not `v1`, and otherwise takes the document's lists and current context |

## Left out

- The `Config` class (node-client/src/config.ts:214-266) reads environment variables, probes the filesystem and builds API clients. It is bootstrap plumbing and not part of this model.
- YAML parsing, and the `newClusters` / `newContexts` / `newUsers` converters of `./config_types`, are not part of this model. LoadFromString takes an already-parsed `Document`, and LoadFromFile takes the read and parse steps as parameters.
- File reads, base64 decoding, the helper command, `JSON.parse` and `jsonpath.query` are fields of `Host`, not implementations. The query answers with the string its result renders to, or `None` when it throws.
- The `base-64` decoder's acceptance rule is not modelled; it stays inside `Host.decodeBase64`. The decoder rejects characters outside the base64 alphabet and lengths of 1 modulo 4, and the oracle answers `None` where it throws. The UTF-8 encoding of the decoded binary string that follows is modelled exactly.
- `Date.parse` and `Date.now` are integer milliseconds, with `None` for an unparseable date (NaN compares false, so it never refreshes). Fractional milliseconds are not modelled.
- Kube.RefreshedUsers: the refreshed config is written into the first user record carrying the current user's name. A config object shared by several records (YAML aliases) is not modelled.
- Kube.KubeConfig.ApplyTlsAndToken: the options object is assumed to carry a `headers` map. The missing-headers TypeError is not modelled.
- getContexts, getClusters and getUsers are plain field reads. The class fields serve in their place.
- Kube.KubeConfig.constructor: a fresh config holds empty lists, where the source leaves the fields undefined. Lookups then miss instead of throwing.
- Loose equality (`==`) in findObject is modelled as string equality. Non-string names are not modelled.
- The typed records carry no nested `cluster` / `user` / `context` sub-record. The typed lookups therefore never unwrap one. The unwrap is modelled on the loosely typed value of the resolver's unit test.
- Error messages are modelled by their kind and the data they carry, not as message text.
- dist/config.js is the compiled form of node-client/src/config.ts, with the same logic, and is modelled once through the TypeScript.
