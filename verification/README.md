# aginx `server` command: the decisions taken before the daemon starts

aginx is a management API for nginx configurations. Its `server` command
(`cmd/server.go`) reads its options, picks a storage backend, optionally
exposes the API itself through nginx, and then starts the daemon. This
project models the deterministic part of that command, in three modules:

- `Wrappers` (`wrappers.dfy`): `Option` and `Result`, the latter used with
  `:-` for the command's panics (`PanicIfError`, and Go runtime errors such
  as an out-of-range slice).
- `Configuration` (`configuration.dfy`): the nginx directive tree as far as
  the command uses it.
  - `Directive` is the value of a directive: a name, ordered args and an
    ordered body.
  - `Node` is the mutable directive object that `NewDirective` and `AddBody`
    build in place. Its ghost `Tree` is the `Directive` it currently denotes.
- `ServerCmd` (`server_cmd.dfy`): the five functions of the command.
  - `getString`: option precedence, environment over flag.
  - `clusterConfiguration`: backend selection from the cluster connection
    string.
  - `selectDirective`: the two selector queries and their fallback order.
  - `apiServer`: builds the `server { listen 80; server_name …; location / {…} }`
    skeleton node by node.
  - `exposeApi`: adds and stores that skeleton only when no matching server
    block exists.

Foreign calls are parameters.
- The environment and the defined flags are maps.
- `url.Parse` is a function `string -> Option<Url>`.
- `client.Select` is an oracle `seq<string> -> Selection`.
- The two effects of `exposeApi`, `api.Add` under `http` and
  `StoreConfiguration`, are returned as a list of recorded `Call`s.
  `Replay` applies them to an `http` body.

`apiServer` appends the `location /` node to the server node *before*
filling it. It then keeps appending to `location`, so the server node sees
those appends. The model keeps that aliasing:
- `FillLocation` fills the location node that is already the server's last
  child.
- The twostate lemma `Node.OnlyLastChildChanged` and the ghost method
  `Node.RefreshLast` then re-establish the server node's invariant and its
  `Tree`.

## Model

| member | source | states |
|---|---|---|
| ServerCmd.GetString | cmd/server.go:19-27 | a non-empty `AGINX_<KEY>` variable is the result; with that variable empty or unset, a defined flag's value is the result; an undefined flag is the `FlagUndefined(key)` panic, and the lookup succeeds iff one of the first two cases holds |
| ServerCmd.EnvKey | cmd/server.go:20 | the override variable is the literal `AGINX_` followed by the upper-cased key |
| ServerCmd.QueryGet | cmd/server.go:40 | the first value of the query parameter, or the empty string when the parameter is absent or has no value |
| ServerCmd.ToUpperAppend | cmd/server.go:20 | upper-casing distributes over concatenation, so `ToUpper("aginx_" + key)` upper-cases the prefix and the key separately |
| ServerCmd.EnvKeyIgnoresCase | cmd/server.go:20 | a key and its upper-cased form read the same variable |
| ServerCmd.ServerEnvKeys | cmd/server.go:20 | the options `api`, `expose`, `cluster`, `security` are overridden by `AGINX_API`, `AGINX_EXPOSE`, `AGINX_CLUSTER`, `AGINX_SECURITY` respectively |
| ServerCmd.UpperCaseKey | cmd/server.go:20 | for an all-lower-case key, the override variable is `AGINX_` followed by the key's letters shifted to upper case |
| ServerCmd.EnvOverridesFlags | cmd/server.go:21-23 | a non-empty environment value is the result whatever flags are defined |
| ServerCmd.EmptyEnvIsUnset | cmd/server.go:21-26 | an empty variable behaves exactly like an unset one; the flag's value is then the result |
| ServerCmd.ClusterConfiguration | cmd/server.go:29-47 | empty string iff file backend; a parsed non-`consul` scheme iff no engine and no error; a consul engine has the URL's host, the escaped path minus its first character as folder, and the `token` query value; a panic iff the string does not parse or is a consul URL with an empty path |
| ServerCmd.HelpTextClusters | cmd/server.go:38-44 | the consul example string selects consul at `127.0.0.1:8500`, folder `aginx`, token `authtoken`; `zk://` and `etcd://` strings select no engine, because only `consul` is handled |
| ServerCmd.ConsulWithoutPath | cmd/server.go:41 | a consul URL with an empty escaped path is the `EmptyConsulPath` panic |
| ServerCmd.SelectDirective | cmd/server.go:49-62 | a non-empty match of the include-nested query returns its element 0 with that query; otherwise, when that query fails and the direct query has a non-empty match, its element 0 with the direct query; nil with the direct query iff both fail; the `EmptyMatchList` panic iff the query whose answer is used matched an empty list |
| ServerCmd.ServerSelector | cmd/server.go:50 | the domain is read back unchanged from the selector `server.[server_name('<domain>') & listen('80')]` |
| ServerCmd.DirectQuery | cmd/server.go:56 | the direct query is two steps, `http` then the selector that names the domain |
| ServerCmd.IncludeQuery | cmd/server.go:51 | the include-nested query is `http`, `include`, `*`, then the same selector as the direct query, two steps longer than it |
| ServerCmd.First | cmd/server.go:53 | a successful selection's element 0, and the `EmptyMatchList` panic exactly when the match list is empty |
| ServerCmd.SelectorDomainSound | cmd/server.go:50 | every string accepted as a selector is the selector of the domain read from it |
| ServerCmd.SelectorInjective | cmd/server.go:50 | two domains have the same selector string iff they are equal |
| ServerCmd.IncludeShapeFirst | cmd/server.go:51-55 | when the include-nested query matches, the direct query's answer does not affect the result, and the include-nested query is reported |
| ServerCmd.ProxyAddress | cmd/server.go:69-71 | a `:port` address becomes `127.0.0.1:port`, any other address is unchanged, and the result never starts with `:` |
| ServerCmd.ApiServer | cmd/server.go:64-85 | returns a fresh, valid directive object whose tree is exactly the server skeleton for the domain and address |
| ServerCmd.ServerHead | cmd/server.go:65-67 | a fresh `server` node whose body is `listen 80` then `server_name <domain>` |
| ServerCmd.FillLocation | cmd/server.go:72-83 | filling the location node through the pointer `AddBody` returned replaces the server's last child by the completed location block and leaves the server node valid |
| ServerCmd.AppendLocationStatements | cmd/server.go:73-83 | the eleven appends leave the location node's body equal to the fixed statement list, in source order |
| ServerCmd.AddForwardedHeaders | cmd/server.go:75-77 | appends the `Host`, `X-Real-IP` and `X-Forwarded-For` headers, in that order |
| ServerCmd.AddBodyLimits | cmd/server.go:78-79 | appends `client_max_body_size 10m` then `client_body_buffer_size 128k` |
| ServerCmd.AddTimeouts | cmd/server.go:80-82 | appends the connect, send and read timeouts of 90, in that order |
| ServerCmd.SkeletonShape | cmd/server.go:65-72 | the skeleton is a `server` block with no args and three statements: exactly one `listen 80`, one `server_name <domain>` and one `location /` |
| ServerCmd.SkeletonProxyPass | cmd/server.go:69-77 | the single `proxy_pass` targets `http://127.0.0.1` + address for a `:port` address and `http://` + address otherwise; the `proxy_set_header` statements are exactly the three forwarded headers |
| ServerCmd.LocationStatementsAreLeaves | cmd/server.go:73-83 | the location block holds eleven statements, none with a body |
| ServerCmd.SkeletonSelectedByItsDomain | cmd/server.go:50 | the skeleton is a port-80 server block for a domain iff that domain is the one it was built for |
| ServerCmd.ExposeApi | cmd/server.go:87-106 | a failing `api` lookup, then a failing `expose` lookup, is that failure; an empty domain changes nothing; a failing selection is that failure; a found server block changes nothing; `Add` under `http` then `StoreConfiguration` happen iff both lookups succeed, the domain is non-empty and neither query finds a server block, and the added directive is the skeleton |
| ServerCmd.ExposeIsIdempotent | cmd/server.go:96-105 | after the skeleton has been added, a second run with the same options adds and stores nothing, given a `Select` that finds server blocks placed directly under `http` |
| Configuration.Node.constructor | cmd/server.go:65 | a fresh node with the given name and args, an empty body, whose tree is a leaf |
| Configuration.Node.AddBody | cmd/server.go:66-83 | appends one fresh leaf child and returns it; the body and tree grow by exactly that child |
| Configuration.Node.OnlyLastChildChanged | cmd/server.go:72-83 | growing the last child in place keeps every other child valid and keeps all children's footprints disjoint |
| Configuration.Node.RefreshLast | cmd/server.go:72-84 | after the last child grew, the parent's tree shows the grown child and the parent is valid again |

## Left out

- Command registration, the flag definitions and their defaults and help text (`cmd/server.go:108-156`) are CLI wiring. The defined flags enter as a map.
- The daemon, `lego.NewManager`, `server.Routers` and `server.NewHttp` (`cmd/server.go:115-134`) are concurrent lifecycle management and foreign constructors.
- `os.Getenv` and the flag lookup are maps. An unset variable reads as the empty string, as `os.Getenv` does.
- `url.Parse` is an oracle on the connection string. Only the scheme, host, escaped path and query that the code reads are kept.
- `fileStorage.System`, `consul.New` and `client.NewClient` do file and network I/O. The model assumes they succeed, so their errors are not modelled.
- ClusterConfiguration: the engine is named rather than constructed. `FileEngine` and `ConsulEngine(host, folder, token)` are the arguments of the constructor call, not the backend itself.
- `client.Select` is an oracle. A `Select` that succeeds with an empty list makes Go panic on `directives[0]`, and the model returns `EmptyMatchList` for it.
- `api.Add`, `api.Configuration` and `engine.StoreConfiguration` are recorded calls, not executed. Their own errors are not modelled.
- `PanicIfError` and the `Catch` recovery are failure results, not control flow.
- EnvKey: `strings.ToUpper` is modelled on ASCII letters only. Unicode case mapping is not modelled.
- ExposeIsIdempotent: it needs an assumption about `Select`, that it finds a server block placed directly under `http`. The selector engine is not part of this model, so that cannot be proved here.
- IsServerFor: it reads only a server block's immediate `server_name` and `listen` statements. The selector engine's full matching rules are not part of this model.
- Configuration.Node: the parent pointer, the virtual and include bookkeeping, and rendering are not modelled. The nginx configuration package is not part of this model beyond `NewDirective` and `AddBody`.
- The unknown-scheme case follows the code. For a non-empty cluster string with a scheme other than `consul`, `clusterConfiguration` itself does not panic: it returns the nil engine (`NoEngine`), which the command then hands on to `exposeApi` (`cmd/server.go:120`, `cmd/server.go:125`).
- ExposeApi: it has no engine input and assumes a non-nil engine. With `NoEngine`, a non-empty domain and no matching server block, Go calls `client.NewClient` on the nil engine (`cmd/server.go:93`) and then `StoreConfiguration` on it (`cmd/server.go:103`), which panics; the model returns the two recorded calls instead. `client.NewClient` is not part of this model, so what it does with a nil engine is not stated.
- ExposeIsIdempotent: the domain is put into the selector without escaping. A domain containing `'` can change or break the selector's predicate, so the real `Select` need not find the skeleton and every run would add it again. The lemma's assumption on `Select` excludes that case; selector parsing is not part of this model.
- SelectorInjective: it is about selector strings only. Two different strings built from unescaped domains may still match the same blocks.
