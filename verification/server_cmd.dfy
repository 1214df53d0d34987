/**
 * The deterministic decisions the `server` command takes before it starts the
 * daemon: where an option's value comes from, which storage backend a cluster
 * connection string selects, how the API-exposure server block is looked up,
 * what that block contains, and when it is added to the configuration.
 */
module ServerCmd {
  import opened Wrappers
  import opened Configuration

  /** Why the command panics (PanicIfError, or a Go runtime error). */
  datatype Panic =
    | FlagUndefined(flag: string)  // the flag lookup returned an error
    | MalformedCluster             // url.Parse rejected the cluster string
    | EmptyConsulPath              // EscapedPath()[1:] on an empty path
    | EmptyMatchList               // directives[0] on an empty successful selection

  // ---------------------------------------------------------------------------
  // Option lookup
  // ---------------------------------------------------------------------------

  /** Upper-case mapping of one character (ASCII letters only). */
  function UpperChar(c: char): char {
    if 'a' <= c <= 'z' then (c as int - 32) as char else c
  }

  /** strings.ToUpper, on ASCII letters. */
  function ToUpper(s: string): (r: string)
    ensures |r| == |s|
    ensures forall i | 0 <= i < |s| :: r[i] == UpperChar(s[i])
  {
    if s == [] then [] else [UpperChar(s[0])] + ToUpper(s[1..])
  }

  /** The environment variable that overrides the flag `key`. */
  function EnvKey(key: string): (r: string)
    ensures r == "AGINX_" + ToUpper(key)
  {
    ToUpperAppend("aginx_", key);
    UpperPrefix();
    ToUpper("aginx_" + key)
  }

  /** os.Getenv: an unset variable reads as the empty string. */
  function Getenv(env: map<string, string>, name: string): string {
    if name in env then env[name] else ""
  }

  /**
   * getString: a non-empty environment value wins; otherwise the flag's value,
   * and a flag the command does not define is a panic.
   */
  function GetString(env: map<string, string>, flags: map<string, string>, key: string): (r: Result<string, Panic>)
    ensures r.Success? <==> Getenv(env, EnvKey(key)) != "" || key in flags
    ensures Getenv(env, EnvKey(key)) != "" ==> r == Success(Getenv(env, EnvKey(key)))
    ensures Getenv(env, EnvKey(key)) == "" && key in flags ==> r == Success(flags[key])
    ensures r.Failure? ==> r.error == FlagUndefined(key)
  {
    var value := Getenv(env, EnvKey(key));
    if value != "" then Success(value)
    else if key in flags then Success(flags[key])
    else Failure(FlagUndefined(key))
  }

  // ---------------------------------------------------------------------------
  // Storage backend selection
  // ---------------------------------------------------------------------------

  /** The parts of a parsed connection string that backend selection reads. */
  datatype Url = Url(scheme: string, host: string, escapedPath: string, query: map<string, seq<string>>)

  /** The storage backend chosen; `NoEngine` is the nil engine left by an unhandled scheme. */
  datatype Engine =
    | FileEngine
    | ConsulEngine(host: string, folder: string, token: string)
    | NoEngine

  /** url.Values.Get: the first value for `key`, or the empty string. */
  function QueryGet(query: map<string, seq<string>>, key: string): (r: string)
    ensures key in query && query[key] != [] ==> r == query[key][0]
    ensures key !in query || query[key] == [] ==> r == ""
  {
    if key in query && |query[key]| > 0 then query[key][0] else ""
  }

  /**
   * clusterConfiguration. `parse` stands for url.Parse (None when it returns
   * an error); it is consulted only for a non-empty cluster string.
   */
  function ClusterConfiguration(cluster: string, parse: string -> Option<Url>): (r: Result<Engine, Panic>)
    ensures r == Success(FileEngine) <==> cluster == ""
    ensures r == Success(NoEngine) <==>
      cluster != "" && parse(cluster).Some? && parse(cluster).value.scheme != "consul"
    ensures r.Success? && r.value.ConsulEngine? ==>
      && cluster != "" && parse(cluster).Some?
      && var u := parse(cluster).value;
      && u.scheme == "consul" && u.escapedPath != ""
      && r.value.host == u.host
      && [u.escapedPath[0]] + r.value.folder == u.escapedPath
      && r.value.token == QueryGet(u.query, "token")
    ensures r.Failure? <==>
      cluster != "" &&
      (parse(cluster).None? || (parse(cluster).value.scheme == "consul" && parse(cluster).value.escapedPath == ""))
  {
    if cluster == "" then Success(FileEngine)
    else
      match parse(cluster)
      case None => Failure(MalformedCluster)
      case Some(config) =>
        if config.scheme == "consul" then
          var token := QueryGet(config.query, "token");
          if config.escapedPath == "" then Failure(EmptyConsulPath)
          else Success(ConsulEngine(config.host, config.escapedPath[1..], token))
        else Success(NoEngine)
  }

  // ---------------------------------------------------------------------------
  // Looking up the exposed server block
  // ---------------------------------------------------------------------------

  const SelectorPrefix: string := "server.[server_name('"
  const SelectorSuffix: string := "') & listen('80')]"

  /** The selector for a port-80 server block of `domain`. */
  function ServerSelector(domain: string): (r: string)
    ensures SelectorDomain(r) == Some(domain)
  {
    var s := SelectorPrefix + domain + SelectorSuffix;
    assert s[..|SelectorPrefix|] == SelectorPrefix;
    assert s[|s| - |SelectorSuffix|..] == SelectorSuffix;
    assert s[|SelectorPrefix|..|s| - |SelectorSuffix|] == domain;
    s
  }

  /** The domain a server selector was built for, if `s` is one. */
  function SelectorDomain(s: string): Option<string> {
    if |SelectorPrefix| + |SelectorSuffix| <= |s|
       && s[..|SelectorPrefix|] == SelectorPrefix
       && s[|s| - |SelectorSuffix|..] == SelectorSuffix
    then Some(s[|SelectorPrefix|..|s| - |SelectorSuffix|])
    else None
  }

  /** The server block inside an included file: `http, include, *, <selector>`. */
  function IncludeQuery(domain: string): (r: seq<string>)
    ensures |r| == |DirectQuery(domain)| + 2
    ensures r[0] == "http" && r[1] == "include" && r[2] == "*" && r[|r| - 1] == DirectQuery(domain)[1]
  {
    ["http", "include", "*", ServerSelector(domain)]
  }

  /** The server block directly in the http block: `http, <selector>`. */
  function DirectQuery(domain: string): (r: seq<string>)
    ensures |r| == 2 && r[0] == "http" && SelectorDomain(r[1]) == Some(domain)
  {
    ["http", ServerSelector(domain)]
  }

  /** What client.Select answers: the matches, or an error (not found, malformed). */
  datatype Selection = Matched(directives: seq<Directive>) | SelectError

  /** client.Select on the current configuration, as an oracle. */
  type Oracle = seq<string> -> Selection

  /** The queries last tried and the directive found (nil when none). */
  datatype Probe = Probe(queries: seq<string>, directive: Option<Directive>)

  /** The first match of a successful selection. */
  function First(s: Selection): (r: Result<Directive, Panic>)
    requires s.Matched?
    ensures r.Success? <==> s.directives != []
    ensures r.Success? ==> r.value == s.directives[0]
    ensures r.Failure? ==> r.error == EmptyMatchList
  {
    if s.directives == [] then Failure(EmptyMatchList) else Success(s.directives[0])
  }

  /**
   * selectDirective: the include-nested shape is tried first, the direct shape
   * only when it fails; the answer is the first match of the first shape that
   * succeeds.
   */
  function SelectDirective(select: Oracle, domain: string): (r: Result<Probe, Panic>)
    ensures r.Success? && r.value.directive.Some? ==>
      || (r.value.queries == IncludeQuery(domain)
          && select(IncludeQuery(domain)).Matched? && |select(IncludeQuery(domain)).directives| > 0
          && r.value.directive.value == select(IncludeQuery(domain)).directives[0])
      || (r.value.queries == DirectQuery(domain)
          && select(IncludeQuery(domain)).SelectError?
          && select(DirectQuery(domain)).Matched? && |select(DirectQuery(domain)).directives| > 0
          && r.value.directive.value == select(DirectQuery(domain)).directives[0])
    ensures r.Success? && r.value.directive.None? <==>
      select(IncludeQuery(domain)).SelectError? && select(DirectQuery(domain)).SelectError?
    ensures r.Success? && r.value.directive.None? ==> r.value.queries == DirectQuery(domain)
    ensures select(IncludeQuery(domain)).Matched? && select(IncludeQuery(domain)).directives != [] ==>
      r == Success(Probe(IncludeQuery(domain), Some(select(IncludeQuery(domain)).directives[0])))
    ensures (select(IncludeQuery(domain)).SelectError?
             && select(DirectQuery(domain)).Matched? && select(DirectQuery(domain)).directives != []) ==>
      r == Success(Probe(DirectQuery(domain), Some(select(DirectQuery(domain)).directives[0])))
    ensures r.Failure? <==>
      || select(IncludeQuery(domain)) == Matched([])
      || (select(IncludeQuery(domain)).SelectError? && select(DirectQuery(domain)) == Matched([]))
    ensures r.Failure? ==> r.error == EmptyMatchList
  {
    var included := select(IncludeQuery(domain));
    if included.Matched? then
      var d :- First(included);
      Success(Probe(IncludeQuery(domain), Some(d)))
    else
      var direct := select(DirectQuery(domain));
      if direct.Matched? then
        var d :- First(direct);
        Success(Probe(DirectQuery(domain), Some(d)))
      else
        Success(Probe(DirectQuery(domain), None))
  }

  // ---------------------------------------------------------------------------
  // The API-exposure server block
  // ---------------------------------------------------------------------------

  predicate HasPrefix(s: string, prefix: string) {
    |prefix| <= |s| && s[..|prefix|] == prefix
  }

  /** The backend address proxied to: a bare `:port` means the loopback interface. */
  function ProxyAddress(address: string): (r: string)
    ensures HasPrefix(address, ":") ==> r == "127.0.0.1" + address
    ensures !HasPrefix(address, ":") ==> r == address
    ensures !HasPrefix(r, ":")
  {
    if HasPrefix(address, ":") then
      var r := "127.0.0.1" + address;
      assert r[0] == '1';
      r
    else address
  }

  /** The statements of the `location /` block, in order, proxying to the URL `target`. */
  function LocationBody(target: string): seq<Directive> {
    [ Leaf("proxy_redirect", ["default"]),
      Leaf("proxy_pass", [target]) ]
    + ForwardedHeaders() + BodyLimits() + Timeouts() + [ProxyBuffers()]
  }

  function ForwardedHeaders(): seq<Directive> {
    [ Leaf("proxy_set_header", ["Host", "$host"]),
      Leaf("proxy_set_header", ["X-Real-IP", "$remote_addr"]),
      Leaf("proxy_set_header", ["X-Forwarded-For", "$proxy_add_x_forwarded_for"]) ]
  }

  function BodyLimits(): seq<Directive> {
    [ Leaf("client_max_body_size", ["10m"]),
      Leaf("client_body_buffer_size", ["128k"]) ]
  }

  function Timeouts(): seq<Directive> {
    [ Leaf("proxy_connect_timeout", ["90"]),
      Leaf("proxy_send_timeout", ["90"]),
      Leaf("proxy_read_timeout", ["90"]) ]
  }

  function ProxyBuffers(): Directive {
    Leaf("proxy_buffers", ["32", "4k"])
  }

  /** The server block that exposes the API at `domain`, proxying to `address`. */
  function ServerSkeleton(domain: string, address: string): Directive {
    Directive("server", [],
      [ Leaf("listen", ["80"]),
        Leaf("server_name", [domain]),
        Directive("location", ["/"], LocationBody("http://" + ProxyAddress(address))) ])
  }

  /**
   * apiServer: builds the server block node by node, appending the location
   * block before filling it.
   */
  method ApiServer(domain: string, address: string) returns (directive: Node)
    ensures fresh(directive.Repr) && directive.Valid()
    ensures directive.Tree == ServerSkeleton(domain, address)
  {
    directive := ServerHead(domain);
    var addr := address;
    if HasPrefix(addr, ":") {
      addr := "127.0.0.1" + addr;
    }
    assert addr == ProxyAddress(address);
    var location := directive.AddBody("location", ["/"]);
    FillLocation(directive, location, "http://" + addr);
  }

  /** The server block with its `listen 80` and `server_name <domain>` statements. */
  method ServerHead(domain: string) returns (directive: Node)
    ensures fresh(directive.Repr) && directive.Valid()
    ensures directive.Tree == Directive("server", [], [Leaf("listen", ["80"]), Leaf("server_name", [domain])])
  {
    directive := new Node("server", []);
    var listen := directive.AddBody("listen", ["80"]);
    var serverName := directive.AddBody("server_name", [domain]);
  }

  /**
   * The appends to the `location /` block through the pointer AddBody
   * returned; the enclosing server block sees them.
   */
  method FillLocation(server: Node, location: Node, target: string)
    requires server.Valid() && 0 < |server.body| && location == server.body[|server.body| - 1]
    requires location.body == []
    modifies server, location
    ensures server.Valid() && fresh(server.Repr - old(server.Repr)) && server.body == old(server.body)
    ensures server.Tree == Directive(server.name, server.args,
      old(server.Tree.body)[|server.body| - 1 := Directive(location.name, location.args, LocationBody(target))])
  {
    assert server.ChildValid(|server.body| - 1);
    AppendLocationStatements(location, target);
    server.OnlyLastChildChanged();
    server.RefreshLast();
  }

  /** The eleven appends to the `location /` block of apiServer, in source order. */
  method AppendLocationStatements(location: Node, target: string)
    requires location.Valid() && location.body == []
    modifies location
    ensures location.Valid() && fresh(location.Repr - old(location.Repr))
    ensures location.Tree == Directive(location.name, location.args, LocationBody(target))
  {
    ghost var r0 := location.Repr;
    var _ := location.AddBody("proxy_redirect", ["default"]);
    var _ := location.AddBody("proxy_pass", [target]);
    assert fresh(location.Repr - r0);
    AddForwardedHeaders(location);
    AddBodyLimits(location);
    AddTimeouts(location);
    var _ := location.AddBody("proxy_buffers", ["32", "4k"]);
  }

  method AddForwardedHeaders(location: Node)
    requires location.Valid()
    modifies location
    ensures location.Valid() && fresh(location.Repr - old(location.Repr))
    ensures location.Tree == Directive(location.name, location.args, old(location.Tree.body) + ForwardedHeaders())
  {
    ghost var r0 := location.Repr;
    var _ := location.AddBody("proxy_set_header", ["Host", "$host"]);
    var _ := location.AddBody("proxy_set_header", ["X-Real-IP", "$remote_addr"]);
    assert fresh(location.Repr - r0);
    var _ := location.AddBody("proxy_set_header", ["X-Forwarded-For", "$proxy_add_x_forwarded_for"]);
  }

  method AddBodyLimits(location: Node)
    requires location.Valid()
    modifies location
    ensures location.Valid() && fresh(location.Repr - old(location.Repr))
    ensures location.Tree == Directive(location.name, location.args, old(location.Tree.body) + BodyLimits())
  {
    var _ := location.AddBody("client_max_body_size", ["10m"]);
    var _ := location.AddBody("client_body_buffer_size", ["128k"]);
  }

  method AddTimeouts(location: Node)
    requires location.Valid()
    modifies location
    ensures location.Valid() && fresh(location.Repr - old(location.Repr))
    ensures location.Tree == Directive(location.name, location.args, old(location.Tree.body) + Timeouts())
  {
    ghost var r0 := location.Repr;
    var _ := location.AddBody("proxy_connect_timeout", ["90"]);
    var _ := location.AddBody("proxy_send_timeout", ["90"]);
    assert fresh(location.Repr - r0);
    var _ := location.AddBody("proxy_read_timeout", ["90"]);
  }

  // ---------------------------------------------------------------------------
  // Exposing the API
  // ---------------------------------------------------------------------------

  /** The configuration-client calls exposeApi makes, in order. */
  datatype Call =
    | AddUnderHttp(directive: Directive)  // api.Add(client.Queries("http"), directive)
    | StoreConfiguration                  // engine.StoreConfiguration(api.Configuration())

  /**
   * exposeApi: with a domain to expose and no port-80 server block for it in
   * either shape, the skeleton is added under `http` and the configuration
   * stored; otherwise nothing is changed. The `api` option is read before the
   * domain is checked, so its lookup can fail even when nothing is exposed.
   */
  function ExposeApi(env: map<string, string>, flags: map<string, string>, select: Oracle): (r: Result<seq<Call>, Panic>)
    ensures GetString(env, flags, "api").Failure? ==> r == Failure(GetString(env, flags, "api").error)
    ensures GetString(env, flags, "api").Success? && GetString(env, flags, "expose").Failure? ==>
      r == Failure(GetString(env, flags, "expose").error)
    ensures GetString(env, flags, "expose") == Success("") && GetString(env, flags, "api").Success? ==> r == Success([])
    ensures (GetString(env, flags, "api").Success? && GetString(env, flags, "expose").Success?
             && GetString(env, flags, "expose").value != ""
             && SelectDirective(select, GetString(env, flags, "expose").value).Failure?) ==>
      r == Failure(SelectDirective(select, GetString(env, flags, "expose").value).error)
    ensures (GetString(env, flags, "api").Success? && GetString(env, flags, "expose").Success?
             && GetString(env, flags, "expose").value != ""
             && SelectDirective(select, GetString(env, flags, "expose").value).Success?
             && SelectDirective(select, GetString(env, flags, "expose").value).value.directive.Some?) ==>
      r == Success([])
    ensures r.Success? && r.value != [] <==>
      && GetString(env, flags, "api").Success?
      && GetString(env, flags, "expose").Success?
      && GetString(env, flags, "expose").value != ""
      && SelectDirective(select, GetString(env, flags, "expose").value).Success?
      && SelectDirective(select, GetString(env, flags, "expose").value).value.directive.None?
    ensures r.Success? && r.value != [] ==>
      r.value == [ AddUnderHttp(ServerSkeleton(GetString(env, flags, "expose").value, GetString(env, flags, "api").value)),
                   StoreConfiguration ]
  {
    var address :- GetString(env, flags, "api");
    var domain :- GetString(env, flags, "expose");
    if domain == "" then Success([])
    else
      var probe :- SelectDirective(select, domain);
      if probe.directive.None? then
        Success([AddUnderHttp(ServerSkeleton(domain, address)), StoreConfiguration])
      else Success([])
  }

  /** The body of the http block after the recorded calls are carried out. */
  function Replay(http: seq<Directive>, calls: seq<Call>): seq<Directive>
    decreases calls
  {
    if calls == [] then http
    else
      match calls[0]
      case AddUnderHttp(d) => Replay(http + [d], calls[1..])
      case StoreConfiguration => Replay(http, calls[1..])
  }

  /** `d` holds a call `fn(lits...)` among its immediate children. */
  predicate HasCall(d: Directive, fn: string, lits: seq<string>) {
    exists i | 0 <= i < |d.body| :: d.body[i].name == fn && d.body[i].args == lits
  }

  /** `d` is a server block that the selector `ServerSelector(domain)` accepts. */
  predicate IsServerFor(d: Directive, domain: string) {
    d.name == "server" && HasCall(d, "server_name", [domain]) && HasCall(d, "listen", ["80"])
  }

  /**
   * What a second run needs of client.Select: it never reports an empty match
   * list, and it finds the direct shape whenever the http block holds a
   * matching server block.
   */
  predicate FindsDirectServer(select: Oracle, http: seq<Directive>, domain: string) {
    && (select(IncludeQuery(domain)).Matched? ==> select(IncludeQuery(domain)).directives != [])
    && (select(DirectQuery(domain)).Matched? ==> select(DirectQuery(domain)).directives != [])
    && ((exists i | 0 <= i < |http| :: IsServerFor(http[i], domain)) ==> select(DirectQuery(domain)).Matched?)
  }

  // ---------------------------------------------------------------------------
  // Properties
  // ---------------------------------------------------------------------------

  /** Upper-casing works character by character, so it distributes over concatenation. */
  lemma {:induction false} ToUpperAppend(a: string, b: string)
    ensures ToUpper(a + b) == ToUpper(a) + ToUpper(b)
  {
    var ab, ua, ub := a + b, ToUpper(a), ToUpper(b);
    var l, r := ToUpper(ab), ua + ub;
    assert |l| == |r|;
    forall i | 0 <= i < |l|
      ensures l[i] == r[i]
    {
      if i < |a| {
        assert ab[i] == a[i];
        assert r[i] == ua[i];
      } else {
        assert ab[i] == b[i - |a|];
        assert r[i] == ub[i - |a|];
      }
    }
  }

  lemma UpperPrefix()
    ensures ToUpper("aginx_") == "AGINX_"
  {
    var p := ToUpper("aginx_");
    assert p[0] == 'A' && p[1] == 'G' && p[2] == 'I' && p[3] == 'N' && p[4] == 'X' && p[5] == '_';
  }

  /** Upper-casing is idempotent, so the key's own case does not matter. */
  lemma EnvKeyIgnoresCase(key: string)
    ensures EnvKey(ToUpper(key)) == EnvKey(key)
  {
    UpperIdempotent(key);
  }

  lemma UpperIdempotent(s: string)
    ensures ToUpper(ToUpper(s)) == ToUpper(s)
  {
    var u := ToUpper(s);
    var uu := ToUpper(u);
    forall i | 0 <= i < |u|
      ensures uu[i] == u[i]
    {
      assert u[i] == UpperChar(s[i]);
      assert uu[i] == UpperChar(u[i]);
    }
  }

  /** The variables that override the server command's options. */
  lemma ServerEnvKeys(key: string, upper: string)
    requires (key, upper) in [("api", "API"), ("expose", "EXPOSE"), ("cluster", "CLUSTER"), ("security", "SECURITY")]
    ensures EnvKey(key) == "AGINX_" + upper
  {
    UpperCaseKey(key, upper);
  }

  lemma UpperCaseKey(key: string, upper: string)
    requires |upper| == |key|
    requires forall i | 0 <= i < |key| :: 'a' <= key[i] <= 'z' && upper[i] as int == key[i] as int - 32
    ensures EnvKey(key) == "AGINX_" + upper
  {
    assert ToUpper(key) == upper;
  }

  /** A non-empty environment value decides the option whatever the flags say. */
  lemma EnvOverridesFlags(env: map<string, string>, flags: map<string, string>, other: map<string, string>, key: string)
    requires Getenv(env, EnvKey(key)) != ""
    ensures GetString(env, flags, key) == GetString(env, other, key) == Success(Getenv(env, EnvKey(key)))
  {
  }

  /** An empty environment value is the same as an unset one: the flag decides. */
  lemma EmptyEnvIsUnset(env: map<string, string>, flags: map<string, string>, key: string)
    ensures GetString(env[EnvKey(key) := ""], flags, key) == GetString(env - {EnvKey(key)}, flags, key)
    ensures key in flags ==> GetString(env - {EnvKey(key)}, flags, key) == Success(flags[key])
  {
  }

  /** The backends the command's help text describes, as the code selects them. */
  lemma HelpTextClusters(parse: string -> Option<Url>)
    requires parse("consul://127.0.0.1:8500/aginx?token=authtoken")
      == Some(Url("consul", "127.0.0.1:8500", "/aginx", map["token" := ["authtoken"]]))
    requires parse("zk://127.0.0.1:2182/aginx") == Some(Url("zk", "127.0.0.1:2182", "/aginx", map[]))
    requires parse("etcd://127.0.0.1:1234/aginx") == Some(Url("etcd", "127.0.0.1:1234", "/aginx", map[]))
    ensures ClusterConfiguration("consul://127.0.0.1:8500/aginx?token=authtoken", parse)
      == Success(ConsulEngine("127.0.0.1:8500", "aginx", "authtoken"))
    ensures ClusterConfiguration("zk://127.0.0.1:2182/aginx", parse) == Success(NoEngine)
    ensures ClusterConfiguration("etcd://127.0.0.1:1234/aginx", parse) == Success(NoEngine)
  {
    assert "/aginx"[1..] == "aginx";
  }

  /** A consul URL without a path panics instead of selecting a backend. */
  lemma ConsulWithoutPath(cluster: string, parse: string -> Option<Url>)
    requires cluster != ""
    requires parse(cluster).Some? && parse(cluster).value.scheme == "consul"
    requires parse(cluster).value.escapedPath == ""
    ensures ClusterConfiguration(cluster, parse) == Failure(EmptyConsulPath)
  {
  }

  /** Every string SelectorDomain accepts is the selector of the domain it returns. */
  lemma SelectorDomainSound(s: string)
    requires SelectorDomain(s).Some?
    ensures ServerSelector(SelectorDomain(s).value) == s
  {
    var d := SelectorDomain(s).value;
    assert s == s[..|SelectorPrefix|] + d + s[|s| - |SelectorSuffix|..];
  }

  /**
   * Distinct domains give distinct selector strings. The domain is not escaped,
   * so two selectors that differ as strings can still match the same blocks.
   */
  lemma SelectorInjective(d1: string, d2: string)
    ensures ServerSelector(d1) == ServerSelector(d2) <==> d1 == d2
  {
  }

  /** When the include-nested shape matches, the direct shape's answer is never consulted. */
  lemma IncludeShapeFirst(select: Oracle, other: Oracle, domain: string)
    requires select(IncludeQuery(domain)) == other(IncludeQuery(domain))
    requires select(IncludeQuery(domain)).Matched?
    ensures SelectDirective(select, domain) == SelectDirective(other, domain)
    ensures SelectDirective(select, domain).Success? ==> SelectDirective(select, domain).value.queries == IncludeQuery(domain)
  {
  }

  /** The server block carries `listen 80`, `server_name <domain>` and one `location /`, once each. */
  lemma SkeletonShape(domain: string, address: string)
    ensures var s := ServerSkeleton(domain, address);
      && s.name == "server" && s.args == [] && |s.body| == 3
      && Find(s, "listen") == [Leaf("listen", ["80"])]
      && Find(s, "server_name") == [Leaf("server_name", [domain])]
      && Find(s, "location") == [Directive("location", ["/"], LocationBody("http://" + ProxyAddress(address)))]
  {
    var s := ServerSkeleton(domain, address);
    assert s.body == [s.body[0]] + [s.body[1]] + [s.body[2]];
    FindThree(s.body[0], s.body[1], s.body[2], "listen");
    FindThree(s.body[0], s.body[1], s.body[2], "server_name");
    FindThree(s.body[0], s.body[1], s.body[2], "location");
  }

  lemma FindThree(a: Directive, b: Directive, c: Directive, name: string)
    ensures FindIn([a] + [b] + [c], name)
      == (if a.name == name then [a] else []) + (if b.name == name then [b] else []) + (if c.name == name then [c] else [])
  {
    FindInAppend([a] + [b], [c], name);
    FindInAppend([a], [b], name);
    FindInOne(a, name);
    FindInOne(b, name);
    FindInOne(c, name);
  }

  /** The location block proxies to the normalised address, and forwards the three headers. */
  lemma SkeletonProxyPass(address: string)
    ensures var location := Directive("location", ["/"], LocationBody("http://" + ProxyAddress(address)));
      && Find(location, "proxy_pass")
         == [Leaf("proxy_pass", [if HasPrefix(address, ":") then "http://127.0.0.1" + address else "http://" + address])]
      && Find(location, "proxy_set_header") == ForwardedHeaders()
  {
    var target := "http://" + ProxyAddress(address);
    LocationProxyPass(target);
    LocationHeaders(target);
    if HasPrefix(address, ":") {
      assert target == "http://127.0.0.1" + address;
    }
  }

  lemma LocationProxyPass(target: string)
    ensures FindIn(LocationBody(target), "proxy_pass") == [Leaf("proxy_pass", [target])]
  {
    FindInLocation(target, "proxy_pass");
    FindInHead(target, "proxy_pass");
    FindInForwardedHeaders("proxy_pass");
    FindInTail("proxy_pass");
  }

  lemma LocationHeaders(target: string)
    ensures FindIn(LocationBody(target), "proxy_set_header") == ForwardedHeaders()
  {
    FindInLocation(target, "proxy_set_header");
    FindInHead(target, "proxy_set_header");
    FindInForwardedHeaders("proxy_set_header");
    FindInTail("proxy_set_header");
  }

  lemma FindInHead(target: string, name: string)
    requires name != "proxy_redirect"
    ensures FindIn([Leaf("proxy_redirect", ["default"]), Leaf("proxy_pass", [target])], name)
      == if name == "proxy_pass" then [Leaf("proxy_pass", [target])] else []
  {
    var r := Leaf("proxy_redirect", ["default"]);
    var p := Leaf("proxy_pass", [target]);
    assert [r, p] == [r] + [p];
    FindInAppend([r], [p], name);
    FindInOne(r, name);
    FindInOne(p, name);
  }

  lemma FindInForwardedHeaders(name: string)
    ensures FindIn(ForwardedHeaders(), name) == if name == "proxy_set_header" then ForwardedHeaders() else []
  {
    var h := ForwardedHeaders();
    assert h == [h[0]] + [h[1]] + [h[2]];
    FindThree(h[0], h[1], h[2], name);
  }

  /** None of the body-limit, timeout and buffer statements is a proxy_pass or a proxy_set_header. */
  lemma FindInTail(name: string)
    requires name == "proxy_pass" || name == "proxy_set_header"
    ensures FindIn(BodyLimits(), name) == [] && FindIn(Timeouts(), name) == [] && FindIn([ProxyBuffers()], name) == []
  {
    var l := BodyLimits();
    assert l == [l[0]] + [l[1]];
    FindInAppend([l[0]], [l[1]], name);
    FindInOne(l[0], name);
    FindInOne(l[1], name);
    var t := Timeouts();
    assert t == [t[0]] + [t[1]] + [t[2]];
    FindThree(t[0], t[1], t[2], name);
    FindInOne(ProxyBuffers(), name);
  }

  /** Finding in the location block finds in each of its groups of statements. */
  lemma FindInLocation(target: string, name: string)
    ensures FindIn(LocationBody(target), name)
      == FindIn([Leaf("proxy_redirect", ["default"]), Leaf("proxy_pass", [target])], name)
         + FindIn(ForwardedHeaders(), name) + FindIn(BodyLimits(), name)
         + FindIn(Timeouts(), name) + FindIn([ProxyBuffers()], name)
  {
    var head := [Leaf("proxy_redirect", ["default"]), Leaf("proxy_pass", [target])];
    FindInAppend(head + ForwardedHeaders() + BodyLimits() + Timeouts(), [ProxyBuffers()], name);
    FindInAppend(head + ForwardedHeaders() + BodyLimits(), Timeouts(), name);
    FindInAppend(head + ForwardedHeaders(), BodyLimits(), name);
    FindInAppend(head, ForwardedHeaders(), name);
  }

  /** The location block holds eleven statements and no nested block. */
  lemma LocationStatementsAreLeaves(target: string)
    ensures |LocationBody(target)| == 11
    ensures forall x | x in LocationBody(target) :: x.body == []
  {
  }

  /** The skeleton is exactly what the selector for its own domain looks for, and for no other. */
  lemma SkeletonSelectedByItsDomain(domain: string, address: string, other: string)
    ensures IsServerFor(ServerSkeleton(domain, address), other) <==> other == domain
  {
    var s := ServerSkeleton(domain, address);
    assert s.body[0].name == "listen" && s.body[0].args == ["80"];
    if other == domain {
      assert s.body[1].name == "server_name" && s.body[1].args == [domain];
    }
    if HasCall(s, "server_name", [other]) {
      var i :| 0 <= i < |s.body| && s.body[i].name == "server_name" && s.body[i].args == [other];
      assert i == 1;
    }
  }

  /**
   * exposeApi is idempotent: once its skeleton is added and stored, running
   * it again with the same options adds nothing.
   */
  lemma ExposeIsIdempotent(env: map<string, string>, flags: map<string, string>, domain: string,
                           select: Oracle, http: seq<Directive>, again: Oracle)
    requires GetString(env, flags, "expose") == Success(domain)
    requires ExposeApi(env, flags, select).Success? && ExposeApi(env, flags, select).value != []
    requires FindsDirectServer(again, Replay(http, ExposeApi(env, flags, select).value), domain)
    ensures ExposeApi(env, flags, again) == Success([])
  {
    var address := GetString(env, flags, "api").value;
    var calls := ExposeApi(env, flags, select).value;
    assert calls == [AddUnderHttp(ServerSkeleton(domain, address)), StoreConfiguration];
    var after := Replay(http, calls);
    assert after == http + [ServerSkeleton(domain, address)] by {
      assert calls[1..] == [StoreConfiguration] && calls[1..][1..] == [];
      assert Replay(http, calls) == Replay(http + [ServerSkeleton(domain, address)], calls[1..]);
    }
    SkeletonSelectedByItsDomain(domain, address, domain);
    assert IsServerFor(after[|http|], domain);
  }
}
