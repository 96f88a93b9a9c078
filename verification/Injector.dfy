/**
  The patch builder (webhook/injector.go, the injecting half of webhook/mcp_injector.go and
  webhook/sidecar_secret.go). Functions say which operations are emitted; the methods are the source's
  loops, proved to emit exactly those.
 */
module Injector {
  import opened Outcomes
  import opened Pods
  import opened Strings
  import opened Webhook

  const INJECTED_ANNOTATION := "norviq.io/injected"

  /** Certificate material read from disk and minted for one environment list. */
  datatype Tls = Tls(ca: string, cert: string, key: string)

  /** What became of the credential Secret: no writer configured, written (or previewed by a dry run), or
      refused by the API server. */
  datatype SecretWrite = NoWriter | Written(name: string) | Refused

  /** The facts of one admission that are not in the pod or the configuration. `token` is empty when no
      signing secret is set; each `Tls` is `None` when the CA material could not be read or minted. */
  datatype Request = Request(
    agentClass: string,
    namespace: string,
    workload: string,
    token: string,
    sidecarTls: Option<Tls>,
    mcpTls: Option<Tls>,
    secret: SecretWrite)

  // ----- the sidecar ----------------------------------------------------------------------------

  function IfSet(name: string, value: string): seq<EnvVar> {
    if value == "" then [] else [Literal(name, value)]
  }

  predicate TlsOn(cfg: Config, tls: Option<Tls>) { cfg.internalTls && tls.Some? }

  function ApiURL(cfg: Config, tls: Option<Tls>): string {
    if TlsOn(cfg, tls) && !StartsWith(cfg.apiURL, "https://") then UPGRADED_URL else cfg.apiURL
  }

  function TlsEnv(cfg: Config, tls: Option<Tls>): seq<EnvVar> {
    if !TlsOn(cfg, tls) then []
    else [Literal("NRVQ_INTERNAL_TLS", "true"), Literal("NRVQ_API_CA_PEM", tls.value.ca),
          Literal("NRVQ_CLIENT_CERT_PEM", tls.value.cert), Literal("NRVQ_CLIENT_KEY_PEM", tls.value.key)]
  }

  function SpiffeEnv(cfg: Config): seq<EnvVar> {
    if cfg.spiffeInject
    then [Literal("NRVQ_SPIFFE_MODE", cfg.spiffeMode), Literal("NRVQ_SPIFFE_SOCKET", cfg.spiffeSocket)]
    else []
  }

  /** The environment of one mode: datastore wiring, or the central API with a token. */
  function ModeEnv(cfg: Config, req: Request): seq<EnvVar> {
    if Mode(cfg) == "embedded" then
      IfSet(REDIS_ENV, cfg.redisURL) + IfSet(PG_ENV, cfg.pgURL)
      + [Literal("NRVQ_OPA_MODE", cfg.opaMode), Literal("NRVQ_DB_SSL_MODE", cfg.dbSslMode)]
    else
      [Literal(URL_ENV, ApiURL(cfg, req.sidecarTls))] + IfSet("NRVQ_API_TOKEN", req.token) + TlsEnv(cfg, req.sidecarTls)
  }

  /** What every sidecar is told. */
  function SidecarHead(cfg: Config, req: Request): seq<EnvVar> {
    [Literal("NRVQ_AGENT_CLASS", req.agentClass), Literal("NRVQ_NAMESPACE", req.namespace),
     Literal("NRVQ_HTTP_FALLBACK_PORT", cfg.sidecarPort), Literal(SOCKET_ENV, SOCKET_FILE), Literal(MODE_ENV, Mode(cfg))]
  }

  function SidecarEnv(cfg: Config, req: Request): seq<EnvVar> {
    SidecarHead(cfg, req)
    + IfSet("NRVQ_WORKLOAD", req.workload)
    + ModeEnv(cfg, req)
    + SpiffeEnv(cfg)
    + IfSet("NRVQ_SDK_FALLBACK_MODE", cfg.fallbackMode)
  }

  predicate IsCredential(name: string) {
    name == "NRVQ_API_TOKEN" || name == "NRVQ_CLIENT_CERT_PEM" || name == "NRVQ_CLIENT_KEY_PEM"
  }

  /** The credential names that carry a literal value in `env`. */
  function MovedNames(env: seq<EnvVar>): set<string> {
    set e | e in env && IsCredential(e.name) && e.Literal? && e.value != "" :: e.name
  }

  function Keep(env: seq<EnvVar>, moved: set<string>): seq<EnvVar> {
    if env == [] then []
    else Keep(env[..|env| - 1], moved) + (if env[|env| - 1].name in moved then [] else [env[|env| - 1]])
  }

  function Refs(env: seq<EnvVar>, moved: set<string>, secret: string): seq<EnvVar> {
    if env == [] then []
    else
      var e := env[|env| - 1];
      Refs(env[..|env| - 1], moved, secret) + (if e.name in moved then [SecretRef(e.name, secret, e.name)] else [])
  }

  /** The environment after credentials have moved into the Secret; unchanged on every failure path. */
  function CredentialEnv(env: seq<EnvVar>, write: SecretWrite): seq<EnvVar> {
    if !write.Written? || MovedNames(env) == {} then env
    else Keep(env, MovedNames(env)) + Refs(env, MovedNames(env), write.name)
  }

  /** The source's passes over the list: collect the data, then keep the rest and append references. */
  method MoveCredentials(env: seq<EnvVar>, write: SecretWrite) returns (out: seq<EnvVar>)
    ensures out == CredentialEnv(env, write)
  {
    if write.NoWriter? {
      return env;
    }
    var data: map<string, string> := map[];
    for i := 0 to |env|
      invariant data.Keys == MovedNames(env[..i])
    {
      assert env[..i + 1] == env[..i] + [env[i]];
      if IsCredential(env[i].name) && env[i].Literal? && env[i].value != "" {
        data := data[env[i].name := env[i].value];
      }
    }
    assert env[..|env|] == env;
    if data.Keys == {} || write.Refused? {
      return env;
    }
    var kept, refs := [], [];
    for i := 0 to |env|
      invariant kept == Keep(env[..i], data.Keys)
      invariant refs == Refs(env[..i], data.Keys, write.name)
    {
      assert env[..i + 1][..i] == env[..i];
      if env[i].name in data {
        refs := refs + [SecretRef(env[i].name, write.name, env[i].name)];
      } else {
        kept := kept + [env[i]];
      }
    }
    assert env[..|env|] == env;
    out := kept + refs;
  }

  const SOCKET := Mount(SOCKET_VOLUME, SOCKET_MOUNT, false)
  const SPIFFE := Mount("spiffe-workload-api", "/spiffe-workload-api", true)
  const PROXY := Mount(MCP_VOLUME, MCP_MOUNT, true)

  function SpiffeMounts(cfg: Config): seq<Mount> { if cfg.spiffeInject then [SPIFFE] else [] }

  function Sidecar(cfg: Config, req: Request): Container {
    Container(SIDECAR_NAME, cfg.sidecarImage, [], [],
              Some([SOCKET, Mount("norviq-tmp", "/tmp", false)] + SpiffeMounts(cfg)),
              Some(CredentialEnv(SidecarEnv(cfg, req), req.secret)))
  }

  // ----- wiring the pod's own containers --------------------------------------------------------

  function WireMounts(cfg: Config): seq<Mount> { [SOCKET] + SpiffeMounts(cfg) }

  function WireEnv(cfg: Config): seq<EnvVar> { [Literal(SOCKET_ENV, SOCKET_FILE)] + SpiffeEnv(cfg) }

  function MountStep(c: Container, mounts: seq<Mount>): seq<Change> {
    if HasSocketMount(c) then []
    else if Items(c.mounts) == [] then [Change([Field("volumeMounts")], Mounts(mounts))]
    else MountChanges(mounts)
  }

  function EnvStep(c: Container, envs: seq<EnvVar>): seq<Change> {
    if HasSocketEnv(c) then []
    else if Items(c.env) == [] then [Change([Field("env")], Envs(envs))]
    else EnvChanges(envs)
  }

  function MountSteps(list: seq<Container>, mounts: seq<Mount>): seq<seq<Change>> {
    seq(|list|, i requires 0 <= i < |list| => MountStep(list[i], mounts))
  }

  function EnvSteps(list: seq<Container>, envs: seq<EnvVar>): seq<seq<Change>> {
    seq(|list|, i requires 0 <= i < |list| => EnvStep(list[i], envs))
  }

  method MountPatches(kind: Kind, list: seq<Container>, mounts: seq<Mount>) returns (ops: seq<Op>)
    ensures ops == EachOps(kind, MountSteps(list, mounts), |list|)
  {
    ops := [];
    for i := 0 to |list|
      invariant ops == EachOps(kind, MountSteps(list, mounts), i)
    {
      assert MountSteps(list, mounts)[i] == MountStep(list[i], mounts);
      if HasSocketMount(list[i]) {
        assert ops + [] == ops;
        continue;
      }
      ops := ops + At(kind, i, MountStep(list[i], mounts));
    }
  }

  method EnvPatches(kind: Kind, list: seq<Container>, envs: seq<EnvVar>) returns (ops: seq<Op>)
    ensures ops == EachOps(kind, EnvSteps(list, envs), |list|)
  {
    ops := [];
    for i := 0 to |list|
      invariant ops == EachOps(kind, EnvSteps(list, envs), i)
    {
      assert EnvSteps(list, envs)[i] == EnvStep(list[i], envs);
      if HasSocketEnv(list[i]) {
        assert ops + [] == ops;
        continue;
      }
      ops := ops + At(kind, i, EnvStep(list[i], envs));
    }
  }

  // ----- MCP wrapping ---------------------------------------------------------------------------

  datatype PatchError =
    | UnauthorisedImage
    | NoProxyImage
    | UnknownContainer(name: string)
    | NoCommand(name: string)

  /** A container to wrap, resolved against the pod as it was submitted. */
  datatype Target = Target(kind: Kind, index: nat, serverId: string, container: Container)

  /** The container an annotated name stands for. */
  function TargetNamed(pod: Pod, name: string): Result<Target, PatchError> {
    var at := Find(pod, name);
    if at.None? then Err(UnknownContainer(name))
    else
      var c := ContainerAt(pod, at.value);
      if c.command == [] then Err(NoCommand(name)) else Ok(Target(at.value.0, at.value.1, ServerId(pod, name), c))
  }

  /** The results for the first `n` names, or the first error. */
  function Collect<T, E>(f: string -> Result<T, E>, names: seq<string>, n: nat): Result<seq<T>, E>
    requires n <= |names|
  {
    if n == 0 then Ok([])
    else
      var before := Collect(f, names, n - 1);
      if before.Err? then before
      else if f(names[n - 1]).Err? then Err(f(names[n - 1]).error)
      else Ok(before.value + [f(names[n - 1]).value])
  }

  /** All names succeed, or there is an error. */
  lemma {:induction false} CollectIff<T, E>(f: string -> Result<T, E>, names: seq<string>, n: nat)
    requires n <= |names|
    ensures Collect(f, names, n).Ok? <==> forall i | 0 <= i < n :: f(names[i]).Ok?
    ensures Collect(f, names, n).Ok? ==>
              var all := Collect(f, names, n).value; |all| == n && forall i | 0 <= i < n :: f(names[i]) == Ok(all[i])
  {
    if n > 0 {
      CollectIff(f, names, n - 1);
    }
  }

  lemma {:induction false} FirstErrorStays<T, E>(f: string -> Result<T, E>, names: seq<string>, i: nat, n: nat)
    requires i <= n <= |names| && Collect(f, names, i).Err?
    ensures Collect(f, names, n) == Collect(f, names, i)
  {
    if i < n {
      FirstErrorStays(f, names, i, n - 1);
    }
  }

  function Resolver(pod: Pod): string -> Result<Target, PatchError> { name => TargetNamed(pod, name) }

  function TargetsOf(cfg: Config, pod: Pod): Result<seq<Target>, PatchError> {
    var names := AnnotatedNames(pod);
    if names == [] then Ok([])
    else if cfg.mcpProxyImage == "" then Err(NoProxyImage)
    else Collect(Resolver(pod), names, |names|)
  }

  method ResolveTargets(cfg: Config, pod: Pod) returns (targets: Result<seq<Target>, PatchError>)
    ensures targets == TargetsOf(cfg, pod)
  {
    var names := AnnotatedNames(pod);
    if names == [] {
      return Ok([]);
    }
    if cfg.mcpProxyImage == "" {
      return Err(NoProxyImage);
    }
    var found: seq<Target> := [];
    for i := 0 to |names|
      invariant Collect(Resolver(pod), names, i) == Ok(found)
    {
      var t := TargetNamed(pod, names[i]);
      if t.Err? {
        FirstErrorStays(Resolver(pod), names, i + 1, |names|);
        return Err(t.error);
      }
      found := found + [t.value];
    }
    targets := Ok(found);
  }

  /** What every wrapped container is told. */
  function McpHead(cfg: Config, req: Request): seq<EnvVar> {
    [Literal(URL_ENV, ApiURL(cfg, req.mcpTls)), Literal("NRVQ_NAMESPACE", req.namespace),
     Literal("NRVQ_AGENT_CLASS", req.agentClass), Literal(PIN_STORE_ENV, cfg.mcpPinStore),
     Literal(PIN_MODE_ENV, cfg.mcpPinMode)]
  }

  function McpEnv(cfg: Config, req: Request): seq<EnvVar> {
    McpHead(cfg, req)
    + IfSet("NRVQ_API_TOKEN", req.token)
    + TlsEnv(cfg, req.mcpTls)
    + IfSet("NRVQ_SDK_FALLBACK_MODE", cfg.fallbackMode)
  }

  /** The proxy, its flags, `--`, then the container's own command and args. */
  function WrappedCommand(id: string, c: Container): seq<string> {
    ProxyArgv(id) + c.command + c.args
  }

  function WrapStep(t: Target, env: seq<EnvVar>): seq<Change> {
    [Change([Field("command")], Argv(WrappedCommand(t.serverId, t.container))), Change([Field("args")], Argv([])),
     Change([Field("volumeMounts"), Last], OneMount(PROXY))]
    + EnvChanges(env)
  }

  function WrapOps(targets: seq<Target>, n: nat, env: seq<EnvVar>): seq<Op>
    requires n <= |targets|
  {
    if n == 0 then []
    else WrapOps(targets, n - 1, env) + At(targets[n - 1].kind, targets[n - 1].index, WrapStep(targets[n - 1], env))
  }

  method McpPatches(targets: seq<Target>, env: seq<EnvVar>) returns (ops: seq<Op>)
    ensures ops == WrapOps(targets, |targets|, env)
  {
    ops := [];
    for i := 0 to |targets|
      invariant ops == WrapOps(targets, i, env)
    {
      ops := ops + At(targets[i].kind, targets[i].index, WrapStep(targets[i], env));
    }
  }

  function McpInit(cfg: Config): Container {
    Container(MCP_INIT_NAME, cfg.mcpProxyImage, McpInitCommand(cfg), [],
              Some([Mount(MCP_VOLUME, MCP_STAGING, false), SOCKET]),
              Some([Literal(SOCKET_ENV, SOCKET_FILE)]))
  }

  // ----- the whole patch ------------------------------------------------------------------------

  function VolumeOp(hasVolumes: bool, v: Volume): Op {
    if hasVolumes then Add([Field("spec"), Field("volumes"), Last], OneVolume(v))
    else Add([Field("spec"), Field("volumes")], Volumes([v]))
  }

  /** Prepended, so that the payload is there before any init container needs it. */
  function InitOp(hasInits: bool, c: Container): Op {
    if hasInits then Add([Field("spec"), Field("initContainers"), Index(0)], OneContainer(c))
    else Add([Field("spec"), Field("initContainers")], Containers([c]))
  }

  function AnnotationOp(annotations: map<string, string>): Op {
    if annotations == map[] then Add([Field("metadata"), Field("annotations")], Texts(map[INJECTED_ANNOTATION := "true"]))
    else Add([Field("metadata"), Field("annotations"), Field(INJECTED_ANNOTATION)], Text("true"))
  }

  const TMP := Volume("norviq-tmp", true)

  function BaseVolumes(cfg: Config): seq<Volume> {
    [Volume(SOCKET_VOLUME, true), TMP] + if cfg.spiffeInject then [Volume("spiffe-workload-api", false)] else []
  }

  function AppendVolumeOps(volumes: seq<Volume>): seq<Op> {
    if volumes == [] then [] else [VolumeOp(true, volumes[0])] + AppendVolumeOps(volumes[1..])
  }

  /** The first addition may have to create the list; the others append. */
  function VolumeOps(cfg: Config, pod: Pod): seq<Op> {
    [VolumeOp(Items(pod.volumes) != [], BaseVolumes(cfg)[0])] + AppendVolumeOps(BaseVolumes(cfg)[1..])
  }

  function WireOps(cfg: Config, kind: Kind, list: seq<Container>): seq<Op> {
    EachOps(kind, MountSteps(list, WireMounts(cfg)), |list|) + EachOps(kind, EnvSteps(list, WireEnv(cfg)), |list|)
  }

  /** The MCP half: the proxy volume, the command rewrites, and last the prepended delivery container. */
  function McpOps(cfg: Config, pod: Pod, req: Request): Result<seq<Op>, PatchError> {
    var targets := if cfg.mcpInject then TargetsOf(cfg, pod) else Ok([]);
    if targets.Err? then Err(targets.error)
    else if targets.value == [] then Ok([])
    else Ok([VolumeOp(true, Volume(MCP_VOLUME, true))]
            + WrapOps(targets.value, |targets.value|, McpEnv(cfg, req))
            + [InitOp(Items(pod.inits) != [], McpInit(cfg))])
  }

  method McpPatchOps(cfg: Config, pod: Pod, req: Request) returns (ops: Result<seq<Op>, PatchError>)
    ensures ops == McpOps(cfg, pod, req)
  {
    if !cfg.mcpInject {
      return Ok([]);
    }
    var targets := ResolveTargets(cfg, pod);
    if targets.Err? {
      return Err(targets.error);
    }
    if targets.value == [] {
      return Ok([]);
    }
    var wraps := McpPatches(targets.value, McpEnv(cfg, req));
    ops := Ok([VolumeOp(true, Volume(MCP_VOLUME, true))] + wraps + [InitOp(Items(pod.inits) != [], McpInit(cfg))]);
  }

  function SidecarOp(c: Container): Op {
    Add([Field("spec"), Field("containers"), Last], OneContainer(c))
  }

  /** The operations `CreatePatch` emits, in order. */
  function Patch(cfg: Config, pod: Pod, req: Request): Result<seq<Op>, PatchError> {
    if !IsAllowedImage(cfg, cfg.sidecarImage) then Err(UnauthorisedImage)
    else
      var mcp := McpOps(cfg, pod, req);
      if mcp.Err? then mcp
      else
        Ok([SidecarOp(Sidecar(cfg, req))]
           + VolumeOps(cfg, pod)
           + WireOps(cfg, App, pod.containers)
           + WireOps(cfg, Init, Items(pod.inits))
           + mcp.value
           + [AnnotationOp(AnnotationsOf(pod))])
  }

  method WirePatches(cfg: Config, kind: Kind, list: seq<Container>) returns (ops: seq<Op>)
    ensures ops == WireOps(cfg, kind, list)
  {
    var mounts := MountPatches(kind, list, WireMounts(cfg));
    var envs := EnvPatches(kind, list, WireEnv(cfg));
    ops := mounts + envs;
  }

  method BuildSidecar(cfg: Config, req: Request) returns (c: Container)
    ensures c == Sidecar(cfg, req)
  {
    var env := MoveCredentials(SidecarEnv(cfg, req), req.secret);
    c := Container(SIDECAR_NAME, cfg.sidecarImage, [], [],
                   Some([SOCKET, Mount("norviq-tmp", "/tmp", false)] + SpiffeMounts(cfg)), Some(env));
  }

  method CreatePatch(cfg: Config, pod: Pod, req: Request) returns (patch: Result<seq<Op>, PatchError>)
    ensures patch == Patch(cfg, pod, req)
  {
    if !IsAllowedImage(cfg, cfg.sidecarImage) {
      return Err(UnauthorisedImage);
    }
    var sidecar := BuildSidecar(cfg, req);
    var apps := WirePatches(cfg, App, pod.containers);
    var inits := WirePatches(cfg, Init, Items(pod.inits));
    var mcp := McpPatchOps(cfg, pod, req);
    if mcp.Err? {
      return mcp;
    }
    patch := Ok([SidecarOp(sidecar)] + VolumeOps(cfg, pod) + apps + inits + mcp.value + [AnnotationOp(AnnotationsOf(pod))]);
  }
}
