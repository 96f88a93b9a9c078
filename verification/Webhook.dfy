/**
  The admission webhook's configuration and the recogniser that decides inject, skip or deny
  (webhook/handler.go and the integrity half of webhook/mcp_injector.go).
 */
module Webhook {
  import opened Outcomes
  import opened Pods
  import opened Strings

  datatype Config = Config(
    sidecarImage: string,
    allowLocalImages: bool,
    sidecarPort: string,
    sidecarMode: string,
    apiURL: string,
    redisURL: string,
    pgURL: string,
    opaMode: string,
    dbSslMode: string,
    fallbackMode: string,
    internalTls: bool,
    spiffeInject: bool,
    spiffeMode: string,
    spiffeSocket: string,
    mcpInject: bool,
    mcpProxyImage: string,
    mcpSourcePath: string,
    mcpPinStore: string,
    mcpPinMode: string)

  const SOCKET_VOLUME := "norviq-socket"
  const SOCKET_MOUNT := "/var/run/norviq"
  const SOCKET_FILE := "/var/run/norviq/norviq-proxy.sock"
  const SOCKET_ENV := "NRVQ_SOCKET_PATH"
  const SIDECAR_NAME := "norviq-sidecar"
  const MODE_ENV := "NRVQ_SIDECAR_MODE"
  const URL_ENV := "NRVQ_API_URL"
  const REDIS_ENV := "NRVQ_REDIS_URL"
  const PG_ENV := "NRVQ_PG_URL"
  const UPGRADED_URL := "https://norviq-api:8443"

  const MCP_ANNOTATION := "norviq.io/mcp-servers"
  const MCP_ID_PREFIX := "norviq.io/mcp-server-id."
  const MCP_VOLUME := "norviq-mcp-proxy"
  const MCP_MOUNT := "/norviq/mcp"
  const MCP_BINARY := "/norviq/mcp/bin/norviq-mcp"
  const MCP_INIT_NAME := "norviq-mcp-init"
  const MCP_STAGING := "/norviq-mcp-staging"
  const PIN_STORE_ENV := "NRVQ_MCP_PIN_STORE"
  const PIN_MODE_ENV := "NRVQ_MCP_PIN_MODE"

  /** Anything but "embedded" is the thin proxy. */
  function Mode(cfg: Config): string {
    if cfg.sidecarMode == "embedded" then "embedded" else "proxy"
  }

  // ----- images ---------------------------------------------------------------------------------

  /** The repository name of an image reference, without registry, tag and digest. */
  function ImageName(image: string): string {
    Before(AfterLast(Before(image, '@'), '/'), ':')
  }

  predicate IsTagChar(c: char) {
    'a' <= c <= 'z' || 'A' <= c <= 'Z' || '0' <= c <= '9' || c == '.' || c == '_' || c == '-'
  }

  /** `:tag` or `@sha256:` and 64 hexadecimal digits. */
  predicate IsImageSuffix(s: string) {
    || (|s| > 1 && s[0] == ':' && forall i | 1 <= i < |s| :: IsTagChar(s[i]))
    || (|s| == 72 && StartsWith(s, "@sha256:") && forall i | 8 <= i < |s| :: '0' <= s[i] <= '9' || 'a' <= s[i] <= 'f')
  }

  predicate IsFrom(image: string, repository: string) {
    StartsWith(image, repository) && IsImageSuffix(image[|repository|..])
  }

  predicate IsAllowedImage(cfg: Config, image: string) {
    || IsFrom(image, "ghcr.io/norviq-dev/norviq-engine")
    || IsFrom(image, "ghcr.io/norviq-dev/norviq-engine-dev")
    || (cfg.allowLocalImages && (IsFrom(image, "norviq/norviq-engine") || IsFrom(image, "docker.io/norviq/norviq-engine")))
  }

  // ----- one container --------------------------------------------------------------------------

  predicate HasSocketMount(c: Container) {
    exists m | m in Items(c.mounts) :: m.name == SOCKET_VOLUME || m.path == SOCKET_MOUNT
  }

  predicate MountsSocketVolume(c: Container) {
    exists m | m in Items(c.mounts) :: m.name == SOCKET_VOLUME && m.path == SOCKET_MOUNT
  }

  predicate HasSocketEnv(c: Container) {
    exists e | e in Items(c.env) :: e.name == SOCKET_ENV
  }

  /** What `e.Value` reads: empty for a reference. */
  function ValueOf(e: EnvVar): string { if e.Literal? then e.value else "" }

  /** The effective value of an environment name: its last occurrence, as Kubernetes takes it. */
  function LastValue(env: seq<EnvVar>, name: string): Option<string> {
    if env == [] then None
    else if env[|env| - 1].name == name then Some(ValueOf(env[|env| - 1]))
    else LastValue(env[..|env| - 1], name)
  }

  /** The source's loop, overwriting a last-seen value. */
  method EnvValue(env: seq<EnvVar>, name: string) returns (val: string, found: bool)
    ensures (if found then Some(val) else None) == LastValue(env, name)
  {
    val, found := "", false;
    for i := 0 to |env|
      invariant (if found then Some(val) else None) == LastValue(env[..i], name)
    {
      assert env[..i + 1][..i] == env[..i];
      if env[i].name == name {
        val, found := ValueOf(env[i]), true;
      }
    }
    assert env[..|env|] == env;
  }

  function ValueOr(env: seq<EnvVar>, name: string): string {
    if LastValue(env, name).Some? then LastValue(env, name).value else ""
  }

  predicate Wired(c: Container) {
    MountsSocketVolume(c) && LastValue(Items(c.env), SOCKET_ENV) == Some(SOCKET_FILE)
  }

  predicate Overrides(c: Container) { |c.command| > 0 || |c.args| > 0 }

  predicate SameImageName(a: string, configured: string) {
    ImageName(a) != "" && ImageName(a) == ImageName(configured)
  }

  predicate IsSidecar(c: Container, image: string) {
    (image != "" && c.image == image) || (HasSocketMount(c) && SameImageName(c.image, image))
  }

  predicate OccupiesEnforcementPath(c: Container, image: string) {
    (HasSocketMount(c) || HasSocketEnv(c) || c.name == SIDECAR_NAME) && IsSidecar(c, image)
  }

  /** The API address the injector writes, with or without the mTLS upgrade. */
  predicate TrustedURL(cfg: Config, url: Option<string>) {
    && url.Some?
    && (url.value == cfg.apiURL ||
        (cfg.internalTls && !StartsWith(cfg.apiURL, "https://") && url.value == UPGRADED_URL))
  }

  predicate RoutingTrusted(cfg: Config, c: Container) {
    var env := Items(c.env);
    && ValueOr(env, MODE_ENV) == Mode(cfg)
    && if Mode(cfg) == "embedded" then
         && (cfg.redisURL != "" ==> ValueOr(env, REDIS_ENV) == cfg.redisURL)
         && (cfg.pgURL != "" ==> ValueOr(env, PG_ENV) == cfg.pgURL)
       else TrustedURL(cfg, LastValue(env, URL_ENV))
  }

  /** A container the skip path counts as the real sidecar. */
  predicate IsTrustedSidecar(cfg: Config, c: Container) {
    && !Overrides(c)
    && IsSidecar(c, cfg.sidecarImage)
    && (c.image == cfg.sidecarImage || IsAllowedImage(cfg, c.image))
    && RoutingTrusted(cfg, c)
  }

  // ----- MCP governance -------------------------------------------------------------------------

  function NamesUpTo(parts: seq<string>, n: nat): (names: seq<string>)
    requires n <= |parts|
    ensures forall i, j | 0 <= i < j < |names| :: names[i] != names[j]
    ensures "" !in names
  {
    if n == 0 then []
    else
      var before := NamesUpTo(parts, n - 1);
      var name := Trim(Go, parts[n - 1]);
      if name == "" || name in before then before else before + [name]
  }

  /** The container names an annotation lists: trimmed, without blanks and repeats, in order. */
  function NamesIn(raw: string): seq<string> {
    if Trim(Go, raw) == "" then [] else var parts := Split(raw, ','); NamesUpTo(parts, |parts|)
  }

  function AnnotatedNames(pod: Pod): seq<string> {
    var notes := AnnotationsOf(pod);
    NamesIn(if MCP_ANNOTATION in notes then notes[MCP_ANNOTATION] else "")
  }

  /** The source's loop over the comma-separated parts, with its seen-map. */
  method ParseNames(raw: string) returns (names: seq<string>)
    ensures names == NamesIn(raw)
  {
    names := [];
    if Trim(Go, raw) == "" {
      return;
    }
    var parts := Split(raw, ',');
    var seen: set<string> := {};
    for i := 0 to |parts|
      invariant names == NamesUpTo(parts, i)
      invariant seen == set s | s in names
    {
      var name := Trim(Go, parts[i]);
      if name == "" || name in seen {
        continue;
      }
      seen := seen + {name};
      names := names + [name];
    }
  }

  function ServerId(pod: Pod, name: string): string {
    var notes := AnnotationsOf(pod);
    var key := MCP_ID_PREFIX + name;
    var id := Trim(Go, if key in notes then notes[key] else "");
    if id != "" then id else name
  }

  function IndexNamed(list: seq<Container>, name: string): (i: Option<nat>)
    ensures i.Some? ==> i.value < |list| && list[i.value].name == name && forall j | 0 <= j < i.value :: list[j].name != name
    ensures i.None? ==> forall c | c in list :: c.name != name
  {
    if list == [] then None
    else if list[0].name == name then Some(0)
    else var i := IndexNamed(list[1..], name); if i.None? then None else Some(i.value + 1)
  }

  /** Application containers first, then init containers. */
  function Find(pod: Pod, name: string): (found: Option<(Kind, nat)>)
    ensures found.Some? ==>
              && ListOf(pod, found.value.0).Some?
              && found.value.1 < |ListOf(pod, found.value.0).value|
              && ListOf(pod, found.value.0).value[found.value.1].name == name
  {
    var app := IndexNamed(pod.containers, name);
    var init := IndexNamed(Items(pod.inits), name);
    if app.Some? then Some((App, app.value)) else if init.Some? then Some((Init, init.value)) else None
  }

  function ContainerAt(pod: Pod, at: (Kind, nat)): Container
    requires ListOf(pod, at.0).Some? && at.1 < |ListOf(pod, at.0).value|
  {
    ListOf(pod, at.0).value[at.1]
  }

  function McpInitCommand(cfg: Config): seq<string> {
    var dir := MCP_STAGING + "/bin";
    ["/bin/sh", "-c",
     "set -e; mkdir -p " + dir + "; cp -a " + cfg.mcpSourcePath + "/. " + dir + "/; chmod 0755 " + dir + "/norviq-mcp"]
  }

  predicate IsStagingMount(m: Mount) { m.name == MCP_VOLUME && m.path == MCP_STAGING }

  /** A mount at `path` hides the proxy payload inside its image. */
  predicate CoversSource(cfg: Config, path: string) {
    StartsWith(cfg.mcpSourcePath + "/", path + "/") || path == cfg.mcpSourcePath
  }

  /** `c` is the injector's own delivery container. */
  predicate IsInjectorMcpInit(cfg: Config, c: Container) {
    && c.name == MCP_INIT_NAME
    && ImageName(c.image) != "" && ImageName(c.image) == ImageName(cfg.mcpProxyImage)
    && c.command == McpInitCommand(cfg)
    && c.args == []
    && (forall m | m in Items(c.mounts) && !IsStagingMount(m) :: !CoversSource(cfg, m.path))
    && exists m | m in Items(c.mounts) :: IsStagingMount(m)
  }

  /** The first mount of the proxy volume at its path is read-only. */
  predicate MountsProxyReadOnly(mounts: seq<Mount>) {
    if mounts == [] then false
    else if mounts[0].name == MCP_VOLUME && mounts[0].path == MCP_MOUNT then mounts[0].readOnly
    else MountsProxyReadOnly(mounts[1..])
  }

  predicate McpRoutingTrusted(cfg: Config, c: Container) {
    var env := Items(c.env);
    && TrustedURL(cfg, LastValue(env, URL_ENV))
    && ValueOr(env, PIN_STORE_ENV) == cfg.mcpPinStore
    && ValueOr(env, PIN_MODE_ENV) == cfg.mcpPinMode
  }

  function ProxyArgv(id: string): seq<string> { [MCP_BINARY, "--server-id", id, "--"] }

  predicate IsProxyCommand(command: seq<string>) { |command| > 0 && command[0] == MCP_BINARY }

  predicate WrappedCorrectly(cfg: Config, pod: Pod, c: Container) {
    var want := ProxyArgv(ServerId(pod, c.name));
    && IsProxyCommand(c.command)
    && MountsProxyReadOnly(Items(c.mounts))
    && McpRoutingTrusted(cfg, c)
    && want < c.command
    && c.args == []
  }

  /** The first volume of that name is an emptyDir. */
  predicate HasInjectorMcpVolume(volumes: seq<Volume>) {
    if volumes == [] then false
    else if volumes[0].name == MCP_VOLUME then volumes[0].emptyDir
    else HasInjectorMcpVolume(volumes[1..])
  }

  predicate HasInjectorMcpInit(cfg: Config, inits: seq<Container>) {
    var i := IndexNamed(inits, MCP_INIT_NAME);
    i.Some? && IsInjectorMcpInit(cfg, inits[i.value])
  }

  predicate McpFullyInjected(cfg: Config, pod: Pod) {
    cfg.mcpInject && AnnotatedNames(pod) != [] ==>
      && HasInjectorMcpVolume(Items(pod.volumes))
      && HasInjectorMcpInit(cfg, Items(pod.inits))
      && forall name | name in AnnotatedNames(pod) ::
           Find(pod, name).Some? && WrappedCorrectly(cfg, pod, ContainerAt(pod, Find(pod, name).value))
  }

  predicate MountsProxyPath(c: Container) {
    exists m | m in Items(c.mounts) :: m.name == MCP_VOLUME || m.path == MCP_MOUNT || m.path == MCP_STAGING
  }

  predicate McpArtifact(cfg: Config, pod: Pod) {
    || (exists v | v in Items(pod.volumes) :: v.name == MCP_VOLUME)
    || exists c | c in AllContainers(pod) ::
         || (c.name == MCP_INIT_NAME && !IsInjectorMcpInit(cfg, c))
         || MountsProxyPath(c)
         || IsProxyCommand(c.command)
  }

  // ----- the verdict ----------------------------------------------------------------------------

  predicate HasSocketVolume(pod: Pod) {
    exists v | v in Items(pod.volumes) :: v.name == SOCKET_VOLUME
  }

  predicate IsDecoy(cfg: Config, c: Container) {
    !(cfg.mcpInject && IsInjectorMcpInit(cfg, c)) && Overrides(c) && OccupiesEnforcementPath(c, cfg.sidecarImage)
  }

  predicate NeuteredDecoy(cfg: Config, pod: Pod) {
    cfg.sidecarImage != "" && exists c | c in AllContainers(pod) :: IsDecoy(cfg, c)
  }

  predicate FullyInjected(cfg: Config, pod: Pod) {
    && HasSocketVolume(pod)
    && (forall c | c in pod.containers :: IsTrustedSidecar(cfg, c) || Wired(c))
    && (exists c | c in pod.containers :: IsTrustedSidecar(cfg, c))
    && (forall c | c in Items(pod.inits) :: Wired(c))
    && McpFullyInjected(cfg, pod)
  }

  /** The loop over application containers: count the sidecars, stop at the first unwired container. */
  method CountSidecars(cfg: Config, list: seq<Container>) returns (wired: bool, sidecars: nat)
    ensures wired <==> forall c | c in list :: IsTrustedSidecar(cfg, c) || Wired(c)
    ensures wired ==> (sidecars > 0 <==> exists c | c in list :: IsTrustedSidecar(cfg, c))
  {
    wired, sidecars := true, 0;
    for i := 0 to |list|
      invariant forall j | 0 <= j < i :: IsTrustedSidecar(cfg, list[j]) || Wired(list[j])
      invariant sidecars > 0 <==> exists j | 0 <= j < i :: IsTrustedSidecar(cfg, list[j])
    {
      if IsTrustedSidecar(cfg, list[i]) {
        sidecars := sidecars + 1;
      } else if !Wired(list[i]) {
        return false, sidecars;
      }
    }
  }

  method AllWired(list: seq<Container>) returns (wired: bool)
    ensures wired <==> forall c | c in list :: Wired(c)
  {
    for i := 0 to |list|
      invariant forall j | 0 <= j < i :: Wired(list[j])
    {
      if !Wired(list[i]) {
        return false;
      }
    }
    return true;
  }

  method CheckFullyInjected(cfg: Config, pod: Pod) returns (full: bool)
    ensures full == FullyInjected(cfg, pod)
  {
    if !HasSocketVolume(pod) {
      return false;
    }
    var wired, sidecars := CountSidecars(cfg, pod.containers);
    if !wired || sidecars == 0 {
      return false;
    }
    var initsWired := AllWired(Items(pod.inits));
    full := initsWired && McpFullyInjected(cfg, pod);
  }

  predicate EnforcementArtifact(cfg: Config, pod: Pod) {
    || HasSocketVolume(pod)
    || (exists c | c in AllContainers(pod) ::
          OccupiesEnforcementPath(c, cfg.sidecarImage) || HasSocketMount(c) || HasSocketEnv(c))
    || (cfg.mcpInject && McpArtifact(cfg, pod))
  }

  datatype Verdict = Inject | Skip | Deny

  function Classify(cfg: Config, pod: Pod): Verdict {
    if NeuteredDecoy(cfg, pod) then Deny
    else if FullyInjected(cfg, pod) then Skip
    else if EnforcementArtifact(cfg, pod) then Deny
    else Inject
  }
}
