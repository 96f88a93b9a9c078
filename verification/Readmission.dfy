/**
  Admission is idempotent: the recogniser (webhook/handler.go) against the patch builder
  (webhook/injector.go). The pod that the emitted patch makes is recognised as already injected, and the
  theorem says for exactly which pods and configurations.
 */
module Readmission {
  import opened Outcomes
  import opened Pods
  import opened Strings
  import opened Webhook
  import opened Injector
  import opened InjectedPod

  // ----- environment lists ----------------------------------------------------------------------

  lemma {:induction false} LastValueConcat(a: seq<EnvVar>, b: seq<EnvVar>, name: string)
    ensures LastValue(a + b, name) == if LastValue(b, name).Some? then LastValue(b, name) else LastValue(a, name)
    decreases |b|
  {
    if b == [] {
      assert a + b == a;
    } else {
      assert (a + b)[..|a + b| - 1] == a + b[..|b| - 1];
      LastValueConcat(a, b[..|b| - 1], name);
    }
  }

  predicate Lacks(env: seq<EnvVar>, name: string) { forall e | e in env :: e.name != name }

  lemma {:induction false} LacksMeansNone(env: seq<EnvVar>, name: string)
    ensures Lacks(env, name) <==> LastValue(env, name).None?
  {
    if env != [] {
      LacksMeansNone(env[..|env| - 1], name);
      assert env == env[..|env| - 1] + [env[|env| - 1]];
    }
  }

  /** What follows a list without the name does not change its value. */
  lemma LastValueBefore(a: seq<EnvVar>, b: seq<EnvVar>, name: string)
    requires Lacks(b, name)
    ensures LastValue(a + b, name) == LastValue(a, name)
  {
    LastValueConcat(a, b, name);
    LacksMeansNone(b, name);
  }

  lemma {:induction false} LastOccurrence(env: seq<EnvVar>, i: nat, name: string)
    requires i < |env| && env[i].name == name && forall j | i < j < |env| :: env[j].name != name
    ensures LastValue(env, name) == Some(ValueOf(env[i]))
  {
    if i < |env| - 1 {
      LastOccurrence(env[..|env| - 1], i, name);
    }
  }

  lemma {:induction false} RefsLack(env: seq<EnvVar>, moved: set<string>, secret: string, name: string)
    requires name !in moved
    ensures Lacks(Refs(env, moved, secret), name)
  {
    if env != [] {
      RefsLack(env[..|env| - 1], moved, secret, name);
    }
  }

  lemma {:induction false} KeepKeeps(env: seq<EnvVar>, moved: set<string>, name: string)
    requires name !in moved
    ensures LastValue(Keep(env, moved), name) == LastValue(env, name)
  {
    if env != [] {
      var front, e := env[..|env| - 1], env[|env| - 1];
      KeepKeeps(front, moved, name);
      if e.name !in moved {
        assert Keep(env, moved)[..|Keep(env, moved)| - 1] == Keep(front, moved);
      } else {
        assert Keep(env, moved) == Keep(front, moved);
      }
    }
  }

  /** Moving the credentials into a Secret changes no other name. */
  lemma OthersUnmoved(env: seq<EnvVar>, write: SecretWrite, name: string)
    requires !IsCredential(name)
    ensures LastValue(CredentialEnv(env, write), name) == LastValue(env, name)
  {
    if write.Written? && MovedNames(env) != {} {
      RefsLack(env, MovedNames(env), write.name, name);
      KeepKeeps(env, MovedNames(env), name);
      LastValueBefore(Keep(env, MovedNames(env)), Refs(env, MovedNames(env), write.name), name);
    }
  }

  lemma {:induction false} RefsAreRefs(env: seq<EnvVar>, moved: set<string>, secret: string)
    ensures forall e | e in Refs(env, moved, secret) :: e.SecretRef? && e.name in moved && e.secret == secret && e.key == e.name
    ensures forall n | n in moved && (exists e | e in env :: e.name == n) :: SecretRef(n, secret, n) in Refs(env, moved, secret)
  {
    if env != [] {
      RefsAreRefs(env[..|env| - 1], moved, secret);
      assert env == env[..|env| - 1] + [env[|env| - 1]];
    }
  }

  lemma {:induction false} KeepDrops(env: seq<EnvVar>, moved: set<string>)
    ensures forall e | e in Keep(env, moved) :: e in env && e.name !in moved
  {
    if env != [] {
      KeepDrops(env[..|env| - 1], moved);
    }
  }

  /** After a successful write no credential is left in the pod spec as a literal, and every one that was
      there is read from the Secret under its own name. */
  lemma NoLiteralCredential(env: seq<EnvVar>, secret: string)
    ensures forall e | e in CredentialEnv(env, Written(secret)) && IsCredential(e.name) && e.Literal? :: e.value == ""
    ensures forall e | e in env && IsCredential(e.name) && e.Literal? && e.value != "" ::
              SecretRef(e.name, secret, e.name) in CredentialEnv(env, Written(secret))
  {
    var moved := MovedNames(env);
    RefsAreRefs(env, moved, secret);
    KeepDrops(env, moved);
    assert forall e | e in env && IsCredential(e.name) && e.Literal? && e.value != "" :: e.name in moved;
  }

  // ----- the sidecar is trusted -----------------------------------------------------------------

  function TailEnv(cfg: Config): seq<EnvVar> {
    SpiffeEnv(cfg) + IfSet("NRVQ_SDK_FALLBACK_MODE", cfg.fallbackMode)
  }

  lemma SidecarEnvParts(cfg: Config, req: Request)
    ensures SidecarEnv(cfg, req) == SidecarHead(cfg, req) + IfSet("NRVQ_WORKLOAD", req.workload) + (ModeEnv(cfg, req) + TailEnv(cfg))
  {
  }

  lemma TailLacks(cfg: Config, name: string)
    requires name in {MODE_ENV, URL_ENV, REDIS_ENV, PG_ENV}
    ensures Lacks(TailEnv(cfg), name)
  {
  }

  lemma ModeEnvLacksMode(cfg: Config, req: Request)
    ensures Lacks(ModeEnv(cfg, req), MODE_ENV)
  {
  }

  lemma SidecarMode(cfg: Config, req: Request)
    ensures LastValue(SidecarEnv(cfg, req), MODE_ENV) == Some(Mode(cfg))
  {
    SidecarEnvParts(cfg, req);
    ModeEnvLacksMode(cfg, req);
    TailLacks(cfg, MODE_ENV);
    var base, wl := SidecarHead(cfg, req), IfSet("NRVQ_WORKLOAD", req.workload);
    LastValueBefore(base + wl, ModeEnv(cfg, req) + TailEnv(cfg), MODE_ENV);
    LastValueBefore(base, wl, MODE_ENV);
  }

  lemma ProxyRoute(cfg: Config, req: Request)
    requires Mode(cfg) != "embedded"
    ensures LastValue(ModeEnv(cfg, req), URL_ENV) == Some(ApiURL(cfg, req.sidecarTls))
  {
    var url, rest := [Literal(URL_ENV, ApiURL(cfg, req.sidecarTls))], IfSet("NRVQ_API_TOKEN", req.token) + TlsEnv(cfg, req.sidecarTls);
    assert ModeEnv(cfg, req) == url + rest;
    LastValueBefore(url, rest, URL_ENV);
  }

  lemma EmbeddedRoute(cfg: Config, req: Request)
    requires Mode(cfg) == "embedded"
    ensures cfg.redisURL != "" ==> LastValue(ModeEnv(cfg, req), REDIS_ENV) == Some(cfg.redisURL)
    ensures cfg.pgURL != "" ==> LastValue(ModeEnv(cfg, req), PG_ENV) == Some(cfg.pgURL)
  {
    var redis, pg := IfSet(REDIS_ENV, cfg.redisURL), IfSet(PG_ENV, cfg.pgURL);
    var rest := [Literal("NRVQ_OPA_MODE", cfg.opaMode), Literal("NRVQ_DB_SSL_MODE", cfg.dbSslMode)];
    assert ModeEnv(cfg, req) == redis + (pg + rest) && ModeEnv(cfg, req) == redis + pg + rest;
    LastValueBefore(redis, pg + rest, REDIS_ENV);
    LastValueBefore(redis + pg, rest, PG_ENV);
    LastValueConcat(redis, pg, PG_ENV);
  }

  /** The routing of the mode decides the routing of the sidecar. */
  lemma SidecarRoute(cfg: Config, req: Request, name: string)
    requires name in {URL_ENV, REDIS_ENV, PG_ENV} && LastValue(ModeEnv(cfg, req), name).Some?
    ensures LastValue(SidecarEnv(cfg, req), name) == LastValue(ModeEnv(cfg, req), name)
  {
    SidecarEnvParts(cfg, req);
    TailLacks(cfg, name);
    LastValueConcat(SidecarHead(cfg, req) + IfSet("NRVQ_WORKLOAD", req.workload), ModeEnv(cfg, req) + TailEnv(cfg), name);
    LastValueBefore(ModeEnv(cfg, req), TailEnv(cfg), name);
  }

  lemma SidecarIsRouted(cfg: Config, req: Request)
    ensures RoutingTrusted(cfg, Sidecar(cfg, req))
  {
    var env := SidecarEnv(cfg, req);
    SidecarMode(cfg, req);
    OthersUnmoved(env, req.secret, MODE_ENV);
    OthersUnmoved(env, req.secret, URL_ENV);
    OthersUnmoved(env, req.secret, REDIS_ENV);
    OthersUnmoved(env, req.secret, PG_ENV);
    if Mode(cfg) == "embedded" {
      EmbeddedRoute(cfg, req);
      if cfg.redisURL != "" {
        SidecarRoute(cfg, req, REDIS_ENV);
      }
      if cfg.pgURL != "" {
        SidecarRoute(cfg, req, PG_ENV);
      }
    } else {
      ProxyRoute(cfg, req);
      SidecarRoute(cfg, req, URL_ENV);
    }
  }

  lemma AllowedIsNonempty(cfg: Config, image: string)
    requires IsAllowedImage(cfg, image)
    ensures image != ""
  {
  }

  lemma SidecarIsTrusted(cfg: Config, req: Request)
    requires IsAllowedImage(cfg, cfg.sidecarImage)
    ensures IsTrustedSidecar(cfg, Sidecar(cfg, req))
  {
    AllowedIsNonempty(cfg, cfg.sidecarImage);
    SidecarIsRouted(cfg, req);
  }

  // ----- the pod's own containers are wired -----------------------------------------------------

  lemma WiredIsWired(cfg: Config, c: Container)
    requires Fresh(c)
    ensures Wired(WiredOne(cfg, c)) && HasSocketMount(WiredOne(cfg, c))
  {
    var w := WiredOne(cfg, c);
    assert SOCKET in Items(w.mounts);
    assert WireEnv(cfg) == [Literal(SOCKET_ENV, SOCKET_FILE)] + SpiffeEnv(cfg);
    LastValueConcat(Items(c.env), WireEnv(cfg), SOCKET_ENV);
    LastValueBefore([Literal(SOCKET_ENV, SOCKET_FILE)], SpiffeEnv(cfg), SOCKET_ENV);
  }

  lemma McpEnvLacksSocket(cfg: Config, req: Request)
    ensures Lacks(McpEnv(cfg, req), SOCKET_ENV)
  {
  }

  lemma WrappedIsWired(cfg: Config, req: Request, c: Container, id: string)
    requires Wired(c)
    ensures Wired(WrappedOne(c, id, McpEnv(cfg, req)))
  {
    var w := WrappedOne(c, id, McpEnv(cfg, req));
    var m :| m in Items(c.mounts) && m.name == SOCKET_VOLUME && m.path == SOCKET_MOUNT;
    assert m in Items(w.mounts);
    McpEnvLacksSocket(cfg, req);
    LastValueBefore(Items(c.env), McpEnv(cfg, req), SOCKET_ENV);
  }

  lemma FinalIsWired(cfg: Config, pod: Pod, req: Request, kind: Kind, i: nat)
    requires Untouched(pod) && i < |Items(ListOf(pod, kind))|
    ensures Wired(Final(cfg, pod, req, kind, i)) && HasSocketMount(Final(cfg, pod, req, kind, i))
  {
    var c := Items(ListOf(pod, kind))[i];
    assert c in AllContainers(pod);
    WiredIsWired(cfg, c);
    WrappedIsWired(cfg, req, WiredOne(cfg, c), ServerId(pod, c.name));
  }

  lemma McpInitIsWired(cfg: Config)
    ensures Wired(McpInit(cfg))
  {
    assert SOCKET in Items(McpInit(cfg).mounts);
  }

  // ----- MCP containers are recognised ----------------------------------------------------------

  lemma {:induction false} ProxyMountIsFound(before: seq<Mount>)
    requires forall m | m in before :: m.name != MCP_VOLUME
    ensures MountsProxyReadOnly(before + [PROXY])
  {
    if before != [] {
      assert (before + [PROXY])[1..] == before[1..] + [PROXY];
      ProxyMountIsFound(before[1..]);
    }
  }

  lemma {:induction false} McpVolumeIsFound(before: seq<Volume>)
    requires forall v | v in before :: v.name != MCP_VOLUME
    ensures HasInjectorMcpVolume(before + [Volume(MCP_VOLUME, true)])
  {
    if before != [] {
      assert (before + [Volume(MCP_VOLUME, true)])[1..] == before[1..] + [Volume(MCP_VOLUME, true)];
      McpVolumeIsFound(before[1..]);
    }
  }

  lemma McpHeadDecides(cfg: Config, req: Request, name: string)
    requires name in {URL_ENV, PIN_STORE_ENV, PIN_MODE_ENV}
    ensures LastValue(McpEnv(cfg, req), name) == LastValue(McpHead(cfg, req), name)
  {
    var token, tls := IfSet("NRVQ_API_TOKEN", req.token), TlsEnv(cfg, req.mcpTls);
    var fallback := IfSet("NRVQ_SDK_FALLBACK_MODE", cfg.fallbackMode);
    LastValueBefore(McpHead(cfg, req) + token + tls, fallback, name);
    LastValueBefore(McpHead(cfg, req) + token, tls, name);
    LastValueBefore(McpHead(cfg, req), token, name);
  }

  lemma McpUrl(cfg: Config, req: Request)
    ensures LastValue(McpEnv(cfg, req), URL_ENV) == Some(ApiURL(cfg, req.mcpTls))
  {
    McpHeadDecides(cfg, req, URL_ENV);
    LastOccurrence(McpHead(cfg, req), 0, URL_ENV);
  }

  lemma McpPinStore(cfg: Config, req: Request)
    ensures LastValue(McpEnv(cfg, req), PIN_STORE_ENV) == Some(cfg.mcpPinStore)
  {
    McpHeadDecides(cfg, req, PIN_STORE_ENV);
    LastOccurrence(McpHead(cfg, req), 3, PIN_STORE_ENV);
  }

  lemma McpPinMode(cfg: Config, req: Request)
    ensures LastValue(McpEnv(cfg, req), PIN_MODE_ENV) == Some(cfg.mcpPinMode)
  {
    McpHeadDecides(cfg, req, PIN_MODE_ENV);
    LastOccurrence(McpHead(cfg, req), 4, PIN_MODE_ENV);
  }

  lemma WrappedIsRouted(cfg: Config, req: Request, c: Container, id: string)
    ensures McpRoutingTrusted(cfg, WrappedOne(c, id, McpEnv(cfg, req)))
  {
    McpUrl(cfg, req);
    McpPinStore(cfg, req);
    McpPinMode(cfg, req);
    LastValueConcat(Items(c.env), McpEnv(cfg, req), URL_ENV);
    LastValueConcat(Items(c.env), McpEnv(cfg, req), PIN_STORE_ENV);
    LastValueConcat(Items(c.env), McpEnv(cfg, req), PIN_MODE_ENV);
  }

  lemma SameAnnotations(pod: Pod, after: Pod, name: string)
    requires AnnotationsOf(after) == AnnotationsOf(pod)[INJECTED_ANNOTATION := "true"]
    ensures AnnotatedNames(after) == AnnotatedNames(pod)
    ensures ServerId(after, name) == ServerId(pod, name)
  {
    assert MCP_ANNOTATION != INJECTED_ANNOTATION;
    assert |MCP_ID_PREFIX + name| > |INJECTED_ANNOTATION|;
  }

  lemma WiredHasNoProxyMount(cfg: Config, c: Container)
    requires !MountsProxyPath(c)
    ensures forall m | m in Items(WiredOne(cfg, c).mounts) :: m.name != MCP_VOLUME
  {
  }

  lemma WrappedArgv(id: string, c: Container)
    requires c.command != []
    ensures ProxyArgv(id) < WrappedCommand(id, c) && IsProxyCommand(WrappedCommand(id, c))
  {
    assert WrappedCommand(id, c) == ProxyArgv(id) + (c.command + c.args);
  }

  lemma WrappedIsCorrect(cfg: Config, pod: Pod, req: Request, c: Container, after: Pod)
    requires c.command != [] && forall m | m in Items(c.mounts) :: m.name != MCP_VOLUME
    requires ServerId(after, c.name) == ServerId(pod, c.name)
    ensures WrappedCorrectly(cfg, after, WrappedOne(c, ServerId(pod, c.name), McpEnv(cfg, req)))
  {
    var id := ServerId(pod, c.name);
    var w := WrappedOne(c, id, McpEnv(cfg, req));
    assert MountsProxyReadOnly(Items(w.mounts)) by { ProxyMountIsFound(Items(c.mounts)); }
    assert McpRoutingTrusted(cfg, w) by { WrappedIsRouted(cfg, req, c, id); }
    WrappedArgv(id, c);
  }

  lemma IndexIsFirst(list: seq<Container>, name: string, i: nat)
    requires i < |list| && list[i].name == name && forall j | 0 <= j < i :: list[j].name != name
    ensures IndexNamed(list, name) == Some(i)
  {
  }

  /** No container of a pod that is to be injected wears the delivery container's name. */
  lemma InitNameIsFree(cfg: Config, pod: Pod, c: Container)
    requires cfg.mcpInject && !McpArtifact(cfg, pod) && c in AllContainers(pod)
    ensures c.name != MCP_INIT_NAME
  {
    assert !MountsProxyPath(c);
    assert c.name == MCP_INIT_NAME ==> IsInjectorMcpInit(cfg, c);
  }

  /** `after` has the containers of `pod` by name, the sidecar behind and the delivery container in front. */
  predicate SameNames(pod: Pod, after: Pod) {
    && |after.containers| == |pod.containers| + 1
    && after.containers[|pod.containers|].name == SIDECAR_NAME
    && (forall i | 0 <= i < |pod.containers| :: after.containers[i].name == pod.containers[i].name)
    && |Items(after.inits)| == |Items(pod.inits)| + 1
    && Items(after.inits)[0].name == MCP_INIT_NAME
    && forall i | 0 < i < |Items(after.inits)| :: Items(after.inits)[i].name == Items(pod.inits)[i - 1].name
  }

  /** Where a name is found in such a pod. */
  function PlaceAfter(pod: Pod, name: string, at: (Kind, nat)): (Kind, nat) {
    if at.0.App? then at else if name == SIDECAR_NAME then (App, |pod.containers|) else (Init, at.1 + 1)
  }

  lemma FoundAfter(pod: Pod, after: Pod, name: string)
    requires SameNames(pod, after) && name != MCP_INIT_NAME && Find(pod, name).Some?
    ensures var at := Find(pod, name).value;
            Find(after, name) == Some(PlaceAfter(pod, name, at))
  {
    var at := Find(pod, name).value;
    if at.0.App? {
      IndexIsFirst(after.containers, name, at.1);
    } else if name == SIDECAR_NAME {
      IndexIsFirst(after.containers, name, |pod.containers|);
    } else {
      assert forall i | 0 <= i < |after.containers| :: after.containers[i].name != name;
      assert IndexNamed(after.containers, name).None?;
      IndexIsFirst(Items(after.inits), name, at.1 + 1);
    }
  }

  lemma FinalName(cfg: Config, pod: Pod, req: Request, kind: Kind, i: nat)
    requires i < |Items(ListOf(pod, kind))|
    ensures Final(cfg, pod, req, kind, i).name == Items(ListOf(pod, kind))[i].name
  {
  }

  lemma InjectedNames(cfg: Config, pod: Pod, req: Request, after: Pod)
    requires Injected(cfg, pod, req, after) && Targets(cfg, pod) != []
    ensures SameNames(pod, after)
  {
    forall i | 0 <= i < |pod.containers| ensures after.containers[i].name == pod.containers[i].name {
      FinalName(cfg, pod, req, App, i);
    }
    forall i | 0 < i < |Items(after.inits)| ensures Items(after.inits)[i].name == Items(pod.inits)[i - 1].name {
      FinalName(cfg, pod, req, Init, i - 1);
      FinalPlace(cfg, pod, req, after, Init, i - 1);
    }
  }

  /** An annotated name is a target, and the container it names has a command of its own. */
  lemma NameIsTarget(cfg: Config, pod: Pod, name: string)
    requires cfg.mcpInject && TargetsOf(cfg, pod).Ok? && name in AnnotatedNames(pod)
    ensures var ts := Targets(cfg, pod);
            && Find(pod, name).Some?
            && Targeted(ts, |ts|, Find(pod, name).value.0, Find(pod, name).value.1)
            && ContainerAt(pod, Find(pod, name).value).command != []
  {
    var names, ts := AnnotatedNames(pod), Targets(cfg, pod);
    TargetsAreResolved(pod, names);
    var t :| 0 <= t < |names| && names[t] == name;
    assert Resolves(pod, names[t], ts[t]);
  }

  /** A wrapped container is the injector's own wrapping of it. */
  lemma FinalIsCorrect(cfg: Config, pod: Pod, req: Request, after: Pod, at: (Kind, nat))
    requires ListOf(pod, at.0).Some? && at.1 < |ListOf(pod, at.0).value|
    requires var ts := Targets(cfg, pod); Targeted(ts, |ts|, at.0, at.1)
    requires ContainerAt(pod, at).command != [] && !MountsProxyPath(ContainerAt(pod, at))
    requires ServerId(after, ContainerAt(pod, at).name) == ServerId(pod, ContainerAt(pod, at).name)
    ensures WrappedCorrectly(cfg, after, Final(cfg, pod, req, at.0, at.1))
  {
    var c := ContainerAt(pod, at);
    WiredHasNoProxyMount(cfg, c);
    WrappedIsCorrect(cfg, pod, req, WiredOne(cfg, c), after);
  }

  lemma AppAfter(cfg: Config, pod: Pod, req: Request, after: Pod, i: nat)
    requires AppsInjected(cfg, pod, req, after.containers) && i <= |pod.containers|
    ensures i < |after.containers|
    ensures i < |pod.containers| ==> ContainerAt(after, (App, i)) == Final(cfg, pod, req, App, i)
    ensures i == |pod.containers| ==> ContainerAt(after, (App, i)) == Sidecar(cfg, req)
  {
  }

  lemma InitElement(cfg: Config, pod: Pod, req: Request, inits: seq<Container>, i: nat)
    requires InitsInjected(cfg, pod, req, inits) && i < |Items(pod.inits)|
    ensures i + Shift(cfg, pod) < |inits| && inits[i + Shift(cfg, pod)] == Final(cfg, pod, req, Init, i)
  {
  }

  lemma InitAt(after: Pod, k: nat)
    requires k < |Items(after.inits)|
    ensures after.inits.Some? && k < |after.inits.value| && ContainerAt(after, (Init, k)) == Items(after.inits)[k]
  {
  }

  lemma AppLeadsTo(cfg: Config, pod: Pod, req: Request, after: Pod, name: string, i: nat)
    requires SameNames(pod, after) && AppsInjected(cfg, pod, req, after.containers) && name != MCP_INIT_NAME
    requires Find(pod, name) == Some((App, i))
    ensures Find(after, name).Some? && ContainerAt(after, Find(after, name).value) == Final(cfg, pod, req, App, i)
  {
    FoundAfter(pod, after, name);
    AppAfter(cfg, pod, req, after, i);
  }

  lemma InitLeadsTo(cfg: Config, pod: Pod, req: Request, after: Pod, name: string, i: nat)
    requires SameNames(pod, after) && InitsInjected(cfg, pod, req, Items(after.inits)) && Targets(cfg, pod) != []
    requires Find(pod, name) == Some((Init, i)) && name != MCP_INIT_NAME && name != SIDECAR_NAME
    ensures Find(after, name).Some? && ContainerAt(after, Find(after, name).value) == Final(cfg, pod, req, Init, i)
  {
    FoundAfter(pod, after, name);
    InitElement(cfg, pod, req, Items(after.inits), i);
    InitAt(after, i + 1);
  }

  lemma InitNamedLikeSidecar(cfg: Config, pod: Pod, req: Request, after: Pod, i: nat)
    requires SameNames(pod, after) && AppsInjected(cfg, pod, req, after.containers)
    requires Find(pod, SIDECAR_NAME) == Some((Init, i))
    ensures Find(after, SIDECAR_NAME).Some?
    ensures ContainerAt(after, Find(after, SIDECAR_NAME).value) == Sidecar(cfg, req)
  {
    FoundAfter(pod, after, SIDECAR_NAME);
    AppAfter(cfg, pod, req, after, |pod.containers|);
  }

  /** Where a name of the pod leads after the patch. */
  lemma NameLeadsTo(cfg: Config, pod: Pod, req: Request, after: Pod, name: string, at: (Kind, nat))
    requires Injected(cfg, pod, req, after) && Targets(cfg, pod) != []
    requires Find(pod, name) == Some(at) && name != MCP_INIT_NAME
    ensures Find(after, name).Some?
    ensures at.0.Init? && name == SIDECAR_NAME ==> ContainerAt(after, Find(after, name).value) == Sidecar(cfg, req)
    ensures at.0.App? || name != SIDECAR_NAME ==>
              ContainerAt(after, Find(after, name).value) == Final(cfg, pod, req, at.0, at.1)
  {
    InjectedNames(cfg, pod, req, after);
    if at.0.App? {
      AppLeadsTo(cfg, pod, req, after, name, at.1);
    } else if name == SIDECAR_NAME {
      InitNamedLikeSidecar(cfg, pod, req, after, at.1);
    } else {
      InitLeadsTo(cfg, pod, req, after, name, at.1);
    }
  }

  /** An annotated name leads to a container with the injector's own wrapping, unless it named an init
      container called like the sidecar: then it leads to the sidecar. */
  lemma NameIsWrapped(cfg: Config, pod: Pod, req: Request, after: Pod, name: string)
    requires cfg.mcpInject && TargetsOf(cfg, pod).Ok? && name in AnnotatedNames(pod)
    requires !McpArtifact(cfg, pod) && Injected(cfg, pod, req, after)
    ensures Find(after, name).Some?
    ensures WrappedCorrectly(cfg, after, ContainerAt(after, Find(after, name).value)) <==>
            (name == SIDECAR_NAME ==> IndexNamed(pod.containers, SIDECAR_NAME).Some?)
  {
    NameIsTarget(cfg, pod, name);
    var at := Find(pod, name).value;
    var c := ContainerAt(pod, at);
    assert c in AllContainers(pod);
    InitNameIsFree(cfg, pod, c);
    NameLeadsTo(cfg, pod, req, after, name, at);
    SameAnnotations(pod, after, c.name);
    FinalIsCorrect(cfg, pod, req, after, at);
    assert at.0.App? <==> IndexNamed(pod.containers, name).Some?;
  }

  lemma McpInitIsRecognised(cfg: Config)
    ensures IsInjectorMcpInit(cfg, McpInit(cfg)) <==> ImageName(cfg.mcpProxyImage) != "" && !CoversSource(cfg, SOCKET_MOUNT)
  {
    var mounts := Items(McpInit(cfg).mounts);
    assert mounts == [Mount(MCP_VOLUME, MCP_STAGING, false), SOCKET];
    assert IsStagingMount(mounts[0]) && !IsStagingMount(SOCKET) && SOCKET in mounts;
  }

  /** The MCP half of the condition: the proxy image has a name, the socket mount does not hide the proxy
      payload, and no annotated init container is called like the sidecar. */
  predicate McpRecognisable(cfg: Config, pod: Pod) {
    cfg.mcpInject && AnnotatedNames(pod) != [] ==>
      && ImageName(cfg.mcpProxyImage) != ""
      && !CoversSource(cfg, SOCKET_MOUNT)
      && (SIDECAR_NAME in AnnotatedNames(pod) ==> IndexNamed(pod.containers, SIDECAR_NAME).Some?)
  }

  lemma McpPlumbingIsFound(cfg: Config, pod: Pod, req: Request, after: Pod)
    requires cfg.mcpInject && Targets(cfg, pod) != [] && !McpArtifact(cfg, pod) && Injected(cfg, pod, req, after)
    ensures HasInjectorMcpVolume(Items(after.volumes))
    ensures HasInjectorMcpInit(cfg, Items(after.inits)) <==> IsInjectorMcpInit(cfg, McpInit(cfg))
  {
    McpVolumeIsFound(Items(pod.volumes) + BaseVolumes(cfg));
    IndexIsFirst(Items(after.inits), MCP_INIT_NAME, 0);
  }

  lemma McpRecognised(cfg: Config, pod: Pod, req: Request, after: Pod)
    requires Patch(cfg, pod, req).Ok? && (cfg.mcpInject ==> !McpArtifact(cfg, pod)) && Injected(cfg, pod, req, after)
    ensures McpFullyInjected(cfg, after) <==> McpRecognisable(cfg, pod)
  {
    var names := AnnotatedNames(pod);
    SameAnnotations(pod, after, "");
    if cfg.mcpInject && names != [] {
      NameIsTarget(cfg, pod, names[0]);
      McpPlumbingIsFound(cfg, pod, req, after);
      McpInitIsRecognised(cfg);
      forall name | name in names
        ensures Find(after, name).Some?
        ensures WrappedCorrectly(cfg, after, ContainerAt(after, Find(after, name).value)) <==>
                (name == SIDECAR_NAME ==> IndexNamed(pod.containers, SIDECAR_NAME).Some?)
      {
        NameIsWrapped(cfg, pod, req, after, name);
      }
    }
  }

  // ----- the verdict ----------------------------------------------------------------------------

  /** A container with a command or args of its own that runs an image of the sidecar's name. */
  predicate Lookalike(cfg: Config, c: Container) {
    Overrides(c) && (c.image == cfg.sidecarImage || SameImageName(c.image, cfg.sidecarImage))
  }

  /** Exactly the pods whose injected form is recognised. */
  predicate Recognisable(cfg: Config, pod: Pod) {
    (forall c | c in AllContainers(pod) :: !Lookalike(cfg, c)) && McpRecognisable(cfg, pod)
  }

  /** Wiring gives every container the socket mount, so the image name alone makes it a decoy. */
  lemma FinalDecoy(cfg: Config, pod: Pod, req: Request, kind: Kind, i: nat)
    requires Untouched(pod) && i < |Items(ListOf(pod, kind))| && cfg.sidecarImage != ""
    requires cfg.mcpInject ==> !McpArtifact(cfg, pod)
    ensures IsDecoy(cfg, Final(cfg, pod, req, kind, i)) <==> Lookalike(cfg, Items(ListOf(pod, kind))[i])
  {
    var c := Items(ListOf(pod, kind))[i];
    assert c in AllContainers(pod);
    FinalIsWired(cfg, pod, req, kind, i);
    FinalExtends(cfg, pod, req, kind, i);
    FinalName(cfg, pod, req, kind, i);
    TargetOverrides(cfg, pod, kind, i);
    if cfg.mcpInject {
      InitNameIsFree(cfg, pod, c);
    }
  }

  lemma TargetOverrides(cfg: Config, pod: Pod, kind: Kind, i: nat)
    requires i < |Items(ListOf(pod, kind))|
    ensures var ts := Targets(cfg, pod); Targeted(ts, |ts|, kind, i) ==> Overrides(Items(ListOf(pod, kind))[i])
  {
    var names, ts := AnnotatedNames(pod), Targets(cfg, pod);
    if Targeted(ts, |ts|, kind, i) {
      TargetsAreResolved(pod, names);
      var t :| 0 <= t < |ts| && ts[t].kind == kind && ts[t].index == i;
      assert Resolves(pod, names[t], ts[t]);
    }
  }

  /** Every container after the patch is the sidecar, the delivery container, or one of the pod's own. */
  lemma WhereFrom(cfg: Config, pod: Pod, req: Request, after: Pod, c: Container) returns (kind: Kind, i: nat)
    requires Injected(cfg, pod, req, after) && c in AllContainers(after)
    ensures || c == Sidecar(cfg, req)
            || (c == McpInit(cfg) && Targets(cfg, pod) != [])
            || (i < |Items(ListOf(pod, kind))| && c == Final(cfg, pod, req, kind, i))
  {
    var j;
    kind, j := FindContainer(after, c);
    if kind.App? {
      i := j;
      AppFrom(cfg, pod, req, after.containers, j);
    } else {
      i := if j >= Shift(cfg, pod) then j - Shift(cfg, pod) else 0;
      InitFrom(cfg, pod, req, Items(after.inits), j);
    }
  }

  lemma AppFrom(cfg: Config, pod: Pod, req: Request, apps: seq<Container>, j: nat)
    requires AppsInjected(cfg, pod, req, apps) && j < |apps|
    ensures j <= |pod.containers|
    ensures j < |pod.containers| ==> apps[j] == Final(cfg, pod, req, App, j)
    ensures j == |pod.containers| ==> apps[j] == Sidecar(cfg, req)
  {
  }

  lemma InitFrom(cfg: Config, pod: Pod, req: Request, inits: seq<Container>, j: nat)
    requires InitsInjected(cfg, pod, req, inits) && j < |inits|
    ensures var s := Shift(cfg, pod);
            || (j < s && inits[j] == McpInit(cfg) && Targets(cfg, pod) != [])
            || (s <= j && j - s < |Items(pod.inits)| && inits[j] == Final(cfg, pod, req, Init, j - s))
  {
    if j >= Shift(cfg, pod) {
      InitElement(cfg, pod, req, inits, j - Shift(cfg, pod));
    }
  }

  lemma DecoyOnlyFromLookalike(cfg: Config, pod: Pod, req: Request, after: Pod, c: Container)
    requires Untouched(pod) && cfg.sidecarImage != "" && (cfg.mcpInject ==> !McpArtifact(cfg, pod))
    requires Injected(cfg, pod, req, after) && McpRecognisable(cfg, pod)
    requires c in AllContainers(after) && IsDecoy(cfg, c)
    ensures exists d | d in AllContainers(pod) :: Lookalike(cfg, d)
  {
    var kind, i := WhereFrom(cfg, pod, req, after, c);
    if c == McpInit(cfg) && Targets(cfg, pod) != [] {
      McpInitIsRecognised(cfg);
      assert false;
    } else if c != Sidecar(cfg, req) {
      FinalDecoy(cfg, pod, req, kind, i);
      assert Items(ListOf(pod, kind))[i] in AllContainers(pod);
    }
  }

  lemma LookalikeBecomesDecoy(cfg: Config, pod: Pod, req: Request, after: Pod, c: Container)
    requires Untouched(pod) && cfg.sidecarImage != "" && (cfg.mcpInject ==> !McpArtifact(cfg, pod))
    requires Injected(cfg, pod, req, after) && c in AllContainers(pod) && Lookalike(cfg, c)
    ensures NeuteredDecoy(cfg, after)
  {
    var kind, i := FindContainer(pod, c);
    FinalDecoy(cfg, pod, req, kind, i);
    FinalPlace(cfg, pod, req, after, kind, i);
    ListedIsContainer(after, kind, Place(cfg, pod, kind, i));
  }

  lemma FindContainer(pod: Pod, c: Container) returns (kind: Kind, i: nat)
    requires c in AllContainers(pod)
    ensures i < |Items(ListOf(pod, kind))| && Items(ListOf(pod, kind))[i] == c
  {
    if c in pod.containers {
      kind := App;
      i :| i < |pod.containers| && pod.containers[i] == c;
    } else {
      kind := Init;
      i :| i < |Items(pod.inits)| && Items(pod.inits)[i] == c;
    }
  }

  lemma ListedIsContainer(pod: Pod, kind: Kind, i: nat)
    requires i < |Items(ListOf(pod, kind))|
    ensures Items(ListOf(pod, kind))[i] in AllContainers(pod)
  {
  }

  lemma AppIsWired(cfg: Config, pod: Pod, req: Request, apps: seq<Container>, i: nat)
    requires Untouched(pod) && IsAllowedImage(cfg, cfg.sidecarImage) && AppsInjected(cfg, pod, req, apps) && i < |apps|
    ensures i == |pod.containers| ==> IsTrustedSidecar(cfg, apps[i])
    ensures i < |pod.containers| ==> Wired(apps[i])
  {
    if i < |pod.containers| {
      FinalIsWired(cfg, pod, req, App, i);
    } else {
      SidecarIsTrusted(cfg, req);
    }
  }

  lemma AppsAreWired(cfg: Config, pod: Pod, req: Request, apps: seq<Container>)
    requires Untouched(pod) && IsAllowedImage(cfg, cfg.sidecarImage) && AppsInjected(cfg, pod, req, apps)
    ensures forall i | 0 <= i < |apps| :: IsTrustedSidecar(cfg, apps[i]) || Wired(apps[i])
    ensures exists c | c in apps :: IsTrustedSidecar(cfg, c)
  {
    AppIsWired(cfg, pod, req, apps, |pod.containers|);
    assert apps[|pod.containers|] in apps;
    forall i | 0 <= i < |apps| ensures IsTrustedSidecar(cfg, apps[i]) || Wired(apps[i]) {
      AppIsWired(cfg, pod, req, apps, i);
    }
  }

  lemma InitIsWired(cfg: Config, pod: Pod, req: Request, inits: seq<Container>, i: nat)
    requires Untouched(pod) && InitsInjected(cfg, pod, req, inits) && i < |inits|
    ensures Wired(inits[i])
  {
    if i < Shift(cfg, pod) {
      McpInitIsWired(cfg);
    } else {
      FinalIsWired(cfg, pod, req, Init, i - Shift(cfg, pod));
    }
  }

  lemma SocketVolumeIsThere(cfg: Config, pod: Pod, after: Pod)
    requires VolumesInjected(cfg, pod, Items(after.volumes))
    ensures HasSocketVolume(after)
  {
    assert Volume(SOCKET_VOLUME, true) in BaseVolumes(cfg) && Volume(SOCKET_VOLUME, true) in Items(after.volumes);
  }

  lemma DecoysAreLookalikes(cfg: Config, pod: Pod, req: Request, after: Pod)
    requires Untouched(pod) && cfg.sidecarImage != "" && (cfg.mcpInject ==> !McpArtifact(cfg, pod))
    requires Injected(cfg, pod, req, after) && McpRecognisable(cfg, pod)
    ensures NeuteredDecoy(cfg, after) <==> exists c | c in AllContainers(pod) :: Lookalike(cfg, c)
  {
    if c :| c in AllContainers(pod) && Lookalike(cfg, c) {
      LookalikeBecomesDecoy(cfg, pod, req, after, c);
    }
    if c :| c in AllContainers(after) && IsDecoy(cfg, c) {
      DecoyOnlyFromLookalike(cfg, pod, req, after, c);
    }
  }

  lemma InjectMeansUntouched(cfg: Config, pod: Pod)
    requires Classify(cfg, pod) == Inject
    ensures Untouched(pod) && (cfg.mcpInject ==> !McpArtifact(cfg, pod))
  {
  }

  lemma PatchMeansAllowed(cfg: Config, pod: Pod, req: Request)
    requires Patch(cfg, pod, req).Ok?
    ensures IsAllowedImage(cfg, cfg.sidecarImage) && cfg.sidecarImage != ""
  {
    AllowedIsNonempty(cfg, cfg.sidecarImage);
  }

  lemma ReadmissionVerdict(cfg: Config, pod: Pod, req: Request, after: Pod)
    requires Classify(cfg, pod) == Inject && Patch(cfg, pod, req).Ok? && Injected(cfg, pod, req, after)
    ensures Classify(cfg, after) == if Recognisable(cfg, pod) then Skip else Deny
  {
    InjectMeansUntouched(cfg, pod);
    PatchMeansAllowed(cfg, pod, req);
    AppsAreWired(cfg, pod, req, after.containers);
    forall i | 0 <= i < |Items(after.inits)| ensures Wired(Items(after.inits)[i]) {
      InitIsWired(cfg, pod, req, Items(after.inits), i);
    }
    SocketVolumeIsThere(cfg, pod, after);
    McpRecognised(cfg, pod, req, after);
    VerdictFrom(cfg, pod, req, after);
  }

  lemma VerdictFrom(cfg: Config, pod: Pod, req: Request, after: Pod)
    requires Untouched(pod) && cfg.sidecarImage != "" && (cfg.mcpInject ==> !McpArtifact(cfg, pod))
    requires Injected(cfg, pod, req, after)
    requires FullyInjected(cfg, after) <==> McpRecognisable(cfg, pod)
    requires HasSocketVolume(after)
    ensures Classify(cfg, after) == if Recognisable(cfg, pod) then Skip else Deny
  {
    if McpRecognisable(cfg, pod) {
      DecoysAreLookalikes(cfg, pod, req, after);
    }
  }

  /** For every pod that is to be injected and every configuration under which a patch is emitted: the patch
      applies, and the injected pod is skipped on re-admission exactly when it is recognisable. Otherwise it
      is denied; it is never injected twice. */
  lemma AdmissionIsIdempotent(cfg: Config, pod: Pod, req: Request)
    requires Classify(cfg, pod) == Inject && Patch(cfg, pod, req).Ok?
    ensures var after := ApplyAll(pod, Patch(cfg, pod, req).value);
            after.Some? && Classify(cfg, after.value) == if Recognisable(cfg, pod) then Skip else Deny
  {
    InjectMeansUntouched(cfg, pod);
    PatchInjects(cfg, pod, req);
    ReadmissionVerdict(cfg, pod, req, ApplyAll(pod, Patch(cfg, pod, req).value).value);
  }

  // ----- which pods are injected ----------------------------------------------------------------

  /** Every annotated name is a container of the pod with a command of its own. */
  predicate NamesResolve(pod: Pod, names: seq<string>) {
    forall name | name in names :: Find(pod, name).Some? && ContainerAt(pod, Find(pod, name).value).command != []
  }

  /** What the annotation needs for a patch: nothing, or a proxy image and names that resolve. */
  predicate Resolvable(cfg: Config, pod: Pod) {
    cfg.mcpInject && AnnotatedNames(pod) != [] ==> cfg.mcpProxyImage != "" && NamesResolve(pod, AnnotatedNames(pod))
  }

  lemma TargetsIff(pod: Pod, names: seq<string>)
    ensures Collect(Resolver(pod), names, |names|).Ok? <==> NamesResolve(pod, names)
  {
    CollectIff(Resolver(pod), names, |names|);
    assert forall name | name in names :: Resolver(pod)(name).Ok? <==> TargetNamed(pod, name).Ok?;
  }

  /** A pod is injected and patched exactly when it carries nothing of the enforcement plumbing, the configured sidecar
      image is allowed, and its annotation resolves. */
  lemma InjectedIff(cfg: Config, pod: Pod, req: Request)
    ensures Classify(cfg, pod) == Inject && Patch(cfg, pod, req).Ok? <==>
            !EnforcementArtifact(cfg, pod) && IsAllowedImage(cfg, cfg.sidecarImage) && Resolvable(cfg, pod)
  {
    var names := AnnotatedNames(pod);
    TargetsIff(pod, names);
  }

  /** A container that mounts nothing, sets nothing and takes neither the proxy's command nor a name of the injector. */
  predicate Ordinary(cfg: Config, c: Container) {
    && c.mounts == None && c.env == None
    && c.name != MCP_INIT_NAME && !IsProxyCommand(c.command)
    && (c.name == SIDECAR_NAME ==> c.image != cfg.sidecarImage)
  }

  predicate OrdinaryPod(cfg: Config, pod: Pod) {
    pod.volumes == None && forall c | c in AllContainers(pod) :: Ordinary(cfg, c)
  }

  lemma OrdinaryIsNoArtifact(cfg: Config, pod: Pod)
    requires OrdinaryPod(cfg, pod)
    ensures !EnforcementArtifact(cfg, pod)
  {
    forall c | c in AllContainers(pod)
      ensures !OccupiesEnforcementPath(c, cfg.sidecarImage) && !HasSocketMount(c) && !HasSocketEnv(c) && !MountsProxyPath(c)
    {
      assert Items(c.mounts) == [] && Items(c.env) == [];
    }
  }

  /** The pod is injected, and the patched pod meets the given verdict. */
  predicate InjectedThen(cfg: Config, pod: Pod, req: Request, verdict: Verdict) {
    && Classify(cfg, pod) == Inject
    && Patch(cfg, pod, req).Ok?
    && var after := ApplyAll(pod, Patch(cfg, pod, req).value); after.Some? && Classify(cfg, after.value) == verdict
  }

  /** An ordinary pod whose annotation resolves is injected; then it is skipped if it is recognisable and else denied. */
  lemma OrdinaryPodVerdict(cfg: Config, pod: Pod, req: Request)
    requires IsAllowedImage(cfg, cfg.sidecarImage) && OrdinaryPod(cfg, pod) && Resolvable(cfg, pod)
    ensures InjectedThen(cfg, pod, req, if Recognisable(cfg, pod) then Skip else Deny)
  {
    OrdinaryIsNoArtifact(cfg, pod);
    InjectedIff(cfg, pod, req);
    AdmissionIsIdempotent(cfg, pod, req);
  }

  /** An ordinary pod without the MCP annotation that runs other images is injected once and then skipped, under every
      configuration whose own sidecar image is allowed. */
  lemma OrdinaryPodIsInjectedOnce(cfg: Config, pod: Pod, req: Request)
    requires IsAllowedImage(cfg, cfg.sidecarImage) && OrdinaryPod(cfg, pod) && MCP_ANNOTATION !in AnnotationsOf(pod)
    requires forall c | c in AllContainers(pod) :: !Lookalike(cfg, c)
    ensures InjectedThen(cfg, pod, req, Skip)
  {
    OrdinaryPodVerdict(cfg, pod, req);
  }

  /** The same pod with a container that overrides an image of the sidecar's name is injected and then denied. */
  lemma LookalikePodIsDenied(cfg: Config, pod: Pod, req: Request, c: Container)
    requires IsAllowedImage(cfg, cfg.sidecarImage) && OrdinaryPod(cfg, pod) && Resolvable(cfg, pod)
    requires c in AllContainers(pod) && Lookalike(cfg, c)
    ensures InjectedThen(cfg, pod, req, Deny)
  {
    OrdinaryPodVerdict(cfg, pod, req);
  }

  // ----- pods with MCP servers ------------------------------------------------------------------

  /** A name that stands for itself in the annotation. */
  predicate PlainName(name: string) { name != "" && ',' !in name && Trim(Go, name) == name }

  lemma OneName(name: string)
    requires PlainName(name)
    ensures NamesIn(name) == [name]
  {
    BeforeIs(name, ',', "");
    assert Split(name, ',') == [name];
    assert NamesUpTo([name], 0) == [];
    assert NamesUpTo([name], 1) == [name];
  }

  /** An ordinary pod that names one of its containers, which has a command, as its MCP server. */
  predicate ServerPod(cfg: Config, pod: Pod, name: string) {
    && OrdinaryPod(cfg, pod)
    && PlainName(name) && MCP_ANNOTATION in AnnotationsOf(pod) && AnnotationsOf(pod)[MCP_ANNOTATION] == name
    && Find(pod, name).Some? && ContainerAt(pod, Find(pod, name).value).command != []
  }

  /** There are such pods for every configuration: one container, of either kind, under any free name. */
  function OneServer(kind: Kind, name: string, image: string, command: string): Pod {
    var c := Container(name, image, [command], [], None, None);
    Pod(if kind.App? then [c] else [], if kind.App? then None else Some([c]), None, Some(map[MCP_ANNOTATION := name]))
  }

  lemma OneServerIsServerPod(cfg: Config, kind: Kind, name: string, image: string, command: string)
    requires PlainName(name) && name != MCP_INIT_NAME && command != MCP_BINARY
    requires name == SIDECAR_NAME ==> image != cfg.sidecarImage
    ensures ServerPod(cfg, OneServer(kind, name, image, command), name)
  {
    var pod := OneServer(kind, name, image, command);
    var c := Container(name, image, [command], [], None, None);
    assert AllContainers(pod) == [c] && Ordinary(cfg, c);
    assert IndexNamed([c], name) == Some(0);
  }

  /** Among them is a pod whose only container is an init container called like the sidecar. */
  lemma ServerNamedLikeSidecar(cfg: Config, image: string, command: string)
    requires image != cfg.sidecarImage && command != MCP_BINARY
    ensures var pod := OneServer(Init, SIDECAR_NAME, image, command);
            ServerPod(cfg, pod, SIDECAR_NAME) && IndexNamed(pod.containers, SIDECAR_NAME).None?
  {
    assert SIDECAR_NAME[0] == 'n' && SIDECAR_NAME[|SIDECAR_NAME| - 1] == 'r';
    assert PlainName(SIDECAR_NAME);
    OneServerIsServerPod(cfg, Init, SIDECAR_NAME, image, command);
  }

  lemma ServerPodVerdict(cfg: Config, pod: Pod, req: Request, name: string)
    requires IsAllowedImage(cfg, cfg.sidecarImage) && ServerPod(cfg, pod, name)
    requires cfg.mcpInject && cfg.mcpProxyImage != ""
    ensures AnnotatedNames(pod) == [name]
    ensures InjectedThen(cfg, pod, req, if Recognisable(cfg, pod) then Skip else Deny)
  {
    OneName(name);
    OrdinaryPodVerdict(cfg, pod, req);
  }

  lemma OneServerIff(cfg: Config, pod: Pod, name: string)
    requires cfg.mcpInject && AnnotatedNames(pod) == [name]
    ensures McpRecognisable(cfg, pod) <==>
            && ImageName(cfg.mcpProxyImage) != ""
            && !CoversSource(cfg, SOCKET_MOUNT)
            && (name == SIDECAR_NAME ==> IndexNamed(pod.containers, SIDECAR_NAME).Some?)
  {
  }

  lemma ServerIsTarget(cfg: Config, pod: Pod, req: Request, name: string)
    requires cfg.mcpInject && Patch(cfg, pod, req).Ok? && name in AnnotatedNames(pod)
    ensures Find(pod, name).Some?
    ensures var ts, at := Targets(cfg, pod), Find(pod, name).value; Targeted(ts, |ts|, at.0, at.1)
  {
    NameIsTarget(cfg, pod, name);
  }

  /** A pod with an MCP server is injected, the patch wraps the server, and then the pod is skipped. */
  lemma ServerPodIsInjectedOnce(cfg: Config, pod: Pod, req: Request, name: string)
    requires IsAllowedImage(cfg, cfg.sidecarImage) && ServerPod(cfg, pod, name)
    requires cfg.mcpInject && ImageName(cfg.mcpProxyImage) != "" && !CoversSource(cfg, SOCKET_MOUNT)
    requires name != SIDECAR_NAME && forall c | c in AllContainers(pod) :: !Lookalike(cfg, c)
    ensures InjectedThen(cfg, pod, req, Skip)
    ensures var ts, at := Targets(cfg, pod), Find(pod, name).value; Targeted(ts, |ts|, at.0, at.1)
  {
    ServerPodVerdict(cfg, pod, req, name);
    OneServerIff(cfg, pod, name);
    ServerIsTarget(cfg, pod, req, name);
  }

  /** With a proxy image whose reference has no name every pod with an MCP server is injected and then denied. */
  lemma NamelessProxyIsDenied(cfg: Config, pod: Pod, req: Request, name: string)
    requires IsAllowedImage(cfg, cfg.sidecarImage) && ServerPod(cfg, pod, name)
    requires cfg.mcpInject && cfg.mcpProxyImage != "" && ImageName(cfg.mcpProxyImage) == ""
    ensures InjectedThen(cfg, pod, req, Deny)
  {
    ServerPodVerdict(cfg, pod, req, name);
  }

  /** With a proxy payload at or below the socket directory, too. */
  lemma HiddenPayloadIsDenied(cfg: Config, pod: Pod, req: Request, name: string)
    requires IsAllowedImage(cfg, cfg.sidecarImage) && ServerPod(cfg, pod, name)
    requires cfg.mcpInject && cfg.mcpProxyImage != "" && CoversSource(cfg, SOCKET_MOUNT)
    ensures InjectedThen(cfg, pod, req, Deny)
  {
    ServerPodVerdict(cfg, pod, req, name);
  }

  /** So is a pod whose MCP server is an init container called like the sidecar, under every configuration. */
  lemma ServerNamedLikeSidecarIsDenied(cfg: Config, pod: Pod, req: Request)
    requires IsAllowedImage(cfg, cfg.sidecarImage) && ServerPod(cfg, pod, SIDECAR_NAME)
    requires cfg.mcpInject && cfg.mcpProxyImage != "" && IndexNamed(pod.containers, SIDECAR_NAME).None?
    ensures InjectedThen(cfg, pod, req, Deny)
  {
    ServerPodVerdict(cfg, pod, req, SIDECAR_NAME);
  }
}
