/**
  What the emitted patch does to a pod. The operations are addressed by index against the submitted pod;
  applied in order, each one finds its target, and the result is the pod described here.
 */
module InjectedPod {
  import opened Outcomes
  import opened Pods
  import opened Webhook
  import opened Injector

  // ----- one container --------------------------------------------------------------------------

  function MountsAdded(c: Container, mounts: seq<Mount>): Container {
    if HasSocketMount(c) then c else c.(mounts := Some(Items(c.mounts) + mounts))
  }

  function EnvAdded(c: Container, envs: seq<EnvVar>): Container {
    if HasSocketEnv(c) then c else c.(env := Some(Items(c.env) + envs))
  }

  /** A container of the pod after the socket wiring. */
  function WiredOne(cfg: Config, c: Container): Container {
    EnvAdded(MountsAdded(c, WireMounts(cfg)), WireEnv(cfg))
  }

  /** A wired container after MCP wrapping. */
  function WrappedOne(c: Container, id: string, env: seq<EnvVar>): Container {
    c.(command := WrappedCommand(id, c), args := [],
       mounts := Some(Items(c.mounts) + [PROXY]), env := Some(Items(c.env) + env))
  }

  lemma MountStepWorks(c: Container, mounts: seq<Mount>)
    ensures TakesOne(c, MountStep(c, mounts), MountsAdded(c, mounts))
  {
    if !HasSocketMount(c) {
      if Items(c.mounts) == [] {
        assert Items(c.mounts) + mounts == mounts;
        assert MountStep(c, mounts)[1..] == [];
      } else {
        AppendMounts(c, mounts);
      }
    }
  }

  lemma EnvStepWorks(c: Container, envs: seq<EnvVar>)
    ensures TakesOne(c, EnvStep(c, envs), EnvAdded(c, envs))
  {
    if !HasSocketEnv(c) {
      if Items(c.env) == [] {
        assert Items(c.env) + envs == envs;
        assert EnvStep(c, envs)[1..] == [];
      } else {
        AppendEnv(c, envs);
      }
    }
  }

  /** The rewrite was computed from the submitted container; on the wired one it does the same. */
  lemma WrapStepWorks(c: Container, t: Target, env: seq<EnvVar>)
    requires c.mounts.Some? && c.env.Some?
    requires c.command == t.container.command && c.args == t.container.args
    ensures TakesOne(c, WrapStep(t, env), WrappedOne(c, t.serverId, env))
  {
    var steps := WrapStep(t, env);
    var c1 := c.(command := WrappedCommand(t.serverId, c));
    var c2 := c1.(args := []);
    var c3 := c2.(mounts := Some(c.mounts.value + [PROXY]));
    assert WrappedCommand(t.serverId, t.container) == WrappedCommand(t.serverId, c);
    assert AddInContainer(c, steps[0].path, steps[0].value) == Some(c1);
    assert AddInContainer(c1, steps[1].path, steps[1].value) == Some(c2);
    assert AddInContainer(c2, steps[2].path, steps[2].value) == Some(c3);
    assert steps[1..][1..][1..] == EnvChanges(env);
    assert steps[1..][0] == steps[1] && steps[1..][1..][0] == steps[2];
    AppendEnv(c3, env);
    assert ChangeAll(c2, steps[1..][1..]) == ChangeAll(c3, EnvChanges(env));
    assert ChangeAll(c1, steps[1..]) == ChangeAll(c2, steps[1..][1..]);
  }

  // ----- one list -------------------------------------------------------------------------------

  function WiredList(cfg: Config, list: seq<Container>): seq<Container> {
    seq(|list|, i requires 0 <= i < |list| => WiredOne(cfg, list[i]))
  }

  /** Wiring a list that was extended at its end leaves the extension alone. */
  lemma WirePhase(cfg: Config, pod: Pod, kind: Kind, original: seq<Container>, extra: seq<Container>)
    requires ListOf(pod, kind) == Some(original + extra)
    ensures ApplyAll(pod, WireOps(cfg, kind, original)) == Some(WithList(pod, kind, WiredList(cfg, original) + extra))
  {
    var n := |original|;
    var mounted := seq(n, i requires 0 <= i < n => MountsAdded(original[i], WireMounts(cfg)));
    var mountSteps, envSteps := MountSteps(original, WireMounts(cfg)), EnvSteps(original, WireEnv(cfg));
    var pod' := WithList(pod, kind, mounted + extra);
    MountsTake(original, extra, WireMounts(cfg), mounted);
    ApplyEach(pod, kind, original + extra, mountSteps, mounted, n);
    assert mounted[..n] == mounted && (original + extra)[n..] == extra;
    EnvsTake(cfg, original, mounted, extra);
    ApplyEach(pod', kind, mounted + extra, envSteps, WiredList(cfg, original), n);
    assert WiredList(cfg, original)[..n] == WiredList(cfg, original) && (mounted + extra)[n..] == extra;
    ApplyConcat(pod, EachOps(kind, mountSteps, n), EachOps(kind, envSteps, n));
  }

  lemma MountsTake(original: seq<Container>, extra: seq<Container>, mounts: seq<Mount>, mounted: seq<Container>)
    requires |mounted| == |original| && forall i | 0 <= i < |original| :: mounted[i] == MountsAdded(original[i], mounts)
    ensures Takes(original + extra, MountSteps(original, mounts), mounted)
  {
    forall i | 0 <= i < |original|
      ensures TakesOne((original + extra)[i], MountSteps(original, mounts)[i], mounted[i])
    {
      MountStepWorks(original[i], mounts);
    }
  }

  lemma EnvsTake(cfg: Config, original: seq<Container>, mounted: seq<Container>, extra: seq<Container>)
    requires |mounted| == |original|
    requires forall i | 0 <= i < |original| :: mounted[i] == MountsAdded(original[i], WireMounts(cfg))
    ensures Takes(mounted + extra, EnvSteps(original, WireEnv(cfg)), WiredList(cfg, original))
  {
    forall i | 0 <= i < |original|
      ensures TakesOne((mounted + extra)[i], EnvSteps(original, WireEnv(cfg))[i], WiredList(cfg, original)[i])
    {
      assert mounted[i].env == original[i].env;
      EnvStepWorks(mounted[i], WireEnv(cfg));
    }
  }

  /** Without the list there is nothing to wire. */
  lemma WireNothing(cfg: Config, pod: Pod, kind: Kind)
    ensures ApplyAll(pod, WireOps(cfg, kind, [])) == Some(pod)
  {
  }

  // ----- MCP targets ----------------------------------------------------------------------------

  predicate Targeted(targets: seq<Target>, n: nat, kind: Kind, i: nat)
    requires n <= |targets|
  {
    exists t | 0 <= t < n :: targets[t].kind == kind && targets[t].index == i
  }

  /** What resolving the annotation guarantees about its targets. */
  predicate Resolved(pod: Pod, names: seq<string>, targets: seq<Target>) {
    |targets| == |names| && forall t | 0 <= t < |targets| :: Resolves(pod, names[t], targets[t])
  }

  predicate Resolves(pod: Pod, name: string, t: Target) {
    && Find(pod, name) == Some((t.kind, t.index))
    && t.container == ContainerAt(pod, (t.kind, t.index))
    && t.serverId == ServerId(pod, name)
    && t.container.command != []
  }

  lemma NamedResolves(pod: Pod, name: string, t: Target)
    requires TargetNamed(pod, name) == Ok(t)
    ensures Resolves(pod, name, t)
  {
  }

  lemma TargetsAreResolved(pod: Pod, names: seq<string>)
    requires Collect(Resolver(pod), names, |names|).Ok?
    ensures Resolved(pod, names, Collect(Resolver(pod), names, |names|).value)
  {
    var targets := Collect(Resolver(pod), names, |names|).value;
    CollectIff(Resolver(pod), names, |names|);
    forall t | 0 <= t < |targets| ensures Resolves(pod, names[t], targets[t]) {
      NamedResolves(pod, names[t], targets[t]);
    }
  }

  /** A list after the rewrites of the first `n` targets. */
  function WrappedList(pod: Pod, list: seq<Container>, kind: Kind, targets: seq<Target>, n: nat, env: seq<EnvVar>): seq<Container>
    requires n <= |targets|
  {
    seq(|list|, i requires 0 <= i < |list| =>
      if Targeted(targets, n, kind, i) then WrappedOne(list[i], ServerId(pod, list[i].name), env) else list[i])
  }

  /** Wrapping one more target changes its own list at its own index, and the other list not at all. */
  lemma WrapOneMore(pod: Pod, list: seq<Container>, kind: Kind, targets: seq<Target>, n: nat, env: seq<EnvVar>)
    requires 0 < n <= |targets|
    ensures targets[n - 1].kind != kind ==>
              WrappedList(pod, list, kind, targets, n, env) == WrappedList(pod, list, kind, targets, n - 1, env)
    ensures targets[n - 1].kind == kind && targets[n - 1].index < |list| && !Targeted(targets, n - 1, kind, targets[n - 1].index) ==>
              var i := targets[n - 1].index;
              WrappedList(pod, list, kind, targets, n, env) ==
                WrappedList(pod, list, kind, targets, n - 1, env)[i := WrappedOne(list[i], ServerId(pod, list[i].name), env)]
  {
    forall i: nat
      ensures Targeted(targets, n, kind, i) <==>
              Targeted(targets, n - 1, kind, i) || (targets[n - 1].kind == kind && targets[n - 1].index == i)
    {
    }
  }

  predicate Distinct(names: seq<string>) { forall i, j | 0 <= i < j < |names| :: names[i] != names[j] }

  /** Two annotated names never resolve to the same container. */
  lemma TargetsDiffer(pod: Pod, names: seq<string>, targets: seq<Target>, n: nat)
    requires Resolved(pod, names, targets) && n < |targets|
    requires Distinct(names)
    ensures !Targeted(targets, n, targets[n].kind, targets[n].index)
  {
    forall t | 0 <= t < n
      ensures targets[t].kind != targets[n].kind || targets[t].index != targets[n].index
    {
      assert Resolves(pod, names[t], targets[t]) && Resolves(pod, names[n], targets[n]);
    }
  }

  /** The pod with both lists wired, before any rewrite. */
  predicate IsWiredFrom(cfg: Config, pod: Pod, wired: Pod, sidecar: Container) {
    && wired.containers == WiredList(cfg, pod.containers) + [sidecar]
    && Items(wired.inits) == WiredList(cfg, Items(pod.inits))
    && (pod.inits.None? <==> wired.inits.None?)
  }

  function WithWrapped(pod: Pod, wired: Pod, targets: seq<Target>, n: nat, env: seq<EnvVar>): Pod
    requires n <= |targets|
  {
    wired.(containers := WrappedList(pod, wired.containers, App, targets, n, env),
           inits := if wired.inits.None? then None
                    else Some(WrappedList(pod, wired.inits.value, Init, targets, n, env)))
  }

  /** The target's container in the wired pod still has the submitted name, command and args. */
  lemma TargetInWired(cfg: Config, pod: Pod, wired: Pod, sidecar: Container, name: string, t: Target)
    requires IsWiredFrom(cfg, pod, wired, sidecar) && Resolves(pod, name, t)
    ensures ListOf(wired, t.kind).Some? && t.index < |ListOf(wired, t.kind).value|
    ensures ListOf(wired, t.kind).value[t.index] == WiredOne(cfg, t.container)
    ensures t.container.name == name
  {
  }

  lemma WrapNext(cfg: Config, pod: Pod, wired: Pod, sidecar: Container,
                 names: seq<string>, targets: seq<Target>, n: nat, env: seq<EnvVar>)
    requires IsWiredFrom(cfg, pod, wired, sidecar) && Resolved(pod, names, targets) && 0 < n <= |targets|
    requires Distinct(names) && Untouched(pod)
    ensures ApplyAll(WithWrapped(pod, wired, targets, n - 1, env),
                     At(targets[n - 1].kind, targets[n - 1].index, WrapStep(targets[n - 1], env)))
            == Some(WithWrapped(pod, wired, targets, n, env))
  {
    var t := targets[n - 1];
    var before := WithWrapped(pod, wired, targets, n - 1, env);
    assert Resolves(pod, names[n - 1], t);
    TargetInWired(cfg, pod, wired, sidecar, names[n - 1], t);
    TargetsDiffer(pod, names, targets, n - 1);
    var c := WiredOne(cfg, t.container);
    assert t.container in AllContainers(pod);
    WrapStepWorks(c, t, env);
    ApplyAt(before, t.kind, ListOf(before, t.kind).value, t.index, WrapStep(t, env), WrappedOne(c, t.serverId, env));
    WrapOneMore(pod, wired.containers, App, targets, n, env);
    WrapOneMore(pod, Items(wired.inits), Init, targets, n, env);
  }

  lemma WrapNothing(pod: Pod, wired: Pod, targets: seq<Target>, env: seq<EnvVar>)
    ensures WithWrapped(pod, wired, targets, 0, env) == wired
  {
    assert WrappedList(pod, wired.containers, App, targets, 0, env) == wired.containers;
    assert wired.inits.Some? ==> WrappedList(pod, wired.inits.value, Init, targets, 0, env) == wired.inits.value;
  }

  lemma {:induction false} WrapPhase(cfg: Config, pod: Pod, wired: Pod, sidecar: Container,
                                     names: seq<string>, targets: seq<Target>, n: nat, env: seq<EnvVar>)
    requires IsWiredFrom(cfg, pod, wired, sidecar) && Resolved(pod, names, targets) && n <= |targets|
    requires Distinct(names) && Untouched(pod)
    ensures ApplyAll(wired, WrapOps(targets, n, env)) == Some(WithWrapped(pod, wired, targets, n, env))
  {
    if n == 0 {
      WrapNothing(pod, wired, targets, env);
    } else {
      var t := targets[n - 1];
      WrapPhase(cfg, pod, wired, sidecar, names, targets, n - 1, env);
      WrapNext(cfg, pod, wired, sidecar, names, targets, n, env);
      Chain(wired, WrapOps(targets, n - 1, env), WithWrapped(pod, wired, targets, n - 1, env),
            At(t.kind, t.index, WrapStep(t, env)), WithWrapped(pod, wired, targets, n, env));
    }
  }

  // ----- the whole patch ------------------------------------------------------------------------

  lemma {:induction false} AppendVolumes(pod: Pod, volumes: seq<Volume>)
    requires pod.volumes.Some?
    ensures ApplyAll(pod, AppendVolumeOps(volumes)) == Some(pod.(volumes := Some(pod.volumes.value + volumes)))
    decreases |volumes|
  {
    if volumes == [] {
      assert pod.volumes.value + volumes == pod.volumes.value;
    } else {
      var op := VolumeOp(true, volumes[0]);
      var next := pod.(volumes := Some(pod.volumes.value + [volumes[0]]));
      assert op.path[..2] == [Field("spec"), Field("volumes")] && op.path[2..] == [Last];
      assert ApplyOp(pod, op) == Some(next);
      AppendVolumes(next, volumes[1..]);
      assert next.volumes.value + volumes[1..] == pod.volumes.value + volumes;
      assert AppendVolumeOps(volumes)[1..] == AppendVolumeOps(volumes[1..]);
    }
  }

  lemma VolumePhase(cfg: Config, original: Pod, pod: Pod)
    requires pod.volumes == original.volumes
    ensures ApplyAll(pod, VolumeOps(cfg, original)) ==
            Some(pod.(volumes := Some(Items(pod.volumes) + BaseVolumes(cfg))))
  {
    var vs := BaseVolumes(cfg);
    var op := VolumeOp(Items(pod.volumes) != [], vs[0]);
    var next := pod.(volumes := Some(Items(pod.volumes) + [vs[0]]));
    assert op.path[..2] == [Field("spec"), Field("volumes")];
    assert Items(pod.volumes) == [] ==> Items(pod.volumes) + [vs[0]] == [vs[0]] && op.path[2..] == [];
    assert Items(pod.volumes) != [] ==> op.path[2..] == [Last];
    assert ApplyOp(pod, op) == Some(next);
    AppendVolumes(next, vs[1..]);
    assert next.volumes.value + vs[1..] == Items(pod.volumes) + vs;
    assert VolumeOps(cfg, original)[1..] == AppendVolumeOps(vs[1..]);
  }

  lemma SidecarPhase(pod: Pod, c: Container)
    ensures ApplyAll(pod, [SidecarOp(c)]) == Some(pod.(containers := pod.containers + [c]))
  {
    var op := SidecarOp(c);
    assert op.path[..2] == [Field("spec"), Field("containers")] && op.path[2..] == [Last];
    assert [op][1..] == [];
  }

  lemma AnnotationPhase(pod: Pod)
    ensures ApplyAll(pod, [AnnotationOp(AnnotationsOf(pod))]) ==
            Some(pod.(annotations := Some(AnnotationsOf(pod)[INJECTED_ANNOTATION := "true"])))
  {
    var op := AnnotationOp(AnnotationsOf(pod));
    assert op.path[..2] == [Field("metadata"), Field("annotations")];
    if AnnotationsOf(pod) == map[] {
      assert op.path[2..] == [];
    } else {
      assert op.path[2..] == [Field(INJECTED_ANNOTATION)];
    }
    assert [op][1..] == [];
  }

  lemma InitPhase(pod: Pod, hasInits: bool, c: Container)
    requires hasInits <==> Items(pod.inits) != []
    ensures ApplyAll(pod, [InitOp(hasInits, c)]) == Some(pod.(inits := Some([c] + Items(pod.inits))))
  {
    var op := InitOp(hasInits, c);
    assert op.path[..2] == [Field("spec"), Field("initContainers")];
    if hasInits {
      assert op.path[2..] == [Index(0)];
      var list := pod.inits.value;
      assert list[..0] + [c] + list[0..] == [c] + list;
    } else {
      assert op.path[2..] == [];
      assert [c] + Items(pod.inits) == [c];
    }
    assert [op][1..] == [];
  }

  predicate Fresh(c: Container) { !HasSocketMount(c) && !HasSocketEnv(c) }

  /** The submitted pod carries none of the socket plumbing. */
  predicate Untouched(pod: Pod) {
    forall c | c in AllContainers(pod) :: Fresh(c)
  }

  /** The pod after wiring, before the MCP half. */
  function WiredPod(cfg: Config, pod: Pod, req: Request): Pod {
    pod.(containers := WiredList(cfg, pod.containers) + [Sidecar(cfg, req)],
         inits := if pod.inits.None? then None else Some(WiredList(cfg, pod.inits.value)),
         volumes := Some(Items(pod.volumes) + BaseVolumes(cfg)))
  }

  lemma InitWirePhase(cfg: Config, pod: Pod)
    ensures ApplyAll(pod, WireOps(cfg, Init, Items(pod.inits))) ==
            Some(pod.(inits := if pod.inits.None? then None else Some(WiredList(cfg, pod.inits.value))))
  {
    if pod.inits.None? {
      WireNothing(cfg, pod, Init);
    } else {
      assert pod.inits.value + [] == pod.inits.value;
      WirePhase(cfg, pod, Init, pod.inits.value, []);
      assert WiredList(cfg, pod.inits.value) + [] == WiredList(cfg, pod.inits.value);
    }
  }

  function WiringOps(cfg: Config, pod: Pod, req: Request): seq<Op> {
    [SidecarOp(Sidecar(cfg, req))] + VolumeOps(cfg, pod)
    + WireOps(cfg, App, pod.containers) + WireOps(cfg, Init, Items(pod.inits))
  }

  lemma WiringApplies(cfg: Config, pod: Pod, req: Request)
    ensures ApplyAll(pod, WiringOps(cfg, pod, req)) == Some(WiredPod(cfg, pod, req))
  {
    var sidecar := Sidecar(cfg, req);
    var p1 := pod.(containers := pod.containers + [sidecar]);
    var p2 := p1.(volumes := Some(Items(pod.volumes) + BaseVolumes(cfg)));
    var p3 := p2.(containers := WiredList(cfg, pod.containers) + [sidecar]);
    var a, b, c, d := [SidecarOp(sidecar)], VolumeOps(cfg, pod), WireOps(cfg, App, pod.containers), WireOps(cfg, Init, Items(pod.inits));
    assert ApplyAll(pod, a) == Some(p1) by { SidecarPhase(pod, sidecar); }
    assert ApplyAll(p1, b) == Some(p2) by { VolumePhase(cfg, pod, p1); }
    assert ApplyAll(p2, c) == Some(p3) by { WirePhase(cfg, p2, App, pod.containers, [sidecar]); }
    assert ApplyAll(p3, d) == Some(WiredPod(cfg, pod, req)) by { InitWirePhase(cfg, p3); }
    Chain(pod, a, p1, b, p2);
    Chain(pod, a + b, p2, c, p3);
    Chain(pod, a + b + c, p3, d, WiredPod(cfg, pod, req));
  }

  /** The targets of a pod whose annotation resolves; none when MCP injection is off. */
  function Targets(cfg: Config, pod: Pod): seq<Target> {
    if cfg.mcpInject && TargetsOf(cfg, pod).Ok? then TargetsOf(cfg, pod).value else []
  }

  /** The pod after the MCP half. */
  function Governed(cfg: Config, pod: Pod, req: Request): Pod {
    var wired := WiredPod(cfg, pod, req);
    var ts := Targets(cfg, pod);
    var wrapped := WithWrapped(pod, wired, ts, |ts|, McpEnv(cfg, req));
    if ts == [] then wired
    else wrapped.(inits := Some([McpInit(cfg)] + Items(wrapped.inits)),
                  volumes := Some(wired.volumes.value + [Volume(MCP_VOLUME, true)]))
  }

  /** The injected pod. */
  function Patched(cfg: Config, pod: Pod, req: Request): Pod {
    Governed(cfg, pod, req).(annotations := Some(AnnotationsOf(pod)[INJECTED_ANNOTATION := "true"]))
  }

  lemma WrappingApplies(cfg: Config, pod: Pod, req: Request, start: Pod)
    requires Untouched(pod) && cfg.mcpInject && TargetsOf(cfg, pod).Ok? && TargetsOf(cfg, pod).value != []
    requires start == WiredPod(cfg, pod, req).(volumes := start.volumes)
    ensures var ts := Targets(cfg, pod);
            ApplyAll(start, WrapOps(ts, |ts|, McpEnv(cfg, req))) == Some(WithWrapped(pod, start, ts, |ts|, McpEnv(cfg, req)))
  {
    var names, ts := AnnotatedNames(pod), Targets(cfg, pod);
    TargetsAreResolved(pod, names);
    WrapPhase(cfg, pod, start, Sidecar(cfg, req), names, ts, |ts|, McpEnv(cfg, req));
  }

  lemma McpApplies(cfg: Config, pod: Pod, req: Request)
    requires Untouched(pod) && McpOps(cfg, pod, req).Ok?
    ensures ApplyAll(WiredPod(cfg, pod, req), McpOps(cfg, pod, req).value) == Some(Governed(cfg, pod, req))
  {
    var ts := Targets(cfg, pod);
    if ts != [] {
      var wired := WiredPod(cfg, pod, req);
      var v := Volume(MCP_VOLUME, true);
      var p1 := wired.(volumes := Some(wired.volumes.value + [v]));
      var p2 := WithWrapped(pod, p1, ts, |ts|, McpEnv(cfg, req));
      var a, b, c := [VolumeOp(true, v)], WrapOps(ts, |ts|, McpEnv(cfg, req)), [InitOp(Items(pod.inits) != [], McpInit(cfg))];
      assert ApplyAll(wired, a) == Some(p1) by {
        AppendVolumes(wired, [v]);
        assert AppendVolumeOps([v]) == a;
      }
      assert ApplyAll(p1, b) == Some(p2) by { WrappingApplies(cfg, pod, req, p1); }
      assert ApplyAll(p2, c) == Some(Governed(cfg, pod, req)) by {
        assert |Items(p2.inits)| == |Items(pod.inits)|;
        InitPhase(p2, Items(pod.inits) != [], McpInit(cfg));
      }
      Chain(wired, a, p1, b, p2);
      Chain(wired, a + b, p2, c, Governed(cfg, pod, req));
    }
  }

  /** Every operation of the patch finds its target when its turn comes, although the delivery container
      is prepended, and together they give the injected pod. */
  lemma PatchApplies(cfg: Config, pod: Pod, req: Request)
    requires Untouched(pod) && Patch(cfg, pod, req).Ok?
    ensures ApplyAll(pod, Patch(cfg, pod, req).value) == Some(Patched(cfg, pod, req))
  {
    var a, b, c := WiringOps(cfg, pod, req), McpOps(cfg, pod, req).value, [AnnotationOp(AnnotationsOf(pod))];
    assert ApplyAll(pod, a) == Some(WiredPod(cfg, pod, req)) by { WiringApplies(cfg, pod, req); }
    assert ApplyAll(WiredPod(cfg, pod, req), b) == Some(Governed(cfg, pod, req)) by { McpApplies(cfg, pod, req); }
    assert ApplyAll(Governed(cfg, pod, req), c) == Some(Patched(cfg, pod, req)) by {
      AnnotationPhase(Governed(cfg, pod, req));
    }
    Chain(pod, a, WiredPod(cfg, pod, req), b, Governed(cfg, pod, req));
    Chain(pod, a + b, Governed(cfg, pod, req), c, Patched(cfg, pod, req));
    assert Patch(cfg, pod, req).value == a + b + c;
  }

  // ----- what the patch leaves alone ------------------------------------------------------------

  /** What becomes of container `i` of a kind. */
  function Final(cfg: Config, pod: Pod, req: Request, kind: Kind, i: nat): Container
    requires i < |Items(ListOf(pod, kind))|
  {
    var c := Items(ListOf(pod, kind))[i];
    var ts := Targets(cfg, pod);
    if Targeted(ts, |ts|, kind, i) then WrappedOne(WiredOne(cfg, c), ServerId(pod, c.name), McpEnv(cfg, req))
    else WiredOne(cfg, c)
  }

  lemma SidecarIsNoTarget(cfg: Config, pod: Pod)
    ensures var ts := Targets(cfg, pod); !Targeted(ts, |ts|, App, |pod.containers|)
  {
    var names, ts := AnnotatedNames(pod), Targets(cfg, pod);
    if ts != [] {
      TargetsAreResolved(pod, names);
      forall t | 0 <= t < |ts| ensures ts[t].kind != App || ts[t].index != |pod.containers| {
        assert Resolves(pod, names[t], ts[t]);
      }
    }
  }

  /** The number of init containers the patch puts in front. */
  function Shift(cfg: Config, pod: Pod): nat { if Targets(cfg, pod) == [] then 0 else 1 }

  function Front(cfg: Config, pod: Pod): (front: seq<Container>)
    ensures |front| == Shift(cfg, pod)
  {
    if Targets(cfg, pod) == [] then [] else [McpInit(cfg)]
  }

  /** The pod's own containers in place, the sidecar behind the application containers. */
  predicate AppsInjected(cfg: Config, pod: Pod, req: Request, after: seq<Container>) {
    && |after| == |pod.containers| + 1
    && after[|pod.containers|] == Sidecar(cfg, req)
    && forall i | 0 <= i < |pod.containers| :: after[i] == Final(cfg, pod, req, App, i)
  }

  /** The pod's own init containers in order, the delivery container in front of them. */
  predicate InitsInjected(cfg: Config, pod: Pod, req: Request, after: seq<Container>) {
    && |after| == |Items(pod.inits)| + Shift(cfg, pod)
    && (Shift(cfg, pod) == 1 ==> after[0] == McpInit(cfg))
    && forall i {:trigger Final(cfg, pod, req, Init, i)} | 0 <= i < |Items(pod.inits)| ::
         after[i + Shift(cfg, pod)] == Final(cfg, pod, req, Init, i)
  }

  predicate VolumesInjected(cfg: Config, pod: Pod, after: seq<Volume>) {
    after == Items(pod.volumes) + BaseVolumes(cfg) + if Targets(cfg, pod) == [] then [] else [Volume(MCP_VOLUME, true)]
  }

  /** Everything the patch does to a pod. */
  predicate Injected(cfg: Config, pod: Pod, req: Request, after: Pod) {
    && AppsInjected(cfg, pod, req, after.containers)
    && InitsInjected(cfg, pod, req, Items(after.inits))
    && VolumesInjected(cfg, pod, Items(after.volumes))
    && AnnotationsOf(after) == AnnotationsOf(pod)[INJECTED_ANNOTATION := "true"]
  }

  /** The application containers as the phases leave them. */
  function AppsAfter(cfg: Config, pod: Pod, req: Request): seq<Container> {
    var ts := Targets(cfg, pod);
    WrappedList(pod, WiredList(cfg, pod.containers) + [Sidecar(cfg, req)], App, ts, |ts|, McpEnv(cfg, req))
  }

  lemma WrapNone(pod: Pod, list: seq<Container>, kind: Kind, env: seq<EnvVar>)
    ensures WrappedList(pod, list, kind, [], 0, env) == list
  {
  }

  lemma PatchedApps(cfg: Config, pod: Pod, req: Request)
    ensures Patched(cfg, pod, req).containers == AppsAfter(cfg, pod, req)
  {
    if Targets(cfg, pod) == [] {
      WrapNone(pod, WiredList(cfg, pod.containers) + [Sidecar(cfg, req)], App, McpEnv(cfg, req));
    }
  }

  lemma AppIsInjected(cfg: Config, pod: Pod, req: Request, i: nat)
    requires i < |pod.containers|
    ensures AppsAfter(cfg, pod, req)[i] == Final(cfg, pod, req, App, i)
  {
    assert (WiredList(cfg, pod.containers) + [Sidecar(cfg, req)])[i] == WiredOne(cfg, pod.containers[i]);
  }

  lemma AppsAfterAreInjected(cfg: Config, pod: Pod, req: Request)
    ensures AppsInjected(cfg, pod, req, AppsAfter(cfg, pod, req))
  {
    SidecarIsNoTarget(cfg, pod);
    forall i | 0 <= i < |pod.containers| ensures AppsAfter(cfg, pod, req)[i] == Final(cfg, pod, req, App, i) {
      AppIsInjected(cfg, pod, req, i);
    }
  }

  /** The init containers as the phases leave them. */
  function InitsAfter(cfg: Config, pod: Pod, req: Request): seq<Container> {
    var ts := Targets(cfg, pod);
    var wired := WiredList(cfg, Items(pod.inits));
    Front(cfg, pod) + WrappedList(pod, wired, Init, ts, |ts|, McpEnv(cfg, req))
  }

  lemma WrappedIsFinal(cfg: Config, pod: Pod, req: Request, kind: Kind, i: nat)
    requires i < |Items(ListOf(pod, kind))|
    ensures var list, ts := Items(ListOf(pod, kind)), Targets(cfg, pod);
            WrappedList(pod, WiredList(cfg, list), kind, ts, |ts|, McpEnv(cfg, req))[i] == Final(cfg, pod, req, kind, i)
  {
    var list := Items(ListOf(pod, kind));
    assert WiredList(cfg, list)[i] == WiredOne(cfg, list[i]) && WiredOne(cfg, list[i]).name == list[i].name;
  }

  lemma InitIsInjected(cfg: Config, pod: Pod, req: Request, i: nat)
    requires i < |Items(pod.inits)|
    ensures var after, shift := InitsAfter(cfg, pod, req), Shift(cfg, pod);
            i + shift < |after| && after[i + shift] == Final(cfg, pod, req, Init, i)
  {
    WrappedIsFinal(cfg, pod, req, Init, i);
  }

  lemma InitsAfterAreInjected(cfg: Config, pod: Pod, req: Request)
    ensures InitsInjected(cfg, pod, req, InitsAfter(cfg, pod, req))
  {
    forall i | 0 <= i < |Items(pod.inits)|
      ensures InitsAfter(cfg, pod, req)[i + Shift(cfg, pod)] == Final(cfg, pod, req, Init, i)
    {
      InitIsInjected(cfg, pod, req, i);
    }
  }

  lemma PatchedInits(cfg: Config, pod: Pod, req: Request)
    ensures Items(Patched(cfg, pod, req).inits) == InitsAfter(cfg, pod, req)
  {
    if Targets(cfg, pod) == [] {
      WrapNone(pod, WiredList(cfg, Items(pod.inits)), Init, McpEnv(cfg, req));
    }
  }

  lemma PatchedIsInjected(cfg: Config, pod: Pod, req: Request)
    ensures Injected(cfg, pod, req, Patched(cfg, pod, req))
  {
    PatchedApps(cfg, pod, req);
    AppsAfterAreInjected(cfg, pod, req);
    PatchedInits(cfg, pod, req);
    InitsAfterAreInjected(cfg, pod, req);
  }

  lemma PatchInjects(cfg: Config, pod: Pod, req: Request)
    requires Untouched(pod) && Patch(cfg, pod, req).Ok?
    ensures var after := ApplyAll(pod, Patch(cfg, pod, req).value); after.Some? && Injected(cfg, pod, req, after.value)
  {
    PatchApplies(cfg, pod, req);
    PatchedIsInjected(cfg, pod, req);
  }

  /** `c'` is `c` with more mounts and environment at the end, and its argv wrapped or as it was. */
  predicate Extends(c: Container, c': Container, id: string, wrapped: bool) {
    && c'.name == c.name && c'.image == c.image
    && Items(c.mounts) <= Items(c'.mounts)
    && Items(c.env) <= Items(c'.env)
    && if wrapped
       then c'.command == ProxyArgv(id) + c.command + c.args && c'.args == []
       else c'.command == c.command && c'.args == c.args
  }

  lemma FinalExtends(cfg: Config, pod: Pod, req: Request, kind: Kind, i: nat)
    requires i < |Items(ListOf(pod, kind))|
    ensures var c, ts := Items(ListOf(pod, kind))[i], Targets(cfg, pod);
            Extends(c, Final(cfg, pod, req, kind, i), ServerId(pod, c.name), Targeted(ts, |ts|, kind, i))
  {
  }

  /** Where container `i` of a kind is after the patch. */
  function Place(cfg: Config, pod: Pod, kind: Kind, i: nat): nat { if kind.App? then i else i + Shift(cfg, pod) }

  lemma FinalPlace(cfg: Config, pod: Pod, req: Request, after: Pod, kind: Kind, i: nat)
    requires Injected(cfg, pod, req, after) && i < |Items(ListOf(pod, kind))|
    ensures var list, at := Items(ListOf(after, kind)), Place(cfg, pod, kind, i);
            at < |list| && list[at] == Final(cfg, pod, req, kind, i)
  {
  }

  /** The pod's own containers keep their order, mounts and environment, at their index or one behind the
      delivery container. A wrapped container's argv after `--` is its old command followed by its old
      args; the others run what they ran. */
  lemma OriginalsAreKept(cfg: Config, pod: Pod, req: Request, after: Pod, kind: Kind, i: nat)
    requires Injected(cfg, pod, req, after) && i < |Items(ListOf(pod, kind))|
    ensures var ts, list, at := Targets(cfg, pod), Items(ListOf(after, kind)), Place(cfg, pod, kind, i);
            var c := Items(ListOf(pod, kind))[i];
            at < |list| && Extends(c, list[at], ServerId(pod, c.name), Targeted(ts, |ts|, kind, i))
  {
    FinalExtends(cfg, pod, req, kind, i);
    FinalPlace(cfg, pod, req, after, kind, i);
  }
}
