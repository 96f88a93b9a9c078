/**
  The part of a Kubernetes pod the admission webhook reads and writes, and the JSON Patch "add" operation
  (section 4.1 of RFC 6902, with the pointers of RFC 6901 split into tokens) over it.
 */
module Pods {
  import opened Outcomes

  datatype Mount = Mount(name: string, path: string, readOnly: bool)

  /** A literal value, or a reference to a key of a Secret. */
  datatype EnvVar =
    | Literal(name: string, value: string)
    | SecretRef(name: string, secret: string, key: string)

  datatype Volume = Volume(name: string, emptyDir: bool)

  /** `None` is a member the pod's JSON does not have; `Some([])` is an explicit empty list. */
  datatype Container = Container(
    name: string,
    image: string,
    command: seq<string>,
    args: seq<string>,
    mounts: Option<seq<Mount>>,
    env: Option<seq<EnvVar>>)

  datatype Pod = Pod(
    containers: seq<Container>,
    inits: Option<seq<Container>>,
    volumes: Option<seq<Volume>>,
    annotations: Option<map<string, string>>)

  datatype Kind = App | Init

  function Items<T>(list: Option<seq<T>>): seq<T> {
    if list.Some? then list.value else []
  }

  /** The container list of a kind, if the pod has it. */
  function ListOf(pod: Pod, kind: Kind): Option<seq<Container>> {
    if kind.App? then Some(pod.containers) else pod.inits
  }

  function WithList(pod: Pod, kind: Kind, list: seq<Container>): Pod {
    if kind.App? then pod.(containers := list) else pod.(inits := Some(list))
  }

  function AnnotationsOf(pod: Pod): map<string, string> {
    if pod.annotations.Some? then pod.annotations.value else map[]
  }

  function AllContainers(pod: Pod): seq<Container> { Items(pod.inits) + pod.containers }

  // ----- JSON Patch -----------------------------------------------------------------------------

  /** One reference token of a pointer; `Last` is `-`, the place after the end of an array. */
  datatype Token = Field(name: string) | Index(n: nat) | Last

  datatype Value =
    | OneContainer(container: Container)
    | Containers(containers: seq<Container>)
    | OneVolume(volume: Volume)
    | Volumes(volumes: seq<Volume>)
    | OneMount(mount: Mount)
    | Mounts(mounts: seq<Mount>)
    | OneEnv(env: EnvVar)
    | Envs(envs: seq<EnvVar>)
    | Argv(argv: seq<string>)
    | Text(text: string)
    | Texts(texts: map<string, string>)

  /** `{"op": "add", "path": ..., "value": ...}` */
  datatype Op = Add(path: seq<Token>, value: Value)

  function KindName(kind: Kind): string { if kind.App? then "containers" else "initContainers" }

  /** Add below one container: a member is created or replaced, an array must exist to be appended to. */
  function AddInContainer(c: Container, path: seq<Token>, v: Value): Option<Container> {
    if path == [Field("command")] && v.Argv? then Some(c.(command := v.argv))
    else if path == [Field("args")] && v.Argv? then Some(c.(args := v.argv))
    else if path == [Field("volumeMounts")] && v.Mounts? then Some(c.(mounts := Some(v.mounts)))
    else if path == [Field("volumeMounts"), Last] && v.OneMount? && c.mounts.Some? then
      Some(c.(mounts := Some(c.mounts.value + [v.mount])))
    else if path == [Field("env")] && v.Envs? then Some(c.(env := Some(v.envs)))
    else if path == [Field("env"), Last] && v.OneEnv? && c.env.Some? then
      Some(c.(env := Some(c.env.value + [v.env])))
    else None
  }

  function AddInList(pod: Pod, kind: Kind, path: seq<Token>, v: Value): Option<Pod> {
    var list := ListOf(pod, kind);
    if path == [] && v.Containers? then Some(WithList(pod, kind, v.containers))
    else if list.None? || path == [] then None
    else if path == [Last] && v.OneContainer? then Some(WithList(pod, kind, list.value + [v.container]))
    else if |path| == 1 && path[0].Index? && path[0].n <= |list.value| && v.OneContainer? then
      // add at an array index inserts before it
      Some(WithList(pod, kind, list.value[..path[0].n] + [v.container] + list.value[path[0].n..]))
    else if |path| > 1 && path[0].Index? && path[0].n < |list.value| then
      var changed := AddInContainer(list.value[path[0].n], path[1..], v);
      if changed.None? then None else Some(WithList(pod, kind, list.value[path[0].n := changed.value]))
    else None
  }

  function AddInVolumes(pod: Pod, path: seq<Token>, v: Value): Option<Pod> {
    if path == [] && v.Volumes? then Some(pod.(volumes := Some(v.volumes)))
    else if path == [Last] && v.OneVolume? && pod.volumes.Some? then
      Some(pod.(volumes := Some(pod.volumes.value + [v.volume])))
    else None
  }

  function AddInAnnotations(pod: Pod, path: seq<Token>, v: Value): Option<Pod> {
    if path == [] && v.Texts? then Some(pod.(annotations := Some(v.texts)))
    else if |path| == 1 && path[0].Field? && v.Text? && pod.annotations.Some? then
      Some(pod.(annotations := Some(pod.annotations.value[path[0].name := v.text])))
    else None
  }

  /** One operation; `None` when its target does not exist. */
  function ApplyOp(pod: Pod, op: Op): Option<Pod> {
    if |op.path| < 2 then None
    else if op.path[..2] == [Field("spec"), Field("containers")] then AddInList(pod, App, op.path[2..], op.value)
    else if op.path[..2] == [Field("spec"), Field("initContainers")] then AddInList(pod, Init, op.path[2..], op.value)
    else if op.path[..2] == [Field("spec"), Field("volumes")] then AddInVolumes(pod, op.path[2..], op.value)
    else if op.path[..2] == [Field("metadata"), Field("annotations")] then AddInAnnotations(pod, op.path[2..], op.value)
    else None
  }

  /** The operations in order; the patch fails as a whole when one of them does. */
  function ApplyAll(pod: Pod, ops: seq<Op>): Option<Pod>
    decreases |ops|
  {
    if ops == [] then Some(pod)
    else
      var next := ApplyOp(pod, ops[0]);
      if next.None? then None else ApplyAll(next.value, ops[1..])
  }

  lemma {:induction false} ApplyConcat(pod: Pod, a: seq<Op>, b: seq<Op>)
    ensures ApplyAll(pod, a + b) ==
            (if ApplyAll(pod, a).None? then None else ApplyAll(ApplyAll(pod, a).value, b))
    decreases |a|
  {
    if a == [] {
      assert a + b == b;
    } else {
      assert (a + b)[1..] == a[1..] + b;
      if ApplyOp(pod, a[0]).Some? {
        ApplyConcat(ApplyOp(pod, a[0]).value, a[1..], b);
      }
    }
  }

  /** Two patches, one after the other. */
  lemma Chain(pod: Pod, a: seq<Op>, mid: Pod, b: seq<Op>, end: Pod)
    requires ApplyAll(pod, a) == Some(mid) && ApplyAll(mid, b) == Some(end)
    ensures ApplyAll(pod, a + b) == Some(end)
  {
    ApplyConcat(pod, a, b);
  }

  // ----- operations addressed to one container --------------------------------------------------

  /** An operation below a container, its pointer relative to that container. */
  datatype Change = Change(path: seq<Token>, value: Value)

  function ChangeAll(c: Container, changes: seq<Change>): Option<Container>
    decreases |changes|
  {
    if changes == [] then Some(c)
    else
      var next := AddInContainer(c, changes[0].path, changes[0].value);
      if next.None? then None else ChangeAll(next.value, changes[1..])
  }

  /** The same changes as pod operations on container `i` of `kind`. */
  function At(kind: Kind, i: nat, changes: seq<Change>): seq<Op> {
    if changes == [] then []
    else [Add([Field("spec"), Field(KindName(kind)), Index(i)] + changes[0].path, changes[0].value)]
         + At(kind, i, changes[1..])
  }

  /** A pointer into container `i` reaches container `i`, and nothing else changes. */
  lemma {:induction false} ApplyAt(pod: Pod, kind: Kind, list: seq<Container>, i: nat, changes: seq<Change>, after: Container)
    requires ListOf(pod, kind) == Some(list) && i < |list|
    requires TakesOne(list[i], changes, after)
    ensures ApplyAll(pod, At(kind, i, changes)) == Some(WithList(pod, kind, list[i := after]))
    decreases |changes|
  {
    if changes == [] {
      assert list[i := list[i]] == list;
    } else {
      var ops := At(kind, i, changes);
      var tail := [Index(i)] + changes[0].path;
      assert changes[0] in changes && changes[0].path != [];
      assert ops[0].path[..2] == [Field("spec"), Field(KindName(kind))] && ops[0].path[2..] == tail;
      assert tail[0] == Index(i) && tail[1..] == changes[0].path;
      assert ops[1..] == At(kind, i, changes[1..]);
      var c := AddInContainer(list[i], changes[0].path, changes[0].value).value;
      var next := WithList(pod, kind, list[i := c]);
      assert ApplyOp(pod, ops[0]) == Some(next);
      ApplyAt(next, kind, list[i := c], i, changes[1..], after);
      assert list[i := c][i := after] == list[i := after];
    }
  }

  /** The changes of the first `n` containers of a list, in list order. */
  function EachOps(kind: Kind, steps: seq<seq<Change>>, n: nat): seq<Op>
    requires n <= |steps|
  {
    if n == 0 then [] else EachOps(kind, steps, n - 1) + At(kind, n - 1, steps[n - 1])
  }

  /** `steps` takes the start of `list`, container by container, to `results`. */
  predicate Takes(list: seq<Container>, steps: seq<seq<Change>>, results: seq<Container>) {
    && |steps| == |results| <= |list|
    && forall i {:trigger steps[i]} | 0 <= i < |steps| :: TakesOne(list[i], steps[i], results[i])
  }

  predicate TakesOne(c: Container, changes: seq<Change>, after: Container) {
    ChangeAll(c, changes) == Some(after) && forall ch | ch in changes :: ch.path != []
  }

  /** The first `n` containers of `list` replaced by `results`. */
  function Spliced(list: seq<Container>, results: seq<Container>, n: nat): seq<Container>
    requires n <= |results| <= |list|
  {
    results[..n] + list[n..]
  }

  lemma SpliceNext(list: seq<Container>, results: seq<Container>, n: nat)
    requires n < |results| <= |list|
    ensures |Spliced(list, results, n)| == |list| && Spliced(list, results, n)[n] == list[n]
    ensures Spliced(list, results, n)[n := results[n]] == Spliced(list, results, n + 1)
  {
  }

  lemma ApplyOneMore(pod: Pod, kind: Kind, list: seq<Container>, steps: seq<seq<Change>>, results: seq<Container>, n: nat)
    requires ListOf(pod, kind) == Some(list) && |steps| == |results| <= |list| && 0 < n <= |steps|
    requires TakesOne(list[n - 1], steps[n - 1], results[n - 1])
    requires ApplyAll(pod, EachOps(kind, steps, n - 1)) == Some(WithList(pod, kind, Spliced(list, results, n - 1)))
    ensures ApplyAll(pod, EachOps(kind, steps, n)) == Some(WithList(pod, kind, Spliced(list, results, n)))
  {
    var done := Spliced(list, results, n - 1);
    SpliceNext(list, results, n - 1);
    ApplyConcat(pod, EachOps(kind, steps, n - 1), At(kind, n - 1, steps[n - 1]));
    ApplyAt(WithList(pod, kind, done), kind, done, n - 1, steps[n - 1], results[n - 1]);
  }

  /** Index by index, every operation reaches the container it was computed for. */
  lemma {:induction false} ApplyEach(pod: Pod, kind: Kind, list: seq<Container>, steps: seq<seq<Change>>, results: seq<Container>, n: nat)
    requires ListOf(pod, kind) == Some(list) && Takes(list, steps, results) && n <= |steps|
    ensures ApplyAll(pod, EachOps(kind, steps, n)) == Some(WithList(pod, kind, Spliced(list, results, n)))
  {
    if n == 0 {
      assert Spliced(list, results, 0) == list;
    } else {
      ApplyEach(pod, kind, list, steps, results, n - 1);
      ApplyOneMore(pod, kind, list, steps, results, n);
    }
  }

  function MountChanges(mounts: seq<Mount>): seq<Change> {
    seq(|mounts|, i requires 0 <= i < |mounts| => Change([Field("volumeMounts"), Last], OneMount(mounts[i])))
  }

  function EnvChanges(envs: seq<EnvVar>): seq<Change> {
    seq(|envs|, i requires 0 <= i < |envs| => Change([Field("env"), Last], OneEnv(envs[i])))
  }

  lemma {:induction false} AppendMounts(c: Container, mounts: seq<Mount>)
    requires c.mounts.Some?
    ensures ChangeAll(c, MountChanges(mounts)) == Some(c.(mounts := Some(c.mounts.value + mounts)))
    decreases |mounts|
  {
    if mounts == [] {
      assert c.mounts.value + mounts == c.mounts.value;
    } else {
      var next := c.(mounts := Some(c.mounts.value + [mounts[0]]));
      assert AddInContainer(c, MountChanges(mounts)[0].path, MountChanges(mounts)[0].value) == Some(next);
      assert MountChanges(mounts)[1..] == MountChanges(mounts[1..]);
      AppendMounts(next, mounts[1..]);
      assert next.mounts.value + mounts[1..] == c.mounts.value + mounts;
    }
  }

  lemma {:induction false} AppendEnv(c: Container, envs: seq<EnvVar>)
    requires c.env.Some?
    ensures ChangeAll(c, EnvChanges(envs)) == Some(c.(env := Some(c.env.value + envs)))
    decreases |envs|
  {
    if envs == [] {
      assert c.env.value + envs == c.env.value;
    } else {
      var next := c.(env := Some(c.env.value + [envs[0]]));
      assert AddInContainer(c, EnvChanges(envs)[0].path, EnvChanges(envs)[0].value) == Some(next);
      assert EnvChanges(envs)[1..] == EnvChanges(envs[1..]);
      AppendEnv(next, envs[1..]);
      assert next.env.value + envs[1..] == c.env.value + envs;
    }
  }
}
