/** The key a policy resource is stored under when it is created (webhook/controller.go builds the payload,
    norviq/api/routers/policies.py resolves it) and the key it is deleted under (webhook/controller.go). */
module PolicyKey {
  import opened Outcomes
  import opened Strings

  /** The target block; an absent field is empty. */
  datatype Target = Target(agentClass: string, kind: string, name: string, namespace: string)

  datatype Resource = Resource(namespace: string, name: string, clusterPriority: bool, target: Option<Target>)

  datatype StorageKey = StorageKey(namespace: string, scope: string)

  const BASELINE := "__baseline__"

  function LowerChar(c: char): char { if 'A' <= c <= 'Z' then ((c as int) + 32) as char else c }

  function Lower(s: string): string { seq(|s|, i requires 0 <= i < |s| => LowerChar(s[i])) }

  // ----- shapes ---------------------------------------------------------------------------------

  /** A cluster-priority resource whose target names a namespace and nothing else. */
  predicate IsNamespaceBaseline(u: Resource) {
    && u.clusterPriority && u.target.Some?
    && var t := u.target.value; t.namespace != "" && t.agentClass == "" && t.kind == "" && t.name == ""
  }

  /** The other namespace a scoped resource of the admin namespace names, or empty. */
  function CrossNamespace(u: Resource, admin: string): string {
    if u.namespace != (if admin == "" then "norviq" else admin) || u.clusterPriority || u.target.None? then "" else
      var t := u.target.value;
      if t.namespace == u.namespace then ""
      else if t.agentClass != "" || (t.kind != "" && t.name != "") then t.namespace
      else ""
  }

  function HomeNamespace(u: Resource, admin: string): string {
    var cross := CrossNamespace(u, admin);
    if cross != "" then cross else u.namespace
  }

  // ----- create ---------------------------------------------------------------------------------

  /** The payload's key fields: the target's namespace is filled in on a copy. */
  datatype Payload = Payload(namespace: string, policyName: string, agentClass: string, target: Option<Target>)

  /** The target's namespace, filled in with the resource's own. */
  function Filled(u: Resource, t: Target): string { if t.namespace == "" then u.namespace else t.namespace }

  function BuildPayload(u: Resource, admin: string): Payload {
    if IsNamespaceBaseline(u) then
      Payload(u.target.value.namespace, u.name, BASELINE, u.target)
    else if u.target.None? then
      Payload(HomeNamespace(u, admin), u.name, "", None)
    else
      var t := u.target.value;
      Payload(HomeNamespace(u, admin), u.name, t.agentClass,
              Some(t.(namespace := Filled(u, t))))
  }

  /** The API's precedence: class, workload, namespace, name. */
  function Resolve(p: Payload): Option<string> {
    if p.agentClass != "" then Some(p.agentClass) else
      var t := if p.target.Some? then p.target.value else Target("", "", "", "");
      var kind, name := Lower(Trim(Python, t.kind)), Trim(Python, t.name);
      if kind != "" && name != "" then Some(kind + ":" + name)
      else if Trim(Python, t.namespace) != "" then Some("namespace:" + Trim(Python, t.namespace))
      else if p.policyName != "" then Some(p.policyName)
      else None
  }

  // ----- delete ---------------------------------------------------------------------------------

  function DeleteKey(u: Resource, admin: string): StorageKey {
    if IsNamespaceBaseline(u) then StorageKey(u.target.value.namespace, BASELINE) else
      StorageKey(HomeNamespace(u, admin), DeleteScope(u))
  }

  function DeleteScope(u: Resource): string {
    if u.target.None? then u.name else
      var t := u.target.value;
      if t.agentClass != "" then t.agentClass
      else if t.kind != "" && t.name != "" then Lower(Trim(Go, t.kind)) + ":" + Trim(Go, t.name)
      else if t.namespace != "" then "namespace:" + Trim(Go, t.namespace)
      else u.name
  }

  // ----- the two agree --------------------------------------------------------------------------

  /** What the cluster guarantees of every resource's own names: its name holds no colon, and its namespace is not
      blank. */
  predicate Named(u: Resource) { u.name != "" && ':' !in u.name && Trim(Python, u.namespace) != "" }

  /** Both languages trim a field to the same text, and something is left. */
  predicate Clean(s: string) { Trim(Python, s) != "" && Trim(Python, s) == Trim(Go, s) }

  /** A blank workload name behind a kind that spells the namespace key itself, up to the last colon. */
  predicate Collides(kind: string, name: string, ns: string) {
    Trim(Go, name) == "" && Trim(Python, ns) != "" && Lower(Trim(Go, kind)) + ":" == "namespace:" + Trim(Python, ns)
  }

  /** The target itself names a class, a full workload, or a namespace, in text both languages trim alike, or it
      collides; or there is no target. */
  predicate SelfKeyed(u: Resource) {
    u.target.Some? ==>
      var t := u.target.value;
      || t.agentClass != ""
      || IsNamespaceBaseline(u)
      || (if t.kind != "" && t.name != ""
          then (Clean(t.kind) && Clean(t.name)) || Collides(t.kind, t.name, Filled(u, t))
          else Clean(t.namespace))
  }

  /** Where trimming cuts. */
  lemma {:induction false} LeftCut(rt: Runtime, s: string) returns (a: nat)
    ensures a <= |s| && TrimLeft(rt, s) == s[a..]
    ensures forall i | 0 <= i < a :: IsSpace(rt, s[i])
    ensures a < |s| ==> !IsSpace(rt, s[a])
    decreases |s|
  {
    if s != "" && IsSpace(rt, s[0]) {
      var b := LeftCut(rt, s[1..]);
      a := b + 1;
      forall i | 0 <= i < a ensures IsSpace(rt, s[i]) {
        assert i > 0 ==> s[i] == s[1..][i - 1];
      }
    } else {
      a := 0;
    }
  }

  lemma {:induction false} RightCut(rt: Runtime, s: string) returns (b: nat)
    ensures b <= |s| && TrimRight(rt, s) == s[..b]
    ensures forall i | b <= i < |s| :: IsSpace(rt, s[i])
    ensures b > 0 ==> !IsSpace(rt, s[b - 1])
    decreases |s|
  {
    if s != "" && IsSpace(rt, s[|s| - 1]) {
      b := RightCut(rt, s[..|s| - 1]);
    } else {
      b := |s|;
    }
  }

  lemma Cuts(rt: Runtime, s: string) returns (a: nat, b: nat)
    ensures a <= b <= |s| && Trim(rt, s) == s[a..b]
    ensures forall i | 0 <= i < a :: IsSpace(rt, s[i])
    ensures forall i | b <= i < |s| :: IsSpace(rt, s[i])
    ensures a < b ==> !IsSpace(rt, s[a]) && !IsSpace(rt, s[b - 1])
  {
    a := LeftCut(rt, s);
    var c := RightCut(rt, s[a..]);
    b := a + c;
    forall i | b <= i < |s| ensures IsSpace(rt, s[i]) {
      assert s[i] == s[a..][i - a];
    }
    assert s[a..][..c] == s[a..b];
  }

  /** Python trims at least as much as Go, and what is left has no Python space at its ends. */
  lemma PythonTrimsMore(s: string)
    ensures |Trim(Python, s)| <= |Trim(Go, s)|
    ensures Trim(Python, s) != "" && |Trim(Python, s)| == |Trim(Go, s)| ==> Trim(Python, s) == Trim(Go, s)
    ensures Trim(Python, s) == "" ==> forall i | 0 <= i < |Trim(Go, s)| :: IsSpace(Python, Trim(Go, s)[i])
    ensures Trim(Python, s) != "" ==> !IsSpace(Python, Trim(Python, s)[0])
    ensures Trim(Python, s) != "" ==> !IsSpace(Python, Trim(Python, s)[|Trim(Python, s)| - 1])
  {
    var a, b := Cuts(Python, s);
    var c, d := Cuts(Go, s);
    if a < b {
      assert c <= a && b <= d;
    } else {
      forall i | 0 <= i < |Trim(Go, s)| ensures IsSpace(Python, Trim(Go, s)[i]) {
        assert Trim(Go, s)[i] == s[c + i];
      }
    }
  }

  lemma LowerSpace(c: char)
    ensures IsSpace(Python, LowerChar(c)) == IsSpace(Python, c)
  {
  }

  /** A workload key starts with its kind, so no blank kind makes a namespace key. */
  lemma BlankKindDiffers(kind: string, name: string, ns: string)
    requires forall i | 0 <= i < |kind| :: IsSpace(Python, kind[i])
    ensures kind + ":" + name != "namespace:" + ns
  {
    assert (kind + ":" + name)[0] == if kind == "" then ':' else kind[0];
    assert ("namespace:" + ns)[0] == 'n';
  }

  /** A workload key ends with its name, so a name of separators makes no namespace key. */
  lemma BlankNameDiffers(kind: string, name: string, ns: string)
    requires name != "" && forall i | 0 <= i < |name| :: IsSpace(Python, name[i])
    requires ns != "" && !IsSpace(Python, ns[|ns| - 1])
    ensures kind + ":" + name != "namespace:" + ns
  {
    var a, b := kind + ":" + name, "namespace:" + ns;
    assert a[|a| - 1] == name[|name| - 1] && b[|b| - 1] == ns[|ns| - 1];
  }

  lemma LowerKeeps(s: string)
    ensures |Lower(s)| == |s|
    ensures (forall i | 0 <= i < |s| :: IsSpace(Python, s[i])) ==>
              forall i | 0 <= i < |Lower(s)| :: IsSpace(Python, Lower(s)[i])
  {
    forall i | 0 <= i < |s| ensures IsSpace(Python, Lower(s)[i]) == IsSpace(Python, s[i]) {
      LowerSpace(s[i]);
    }
  }

  lemma HasColon(a: string, b: string)
    ensures ':' in a + ":" + b
  {
    assert (a + ":" + b)[|a|] == ':';
  }

  lemma SameLength(a: string, b: string, a': string, b': string)
    requires a + ":" + b == a' + ":" + b' && |a| <= |a'| && |b| <= |b'|
    ensures |a| == |a'| && |b| == |b'|
  {
    assert |a + ":" + b| == |a| + 1 + |b| && |a' + ":" + b'| == |a'| + 1 + |b'|;
  }

  /** A kind or a name that Python finds blank leaves the namespace to decide. */
  lemma BlankAgrees(kind: string, name: string, ns: string)
    requires Trim(Python, ns) != "" && (Trim(Python, kind) == "" || Trim(Python, name) == "")
    ensures Lower(Trim(Go, kind)) + ":" + Trim(Go, name) == "namespace:" + Trim(Python, ns) <==> Collides(kind, name, ns)
  {
    PythonTrimsMore(kind);
    PythonTrimsMore(name);
    PythonTrimsMore(ns);
    LowerKeeps(Trim(Go, kind));
    if Trim(Python, kind) == "" {
      BlankKindDiffers(Lower(Trim(Go, kind)), Trim(Go, name), Trim(Python, ns));
      BlankKindDiffers(Lower(Trim(Go, kind)), "", Trim(Python, ns));
    } else if Trim(Go, name) != "" {
      BlankNameDiffers(Lower(Trim(Go, kind)), Trim(Go, name), Trim(Python, ns));
    }
    assert Lower(Trim(Go, kind)) + ":" + "" == Lower(Trim(Go, kind)) + ":";
  }

  /** A whole workload in the target: the two keys agree exactly when both fields are clean, or they collide. */
  lemma WorkloadAgrees(kind: string, name: string, ns: string, own: string)
    requires ':' !in own
    ensures var went := Lower(Trim(Go, kind)) + ":" + Trim(Go, name);
            var came := Resolve(Payload("", own, "", Some(Target("", kind, name, ns))));
            (came.Some? && came.value == went) <==> (Clean(kind) && Clean(name)) || Collides(kind, name, ns)
  {
    PythonTrimsMore(kind);
    PythonTrimsMore(name);
    LowerKeeps(Trim(Go, kind));
    LowerKeeps(Trim(Python, kind));
    HasColon(Lower(Trim(Go, kind)), Trim(Go, name));
    if Trim(Python, kind) != "" && Trim(Python, name) != "" {
      if Lower(Trim(Python, kind)) + ":" + Trim(Python, name) == Lower(Trim(Go, kind)) + ":" + Trim(Go, name) {
        SameLength(Lower(Trim(Python, kind)), Trim(Python, name), Lower(Trim(Go, kind)), Trim(Go, name));
      }
    } else if Trim(Python, ns) != "" {
      BlankAgrees(kind, name, ns);
    }
  }

  lemma NamespaceText(a: string, b: string)
    ensures "namespace:" + a == "namespace:" + b <==> a == b
    ensures ':' in "namespace:" + a
  {
    assert ("namespace:" + a)[10..] == a && ("namespace:" + b)[10..] == b;
    assert ("namespace:" + a)[9] == ':';
  }

  /** No whole workload: the filled-in namespace decides on create, the raw one on delete. */
  lemma NamespaceAgrees(t: Target, home: string, own: string)
    requires t.agentClass == "" && (t.kind == "" || t.name == "")
    requires ':' !in own && own != "" && Trim(Python, home) != ""
    ensures var went := if t.namespace != "" then "namespace:" + Trim(Go, t.namespace) else own;
            var filled := t.(namespace := if t.namespace == "" then home else t.namespace);
            var came := Resolve(Payload("", own, "", Some(filled)));
            (came.Some? && came.value == went) <==> Clean(t.namespace)
  {
    PythonTrimsMore(t.namespace);
    NamespaceText(Trim(Python, t.namespace), Trim(Go, t.namespace));
    NamespaceText(Trim(Go, t.namespace), "");
    NamespaceText(Trim(Python, home), "");
    assert Trim(Python, "") == "" && Lower("") == "";
  }

  /** The namespace a payload carries does not enter the resolved scope. */
  lemma ScopeOnly(p: Payload, ns: string)
    ensures Resolve(p) == Resolve(p.(namespace := ns))
  {
  }

  /** For every resource: deleting uses the key creating stored under, exactly when the target keys itself. */
  lemma KeysAgreeIff(u: Resource, admin: string)
    requires Named(u)
    ensures var p, key := BuildPayload(u, admin), DeleteKey(u, admin);
            && p.namespace == key.namespace
            && Resolve(p).Some?
            && (Resolve(p).value == key.scope <==> SelfKeyed(u))
  {
    var p := BuildPayload(u, admin);
    ScopeOnly(p, "");
    if u.target.Some? && !IsNamespaceBaseline(u) && u.target.value.agentClass == "" {
      var t := u.target.value;
      if t.kind != "" && t.name != "" {
        WorkloadAgrees(t.kind, t.name, p.target.value.namespace, u.name);
        assert p.target.value == Target("", t.kind, t.name, p.target.value.namespace);
      } else {
        NamespaceAgrees(t, u.namespace, u.name);
      }
    } else if u.target.None? {
      assert Trim(Python, "") == "" && Lower("") == "";
    }
  }

  // ----- what the schema admits -----------------------------------------------------------------

  predicate IsNameChar(c: char) { 'a' <= c <= 'z' || '0' <= c <= '9' || c == '-' }

  /** Lower-case letters, digits and inner dashes, at most 63 of them. */
  predicate IsName(s: string) {
    && 0 < |s| <= 63
    && (forall i | 0 <= i < |s| :: IsNameChar(s[i]))
    && s[0] != '-' && s[|s| - 1] != '-'
  }

  predicate AbsentOrName(s: string) { s == "" || IsName(s) }

  /** The target the resource schema lets through: at least a class, a namespace, or a kind and a name. */
  predicate Admitted(u: Resource) {
    && u.target.Some?
    && var t := u.target.value;
       && AbsentOrName(t.agentClass) && AbsentOrName(t.namespace) && AbsentOrName(t.name)
       && (t.kind == "" || t.kind == "Deployment")
       && (t.agentClass != "" || t.namespace != "" || (t.kind != "" && t.name != ""))
  }

  /** Text that neither starts nor ends with white space is trimmed to itself. */
  lemma NameIsClean(s: string)
    requires s != "" && !IsSpace(Python, s[0]) && !IsSpace(Python, s[|s| - 1])
    ensures Trim(Python, s) == s && Trim(Go, s) == s
  {
  }

  lemma DeploymentIsClean()
    ensures Trim(Python, "Deployment") == "Deployment" && Trim(Go, "Deployment") == "Deployment"
    ensures Lower("Deployment") == "deployment"
  {
    NameIsClean("Deployment");
    assert Lower("Deployment") == ['d', 'e', 'p', 'l', 'o', 'y', 'm', 'e', 'n', 't'];
  }

  /** The key the evaluator looks for, without any trimming. */
  function PlainScope(u: Resource): string
    requires u.target.Some?
  {
    var t := u.target.value;
    if IsNamespaceBaseline(u) then BASELINE
    else if t.agentClass != "" then t.agentClass
    else if t.kind != "" && t.name != "" then "deployment:" + t.name
    else "namespace:" + t.namespace
  }

  lemma AdmittedIsClean(t: Target)
    requires AbsentOrName(t.namespace) && AbsentOrName(t.name) && t.kind in {"", "Deployment"}
    ensures t.namespace != "" ==> Clean(t.namespace) && Trim(Go, t.namespace) == t.namespace
    ensures t.name != "" ==> Clean(t.name) && Trim(Go, t.name) == t.name
    ensures t.kind != "" ==> Clean(t.kind) && Lower(Trim(Go, t.kind)) == "deployment"
  {
    DeploymentIsClean();
    if t.name != "" {
      NameIsClean(t.name);
    }
    if t.namespace != "" {
      NameIsClean(t.namespace);
    }
  }

  lemma AdmittedScope(u: Resource)
    requires Admitted(u)
    ensures SelfKeyed(u) && (!IsNamespaceBaseline(u) ==> DeleteScope(u) == PlainScope(u))
  {
    var t := u.target.value;
    AdmittedIsClean(t);
    assert "deployment" + ":" + t.name == "deployment:" + t.name;
  }

  /** Every resource the schema admits is stored and deleted under one and the same key, its class, deployment or
      namespace as written. */
  lemma AdmittedKeysAgree(u: Resource, admin: string)
    requires Named(u) && Admitted(u)
    ensures var p, key := BuildPayload(u, admin), DeleteKey(u, admin);
            p.namespace == key.namespace && Resolve(p) == Some(key.scope) && key.scope == PlainScope(u)
  {
    AdmittedScope(u);
    KeysAgreeIff(u, admin);
  }

  /** A target that names nothing, which only gets past the schema, is stored under its own namespace and deleted
      under its name. */
  lemma EmptyTargetIsMissed(u: Resource, admin: string)
    requires Named(u) && u.target == Some(Target("", "", "", ""))
    ensures Resolve(BuildPayload(u, admin)) == Some("namespace:" + Trim(Python, u.namespace))
    ensures DeleteKey(u, admin).scope == u.name && u.name != "namespace:" + Trim(Python, u.namespace)
  {
    KeysAgreeIff(u, admin);
    assert Trim(Python, "") == "" && Lower("") == "";
    NamespaceText(Trim(Python, u.namespace), "");
  }
}
