/** Binding a tool call's identity to the caller's credential (norviq/api/auth.py, with the strict SPIFFE
    parser of norviq/engine/identity.py). */
module IdentityBinding {
  import opened Outcomes
  import opened Strings

  datatype Role = Admin | Service | Human

  /** The validated claims; an absent claim is empty. */
  datatype User = User(role: Role, namespace: string, agentClass: string, spiffeId: string, workload: string)

  datatype Settings = Settings(requireBound: bool, workloadApi: bool)

  datatype Field = Namespace | AgentClass | SpiffeId | Workload | Other(name: string)

  /** A request body's identity dictionary. */
  type Identity = map<Field, string>

  datatype Refusal = NoScope | OtherNamespace | ClaimConflict | Mismatch(field: Field) | CrossNamespace | Unbound

  /** A missing field reads as empty. */
  function Read(identity: Identity, field: Field): string { if field in identity then identity[field] else "" }

  // ----- the namespace --------------------------------------------------------------------------

  const SVID_PREFIX := "spiffe://norviq/"

  /** The namespace of `spiffe://norviq/ns/<ns>/sa/<sa>`, empty for any other text. */
  function SvidNamespace(id: string): string {
    if !StartsWith(id, SVID_PREFIX) then "" else
      var parts := Split(id[|SVID_PREFIX|..], '/');
      if |parts| == 4 && parts[0] == "ns" && parts[2] == "sa" && parts[1] != "" && parts[3] != "" then parts[1] else ""
  }

  function ScopedNamespace(user: User, requested: string): Result<string, Refusal> {
    if user.role == Admin then Ok(requested)
    else if user.role != Service && user.namespace == "" then Err(NoScope)
    else if requested != "" && user.namespace != "" && requested != user.namespace then Err(OtherNamespace)
    else Ok(if user.namespace != "" then user.namespace else requested)
  }

  function AttestedNamespace(user: User, requested: string): Result<string, Refusal> {
    if user.role != Service then Ok("") else
      var attested := SvidNamespace(user.spiffeId);
      if attested == "" then Ok("")
      else if user.namespace != "" && user.namespace != attested then Err(ClaimConflict)
      else if requested != "" && requested != attested then Err(OtherNamespace)
      else Ok(attested)
  }

  // ----- the other fields -----------------------------------------------------------------------

  const BOUND_FIELDS: seq<Field> := [AgentClass, SpiffeId, Workload]

  function Claim(user: User, field: Field): string {
    match field
    case AgentClass => user.agentClass
    case SpiffeId => user.spiffeId
    case Workload => user.workload
    case _ => ""
  }

  predicate Mismatched(user: User, identity: Identity, field: Field) {
    Claim(user, field) != "" && Read(identity, field) != "" && Read(identity, field) != Claim(user, field)
  }

  /** The first bound field whose claim the body contradicts, if one does. */
  function FirstMismatch(user: User, identity: Identity): Field {
    if Mismatched(user, identity, AgentClass) then AgentClass
    else if Mismatched(user, identity, SpiffeId) then SpiffeId
    else Workload
  }

  predicate AnyBound(user: User) { user.agentClass != "" || user.spiffeId != "" || user.workload != "" }

  /** A body-supplied id of another namespace than the credential's. */
  predicate NamesOther(user: User, identity: Identity) {
    && user.role == Service && user.spiffeId == "" && user.namespace != ""
    && SvidNamespace(Read(identity, SpiffeId)) != "" && SvidNamespace(Read(identity, SpiffeId)) != user.namespace
  }

  /** A machine credential without a claim this deployment requires of it. */
  predicate LacksRequired(cfg: Settings, user: User) {
    user.role == Service && cfg.requireBound && (user.agentClass == "" || (user.spiffeId == "" && !cfg.workloadApi))
  }

  function Force(user: User, identity: Identity, field: Field): Identity {
    if Claim(user, field) != "" then identity[field := Claim(user, field)] else identity
  }

  /** Claims written over the body; the additive workload tier dropped when it is not claimed. */
  function Forced(user: User, identity: Identity): Identity {
    var all := Force(user, Force(user, Force(user, identity, AgentClass), SpiffeId), Workload);
    if AnyBound(user) && user.workload == "" && Read(all, Workload) != "" then all[Workload := ""] else all
  }

  function ScopedIdentity(cfg: Settings, user: User, identity: Identity): Result<Identity, Refusal> {
    if user.role == Admin then Ok(identity)
    else if Mismatched(user, identity, FirstMismatch(user, identity)) then Err(Mismatch(FirstMismatch(user, identity)))
    else if NamesOther(user, identity) then Err(CrossNamespace)
    else if LacksRequired(cfg, user) then Err(Unbound)
    else Ok(Forced(user, identity))
  }

  /** The identity after the first `n` bound fields. */
  function ForcedUpTo(user: User, identity: Identity, n: nat): Identity
    requires n <= |BOUND_FIELDS|
  {
    if n == 0 then identity else Force(user, ForcedUpTo(user, identity, n - 1), BOUND_FIELDS[n - 1])
  }

  function BoundUpTo(user: User, n: nat): set<Field>
    requires n <= |BOUND_FIELDS|
  {
    if n == 0 then {}
    else BoundUpTo(user, n - 1) + if Claim(user, BOUND_FIELDS[n - 1]) != "" then {BOUND_FIELDS[n - 1]} else {}
  }

  lemma AllForced(user: User, identity: Identity)
    ensures ForcedUpTo(user, identity, 3) ==
            Force(user, Force(user, Force(user, identity, AgentClass), SpiffeId), Workload)
    ensures var bound := BoundUpTo(user, 3);
            && (AgentClass in bound <==> user.agentClass != "")
            && (SpiffeId in bound <==> user.spiffeId != "")
            && (Workload in bound <==> user.workload != "")
            && (bound != {} <==> AnyBound(user))
  {
    assert ForcedUpTo(user, identity, 1) == Force(user, identity, AgentClass);
    assert ForcedUpTo(user, identity, 2) == Force(user, ForcedUpTo(user, identity, 1), SpiffeId);
    assert BoundUpTo(user, 1) == if user.agentClass != "" then {AgentClass} else {};
    assert BoundUpTo(user, 2) == BoundUpTo(user, 1) + if user.spiffeId != "" then {SpiffeId} else {};
  }

  /** The loop: every claimed field is checked, then written over. */
  method ForceClaims(user: User, agentIdentity: Identity)
    returns (refused: Option<Refusal>, identity: Identity, bound: set<Field>)
    ensures refused.None? ==> identity == ForcedUpTo(user, agentIdentity, 3) && bound == BoundUpTo(user, 3)
    ensures refused.None? ==> forall field :: !Mismatched(user, agentIdentity, field)
    ensures refused.Some? ==> refused.value == Mismatch(FirstMismatch(user, agentIdentity))
    ensures refused.Some? ==> Mismatched(user, agentIdentity, FirstMismatch(user, agentIdentity))
  {
    refused, identity, bound := None, agentIdentity, {};
    for n := 0 to 3
      invariant identity == ForcedUpTo(user, agentIdentity, n) && bound == BoundUpTo(user, n)
      invariant forall m | n <= m < 3 :: Read(identity, BOUND_FIELDS[m]) == Read(agentIdentity, BOUND_FIELDS[m])
      invariant forall m | 0 <= m < n :: !Mismatched(user, agentIdentity, BOUND_FIELDS[m])
    {
      var field := BOUND_FIELDS[n];
      var claim := Claim(user, field);
      if claim != "" {
        bound := bound + {field};
        var asked := Read(identity, field);
        if asked != "" && asked != claim {
          assert n > 0 ==> !Mismatched(user, agentIdentity, BOUND_FIELDS[0]);
          assert n > 1 ==> !Mismatched(user, agentIdentity, BOUND_FIELDS[1]);
          return Some(Mismatch(field)), identity, bound;
        }
        identity := identity[field := claim];
      }
    }
    assert !Mismatched(user, agentIdentity, BOUND_FIELDS[0]);
    assert !Mismatched(user, agentIdentity, BOUND_FIELDS[1]);
    assert !Mismatched(user, agentIdentity, BOUND_FIELDS[2]);
  }

  /** The dictionary edited field by field. */
  method ScopeIdentity(cfg: Settings, user: User, agentIdentity: Identity) returns (r: Result<Identity, Refusal>)
    ensures r == ScopedIdentity(cfg, user, agentIdentity)
  {
    if user.role == Admin {
      return Ok(agentIdentity);
    }
    var refused, identity, bound := ForceClaims(user, agentIdentity);
    if refused.Some? {
      return Err(refused.value);
    }
    AllForced(user, agentIdentity);
    if bound != {} && Workload !in bound && Read(identity, Workload) != "" {
      identity := identity[Workload := ""];
    }
    if SpiffeId !in bound && user.role == Service && user.namespace != "" {
      var named := SvidNamespace(Read(identity, SpiffeId));
      if named != "" && named != user.namespace {
        return Err(CrossNamespace);
      }
    }
    var required := if cfg.workloadApi then {AgentClass} else {AgentClass, SpiffeId};
    if user.role == Service && !(required <= bound) && cfg.requireBound {
      return Err(Unbound);
    }
    r := Ok(identity);
  }

  /** The identity a call is evaluated under. */
  function Bind(cfg: Settings, user: User, identity: Identity): Result<Identity, Refusal> {
    var requested := Read(identity, Namespace);
    var scoped := ScopedNamespace(user, requested);
    if scoped.Err? then Err(scoped.error) else
      var fields := ScopedIdentity(cfg, user, identity);
      if fields.Err? then fields else
        var attested := AttestedNamespace(user, requested);
        if attested.Err? then Err(attested.error) else
          var effective := if attested.value != "" then attested.value else scoped.value;
          Ok(if effective != "" then fields.value[Namespace := effective] else fields.value)
  }

  lemma ForcedReads(user: User, identity: Identity, field: Field)
    requires Claim(user, field) != ""
    ensures Read(Forced(user, identity), field) == Claim(user, field)
  {
  }

  lemma ScopedIsForced(cfg: Settings, user: User, identity: Identity)
    requires user.role != Admin && ScopedIdentity(cfg, user, identity).Ok?
    ensures ScopedIdentity(cfg, user, identity).value == Forced(user, identity)
  {
  }

  lemma BindKeeps(cfg: Settings, user: User, identity: Identity, field: Field)
    requires Bind(cfg, user, identity).Ok? && field != Namespace
    ensures ScopedIdentity(cfg, user, identity).Ok?
    ensures Read(Bind(cfg, user, identity).value, field) == Read(ScopedIdentity(cfg, user, identity).value, field)
  {
  }

  /** Whatever the body says, an accepted caller is bound to every claim of its credential. */
  lemma BoundToClaims(cfg: Settings, user: User, identity: Identity, field: Field)
    requires Bind(cfg, user, identity).Ok? && user.role != Admin && Claim(user, field) != ""
    ensures Read(Bind(cfg, user, identity).value, field) == Claim(user, field)
  {
    BindKeeps(cfg, user, identity, field);
    ScopedIsForced(cfg, user, identity);
    ForcedReads(user, identity, field);
  }

  method BindCaller(cfg: Settings, user: User, agentIdentity: Identity) returns (r: Result<Identity, Refusal>)
    ensures r == Bind(cfg, user, agentIdentity)
    ensures r.Ok? && user.role != Admin ==>
              forall field :: Claim(user, field) != "" ==> Read(r.value, field) == Claim(user, field)
  {
    var requested := Read(agentIdentity, Namespace);
    var scoped := ScopedNamespace(user, requested);
    if scoped.Err? {
      return Err(scoped.error);
    }
    var effective := scoped.value;
    var fields := ScopeIdentity(cfg, user, agentIdentity);
    if fields.Err? {
      return fields;
    }
    var attested := AttestedNamespace(user, requested);
    if attested.Err? {
      return Err(attested.error);
    }
    if attested.value != "" {
      effective := attested.value;
    }
    var identity := fields.value;
    if effective != "" {
      identity := identity[Namespace := effective];
    }
    r := Ok(identity);
    forall field | user.role != Admin && Claim(user, field) != "" ensures Read(r.value, field) == Claim(user, field) {
      BoundToClaims(cfg, user, agentIdentity, field);
    }
  }

  // ----- the attested namespace is the one a Norviq SVID spells ---------------------------------

  lemma SplitFirst(a: string, rest: string)
    requires '/' !in a
    ensures Split(a + "/" + rest, '/') == [a] + Split(rest, '/') && Split(a, '/') == [a]
  {
    BeforeIs(a, '/', rest);
    var s := a + "/" + rest;
    assert s[|a| + 1..] == rest;
  }

  function Svid(ns: string, sa: string): string { SVID_PREFIX + ("ns" + "/" + (ns + "/" + ("sa" + "/" + sa))) }

  predicate IsSegment(s: string) { s != "" && '/' !in s }

  ghost predicate SplitsTo(s: string, parts: seq<string>) { Split(s, '/') == parts }

  lemma SplitMore(a: string, rest: string, parts: seq<string>)
    requires '/' !in a && SplitsTo(rest, parts)
    ensures SplitsTo(a + "/" + rest, [a] + parts)
  {
    SplitFirst(a, rest);
  }

  lemma SplitFour(a: string, b: string, c: string, d: string)
    requires '/' !in a && '/' !in b && '/' !in c && '/' !in d
    ensures SplitsTo(a + "/" + (b + "/" + (c + "/" + d)), [a] + ([b] + ([c] + [d])))
  {
    SplitFirst(d, "");
    SplitMore(c, d, [d]);
    SplitMore(b, c + "/" + d, [c] + [d]);
    SplitMore(a, b + "/" + (c + "/" + d), [b] + ([c] + [d]));
  }

  lemma AfterPrefix(prefix: string, path: string)
    ensures StartsWith(prefix + path, prefix) && (prefix + path)[|prefix|..] == path
  {
  }

  lemma SvidIsRead(ns: string, sa: string)
    requires IsSegment(ns) && IsSegment(sa)
    ensures SvidNamespace(Svid(ns, sa)) == ns
  {
    AfterPrefix(SVID_PREFIX, "ns" + "/" + (ns + "/" + ("sa" + "/" + sa)));
    SplitFour("ns", ns, "sa", sa);
    assert ["ns"] + ([ns] + (["sa"] + [sa])) == ["ns", ns, "sa", sa];
  }

  /** What was split off first, and the rest. */
  lemma SplitJoins(s: string)
    ensures var parts := Split(s, '/');
            && '/' !in parts[0]
            && (|parts| == 1 ==> s == parts[0])
            && (|parts| > 1 ==> exists rest :: s == parts[0] + "/" + rest && Split(rest, '/') == parts[1..])
  {
    var head := Before(s, '/');
    if |head| == |s| {
      assert s == s[..|head|];
    } else {
      var rest := s[|head| + 1..];
      assert s == head + "/" + rest;
      assert Split(s, '/')[1..] == Split(rest, '/');
    }
  }

  lemma ReadIsSvid(id: string) returns (sa: string)
    requires SvidNamespace(id) != ""
    ensures IsSegment(SvidNamespace(id)) && IsSegment(sa) && id == Svid(SvidNamespace(id), sa)
  {
    var path, ns := id[|SVID_PREFIX|..], SvidNamespace(id);
    assert id == SVID_PREFIX + path;
    SplitJoins(path);
    var rest :| path == "ns" + "/" + rest && Split(rest, '/') == Split(path, '/')[1..];
    SplitJoins(rest);
    var rest' :| rest == ns + "/" + rest' && Split(rest', '/') == Split(rest, '/')[1..];
    SplitJoins(rest');
    var rest'' :| rest' == "sa" + "/" + rest'' && Split(rest'', '/') == Split(rest', '/')[1..];
    SplitJoins(rest'');
    sa := rest'';
  }

  /** A namespace is attested exactly by the four-segment ids of the trust domain. */
  lemma AttestedIffSvid(id: string, ns: string)
    requires ns != ""
    ensures SvidNamespace(id) == ns <==> IsSegment(ns) && exists sa :: IsSegment(sa) && id == Svid(ns, sa)
  {
    if SvidNamespace(id) == ns {
      var sa := ReadIsSvid(id);
    }
    if IsSegment(ns) {
      if sa :| IsSegment(sa) && id == Svid(ns, sa) {
        SvidIsRead(ns, sa);
      }
    }
  }

  // ----- two runs -------------------------------------------------------------------------------

  /** What selects enforcement. */
  datatype View = View(namespace: string, agentClass: string, spiffeId: string, workload: string)

  function ViewOf(identity: Identity): View {
    View(Read(identity, Namespace), Read(identity, AgentClass), Read(identity, SpiffeId), Read(identity, Workload))
  }

  /** The credential is refused with every body. */
  predicate Refused(cfg: Settings, user: User) {
    || (user.role == Human && user.namespace == "")
    || LacksRequired(cfg, user)
    || (user.role == Service && user.namespace != "" && SvidNamespace(user.spiffeId) !in {"", user.namespace})
  }

  /** The credential itself fixes all four fields. */
  predicate Pinned(user: User) {
    && user.role != Admin && user.agentClass != "" && user.spiffeId != ""
    && (user.namespace != "" || (user.role == Service && SvidNamespace(user.spiffeId) != ""))
  }

  ghost predicate Determined(cfg: Settings, user: User) {
    forall a, b | Bind(cfg, user, a).Ok? && Bind(cfg, user, b).Ok? ::
      ViewOf(Bind(cfg, user, a).value) == ViewOf(Bind(cfg, user, b).value)
  }

  /** A body that the caller can choose to change the outcome. */
  function Choice(user: User): Identity {
    if user.role == Admin || user.agentClass == "" then map[AgentClass := "x"]
    else if user.spiffeId == "" then map[SpiffeId := "x"]
    else map[Namespace := "x"]
  }

  lemma RefusedAlways(cfg: Settings, user: User, body: Identity)
    requires Refused(cfg, user)
    ensures Bind(cfg, user, body).Err?
  {
  }

  lemma UnpinnedChooses(cfg: Settings, user: User)
    requires !Refused(cfg, user) && !Pinned(user)
    ensures Bind(cfg, user, map[]).Ok? && Bind(cfg, user, Choice(user)).Ok?
    ensures ViewOf(Bind(cfg, user, map[]).value) != ViewOf(Bind(cfg, user, Choice(user)).value)
  {
    assert SvidNamespace("") == "" && SvidNamespace("x") == "";
  }

  lemma PinnedNamespace(cfg: Settings, user: User, body: Identity)
    requires Pinned(user) && Bind(cfg, user, body).Ok?
    ensures Read(Bind(cfg, user, body).value, Namespace) ==
            if user.namespace != "" then user.namespace else SvidNamespace(user.spiffeId)
  {
  }

  lemma PinnedFields(user: User, body: Identity, field: Field)
    requires Pinned(user) && field in {AgentClass, SpiffeId, Workload}
    ensures Read(Forced(user, body), field) == Claim(user, field)
  {
  }

  lemma PinnedView(cfg: Settings, user: User, body: Identity)
    requires Pinned(user) && Bind(cfg, user, body).Ok?
    ensures ViewOf(Bind(cfg, user, body).value) ==
            View(if user.namespace != "" then user.namespace else SvidNamespace(user.spiffeId),
                 user.agentClass, user.spiffeId, user.workload)
  {
    PinnedNamespace(cfg, user, body);
    forall field | field in {AgentClass, SpiffeId, Workload}
      ensures Read(Bind(cfg, user, body).value, field) == Claim(user, field)
    {
      BindKeeps(cfg, user, body, field);
      ScopedIsForced(cfg, user, body);
      PinnedFields(user, body, field);
    }
  }

  /** Two accepted bodies of a machine credential with a class and a parseable SPIFFE id. */
  lemma BoundServiceIsFixed(cfg: Settings, user: User, a: Identity, b: Identity)
    requires user.role == Service && user.agentClass != "" && SvidNamespace(user.spiffeId) != ""
    requires Bind(cfg, user, a).Ok? && Bind(cfg, user, b).Ok?
    ensures ViewOf(Bind(cfg, user, a).value) == ViewOf(Bind(cfg, user, b).value)
    ensures ViewOf(Bind(cfg, user, a).value).namespace == SvidNamespace(user.spiffeId)
  {
    PinnedView(cfg, user, a);
    PinnedView(cfg, user, b);
  }

  /** For every credential: all accepted bodies are evaluated alike exactly when the credential pins all four
      fields, or is never accepted. */
  lemma DeterminedIff(cfg: Settings, user: User)
    ensures Determined(cfg, user) <==> Pinned(user) || Refused(cfg, user)
  {
    if Refused(cfg, user) {
      forall a | Bind(cfg, user, a).Ok? ensures false {
        RefusedAlways(cfg, user, a);
      }
    } else if Pinned(user) {
      forall a, b | Bind(cfg, user, a).Ok? && Bind(cfg, user, b).Ok?
        ensures ViewOf(Bind(cfg, user, a).value) == ViewOf(Bind(cfg, user, b).value)
      {
        PinnedView(cfg, user, a);
        PinnedView(cfg, user, b);
      }
    } else {
      UnpinnedChooses(cfg, user);
    }
  }

  // ----- binding twice --------------------------------------------------------------------------

  lemma ForcedTwice(user: User, identity: Identity)
    ensures Forced(user, Forced(user, identity)) == Forced(user, identity)
  {
  }

  lemma ForcedKeepsNamespace(user: User, identity: Identity, ns: string)
    ensures Forced(user, identity[Namespace := ns]) == Forced(user, identity)[Namespace := ns]
  {
  }

  lemma ScopedTwice(cfg: Settings, user: User, identity: Identity)
    requires ScopedIdentity(cfg, user, identity).Ok?
    ensures var fields := ScopedIdentity(cfg, user, identity).value;
            ScopedIdentity(cfg, user, fields).Ok? && ScopedIdentity(cfg, user, fields).value == fields
  {
    ForcedTwice(user, identity);
  }

  lemma ScopedIgnoresNamespace(cfg: Settings, user: User, identity: Identity, ns: string)
    requires ScopedIdentity(cfg, user, identity).Ok?
    ensures var r := ScopedIdentity(cfg, user, identity[Namespace := ns]);
            r.Ok? && r.value == ScopedIdentity(cfg, user, identity).value[Namespace := ns]
  {
    ForcedKeepsNamespace(user, identity, ns);
  }

  /** The namespace a request ends up with. */
  function Effective(user: User, requested: string): Result<string, Refusal> {
    var scoped, attested := ScopedNamespace(user, requested), AttestedNamespace(user, requested);
    if scoped.Err? then scoped else if attested.Err? || attested.value != "" then attested else scoped
  }

  lemma NamespaceTwice(user: User, requested: string)
    requires Effective(user, requested).Ok?
    ensures var ns := Effective(user, requested).value;
            Effective(user, ns).Ok? && Effective(user, ns).value == ns && (ns == "" ==> requested == "")
  {
  }

  function WithNamespace(identity: Identity, ns: string): Identity {
    if ns != "" then identity[Namespace := ns] else identity
  }

  /** Binding is the field half and the namespace half. */
  lemma BindHalves(cfg: Settings, user: User, identity: Identity)
    ensures var fields, ns := ScopedIdentity(cfg, user, identity), Effective(user, Read(identity, Namespace));
            && (Bind(cfg, user, identity).Ok? <==> fields.Ok? && ns.Ok?)
            && (fields.Ok? && ns.Ok? ==> Bind(cfg, user, identity).value == WithNamespace(fields.value, ns.value))
  {
  }

  lemma FieldsKeepNamespace(cfg: Settings, user: User, identity: Identity)
    requires ScopedIdentity(cfg, user, identity).Ok?
    ensures Read(ScopedIdentity(cfg, user, identity).value, Namespace) == Read(identity, Namespace)
  {
  }

  /** Binding a bound identity changes nothing, for every credential and every accepted body. */
  lemma BindIsIdempotent(cfg: Settings, user: User, identity: Identity)
    requires Bind(cfg, user, identity).Ok?
    ensures var bound := Bind(cfg, user, identity).value;
            Bind(cfg, user, bound).Ok? && Bind(cfg, user, bound).value == bound
  {
    BindHalves(cfg, user, identity);
    FieldsKeepNamespace(cfg, user, identity);
    ScopedTwice(cfg, user, identity);
    NamespaceTwice(user, Read(identity, Namespace));
    var fields, ns := ScopedIdentity(cfg, user, identity).value, Effective(user, Read(identity, Namespace)).value;
    BoundAgain(cfg, user, fields, ns);
  }

  lemma BoundAgain(cfg: Settings, user: User, fields: Identity, ns: string)
    requires ScopedIdentity(cfg, user, fields).Ok? && ScopedIdentity(cfg, user, fields).value == fields
    requires Effective(user, ns).Ok? && Effective(user, ns).value == ns && (ns == "" ==> Read(fields, Namespace) == "")
    ensures var bound := WithNamespace(fields, ns);
            Bind(cfg, user, bound).Ok? && Bind(cfg, user, bound).value == bound
  {
    ScopedIgnoresNamespace(cfg, user, fields, ns);
    BindHalves(cfg, user, WithNamespace(fields, ns));
    assert fields[Namespace := ns][Namespace := ns] == fields[Namespace := ns];
  }
}
