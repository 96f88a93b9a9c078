# Norviq, modelled in Dafny

This project models five parts of Norviq and proves what each of them is for. Nothing here executes Norviq:
the models are Dafny functions, methods, classes and step systems, and the statements about them are checked by
the Dafny verifier (`dafny verify dfyconfig.toml`).

* **Logout revocation** (`Revocation`, `RevocationSafety`, `RevocationProcess`, `TokenKey`). Any number of API
  processes, each with an in-process mirror, a retry queue and a pull watermark, share Redis and Postgres. The
  protocol is a step system: logouts with their awaits taken apart, sync passes taken apart, commits, aborts and
  lost acknowledgements, Redis wipes, pruning, crashes, restarts and two clocks. The dictionaries of one process are
  a class whose methods are proved against the steps.
* **Sidecar and MCP injection** (`Pods`, `Webhook`, `Injector`, `InjectedPod`, `Readmission`). Pods, a JSON Patch
  interpreter (the `add` operation of section 4.1 of RFC 6902), the patch builder and the independently written
  recogniser. The patched pod is computed in closed form and run through the recogniser.
* **Baseline control compiler** (`PyText`, `LineReader`, `RuleBody`, `IdOrder`, `ControlText`, `ControlCompiler`,
  `ControlRoundTrip`, `ControlMeaning`). Character by character: finding the region, splitting lines, reading heads,
  rendering under an effects map, reading the effects back, and deciding `covers`.
* **Policy distribution** (`FleetPuller`, `FleetRuns`, `RetrySweep`, `DerivedStatus`, `PolicyKey`). The bundle puller,
  which can fail between any two operations; the controller's retry sweep, its stale flag and bounded queues, and
  the keys under which a policy resource is created and deleted.
* **Identity binding and marker parsing** (`IdentityBinding`, `Marker`).

`Outcomes` and `Strings` hold the shared result types and library string operations.

## Where the source does less than it says

Each of these is proved as a failing family of inputs together with the exact condition under which the property
does hold.

* A logout request cancelled while it writes Redis is lost unless its keys are secured elsewhere
  (`RevocationSafety.CancelledLogoutIsLost`, `RevocationSafety.NoRevocationLost`).
* An insert that commits one overlap window late, or later, is missed by every process whose pulls have passed its
  stamp and that does not hold its keys already (`RevocationSafety.CommitOnTheEdgeIsMissed`,
  `RevocationSafety.EdgeIsReached`, `RevocationSafety.RunCaughtUpIff`).
* An injected pod is denied on re-admission when one of its containers runs an image of the sidecar's name with its
  own command or args, when the proxy image has no name or the socket path hides the proxy payload, or when an
  annotated init container is called like the sidecar (`Readmission.AdmissionIsIdempotent`, with one failing family
  each: `LookalikePodIsDenied`, `NamelessProxyIsDenied`, `HiddenPayloadIsDenied`, `ServerNamedLikeSidecarIsDenied`).
* A chart whose end marker precedes its begin marker loses its region when it is compiled
  (`ControlRoundTrip.EffectsRoundTrip`).
* The shipped defaults change meaning when a control mixes audit and enforcing heads
  (`ControlMeaning.DefaultsKeepMeaning`).
* Keys of an abandoned bundle are in no manifest; it is not enough that the next bundle still carries them. A key
  whose namespace holds a colon is never taken away again (`FleetRuns.RunTrackedIff`, `FleetRuns.OneBundleIsNotEnough`,
  `FleetRuns.ColonKeyStays`).
* A sync that is still in flight when a generation fails, or an older copy the handler has yet to come to, wipes or
  overwrites the record of the failure, and the generation is driven again (`RetrySweep.LateSyncReopens`,
  `RetrySweep.OlderHandlerReopens`, `RetrySweep.NeverRetriedIff`). In the same way other content in flight or waiting
  makes a converged resource drift (`RetrySweep.OtherSyncDrifts`, `RetrySweep.OtherCopyDrifts`,
  `RetrySweep.NeverDriftsIff`).
* A resource created anew under an old name is skipped by every sweep when the old one failed at the same generation
  number, although its own content is sound (`RetrySweep.RecreatedIsSkipped`, `RetrySweep.SoundIsDrivenIff`).
* A new class or config whose own event finds the queue full is not retried
  (`DerivedStatus.DroppedEventIsNotRetried`, `DerivedStatus.QuietIff`).
* A target that names no class, workload or namespace is deleted under another key than it was created under, and so
  is one whose fields only Python or only Go trims (`PolicyKey.KeysAgreeIff`). The resource schema admits no such
  target, so the mismatch needs a resource that bypassed it (`PolicyKey.AdmittedKeysAgree`).

The comments in webhook/controller.go:1092-1103 say that create and delete derive the key by the same precedence; the
code trims before testing for emptiness on one side and after it on the other. The model follows the code.

## Model

| member | source | states |
|---|---|---|
| RevocationSafety.NoRevocationLost | norviq/api/session_revocation.py:286-333 | over every run: each unexpired key of every running process's mirror is in Postgres, in that process's queue or in flight in every state, if and only if every request cancelled inside its Redis write had its keys secured elsewhere |
| RevocationSafety.CancelExactly | norviq/api/session_revocation.py:307-333 | one cancellation inside the Redis write keeps the invariant exactly when another row, queue entry or request secures each of its keys |
| RevocationSafety.CancelledLogoutIsLost | norviq/api/session_revocation.py:307-333 | from any state of a serving process, a logout of a new key cancelled inside its Redis write breaks the invariant |
| RevocationSafety.StepDurable | norviq/api/session_revocation.py:260-333 | every other step keeps the invariant: failed, timed-out and cancelled Postgres writes, flushes, imports, pruning, commits, wipes, crashes |
| RevocationSafety.RunSound | norviq/api/session_revocation.py:260-304 | in every state of every run the insert a caller waits for is the one that holds its keys, and a committed insert's live keys have rows |
| RevocationSafety.IncrementalEqualsFull | norviq/api/session_revocation.py:390-420 | with every commit harmless, merging an incremental pull gives the same live keys as merging the whole table, in every state of every run |
| RevocationSafety.CommitExactly | norviq/api/session_revocation.py:390-420 | one commit leaves every process caught up if and only if each live key it gives a row is past what the process will skip, or held by its mirror or its unmerged rows |
| RevocationSafety.RunCaughtUpIff | norviq/api/session_revocation.py:390-420 | over every run: no process ever skips a live row it does not hold if and only if every commit is harmless in that sense |
| RevocationSafety.TimelyIsHarmless | norviq/api/session_revocation.py:156-160 | a run whose inserts all commit strictly inside the overlap window has only harmless commits, whatever the processes are doing |
| RevocationSafety.PullLoadsEveryRow | norviq/api/session_revocation.py:390-420 | with every commit harmless, after a merge the process refuses every unexpired key that had a row when the pull read the table, for any interleaving in between |
| RevocationSafety.CommitOnTheEdgeIsMissed | norviq/api/session_revocation.py:156-160 | an insert committing exactly one overlap window after its stamp is never selected again by a process that has just moved its watermark |
| RevocationSafety.EdgeIsReached | norviq/api/session_revocation.py:390-420 | from every start of the system and for every unexpired key without a row, a run of two processes that ends in such a commit |
| RevocationSafety.HeldUntilExpiry | norviq/api/session_revocation.py:336-346 | a key once in a mirror is refused there at every later time before its expiry while the process is up, whatever the other steps |
| RevocationSafety.ServingRefusesEveryLoadedRow | norviq/api/session_revocation.py:500-537 | a restarted process that serves has read the table since its start and refuses every unexpired key that had a row at that read, however late inserts commit |
| RevocationSafety.CommittedStays | norviq/api/audit_retention.py:185-194 | a committed row outlives its token, because the pruner waits for expiry plus its margin |
| RevocationSafety.PassPutsQueueBack | norviq/api/session_revocation.py:443-537 | once a loaded process completes a pass in which Redis answered and was not wiped after the rewrite, each unexpired key its queue held at the start is in Redis or in Postgres, whoever reseeded Redis or set the marker meanwhile |
| RevocationProcess.PruneStore | norviq/api/session_revocation.py:210-215 | exactly the expired entries are dropped and the others keep their expiry |
| RevocationProcess.ApiProcess.PruneMirror | norviq/api/session_revocation.py:218-220 | the mirror keeps exactly its unexpired keys |
| RevocationProcess.ApiProcess.PruneQueue | norviq/api/session_revocation.py:423-433 | the queue keeps exactly its unexpired keys |
| RevocationProcess.MergeRows | norviq/api/session_revocation.py:413-418 | the merged dictionary holds the old keys and the rows' keys, and the count is zero exactly when nothing changed |
| RevocationProcess.ApiProcess.MarkRevoked | norviq/api/session_revocation.py:307-319 | the mirror gains exactly the logout's keys |
| RevocationProcess.ApiProcess.Enqueue | norviq/api/session_revocation.py:286-296 | the queue gains exactly the keys, before anything is awaited |
| RevocationProcess.ApiProcess.Dequeue | norviq/api/session_revocation.py:296-304 | the queue loses exactly the keys that were persisted |
| RevocationProcess.ApiProcess.MergePull | norviq/api/session_revocation.py:413-420 | mirror and watermark after a pull, as the merge step of the protocol has them |
| RevocationProcess.ApiProcess.ImportHeld | norviq/api/session_revocation.py:473-485 | exactly the digests Redis holds and the mirror does not are taken into mirror and queue, as the scan step has it |
| RevocationProcess.ApiProcess.IsRevoked | norviq/api/session_revocation.py:336-387 | the answer and the outage clock after one check, in every branch |
| RevocationProcess.AcceptedOnlyWithinGrace | norviq/api/session_revocation.py:336-387 | over any sequence of checks, a token the mirror does not hold is accepted on a failed read only within the grace period of the first failure since the last good read |
| RevocationProcess.HitsNeverMoveTheClock | norviq/api/session_revocation.py:336-346 | deleting every mirror hit from a sequence of checks leaves the outage clock as it was |
| TokenKey.PreimageNamesTheSegments | norviq/api/session_revocation.py:186-201 | two tokens with equally many segments feed the hash the same bytes if and only if their segments are equal |
| Pods.ApplyAt | webhook/injector.go:211-272 | operations addressed to one container change that container as computed and nothing else |
| Pods.ApplyEach | webhook/injector.go:211-239 | operations emitted container by container change every container of a list in one pass |
| Webhook.EnvValue | webhook/handler.go:541-549 | the last occurrence of a variable decides |
| Webhook.ParseNames | webhook/mcp_injector.go:72-98 | the annotated names, trimmed, without blanks and repeats, in order |
| Webhook.CheckFullyInjected | webhook/handler.go:440-479 | the loops decide exactly the recogniser's predicate |
| Webhook.CountSidecars | webhook/handler.go:446-463 | every container is a trusted sidecar or wired, and at least one is a trusted sidecar |
| Injector.MoveCredentials | webhook/sidecar_secret.go:244-302 | the rewritten environment: moved names dropped, references appended, everything else in order |
| Injector.ResolveTargets | webhook/mcp_injector.go:100-159 | the targets of the annotated names, or the first configuration error |
| Injector.CreatePatch | webhook/injector.go:95-138 | the operations in the order the builder emits them, or its error |
| Injector.MountPatches | webhook/injector.go:211-239 | the mount operations of every container, by what it already has |
| Injector.EnvPatches | webhook/injector.go:241-272 | the environment operations of every container, by what it already has |
| Injector.McpPatches | webhook/mcp_injector.go:217-249 | the wrapping operations of every target |
| InjectedPod.PatchApplies | webhook/injector.go:95-272 | every operation of the patch finds its target when its turn comes, although an init container is prepended, and together they give the closed form of the injected pod |
| InjectedPod.OriginalsAreKept | webhook/injector.go:182-190 | every container of the pod keeps its order, name, image, and its mounts and environment as a prefix; a wrapped argv is the proxy's followed by the old command and the old args |
| Readmission.NoLiteralCredential | webhook/sidecar_secret.go:189-302 | no credential that was moved into the Secret stays in the environment as a literal |
| Readmission.SidecarIsTrusted | webhook/handler.go:561-591 | the sidecar the builder makes passes the recogniser's routing test in both modes, with and without the TLS upgrade and the Secret |
| Readmission.McpRecognised | webhook/mcp_injector.go:388-409 | the injected pod's MCP half is recognised if and only if the MCP condition holds |
| Readmission.AdmissionIsIdempotent | webhook/handler.go:347-505 | for every pod classified for injection and every configuration with a patch: the patch applies, and the result is classified "skip" if and only if the pod is recognisable, else "deny"; never "inject" again |
| Readmission.InjectedIff | webhook/handler.go:347-505 | for every pod and configuration: the pod is classified for injection and gets a patch if and only if it carries nothing of the enforcement plumbing, the sidecar image is allowed and the annotation resolves |
| Readmission.OrdinaryPodIsInjectedOnce | webhook/handler.go:347-360 | a pod without mounts, environment, volumes, MCP annotation and lookalike images is injected and then skipped, under every configuration with an allowed sidecar image |
| Readmission.LookalikePodIsDenied | webhook/handler.go:404-432 | such a pod, annotated or not, with a container that overrides an image of the sidecar's name is injected and then denied |
| Readmission.ServerPodIsInjectedOnce | webhook/mcp_injector.go:388-409 | a pod that names one of its containers as its MCP server is injected with that container wrapped, and then skipped |
| Readmission.OneServerIsServerPod | webhook/mcp_injector.go:72-159 | for every configuration and every free name there is such a pod, with the server among the application or the init containers |
| Readmission.ServerNamedLikeSidecar | webhook/mcp_injector.go:186-206 | one of them is the pod whose only container is an init container called like the sidecar |
| Readmission.NamelessProxyIsDenied | webhook/mcp_injector.go:511-550 | with a proxy image reference that has no name every such pod is injected and then denied |
| Readmission.HiddenPayloadIsDenied | webhook/mcp_injector.go:511-550 | with a proxy payload at or below the socket directory every such pod is injected and then denied |
| Readmission.ServerNamedLikeSidecarIsDenied | webhook/mcp_injector.go:186-206 | a pod whose MCP server is an init container called like the sidecar is injected and then denied, because its name leads to the sidecar afterwards |
| RuleBody.IsOneBody | norviq/api/baseline.py:393-424 | the character loop decides the scanner's predicate |
| RuleBody.OneBodyIffBody | norviq/api/baseline.py:393-424 | the scanner accepts a guard if and only if a body of the grammar (plain characters, quoted and raw strings, balanced braces) prints it |
| ControlText.CollectHeads | norviq/api/baseline.py:375-390 | the line loop gives every head in file order, or the error at the first unreadable line |
| ControlText.HeadsAreWellFormed | norviq/api/baseline.py:375-424 | every head read from any chart has what its printed form needs to be read back |
| ControlText.PrintedIsRead | norviq/api/baseline.py:632 | a printed head is read back as itself |
| ControlRoundTrip.ReadableIffWellFormed | norviq/api/baseline.py:375-424 | the heads that some chart registers are exactly the well-formed ones |
| ControlText.RegionIsReplaced | norviq/api/baseline.py:365-372 | lines put between the markers become the region of the new text and the text around them stays |
| ControlText.RegionIsLost | norviq/api/baseline.py:365-372 | with the markers the wrong way round the new text has an empty region |
| IdOrder.SortIds | norviq/api/baseline.py:634 | the off ids in Python's string order, whatever the order they come in |
| ControlCompiler.Distribute | norviq/api/baseline.py:608-632 | every head goes to the set its effect sends it to, in file order, unless a control has no effect |
| ControlCompiler.RenderModule | norviq/api/baseline.py:602-646 | the compiled module or the error, as specified |
| ControlCompiler.ReadEffects | norviq/api/baseline.py:668-684 | the effects of exactly the chart's controls, or nothing when the module says nothing about one of them |
| ControlCompiler.ReadModule | norviq/api/baseline.py:649-684 | reading a module back, with its errors |
| ControlCompiler.CheckCovers | norviq/api/baseline.py:687-716 | the comparison decides the `covers` predicate |
| ControlRoundTrip.RenderedRegion | norviq/api/baseline.py:602-646 | the compiled text splits into the chart's own surroundings and the lines the compiler wrote |
| ControlRoundTrip.EffectsRoundTrip | norviq/api/baseline.py:602-684 | for every chart and every total effects map, reading the compiled module back gives that map if and only if the chart's markers are in order |
| ControlRoundTrip.ReversedChartIsNotReadBack | norviq/api/baseline.py:365-372 | a chart with reversed markers compiles, and its compilation reads as one without a record |
| ControlRoundTrip.ChartHeads | norviq/api/baseline.py:365-390 | a chart with at least one control has its markers in order |
| ControlRoundTrip.CoversIffCompiled | norviq/api/baseline.py:687-716 | a module covers a chart if and only if the chart has a control and the module is the chart's compilation for some total effects |
| ControlMeaning.CompilingPreservesMeaning | norviq/api/baseline.py:602-646 | for every truth assignment to the guards: off fires nothing, monitor audits exactly when some head fires, deny keeps escalates and sends blocks and audits to blocks, and nothing else fires |
| ControlMeaning.OutsideIsKept | norviq/api/baseline.py:582-646 | the text outside the region is unchanged |
| ControlMeaning.EverySetIsDefined | norviq/api/baseline.py:638-645 | every set has a rule line in the compiled region, whatever the effects |
| ControlMeaning.DefaultsKeepMeaning | norviq/api/baseline.py:450-480 | at the shipped defaults the fired sets equal the chart's for every truth assignment if and only if no control mixes audit and enforcing heads |
| ControlMeaning.MixedDiffers | norviq/api/baseline.py:625-632 | a control with an audit head beside an enforcing one stops auditing at its shipped default, under the assignment that makes only the audit head's guard true |
| ControlMeaning.NormalizeEffects | norviq/api/baseline.py:499-520 | accepted if and only if every setting names a control and an effect; then exactly the chart's controls, each as set or at its default |
| ControlMeaning.SavedControlsCover | norviq/api/baseline.py:687-716 | whatever is saved for a chart with controls covers that chart |
| FleetPuller.ParseIffNoColon | norviq/fleet_puller.py:142-146 | a key's text is parsed back to the key if and only if its namespace holds no colon |
| FleetPuller.Puller.PullOnce | norviq/fleet_puller.py:89-160 | store, version and manifest after a pull that is refused, breaks after any number of operations, cannot persist, or succeeds |
| FleetRuns.NoGap | norviq/fleet_puller.py:136-148 | a policy of the new bundle that was in force before is in force after every number of operations |
| FleetRuns.OnlyRetractedAreRemoved | norviq/fleet_puller.py:143-148 | a removed key was in the last manifest, is not in the new one and is not reserved |
| FleetRuns.ReservedIsUntouched | norviq/fleet_puller.py:119-148 | a reserved key keeps its presence and its policy after every number of operations |
| FleetRuns.ClusterScopesAreUntouched | norviq/fleet/bundle.py:32-34 | the same for the scopes the source reserves |
| FleetRuns.WholeApplyInstalls | norviq/fleet_puller.py:136-148 | after a whole apply every policy of the bundle is in force with its own rego |
| FleetRuns.TrackedIff | norviq/fleet_puller.py:130-174 | for any bundle: after an attempt every owned key is in the manifest or the attempted bundle, if and only if a success listed or could take away every owned key, or a failure held every owned key that no manifest lists |
| FleetRuns.SuccessOwnsExactlyIff | norviq/fleet_puller.py:130-174 | after a success the owned keys are the bundle's non-reserved keys, if and only if every other key owned before was listed, is retracted and parses back from its text |
| FleetRuns.PlainCarries | norviq/fleet_puller.py:130-174 | with no colon in any namespace both conditions say that the bundle holds every owned key no manifest lists |
| FleetRuns.ColonKeyStays | norviq/fleet_puller.py:142-148 | an owned key whose namespace holds a colon outlives every attempt |
| FleetRuns.RunTrackedIff | norviq/fleet_puller.py:130-174 | over every run with any bundles: everything owned is always tracked if and only if every attempt carries what earlier attempts left |
| FleetRuns.AbandonedStays | norviq/fleet_puller.py:150-155 | an owned key that no manifest lists, that the bundle lists again, or whose text does not parse back, outlives the attempt |
| FleetRuns.OneBundleIsNotEnough | norviq/fleet_puller.py:150-155 | an attempt that fails before its first write hides what the one before it left, so carrying it once is not enough |
| FleetRuns.VersionsRise | norviq/fleet_puller.py:115-158 | persisted versions never fall, and rise with every persisted pull |
| RetrySweep.Controller.HandlePolicy | webhook/controller.go:568-623 | the two records keep agreeing with the step system under the handler step of their own resource; a copy being deleted changes nothing, and no other resource is touched |
| RetrySweep.Controller.SyncSucceeded | webhook/controller.go:420-436 | the two records keep agreeing with the step system under the two steps of a finishing sync, and no other resource is touched |
| RetrySweep.Controller.Sweep | webhook/controller.go:485-536 | exactly the resources that drive are handled, decided on the records as they were, and only their own failures are recorded |
| RetrySweep.FailureIsNotRetried | webhook/controller.go:544-566 | a generation that failed deterministically, with no sync in flight and no older copy waiting for the handler, is never driven again while it stays and is not Active, whatever the informer, the handler and the sweeps do |
| RetrySweep.NeverRetriedIff | webhook/controller.go:485-536 | from every state with the cached generation on record as failed: no continuation drives it while it stays, if and only if it is being deleted, or no sync is in flight that can still wipe the record and no copy waits whose handling would overwrite it or start a sync |
| RetrySweep.LateSyncReopens | webhook/controller.go:420-436 | a sync in flight that succeeds wipes the record, and the next sweep drives the failed generation |
| RetrySweep.OlderHandlerReopens | webhook/controller.go:568-623 | the handler coming to an older copy brings the failed generation back to the sweep, at once or when the sync it starts succeeds |
| RetrySweep.SoundIsDrivenIff | webhook/controller.go:485-557 | in every state of every run: a sound resource that is neither Active nor latched nor being deleted is driven by the sweep, if and only if no earlier resource of its name has a failure of the same generation number on record |
| RetrySweep.RecreatedIsSkipped | webhook/controller.go:538-557 | a run in which a resource created anew is skipped after its first sync failed, and no continuation drives it while it is not Active |
| RetrySweep.AppliedRecordIff | webhook/controller.go:420-457 | over every run: a fingerprint is on record as applied if and only if a sync stamped it and no other content was stamped since, whatever became of the annotation |
| RetrySweep.SyncedIsNotDrift | webhook/controller.go:462-512 | after a sync stamped the desired content no sweep drives the resource as drift until other content is stamped or the desired content changes |
| RetrySweep.NeverDriftsIff | webhook/controller.go:462-512 | from every state in which the desired content is on record as applied: no continuation drives it as drift while its generation stays, even if every annotation write fails, if and only if it is being deleted, or no sync of other content is in flight and no copy with other content waits for the handler |
| RetrySweep.OtherSyncDrifts | webhook/controller.go:420-457 | a sync of other content in flight has a continuation that ends in drift |
| RetrySweep.OtherCopyDrifts | webhook/controller.go:568-646 | and so has a copy with other content that waits for the handler |
| RetrySweep.OlderSyncReopens | webhook/controller.go:632-646 | a run from the start of a process in which a failed generation is driven again although it has not changed |
| DerivedStatus.StatusQueues.RefreshIfStale | webhook/controller.go:375-413 | run alone: what fits is queued in order and the flag is armed again exactly when something did not fit |
| DerivedStatus.NoChangeLost | webhook/controller.go:375-413 | over every run and interleaving: for every handled policy change and every object in the store from then on, or queued since it appeared, the flag is set, or a refresh that covers the change is under way, or an update queued after it is waiting, in work or worked off; and a written status reflects the change |
| DerivedStatus.QuietIff | webhook/controller.go:375-413 | with the flag off and no refresh under way, an object was queued since the latest change if and only if it was in the store from that change on or some offer since it appeared found room |
| DerivedStatus.QueuedIffTaken | webhook/controller.go:375-413 | over every run: an object counts as queued if and only if its queue took it, from its own event or from a refresh, since it last appeared |
| DerivedStatus.StatusNeverGoesBack | webhook/controller.go:674-777 | a status is never overwritten with an older count |
| DerivedStatus.DroppedEventIsNotRetried | webhook/controller.go:662-672 | a new object whose event finds the queue full stays unqueued and ticks do nothing for it |
| PolicyKey.KeysAgreeIff | webhook/controller.go:993-1190 | for every resource, whatever its target holds, the namespace of the create and delete keys is the same, and the scopes agree if and only if the target keys itself in text both languages trim alike, or its blank name stands behind a kind that spells the namespace key |
| PolicyKey.EmptyTargetIsMissed | webhook/controller.go:1010-1022 | a target that names nothing is stored under its namespace and deleted under its name |
| PolicyKey.AdmittedKeysAgree | helm/norviq/crds/norviq.io_nrvqpolicies.yaml:40-76 | every resource the schema admits is stored and deleted under the same key: its class, its deployment or its namespace as written, or the baseline |
| PolicyKey.WorkloadAgrees | webhook/controller.go:1121-1125 | with a whole workload in the target, agreement exactly when kind and name are clean or collide with the namespace key in that way |
| PolicyKey.NamespaceAgrees | norviq/api/routers/policies.py:952-967 | without one, agreement exactly when the target's own namespace is clean |
| IdentityBinding.ScopeIdentity | norviq/api/auth.py:433-561 | the identity dictionary after the field-by-field edits, or the refusal |
| IdentityBinding.BindCaller | norviq/api/auth.py:564-580 | the bound identity or the first refusal; an accepted caller that is no admin carries every claim of its credential, whatever the body says |
| IdentityBinding.AttestedIffSvid | norviq/engine/identity.py:74-82 | a namespace is attested if and only if the id is the four-segment SVID of the trust domain naming it |
| IdentityBinding.BoundServiceIsFixed | norviq/api/auth.py:271-580 | any two accepted bodies of a service credential with an agent class and a parseable SPIFFE id give the same namespace, class, SPIFFE id and workload |
| IdentityBinding.DeterminedIff | norviq/api/auth.py:271-580 | for every credential: all accepted bodies are evaluated alike if and only if the credential pins all four fields or is refused with every body |
| IdentityBinding.UnpinnedChooses | norviq/api/auth.py:271-580 | a credential that is accepted and does not pin all four fields can be evaluated in two ways by two bodies |
| IdentityBinding.BindIsIdempotent | norviq/api/auth.py:271-580 | for every credential, binding a bound identity is accepted and changes nothing |
| Marker.CheckMarker | scripts/check_fossa_requirements.py:66-98 | the mutually recursive index loops decide the recogniser's predicate and terminate |
| Marker.MatchTerm | scripts/check_fossa_requirements.py:42-57 | scanning at an index accepts the pattern for a term and ends where the text behind it starts |
| Marker.MatchJoin | scripts/check_fossa_requirements.py:58-59 | the same for the two joining words with their blanks |
| Marker.AcceptsExactlyMarkers | scripts/check_fossa_requirements.py:66-98 | for any names and operators of the right shape, a text is accepted if and only if a derivation tree of the grammar prints it |
| Marker.CheckAcceptsExactlyMarkers | scripts/check_fossa_requirements.py:42-59 | the same for the environment names and operators the check lists |

## Left out

- The expiry of a revocation key is part of the key, so the one-second rounding of a Redis TTL is not modelled.
- All processes and Redis share one clock; Postgres has its own.
- SHA-256, HMAC, JWT, X.509, signature checks and base64 are opaque or left out; only the byte layout under the token hash is modelled.
- Shutdown (`close`) and task plumbing of the revocation loop: every await is a step that may fail.
- Pod fields the patch and the recogniser do not look at (resources, probes, security contexts, ports) are not part of a pod.
- A Secret write is one outcome per patch; the error it leaves behind for the next patch is not kept.
- `norviq/api/baseline.py` reads its chart from a file; here the text is a parameter, and copy, reasons and descriptions of controls are left out.
- Rego guards are opaque texts with a truth value each; the resolver of a preset is left out.
- Bundle verification and the time window are one boolean; a manifest is kept in bundle order, because no property depends on its sorting.
- The policy loader is a map; what happens inside one create or delete is one operation.
- Kubernetes informers, finalizers and status writes are steps that may fail; a copy the informer takes is arbitrary except that within one resource generations do not fall and a deletion is not taken back. Deliveries reach the handler in order.
- A sweep lists, decides on and handles one resource in one step, so the copy it listed does not age in between.
- A rego fingerprint is the rego itself, so hash collisions are left out.
- Lower-casing is modelled for ASCII; white space is modelled as each language defines it.
- Claims and body fields that are not strings are left out of identity binding.
- The requirement pattern around a marker, the file discovery rule and the report of the requirements check would add only easy members.
- The evaluator, the policy cache, egress and MCP registries, SIEM export, red-team scoring and the CLI would add only easy members or rest on libraries.
