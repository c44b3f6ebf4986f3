# Lean CD: a verified model of the controller core

Lean CD keeps a Kubernetes cluster in line with a Git repository. Its API calls are thin; the logic
between them is not. This project models that logic and proves what it keeps. The Kubernetes API is an
abstract server: every call is one atomic step that may fail, and a failed call may still have taken effect.

The modules follow the program:

- `Json`, `Text`, `Wrappers`, `Kube`: values, string reading and identities used everywhere.
- `SpecSubset`, `SubsetOrder`, `ServerEdits`, `Quiescence`: the drift relation on JSON values, its order
  theory, what a server may make of a value, and when an applied manifest then drifts.
- `Manifest`, `Hooks`: from parsed documents to the main resources and the hooks of each phase.
- `Watch`, `Drift`: the event-driven store, and the cached drift check that must agree with the listed one.
- `Lease`, `LeaseProtocol`, `LeaseScenarios`, `LeaseClient`, `HolderIdentity`: the reconcile Lease, as a
  protocol over any number of processes and as the calls one process makes.
- `Cluster`, `HookRunner`, `Sync`, `Prune`, `Reconcile`: one pass, step by step, against live objects and
  the persisted state.
- `Ordering`, `Passes`, `Orphans`, `Settled`: what holds of the calls of every pass, of every sequence of
  passes, of the objects Git has dropped, and of the passes after a clean apply.
- `Backoff`, `Health`: retry delays and the health summary.

## What a reader should know before the table

Some properties one would expect of the program do not hold of the code. The model keeps the code, and the
project proves when the property holds:

- An apply followed by a check is not always quiet. A just-applied manifest is reported exactly when it
  leaves its namespace to the default, the served object lacks the managed-by label, its own `spec` is a
  zero value that the server leaves out, it has no `spec` and sets the managed-by label to another value, or
  a zero-valued member of what is compared is back with another content (`Settled.VerdictAfterApplyIff`).
  The last happens to a null timestamp and to zero replicas that a default replaces
  (`Quiescence.NullTimestampDrifts`, `Quiescence.ZeroReplicasDrift`). `Settled.NeverReportedIff` gives the
  condition on the manifest alone. It ranges over servers that may fill in anything, so it also rules out
  zero-valued members that a particular server would never touch.
- Prune can delete what Git declares, because keys carry a version and a literal namespace and API requests
  do not. `Prune.DeclaredPrunedIff` gives the condition on the keys. Two families meet it: a namespaced
  manifest without a namespace, and a manifest moved to another version of its kind. Keys that differ only
  in version within one set are thus not the only danger; a version change between two passes is one too.
- An orphan is recovered only while its kind stays in Git. The prune comment says that an orphan dropped
  from state is still recovered; once its kind has left the stored keys it never is (`Orphans.OrphanForgotten`).
- The lease results assume that no two processes have the same holder identity. Identities differ
  when process ids do, or non-empty bases of at most 52 bytes; longer bases that agree in the characters
  kept, or an empty base and `leancd`, do not tell processes apart (`HolderIdentity.HoldersDistinctIff`).
- The Lease excludes other processes only while no live guard lets it grow stale
  (`LeaseScenarios.OverrunBreaksExclusion`). Even then a delete that outlives its sender can take another
  process's lease (`LeaseScenarios.StrayDeleteBreaksExclusion`), and that is the only thing that can
  (`LeaseProtocol.ExclusionIff`).
- A renewal can succeed after the lease was lost, exactly when a create of a given-up attempt has put the
  old identity back (`LeaseProtocol.AcceptedDisturbedIff`, `LeaseScenarios.LeftoverCreateHidesLoss`).
- `spec_subset` is not transitive (`SubsetOrder.SubsetNotTransitive`), and the backoff stops doubling after
  32 failures while the cap is far (`Backoff.DelayDoublesIff`).
- The health of a resource is that of its own kind's object in every order of the lists exactly when no
  object of another listed kind has its name and namespace (`Health.OwnMatchIff`).

## Model

| member | source | states |
|---|---|---|
| SpecSubset.SubsetIffLeafSpec | src/drift.rs:395-427 | the comparison holds iff every scalar or empty container in Git is matched at its path in live, or is a zero value reached through a member whose key the live parent lacks |
| SpecSubset.SpecsDifferLeafIff | src/drift.rs:353-386 | two objects differ iff a leaf that Git declares is neither repeated nor left out as a zero: below `spec` if both have one, always if only Git has one, and otherwise anywhere but below `apiVersion`, `kind` and `stringData` |
| SpecSubset.SpecsDifferOtherwise | src/drift.rs:353-386 | an object and another value always differ, and two other values differ iff a leaf does |
| SubsetOrder.SubsetReflexive | src/drift.rs:404-427 | every value satisfies itself |
| SubsetOrder.SubsetTransitiveIff | src/drift.rs:404-427 | given two steps, the composed comparison holds iff no leaf elided in the first step reappears in the last value with another value |
| SubsetOrder.SubsetTransitiveWithoutZeros | src/drift.rs:404-427 | transitivity when the first value has no zero-valued member |
| SubsetOrder.SubsetNotTransitive | src/drift.rs:404-427 | `replicas: 0`, nothing, `replicas: 1` is a counterexample to transitivity |
| ServerEdits.EditedIff | src/drift.rs:386-402 | the values reachable by additions and omissions of zero members, in any number and order, are exactly those that keep everything but the zero-valued members |
| ServerEdits.EditedSubsetIff | src/drift.rs:404-427 | the comparison rejects a value so reached iff a zero-valued member is back with another content |
| ServerEdits.ZeroFreeIff | src/drift.rs:404-427 | every value so reached is accepted iff no object in the declared value has a zero-valued member |
| ServerEdits.AddsThenDropsIsSubset | src/drift.rs:404-427 | a server that omits only after its last addition never breaks the comparison |
| Quiescence.DriftAfterApplyIff | src/drift.rs:353-371 | after label injection, apply and any such edits the check reports a difference iff a zero `spec` was left out, the manifest fixes the label otherwise, or a zero-valued member of what is compared is back with another content |
| Quiescence.ZeroSpecMayBeOmitted | src/drift.rs:353-371 | for every manifest with a zero-valued `spec` the server has an answer that leaves it out, and then the check reports drift |
| Quiescence.ZeroMemberMayBeRefilled | src/drift.rs:353-371 | for every manifest with a zero-valued member in what is compared the server has an answer that fills it in, and then the check reports drift |
| Quiescence.NullTimestampDrifts | src/kube_util.rs:98-100 | a ConfigMap with `creationTimestamp: null` drifts once the server has set its own timestamp |
| Quiescence.ZeroReplicasDrift | src/drift.rs:404-427 | a Deployment with `replicas: 0` drifts once the server has defaulted it to one |
| Manifest.SplitApiVersionJoins | src/manifest.rs:77-82 | splitting loses nothing, and the group has no slash |
| Manifest.ManifestIff | src/manifest.rs:88-133 | which documents are manifests, and that the manifest carries their identity and exactly their string annotations |
| Manifest.ExpandValue | src/manifest.rs:155-170 | appends exactly the flattening of the document to what was collected before |
| Manifest.ParseDocuments | src/manifest.rs:144-150 | the flattenings of all documents in order |
| Manifest.FlattenedAllSplits | src/manifest.rs:144-150 | documents that come first give their manifests first |
| Manifest.FlattenedAllOfOne | src/manifest.rs:144-150 | one document gives its own manifests |
| Manifest.DocPathsExact | src/manifest.rs:155-170 | the positions visited are exactly those of documents that are not lists, at any nesting |
| Manifest.FlattenedInDocumentOrder | src/manifest.rs:155-170 | the flattening lists the manifests at those positions, each once, in document order |
| Manifest.FlattenedIff | src/manifest.rs:155-170 | a document of kind `List` gives what its items give, in order, and any other its own manifest if it is one |
| Hooks.HookPhases | src/hooks.rs:106-121 | each phase that some token names, up to blanks and case, once, and no other |
| Hooks.DeletePoliciesMeaning | src/hooks.rs:172-192 | exactly the policies that some token names, or only the default when none is named |
| Hooks.HookWeightIff | src/hooks.rs:163-167 | the weight that the trimmed annotation denotes, or zero if it denotes none |
| Text.TrimIff | src/hooks.rs:106-121 | trimming takes off all blanks at both ends and nothing else |
| Text.WhitespaceIff | src/hooks.rs:106-121 | which characters are blanks: those with the Unicode property White_Space |
| Text.SplitOnJoins | src/hooks.rs:106-121 | no piece of a split annotation holds the separator, and the pieces joined again give the annotation |
| Text.ParseI64Iff | src/hooks.rs:163-167 | a text is read as a weight exactly when it is an optional sign, zeros and the decimal form of a number in the 64-bit range, and then as that number |
| Hooks.Classify | src/hooks.rs:126-159 | main and the phase buckets hold the non-hooks and each phase's hooks, in order |
| Hooks.ClassifyConserves | src/hooks.rs:126-159 | every manifest lands once in main iff it is no hook, else once in each phase it names, and nothing is lost or invented |
| Hooks.ClassifySplits | src/hooks.rs:126-159 | manifests that come first land first, in every bucket |
| Hooks.SortIsStableSort | src/hooks.rs:196-202 | sorted by weight and name, a permutation, and stable |
| Hooks.SortAscends | src/hooks.rs:196-202 | of two sorted hooks the first has the smaller weight, or the same weight and a name that is a beginning of the other or smaller where they first differ |
| Hooks.StableSortUnique | src/hooks.rs:196-202 | any stable sort of the same hooks gives the same order |
| Hooks.WaitForCompletion | src/hooks.rs:378-441 | never ends Running, ends at the first terminal poll or the first one past the timeout, and polls at most ceil(timeout / 2 s) + 1 times |
| Hooks.PollOutcomeIff | src/hooks.rs:213-244 | a poll of a Job or Pod is a success iff its first deciding condition or its phase says so, and a failure iff that says so or the object is gone |
| HookRunner.CompletionIff | src/hooks.rs:378-441 | an applied hook succeeds iff its kind is not waited for or its first deciding poll in time shows success, and fails iff it is waited for and that poll shows failure or there is none |
| HookRunner.HookCalls | src/hooks.rs:298-373 | which calls a hook makes, in order: a deletion first and last exactly as its policies ask |
| HookRunner.RunOne | src/hooks.rs:298-373 | the exact calls for one hook, that nothing else is touched, and that without failed calls its object remains iff it did not vanish while waited for and no policy deletes it |
| HookRunner.RunPhase | src/hooks.rs:265-295 | the hooks started are a prefix of the sorted ones, all but the last were resolved, applied and succeeded, and there is no failure iff all of them were |
| Watch.RelistInvisible | src/watch.rs:152-194 | until a relist ends, readers see what they would have seen without it |
| Watch.RelistReplaces | src/watch.rs:152-194 | the end of a relist replaces the whole view by what it announced |
| Watch.LastEventWins | src/watch.rs:152-194 | between relists readers see of each object what the last event about it said |
| Watch.CacheState.SplitDecidesTier | src/watch.rs:198-211 | small iff live and within the limit, with its body; large iff live and beyond it; absent iff not live |
| Watch.LightweightStore.ApplyEvent | src/watch.rs:152-194 | the two tiers and their buffers stay the split of one plain map and one optional relist buffer, for every event |
| Watch.LightweightStore.ApplyEvents | src/watch.rs:152-194 | the same for every sequence of events, stray ones included |
| Watch.WatchSet.Rebuild | src/watch.rs:282-372 | kept kinds keep their driver and store, new ones start empty, no wanted kind is dropped, no unwanted one stays, and a rebuild to the watched kinds changes nothing |
| Drift.ComputeDrifts | src/drift.rs:119-152 | one verdict per manifest, in order |
| Drift.ListedVerdictIff | src/drift.rs:119-152 | missing iff the list of its kind holds no object of its name and namespace, differing iff the first of those differs |
| Drift.VerdictsSplit | src/drift.rs:119-152 | the verdicts follow the order of the manifests |
| Drift.VerdictsOfOne | src/drift.rs:119-152 | one manifest gives its own verdict |
| Drift.MatchInMirror | src/drift.rs:332-340 | with distinct named objects, matching is lookup by name and namespace |
| Drift.DriftFromCache | src/drift.rs:161-233 | direct verdicts for small and absent objects, and exactly the manifests of large ones deferred by kind |
| Drift.DetectFromLw | src/drift.rs:268-329 | both passes together report the direct and the deferred verdicts |
| Drift.CachedDriftIsListedDrift | src/drift.rs:161-329 | for stores in sync with the cluster, the cached check reports the same multiset of items as the listed one |
| Drift.SizeIrrelevant | src/drift.rs:161-329 | the result does not depend on the size limit |
| Drift.DetectBothWays | src/drift.rs:268-329 | the same on the actual stores |
| Drift.FailedListHidesLarge | src/drift.rs:292-310 | a failed fallback list hides the drift of that kind's large objects and no other |
| Lease.StaleMonotone | src/lock.rs:143-164 | a stale lease stays stale |
| Lease.ReclaimableIff | src/lock.rs:143-164 | an abandoned lease becomes stale iff its seconds cut to 32 bits are positive, and then exactly from its last renewal plus its duration on |
| LeaseProtocol.VersionInvStep | src/lock.rs:208-340 | every step keeps: versions held are older than the next one, a renewal's version is its holder's own while current, and a request older than a grant names an older version |
| LeaseProtocol.VersionNamesOneWrite | src/lock.rs:223-235 | whenever in a run a version is current, the lease is the same |
| LeaseProtocol.FreshInvStep | src/lock.rs:208-340 | a timely step keeps that every fresh process in session holds the stored lease and that replaces rest on staleness, unless a stray delete lands |
| LeaseProtocol.Exclusion | src/lock.rs:67-77 | for any number of processes and any interleaving, if no live guard's lease grows stale and no delete of a given-up release takes a fresh lease, at most one guard is live and the stored lease is its own |
| LeaseProtocol.ExclusionIff | src/lock.rs:67-77 | in a timely run the fresh sessions exclude each other throughout iff no such delete lands |
| LeaseProtocol.AcceptedDisturbedIff | src/lock.rs:307-340 | when a renewal returns true, the lease was written by another process or deleted during the session iff a leftover create of this process landed in it |
| LeaseProtocol.AcceptedRenewalUndisturbed | src/lock.rs:307-340 | without such a landing a renewal returns true only if no other process wrote or deleted the lease since this guard acquired it |
| LeaseProtocol.LossIsPermanent | src/lock.rs:307-340 | after a disturbance no renewal of that session succeeds again, unless a leftover create lands |
| LeaseProtocol.LostRenewsOnlyByLeftover | src/lock.rs:307-340 | a renewal that succeeds after the lease was lost has a leftover create between the two |
| LeaseScenarios.UncontendedAttempt | src/lock.rs:208-252 | an undisturbed attempt acquires iff there is no lease or it is stale at the clock reading |
| LeaseScenarios.OverrunBreaksExclusion | src/lock.rs:72-72 | one overrun guard's release lets two others hold the lease at once |
| LeaseScenarios.StrayDeleteBreaksExclusion | src/lock.rs:72-72 | a release that outlives its sender lets two others hold the lease at once, every live guard being timely throughout |
| LeaseScenarios.LeftoverCreateHidesLoss | src/lock.rs:236-244 | a create of a given-up attempt that lands late makes a renewal succeed after a loss |
| LeaseClient.TryAcquire | src/lock.rs:208-252 | an acquired lease is the caller's own and replaced none or one stale at the time read before it, whatever others write in between; undisturbed the attempt succeeds iff there is no lease or a stale one, and otherwise finds it held |
| LeaseClient.LeaseGuard.Renew | src/lock.rs:307-340 | true only if the lease replaced was the holder's own, no answer only if a call failed, and undisturbed true iff the stored lease is the holder's own |
| LeaseClient.LeaseGuard.Release | src/lock.rs:67-77 | deletes whatever lease there is, once, and fails iff the call does |
| LeaseClient.WaitingBound | src/lock.rs:169-198 | a wait that is still in time has made at most ceil(timeout / 500 ms) attempts |
| LeaseClient.Acquire | src/lock.rs:169-198 | ends for every timeout, with at least one attempt unless stopped and at most ceil(timeout / 500 ms) + 1; undisturbed it acquires at the first attempt that finds no lease or a stale one, and is busy only if stopped at once or none did |
| HolderIdentity.TruncateCharBoundary | src/lock.rs:128-137 | the longest prefix of whole characters that fits |
| HolderIdentity.FittingIsLongest | src/lock.rs:128-137 | no longer prefix of whole characters fits |
| HolderIdentity.ScalarWidth | src/lock.rs:128-137 | how many bytes a character takes |
| HolderIdentity.MakeHolderIdentity | src/lock.rs:116-125 | the identity of the base and process id |
| HolderIdentity.IdentityFits | src/lock.rs:116-125 | at most 63 bytes for every base and 32-bit process id, cut on a character boundary and no earlier than needed |
| HolderIdentity.IdentityReads | src/lock.rs:116-125 | the kept base, or `leancd` without one, a colon and the decimal process id |
| HolderIdentity.IdentityEqualIff | src/lock.rs:116-125 | identities are equal iff the process ids and the kept characters are |
| HolderIdentity.IdentityInjective | src/lock.rs:116-125 | distinct for distinct non-empty bases of at most 52 bytes or distinct process ids |
| HolderIdentity.HoldersDistinctIff | src/lock.rs:116-125 | processes have distinct holders, as the lease protocol assumes, iff no two share process id and kept characters |
| HolderIdentity.DistinctProcesses | src/lock.rs:116-125 | they have for distinct pairs of a non-empty base of at most 52 bytes and a process id |
| Cluster.World.ListManaged | src/kube_util.rs:132-144 | exactly the labelled objects of the kind in all namespaces, each once |
| Cluster.World.Delete | src/kube_util.rs:156-167 | removes at most the addressed object; success means it was there and is gone |
| Cluster.World.Apply | src/kube_util.rs:89-116 | writes at most the addressed object; a dry run writes nothing |
| Cluster.PlainServerServes | src/kube_util.rs:89-116 | the servers considered include one that stores every manifest as it is |
| Cluster.World.WriteState | src/state.rs:104-111 | acknowledged writes have landed; others may have |
| Prune.SafetyNet | src/prune.rs:130-165 | the labelled objects of a kind that Git does not declare, all of them unless a failure is logged |
| Prune.CollectTargets | src/prune.rs:108-165 | every result is a target, and every target is a result unless its kind could not be listed |
| Prune.Prune | src/prune.rs:67-218 | deletes only doomed objects whatever fails, never one annotated to be kept or as a hook, leaves any other target only if a call that concerns it failed, and reports distinct deleted keys |
| Prune.QuietPruneIsComplete | src/prune.rs:102-218 | a prune in which no call fails leaves no doomed object |
| Prune.DoomedIff | src/prune.rs:67-218 | doomed iff not exempt and left behind by a key applied before, or labelled, of a kind applied before, and not spelled out in Git |
| Prune.PruneSpares | src/prune.rs:67-80 | kept objects, hooks, and objects neither applied before nor labelled are never deleted |
| Prune.DeclaredPrunedIff | src/prune.rs:84-165 | when the object of a declared key is deleted, as a condition on the keys alone |
| Prune.DeclaredAreSafe | src/prune.rs:84-165 | with spelled-out keys and one version per kind, never |
| Prune.DefaultedNamespaceIsPruned | src/prune.rs:155-165 | a manifest that leaves its namespace to the default is deleted by the next pass |
| Prune.VersionChangeIsPruned | src/prune.rs:84-90 | moving a manifest to another version deletes its object |
| Prune.OrphanDoomedIff | src/prune.rs:102-165 | an orphan is a target iff its kind was applied before |
| Orphans.CompletedPassOnOrphan | src/reconcile.rs:117-349 | what a completed pass does to an orphan, through its hooks, applies, prune and state write |
| Orphans.OrphanRecovered | src/prune.rs:102-218 | over completed, failed, skipped, dry-run and rollback passes, landed or not, an orphan whose kind stays in Git is a target of every pass that prunes, and gone for good after the first in which no call of prune that concerns it fails |
| Orphans.OrphanForgotten | src/prune.rs:102-218 | over the same runs an orphan whose kind has left the stored keys and Git is never deleted again |
| Orphans.KeptStays | src/prune.rs:67-80 | over the same runs the object of a document that asks to be kept stays as it is once the document has left Git |
| Sync.ApplyAll | src/reconcile.rs:421-497 | every manifest is attempted in order, failures are exactly the keys reported, only main objects change, and a clean apply leaves all of them served |
| Sync.ApplyTraceIff | src/reconcile.rs:421-497 | the calls are one apply for each manifest whose kind resolved, and nothing else |
| Sync.ApplyTraceInOrder | src/reconcile.rs:421-497 | if all kinds resolve, the applies follow the order of the manifests |
| Sync.FailedKeysIff | src/reconcile.rs:421-497 | the keys reported are those of the manifests whose kind did not resolve or whose apply failed |
| Sync.Detect | src/drift.rs:33-79 | the verdicts against the lists of the managed kinds that could be listed |
| Sync.SyncMain | src/reconcile.rs:232-265 | main resources are applied only after all PreSync hooks succeeded, PostSync hooks follow, and nothing follows a failed PreSync hook |
| Reconcile.DriftCheckIff | src/reconcile.rs:117-180 | a pass merely checks iff it follows the branch at exactly the persisted commit and is neither a dry run nor a teardown |
| Reconcile.RejectedInputStops | src/reconcile.rs:136-160 | if the checkout fails, a file cannot be read, or the path matches nothing and nothing was applied, the pass reports a problem and does nothing |
| Reconcile.PassBranchIff | src/reconcile.rs:160-303 | on other input the pass validates iff it is a dry run, tears down iff no main manifest is left and something was applied, and skips the apply only at the persisted commit without drift |
| Reconcile.WrittenState | src/reconcile.rs:338-349 | the commit, the saturating count of passes, the number of drifts, and the number and keys of the main manifests that a completed pass writes |
| Reconcile.WrittenError | src/reconcile.rs:338-349 | the error it writes: a failed PostSync or PostDelete hook |
| Reconcile.WrittenFailures | src/reconcile.rs:338-349 | the failed applies it writes |
| Reconcile.TeardownSteps | src/reconcile.rs:200-231 | PreDelete hooks, prune, PostDelete hooks, state write; nothing after a failed PreDelete hook |
| Reconcile.ApplySteps | src/reconcile.rs:232-349 | an applying pass with its prune and its state, and how each step changes the live objects |
| Reconcile.ReconcileInner | src/reconcile.rs:117-401 | every pass takes the branch its inputs call for, makes exactly that branch's calls, and changes the persisted state only by its last |
| Ordering.PassOrdered | src/reconcile.rs:200-349 | in every pass: gating hooks, main applies, PostSync hooks, prune, PostDelete hooks, state write |
| Ordering.PassSequence | src/reconcile.rs:200-349 | the same for any two calls of a pass |
| Ordering.GateHolds | src/reconcile.rs:200-249 | before any other call all PreSync (or PreDelete) hooks have been applied and have succeeded as their own polls show |
| Ordering.BadHookStops | src/hooks.rs:368-441 | a gating Job or Pod whose polls show failure, do not find it, or run past the timeout keeps the pass from every other call and is the error reported |
| Ordering.FailedGateStops | src/reconcile.rs:211-213 | after a failed gating hook no apply, no prune and no state write |
| Ordering.StateWriteLast | src/reconcile.rs:338-349 | the state is written at most once and last |
| Ordering.DryRunHarmless | src/reconcile.rs:182-193 | a dry run only makes dry-run applies and changes nothing |
| Passes.RecordError | src/reconcile.rs:83-90 | the stored state gets the error and one more pass, and keeps the rest, or stays as it was |
| Passes.RunOnce | src/reconcile.rs:57-115 | a skipped pass changes nothing, a failed one at most records its error after its own calls, one on rejected input only that, and a pass without problem has landed its state |
| Passes.DryRunOnce | src/reconcile.rs:79-81 | a dry run leaves objects and persisted state as they were, whether or not it gets the Lease |
| Passes.ProgressKept | src/reconcile.rs:57-115 | over completed, failed, skipped, dry-run and rollback passes in any order, progress changes only by a landed state write |
| Passes.ProgressIsLatestLanded | src/reconcile.rs:338-349 | commit and applied keys are those of the latest pass whose state write landed |
| Passes.DriftCheckOnlyAtLanded | src/reconcile.rs:171-172 | a pass at any commit other than the latest landed one applies everything or tears down |
| Passes.NoDriftCheckBeforeLanding | src/reconcile.rs:171-172 | from an empty start no pass merely checks before a state write has landed |
| Passes.UnlandedIsRetried | src/reconcile.rs:171-172 | a full apply whose state did not land is not followed by a mere check at that commit |
| Settled.LabelServedIff | src/manifest.rs:272-290 | every live object the server may serve carries the label iff nothing stands in its way in the manifest |
| Settled.RestfulIff | src/drift.rs:353-371 | a condition on the manifest alone that holds iff nothing the server may serve makes the check differ or the label missing |
| Settled.NeverReportedIff | src/drift.rs:119-152 | a just-applied manifest is never reported, whatever the server serves and whatever else is live, iff it is spelled out and meets that condition |
| Settled.VerdictAfterApplyIff | src/drift.rs:119-152 | the listed check of a just-applied manifest reports it iff it is not spelled out or is restless as served |
| Settled.CleanApplySettles | src/reconcile.rs:232-349 | an applying pass without failed calls leaves every main object served, after its hooks and its prune, and the state saying so |
| Settled.SettledPassIff | src/reconcile.rs:258-303 | the next pass at that commit finds no drift iff every manifest is spelled out and none is restless as served |
| Settled.UntouchedTrace | src/reconcile.rs:258-349 | a clean pass without drift makes no call but successful deletions of undeclared keys and the state write |
| Settled.UntouchedStaysSettled | src/reconcile.rs:258-318 | a pass without drift keeps the cluster settled, if no kind is declared in two versions |
| Settled.RestfulStaysQuiet | src/reconcile.rs:258-303 | from then on every pass at that commit makes only such calls, however many follow |
| Settled.SyncTwice | src/reconcile.rs:117-401 | two passes over one commit: their calls, objects and states, whatever fails; from an empty state over a well-formed repository and without failed calls, the first applies everything, the second only prunes, and all of the repository is live as served |
| Backoff.DelayIsCappedDoubling | src/reconcile.rs:660-670 | the overflow fallback is invisible: the delay is the capped product in unbounded arithmetic |
| Backoff.DelayMonotone | src/reconcile.rs:660-670 | more failures never wait less, and no delay exceeds the cap |
| Backoff.DelayDoubles | src/reconcile.rs:660-670 | the base time after one failure, twice as long after each more up to the 32nd, and at most the cap |
| Backoff.DelayDoublesIff | src/reconcile.rs:660-670 | when the delay still equals the capped exact power, for every failure count |
| Backoff.DelayAt | src/reconcile.rs:565-606 | along any run the delay is a function of the current failure streak |
| Backoff.RunLoop | src/reconcile.rs:565-606 | after a success the poll interval, and after a failure the backoff for the current streak, although the counter saturates |
| Health.RankInjective | src/resource_health.rs:68-88 | no two statuses rank alike |
| Health.WorseChain | src/resource_health.rs:68-88 | Healthy, Suspended, Progressing, Missing, Degraded, Unknown, each worse than the one before |
| Health.JobHealth | src/resource_health.rs:406-447 | failed, else suspended, else complete, else progressing, with the message of the last deciding condition |
| Health.JobMessageIff | src/resource_health.rs:406-447 | the message is that of the last true condition of a known type |
| Health.JobCodeOrderless | src/resource_health.rs:406-447 | the status does not depend on the order of the conditions |
| Health.EntryIff | src/resource_health.rs:574-602 | missing iff a checked kind has no live object of its name, progressing while it is deleted, and otherwise what its check says |
| Health.EntriesSplit | src/resource_health.rs:574-602 | the entries follow the order of the manifests |
| Health.EntriesOfOne | src/resource_health.rs:574-602 | one manifest gives its own entry |
| Health.Assess | src/resource_health.rs:574-602 | exact counts, and the worst status with the message of the first resource that has it |
| Health.CountsAddUp | src/resource_health.rs:604-615 | each count is that of its own status, and they add up to the resources that gave an entry |
| Health.SummaryOrderless | src/resource_health.rs:574-602 | counts and worst status do not depend on the order of the manifests |
| Health.ListOrderIrrelevant | src/resource_health.rs:574-602 | nor on the order of the live objects, when no two share a name and namespace |
| Health.OwnMatchIff | src/drift.rs:332-340 | a manifest is matched to its own kind's object in every order of the joined lists iff no object of another listed kind has its name and namespace |
| Health.NamesakeMisjudged | src/drift.rs:332-340 | with such an object there is an order in which the manifest is matched to another kind |
| Health.AssessLists | src/resource_health.rs:574-602 | without such objects the summary is that of every resource judged by its own kind, in every order |

## Left out

- Git subprocesses, SSH keys, globbing, YAML text and discovery of API resources: I/O. Documents arrive as parsed JSON; a kind resolves or does not.
- Re-parsing a manifest's stored YAML bytes: assumed to give the document back, so its error branches in apply and hooks do not occur.
- `apply`'s rejection of objects the typed client cannot hold: one of the ways an apply may fail.
- Real server-side-apply ownership and list merge keys: an apply stores the manifest after any number of additions and omissions of zero members in any order, whatever the types of the members (`Quiescence.ServedAs`). Foreground deletion is immediate removal.
- Other writers of cluster objects during a pass: only the Lease is modelled with concurrent writers, and a hook's object may vanish while it is waited for. Across passes the lemmas that need it say that nobody else touches the object.
- Lease.ReclaimableIff: exact arithmetic on nanoseconds; the rounding of elapsed seconds to floating point and of stored times to microseconds is not modelled.
- LeaseProtocol.Exclusion: conditional on timely live guards and on no stray delete, because the code does not abort a pass on a lost lease and deletes without a precondition.
- LeaseProtocol.AcceptedRenewalUndisturbed: conditional on no leftover create landing in the session; `LeaseProtocol.AcceptedDisturbedIff` is the exact statement.
- Lease renewals inside a pass (`touch_lease`) and inside hook waits: they change only the Lease and never the course of the pass.
- Reconcile.ReconcileInner: models the list-based check of the Off and Trigger modes; the cached check reports the same items by `Drift.CachedDriftIsListedDrift`. The health assessment and the time stamp of a pass are left out of the persisted state; no other step reads them.
- Passes.RunOnce: passes of one process in sequence. Errors are recorded after the Lease is released, so processes that overlap there can overwrite each other's state.
- Drift.DetectFromLw: works on a snapshot of the stores; poisoned locks, and the list of live objects returned beside the drifts, are left out.
- Watch drivers as tasks: an event sequence per store. The cache-mode driver does not wake the loop, and nothing here says so.
- Manifest.InjectManagedLabel: a function of the value instead of an edit in place.
- Hooks.SortByWeight: an insertion sort instead of the standard library's; `Hooks.StableSortUnique` makes them equal.
- Backoff.RunLoop: the watch wake-up and the jitter factor are left out; delays are those before jitter.
- Health.Assess: the checks of kinds other than Job are an arbitrary function; they are straight-line branching.
- `DiscoveryCache`, metrics, logs, CLI, probes, rendering of diffs, Helm chart and benches: plumbing or easy cases.
