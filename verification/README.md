# Verified model of the Alibaba Cloud machine lifecycle

The Cluster API provider for Alibaba Cloud turns an `AlibabaCloudMachine` object into one ECS
instance and, on deletion, makes sure the instance is gone before the object is. Four pieces of
code share that protocol: the machine reconciler, the ECS client wrapper, the admission webhook
and the CSR approver. Each is crash-prone on its own: a reconcile works on an in-memory copy,
calls the cloud, and only at the end writes metadata and spec, then status, either of which may
be lost. This project models the protocol as a step system, proves what it keeps over whole runs
and exactly when, and proves the surrounding algorithms against independent definitions.

Run `dafny verify dfyconfig.toml` to check everything.

## How the model is built

| module | what it is |
|---|---|
| Objects, MachineObjects, ProviderIDs | the stored object, its mutable in-memory form, the providerID strings |
| Admission, FailureDomains | the webhooks as validating methods; the failure-domain pipeline |
| Cloud | the ECS contract: an instance is a record of tag, region, token and state; what each call may answer and do under four promises of the environment |
| Resumption | one reconcile cut at its cloud calls: `Start` up to the first call, `Advance` from an answer to the next |
| Controller, Refinement | the reconciler and client as methods mutating the object, proved to follow the resumption call by call; one reconcile is a run of the lifecycle |
| Conduct | what one reconcile does as seen from outside: calls, arguments, copy and verdict for every object, input and answer, without reference to the code's own functions |
| Lifecycle | stored object, fleet, any number of reconciles in flight; steps: begin, answer, re-sent launch, the two writes (landing or lost), crash, delete request, user edit, cloud drift, other machines' instances |
| Orphans, Handles, Histories, Drain, Teardown | the theorems over runs |
| Runs, Necessity, Overlap, Readiness | runs built step by step; the runs that break each theorem without its hypothesis, making it an equivalence; controller against webhook when reconciles overlap; what readiness and failure are worth |
| CsrGate, HostNames, Retry, CapacityCache, UserData, BundleDiff, BundleSync | the secondary algorithms |

The cloud moves on its own at any time and in any direction, except that a deleted instance can
only vanish and a vanished one never returns. A write is a merge patch of what the reconcile
changed, admitted or rejected as a whole.

## Hypotheses

Stated in `Lifecycle.Init`, `Lifecycle.Sound`, `Lifecycle.Enabled` and `Cloud.Allowed`:

- The owning Machine and the AlibabaCloudMachine have the same non-empty name: the tag is written
  from the first (controller line 719) and swept by the second (line 310). Admission accepts the
  reserved tag key from users; `Necessity.MistaggedOrphans` is what happens without this hypothesis
  or the next.
- The tag value is unique in the region, user tags do not reuse the reserved key, and the region
  is non-empty and holds no `/` or `.`. Instance ids are non-empty, hold neither, and are never reused.
- The machine's region is fixed: its own once set, else the cluster's, which the cluster webhook
  makes immutable (`FailureDomains.ValidateClusterUpdate`).
- A reconcile starts from the object as stored. Users may change tags and metadata options and
  request deletion at any time; the fields the controller fills are the controller's.
- `Env.tokens`: a launch with a used client token returns the first instance. `Env.current`: the
  tag listing is complete, and it and instance descriptions are current; without it a listing may
  miss or keep instances and a description may report any state, or none. `Env.serial`: reconciles
  of one object do not overlap.
  `Env.cleanThrottle`: a throttled launch that is sent again created nothing. Each theorem names the promises it
  needs, and Necessity and Overlap prove them needed: `AgreementExactly`, `OneLiveExactly`,
  `NoOrphanExactly`, `HardensOnceExactly`, `NeverRejectedExactly`, and in Readiness `ReadyExactly`.
- `Env.serial` also stands for current reads: a reconcile that begins from an outdated cached
  object behaves like one that began earlier and overlaps those since, so the runs of
  `Necessity.OverlapOrphans`, `Necessity.HardensTwice` and `Overlap.CollisionRejected` are runs of
  a stale read as well. Theorems without `Env.serial` hold for such reads too.
- No orphan needs one write not to be lost: `Orphans.Guarded` says which steps lose it, and
  `Orphans.GuardIsExact` that no weaker condition would do. Status writes may be lost freely.
  Looking at the stored object alone: once finalizer and a region or handle are stored nothing can
  go wrong any more (`Orphans.AnchoredNeverOrphans`), and before that something can
  (`Necessity.AnchoredExactly`).

## Where the code and its documentation disagree

The model follows the code.

- README.md:117 promises the slash form of the providerID; the code writes the dot form
  (controller lines 443-445). Both parsers accept both (`ProviderIDs.FormsAgree`). The comment at
  lines 449-453 calls the dot form legacy; it is the one written.
- The comment at lines 266-269 says providerID and region are persisted before the launch, so that
  finding neither means nothing was created. They are only set in memory, the providerID even
  after the launch, and stored by the deferred patch; `Necessity.FirstCrashOrphans` is a run in
  which that branch, or the missing finalizer, leaves an instance behind.
- pkg/client/capi.go:334 says deleting a missing instance succeeds; the code returns the error of
  the release call (lines 350-356), as does the model.
- The comment on classifyCreateError speaks of RunInstances failures; a failed tag lookup reaches
  it too and is classified alike.
- The comment at lines 788-790 says throttling always stays a plain, retried error. The retry loop
  goes by code or HTTP status, the classification by the code alone, so a capacity or spot error
  sent with status 429 or 503 is a throttle that, once the retries are spent, fails the machine
  (`Readiness.TerminalThrottle`, `Readiness.ThrottleFails`).
- The cluster-wide claim that ready means running does not hold afterwards: ready is not cleared
  when an instance leaves Running for a waiting state, and a failureReason is never cleared. What
  holds is `Histories.StatusIsEarned`.
- The guard of hack/verify-bundle-sync.py:124-130 is meant to catch what the diff might hide; an
  empty diff already rules it out (`BundleSync.GuardIsImplied`).

## Model

| member | source | states |
|---|---|---|
| Orphans.NoOrphan | internal/controller/alibabacloudmachine_controller.go:245-327 | With serial reconciles and current listings (both needed: NoOrphanExactly), over every guarded run from a fresh object (reconciles, cloud moves, crashes, throttled launches, user edits, lost status writes in any order) the object is gone only when no live instance of its tag exists in its region, and a reconcile drops the finalizer of its copy, by either release branch, only in such a state |
| Orphans.GuardIsExact | internal/controller/alibabacloudmachine_controller.go:673-682 | With serial reconciles and current listings, which a safe state includes: from any safe state a step can be continued to an orphan, losing nothing further, if and only if it is unguarded: it loses the write that would anchor a live instance, or deletes an unfinalized object under a create in flight |
| Necessity.NoOrphanExactly | internal/controller/alibabacloudmachine_controller.go:245-327 | From a fresh object that can create, no guarded run orphans an instance if and only if reconciles are serial and listings current |
| Necessity.OverlapOrphans | internal/controller/alibabacloudmachine_controller.go:306-327 | With overlapping reconciles, every write landing and the finalizer and region stored: a create that has looked and not launched outlives the object a delete pass swept and released |
| Necessity.StaleOrphans | pkg/client/capi.go:431-449 | With stale listings the sweep misses an instance known only by its tag and releases the object |
| Orphans.AnchoredNeverOrphans | internal/controller/alibabacloudmachine_controller.go:673-682 | Once finalizer and a region or handle are stored, no run at all orphans an instance, whatever writes are lost or reconciles crash (serial reconciles, current listings) |
| Necessity.AnchoredExactly | internal/controller/alibabacloudmachine_controller.go:673-682 | Between reconciles of an object that can create, no run can orphan an instance if and only if the stored object has its finalizer and a region or handle, or the honoured token is already used up |
| Necessity.MistaggedOrphans | internal/controller/alibabacloudmachine_controller.go:1037-1046 | From an anchored object whose instance would go by another tag value than deletion sweeps for (the user set the reserved key, or the two names differ), a guarded run in any environment leaves its instance running |
| Orphans.SafeStep | internal/controller/alibabacloudmachine_controller.go:245-362 | With serial reconciles and current listings every guarded step keeps the safety invariant: a live instance is always anchored by the stored finalizer with a region or handle, or by the pending write of the reconcile that made it |
| Orphans.StartReleases | internal/controller/alibabacloudmachine_controller.go:264-274 | The branch that finds neither handle nor region releases only when nothing of this machine is live |
| Orphans.QuietExposedOrphans | internal/controller/alibabacloudmachine_controller.go:264-274 | When the anchoring write was lost, an ordinary delete request orphans the instance, through the missing finalizer or through the nothing-was-provisioned branch |
| Orphans.CreatingOrphans | internal/controller/alibabacloudmachine_controller.go:630-737 | A create in flight whose object was removed ends with a live instance and no object |
| Necessity.FirstCrashOrphans | internal/controller/alibabacloudmachine_controller.go:673-682 | From every fresh object whose create can proceed: the first reconcile crashing between launch and patch, then a delete request, orphan the instance |
| Handles.HandleAgreement | internal/controller/alibabacloudmachine_controller.go:484-537 | With the client token honoured, in every reachable state under any lost writes, overlaps and stale listings: at most one instance was ever created, the stored providerID and instanceID name the same one, so do those of every copy in flight, and ProviderIDInstanceMismatch is never reported |
| Necessity.AgreementExactly | internal/controller/alibabacloudmachine_controller.go:484-513 | The stored handles agree in every reachable state if and only if the client token is honoured |
| Necessity.HandlesPart | internal/controller/alibabacloudmachine_controller.go:484-498 | Without the token a run exists, even with serial reconciles and current listings, in which admission rejects the second providerID, the status write lands and the stored handles part |
| Handles.OneEverStep | pkg/client/capi.go:85-95 | No step, not even a launch re-sent by the retry loop or by an overlapping reconcile, creates a second instance under one token |
| Handles.NoMismatchStep | internal/controller/alibabacloudmachine_controller.go:505-513 | Reconciles over agreeing handles never report the mismatch |
| Handles.AdoptKeepsOneLive | pkg/client/capi.go:485-502 | Adopt-by-tag alone, the token not honoured, keeps at most one live instance when reconciles are serial, listings current and throttled launches create nothing |
| Handles.StartLooksFirst | pkg/client/capi.go:492-502 | Every create looks its tag up before it launches |
| Necessity.OneLiveExactly | pkg/client/capi.go:485-502 | Every reachable state has at most one live instance of the machine if and only if the token is honoured, or reconciles are serial, listings current and throttles clean |
| Necessity.ThrottleDoubles | pkg/client/retry.go:57-85 | A throttled launch that did create, sent again without a token, makes two live instances |
| Necessity.OverlapDoubles | pkg/client/capi.go:485-502 | Two overlapping creates that both looked before either launched make two live instances |
| Necessity.StaleDoubles | pkg/client/capi.go:431-449 | A crashed create followed by a stale lookup makes two live instances |
| Overlap.NeverRejected | internal/webhook/v1beta1/alibabacloudmachine_webhook.go:215-260 | With the token honoured, however reconciles overlap, writes are lost and listings lag: every pending metadata and spec write of every reachable state passes defaulting, validation and immutability against the stored object, provided every reconcile resolves an empty zone or vSwitch into the one value or not at all |
| Overlap.NeverRejectedExactly | internal/webhook/v1beta1/alibabacloudmachine_webhook.go:215-260 | Runs over a set of inputs, one of which creates, never stand before a rejected write if and only if the token is honoured and reconciles are serial or no two of the inputs resolve an empty zone or vSwitch differently |
| Overlap.CollisionRejected | internal/controller/alibabacloudmachine_controller.go:994-1028 | Two overlapping reconciles that resolve an empty zone or vSwitch differently reach a rejected write |
| Overlap.TokenlessRejected | pkg/client/capi.go:85-92 | Without the token a create repeated after a lost status write reaches a rejected providerID |
| Overlap.PlacedStep | internal/controller/alibabacloudmachine_controller.go:994-1028 | Every step keeps stored object, snapshots and copies at the one zone and vSwitch |
| Handles.SerialNeverRejected | internal/webhook/v1beta1/alibabacloudmachine_webhook.go:215-260 | With serial reconciles and the token, for arbitrary inputs, every pending metadata and spec write is admitted and leaves exactly the reconcile's region, zone, vSwitch and providerID |
| Lifecycle.AdmittedExactly | internal/webhook/v1beta1/alibabacloudmachine_webhook.go:251-258 | Admission accepts a reconcile's write if and only if it does not rename a set providerID |
| Lifecycle.MergedIsCopy | internal/controller/alibabacloudmachine_controller.go:84-94 | A landing merge patch leaves the stored handles and finalizer equal to the reconcile's copy |
| Lifecycle.BaseRun | internal/controller/alibabacloudmachine_controller.go:73-140 | In every state of every run, whatever the environment promises, both stored handles and those of every copy name instances created for this object, in its region and written form, and the stored spec stays defaulted and valid |
| Lifecycle.BaseStep | internal/controller/alibabacloudmachine_controller.go:73-140 | Each step keeps that invariant, no record of the fleet is lost and nothing revives |
| Lifecycle.StartOk | internal/controller/alibabacloudmachine_controller.go:142-362 | The part of a reconcile before its first cloud call only fills once-set fields and keeps handles, finalizer and region consistent |
| Lifecycle.AdvanceOk | internal/controller/alibabacloudmachine_controller.go:475-561 | Every continuation after a cloud answer keeps the handles naming instances of this object |
| Lifecycle.PerformOk | pkg/client/capi.go:431-449 | Every answer the environment allows fits its call, and a found or launched id is an instance of this object |
| Lifecycle.SyncedStep | internal/controller/alibabacloudmachine_controller.go:84-94 | With serial reconciles the stored object stays the snapshot, up to user edits and delete requests, until the reconcile writes |
| Lifecycle.StoredStaysRun | internal/webhook/v1beta1/alibabacloudmachine_webhook.go:215-260 | Over any run the stored object, while it exists, keeps its immutable and once-set fields, a recorded instance and its deletion mark |
| Lifecycle.DeleteRegionOk | internal/controller/alibabacloudmachine_controller.go:454-470 | The delete path recovers the machine's region exactly when a region or a providerID is stored |
| Resumption.ReservedTag | internal/controller/alibabacloudmachine_controller.go:1037-1046 | The lookup uses the machine name whatever tags the user adds; the created instance goes by the user's last value under the reserved key when there is one |
| Drain.DeletionTerminates | internal/controller/alibabacloudmachine_controller.go:297-361 | With calls succeeding, serial reconciles, current listings and a region the delete path can tell, there are never more delete rounds than the summed state ranks of the tagged instances plus one, and that many have released the finalizer |
| Drain.RoundProgress | internal/controller/alibabacloudmachine_controller.go:331-361 | Every complete delete pass, with the one cloud move it may wait for, releases the object or strictly lowers the summed ranks Running > Stopping > Stopped > Deleted > gone |
| Drain.DeletionCompletes | internal/controller/alibabacloudmachine_controller.go:297-361 | From every pause in a deletion such rounds can be taken until the object is released |
| Drain.SomeTick | internal/controller/alibabacloudmachine_controller.go:353-355 | Whenever the pass waits (Stopping or Deleted) the cloud step it waits for is enabled |
| Necessity.StuckReached | internal/controller/alibabacloudmachine_controller.go:245-279 | From every fresh object that names no region and can create, a run with one lost spec write leads to a deletion that is stuck |
| Necessity.StuckExactly | internal/controller/alibabacloudmachine_controller.go:275-279 | A fresh object that can create can reach a stuck deletion if and only if it names no region of its own |
| Drain.StuckForever | internal/controller/alibabacloudmachine_controller.go:275-279 | A deleting object that knows its instance but no region keeps its finalizer for ever, with serial reconciles, whatever else happens |
| Teardown.ReleasableExactly | internal/controller/alibabacloudmachine_controller.go:245-362 | From a pause in a deletion some run releases the object if and only if its region is known |
| Teardown.LifeEndsClean | internal/controller/alibabacloudmachine_controller.go:245-362 | With serial reconciles and current listings, after any guarded run from a fresh object to a pause in its deletion, the bounded number of rounds releases the object with no live instance left |
| Histories.StatusIsEarned | internal/controller/alibabacloudmachine_controller.go:205-242 | Over every run of every environment, with lost writes and overlaps: stored ready or provisioned implies a recorded instance and a non-deleting describe that showed an instance of this object Running; stored metadataHardened a successful call; each stored failureReason the observation it stands for; and every hardening call was made by a reconcile that itself began with the nodeRef and sent the value it read; and every lookup and launch by one that began with all gates open and something to create from |
| Histories.ReadyWasRunning | internal/controller/alibabacloudmachine_controller.go:539-543 | With the token honoured or with serial reconciles, a stored ready or provisioned object's own recorded instance was seen Running by a non-deleting describe |
| Readiness.ReadyExactly | internal/controller/alibabacloudmachine_controller.go:205-242 | A stored ready or provisioned object's own instance was seen Running in every reachable state if and only if the token is honoured or reconciles are serial |
| Readiness.ReadyUnseen | internal/controller/alibabacloudmachine_controller.go:826-828 | Without token and seriality, a late status write renames the recorded instance of a ready object to one never seen Running |
| Readiness.TerminalThrottle | internal/controller/alibabacloudmachine_controller.go:791-801 | An error that classification makes terminal is also a throttle for the retry loop if and only if the server sent it with status 429 or 503 |
| Readiness.ThrottleFails | internal/controller/alibabacloudmachine_controller.go:791-801 | A throttle left over when the retries are spent stores a failureReason if and only if its code is terminal and its status 429 or 503 |
| Histories.StoredNeverReverts | internal/controller/alibabacloudmachine_controller.go:806-816 | No step takes back provisioned, metadataHardened, a failureReason, a recorded instanceID or any once-set spec field of the stored object |
| Histories.HardensOnce | internal/controller/alibabacloudmachine_controller.go:572-602 | With serial reconciles, once metadataHardened is stored no ModifyInstanceMetadata call is ever made again |
| Necessity.HardensOnceExactly | internal/controller/alibabacloudmachine_controller.go:572-602 | From a fresh object that creates and hardens: after a stored hardening no further call is ever made, whatever follows, if and only if reconciles are serial |
| Necessity.HardensTwice | internal/controller/alibabacloudmachine_controller.go:583-597 | Two overlapping reconciles: one calls after the other's record is stored |
| Histories.NoMoreHardening | internal/controller/alibabacloudmachine_controller.go:583-585 | Without seriality, the same from any state where every reconcile in flight has read the record |
| Histories.HardenTold | internal/controller/alibabacloudmachine_controller.go:580-597 | A hardening call is warranted by the latest beginning of the worker that makes it: not deleting, node joined, value configured and sent, no success recorded |
| Histories.LookTold | internal/controller/alibabacloudmachine_controller.go:150-203 | A lookup, launch or describe is licensed by the latest beginning of the worker that makes it: proceeding, cluster ready, bootstrap data, client, failure domain, and for a create also secret, image and user data that fits |
| Controller.Reconcile | internal/controller/alibabacloudmachine_controller.go:73-140 | The mutating reconcile makes exactly the calls of the resumption, in order, and leaves exactly its copy and verdict, whatever the cloud answers |
| Conduct.ClosedGate | internal/controller/alibabacloudmachine_controller.go:125-203 | Not deleting, a closed gate makes no call at all: not proceeding ends untouched; cluster not ready or bootstrap data missing asks for another try with only the finalizer added; an unresolvable failure domain or no client is an error |
| Conduct.Mismatched | internal/controller/alibabacloudmachine_controller.go:505-513 | Behind open gates, handles that differ fail the machine without a call |
| Conduct.NotCreating | internal/controller/alibabacloudmachine_controller.go:638-699 | Behind open gates with no instance recorded: an unreadable secret or a failed offload is an error, no image and user data too large fail the machine, and no call is made |
| Conduct.Creating | internal/controller/alibabacloudmachine_controller.go:701-736 | A create, call by call: lookup of the Machine name in the home region, adoption, launch under UID and own tag only after an empty lookup; both handles recorded as written out, or the failure by its code |
| Conduct.Polling | internal/controller/alibabacloudmachine_controller.go:515-551 | The describe of a recorded instance, answer by answer: Running is ready, provisioned and without a failure, with exactly the one hardening call when due; Stopped or Deleted fails the machine and takes ready back; Absent fails it; every other state waits with nothing decided; a failed call is an error |
| Conduct.CallsOnlyOpen | internal/controller/alibabacloudmachine_controller.go:142-233 | Not deleting, a reconcile looks up and launches only where every gate is open and something to create from is there, describes only a recorded agreeing instance, hardens only where due, and never stops or releases |
| Conduct.NormalVerdict | internal/controller/alibabacloudmachine_controller.go:205-243 | Not deleting, a reconcile is finished exactly when not to proceed or when it found its instance Running, leaving it ready; a terminal verdict is a recorded failure with ready off; otherwise the failure stays as it was |
| Conduct.Deleting | internal/controller/alibabacloudmachine_controller.go:245-362 | A deletion, call by call: release with nothing known, error without region or client, describe, sweep by name, stop and release with their region and id, the status handle restored |
| Conduct.DeletionVerdict | internal/controller/alibabacloudmachine_controller.go:264-361 | A deletion is finished exactly when it took the finalizer off; an error exactly for a known instance in an unknown region, no client, or a failed describe, sweep or release; in every other case it asks for another pass |
| Controller.ReconcileNormal | internal/controller/alibabacloudmachine_controller.go:142-243 | The method makes exactly the resumption's calls and leaves its copy and verdict for the non-deleting half: finalizer, gates, failure domain, region, create or poll, and the mapping of results to status |
| Controller.ReconcileDelete | internal/controller/alibabacloudmachine_controller.go:245-362 | The method makes exactly the resumption's calls and leaves its copy and verdict for deletion: handle and region recovery, self-heal, describe, sweep, delete, release |
| Controller.FindOrCreateInstance | internal/controller/alibabacloudmachine_controller.go:475-561 | The method makes exactly the resumption's calls and leaves its copy and verdict from the mismatch check on, creating or polling |
| Controller.PollInstance | internal/controller/alibabacloudmachine_controller.go:515-551 | The method makes exactly the resumption's calls and leaves its copy and verdict for describing: disappearance, providerID self-heal, status sync, hardening, terminal and waiting states |
| Controller.CreateInstance | internal/controller/alibabacloudmachine_controller.go:630-737 | The method makes exactly the resumption's calls and leaves its copy and verdict for creation: secret, boot image, region persisted in memory, offload, launch |
| Controller.LaunchInstance | internal/controller/alibabacloudmachine_controller.go:701-737 | Adopts or launches, classifies the failure, or records both handles |
| Controller.MaybeHardenMetadata | internal/controller/alibabacloudmachine_controller.go:572-602 | Makes the one call exactly when wanted and records only its success |
| Controller.DescribeAndDelete | internal/controller/alibabacloudmachine_controller.go:300-361 | Polls a recorded instance and deletes it unless it is leaving by itself |
| Controller.SweepAndRelease | internal/controller/alibabacloudmachine_controller.go:306-327 | Releases the finalizer only after an empty sweep; otherwise deletes the instance found |
| Controller.DeleteInstance | internal/controller/alibabacloudmachine_controller.go:739-749 | Stop then release, requeueing on success and erring on failure |
| Controller.CreateFollows | pkg/client/capi.go:485-629 | The lookup and launch exchanges lead the resumption to the recorded handles or the classified failure |
| Controller.Client.CreateECSInstance | pkg/client/capi.go:485-629 | Looks up by the machine tag when there is one, adopts what it finds, and launches with the token only after an empty lookup; a failed lookup is returned as is |
| Controller.Client.DeleteECSInstance | pkg/client/capi.go:335-360 | Always sends stop and then release; succeeds exactly when the release does |
| Controller.Client.FindInstanceByTag | pkg/client/capi.go:431-449 | Answers the first listed instance that is not Deleted, "" when there is none, an error when the listing failed |
| Controller.Client.MachineTagOf | pkg/client/capi.go:420-427 | The first value under the reserved key |
| Controller.ScanIsCurrent | pkg/client/capi.go:431-449 | Scanning a complete listing yields exactly an answer a current environment allows: "" only when nothing under the tag is live, else a live instance |
| Refinement.ReconcileIsARun | internal/controller/alibabacloudmachine_controller.go:73-94 | The exchanges of one uninterrupted reconcile are a run of the lifecycle ending with the same copy and verdict and both writes still ahead |
| CsrGate.HasPendingMachine | internal/controller/csr_controller.go:191-212 | True if and only if some machine with both handles set names an instance no node carries |
| CsrGate.AwaitsMeans | internal/controller/csr_controller.go:191-212 | A machine is pending exactly when both handles are set and its providerID names no instance, or one that no node names |
| CsrGate.NodeBackedByCAPAMachine | internal/controller/csr_controller.go:219-230 | True if and only if the node names an instance and some machine's providerID names the same one |
| CsrGate.AwaitsUntilJoined | internal/controller/csr_controller.go:191-212 | A machine with stored handles is pending exactly until some node carries its instance, and a node in either separator form ends the wait |
| CsrGate.SeenGivesHandles | internal/controller/alibabacloudmachine_controller.go:524-537 | Creating, adopting or describing an instance leaves both handles in the copy |
| CsrGate.AwaitsForLife | internal/controller/csr_controller.go:191-212 | A machine stored with both handles is pending, in every later state of every run while it exists, exactly until a node with that instance id joins |
| CsrGate.PersistedAwaits | internal/controller/csr_controller.go:191-212 | Any fully persisted reconcile that saw its instance, overlapping or not: once its spec write is admitted and its status write lands, with any steps in between and after, the handles are stored and the machine is pending, in every later state while it exists, exactly until a node with that instance id joins |
| ProviderIDs.InstanceIDRoundTrip | internal/controller/csr_controller.go:235-241 | The instance id survives printing and parsing, in either form, if and only if it holds no separator |
| ProviderIDs.InstanceIDIs | internal/controller/csr_controller.go:235-241 | For any string: the instance part is what follows the last separator once the scheme is off, or all of it |
| ProviderIDs.RegionIs | internal/controller/alibabacloudmachine_controller.go:454-470 | For any string: the region part is a non-empty head before the first slash, else before the first dot, else none |
| ProviderIDs.RegionRoundTrip | internal/controller/alibabacloudmachine_controller.go:454-470 | The region survives the written dot form exactly under the stated condition on separators |
| ProviderIDs.SlashRegionRoundTrip | internal/controller/alibabacloudmachine_controller.go:461-463 | The region survives the slash form if and only if it is non-empty and slash-free |
| ProviderIDs.FormsAgree | internal/controller/alibabacloudmachine_controller.go:443-470 | For separator-free parts both forms read back to the same region and id through both parsers |
| ProviderIDs.FormsInjective | internal/controller/alibabacloudmachine_controller.go:432-445 | For separator-free parts two written providerIDs are equal if and only if region and id are, and the two forms never coincide |
| Admission.Default | internal/webhook/v1beta1/alibabacloudmachine_webhook.go:84-104 | The defaulter leaves a disk with category and size, keeping what was set |
| Admission.ValidateMachineSpec | internal/webhook/v1beta1/alibabacloudmachine_webhook.go:136-175 | No error if and only if instance type prefix, disk sizes, disk extras, spot price and tags are all in order |
| Admission.ValidSpecExactly | internal/webhook/v1beta1/alibabacloudmachine_webhook.go:136-175 | What a valid spec is, field by field |
| Admission.ValidateDiskExtras | internal/webhook/v1beta1/alibabacloudmachine_webhook.go:202-213 | No error if and only if a KMS key comes with encryption and a performance level with cloud_essd |
| Admission.ValidateSpot | internal/webhook/v1beta1/alibabacloudmachine_webhook.go:179-198 | No error if and only if a positive price limit is given exactly for SpotWithPriceLimit |
| Admission.ValidateTags | internal/webhook/v1beta1/webhook.go:42-57 | An error at exactly the tags whose key is blank or repeats an earlier one, with the matching cause |
| Admission.ValidateMachineImmutable | internal/webhook/v1beta1/alibabacloudmachine_webhook.go:215-260 | No error if and only if the immutable fields are unchanged and the once-set fields keep any value they had |
| Admission.ImmutableExactly | internal/webhook/v1beta1/alibabacloudmachine_webhook.go:215-260 | An allowed update changes tags and metadata options and fills in an empty region, zone, vSwitch or providerID, and nothing else |
| Admission.AdmitUpdate | internal/webhook/v1beta1/alibabacloudmachine_webhook.go:117-129 | An update is admitted if and only if its defaulted spec is valid and immutable against the stored one |
| Admission.UnchangedAdmitted | internal/webhook/v1beta1/alibabacloudmachine_webhook.go:84-129 | Re-submitting a stored spec is admitted if and only if it had been defaulted and validated |
| Admission.HistoryOrdered | internal/webhook/v1beta1/alibabacloudmachine_webhook.go:215-260 | Over any sequence of admitted updates every later spec is an allowed update of every earlier one |
| Admission.HistoryAgrees | internal/webhook/v1beta1/alibabacloudmachine_webhook.go:215-260 | Each once-set field takes at most one set value over the whole history, the immutable fields never move, and every stored spec can be re-submitted |
| FailureDomains.ValidateFailureDomains | internal/webhook/v1beta1/alibabacloudcluster_webhook.go:110-125 | No error if and only if every zone is named, named once and given a vSwitch |
| FailureDomains.ValidateClusterSpec | internal/webhook/v1beta1/alibabacloudcluster_webhook.go:88-127 | No error if and only if region, endpoint and failure domains are in order |
| FailureDomains.ValidateClusterUpdate | internal/webhook/v1beta1/alibabacloudcluster_webhook.go:67-81 | No error if and only if the new spec is in order and the region unchanged |
| FailureDomains.AlibabaCloudCluster.ReconcileFailureDomains | internal/controller/alibabacloudcluster_controller.go:340-357 | Publishes one zone per listed domain, in order, and leaves earlier zones alone for an empty list |
| FailureDomains.ResolveFailureDomain | internal/controller/alibabacloudmachine_controller.go:994-1028 | The scanning, mutating method succeeds exactly on resolvable machines, changes nothing when no failure domain is wanted or published, and equals the resolution function, including the zone written before a missing vSwitch fails it |
| FailureDomains.ResolvesExactly | internal/controller/alibabacloudmachine_controller.go:994-1028 | For any spec and any published zones: it succeeds exactly when no failure domain is wanted, or the name is published and the machine or the first such zone has a vSwitch; without either nothing changes; the first zone fills in exactly what is empty |
| FailureDomains.PipelineIsLookup | internal/controller/alibabacloudmachine_controller.go:994-1028 | Validated, published and resolved: a listed zone resolves to its own vSwitch, set values are kept, and exactly the unlisted zones fail, changing nothing |
| FailureDomains.ResolvedStays | internal/controller/alibabacloudmachine_controller.go:994-1028 | Resolving again, against whatever is published then, moves no set value and touches nothing else |
| HostNames.HostNameOK | pkg/client/capi.go:458-483 | The byte loop accepts exactly the names of 2 to 64 characters made of alphanumeric labels joined by single - or . with at least one non-digit |
| HostNames.CharsGiveLabels | pkg/client/capi.go:458-483 | Names passing the character test split into labels |
| HostNames.LabelsGiveChars | pkg/client/capi.go:458-483 | Joined labels pass the character test |
| Retry.RetryThrottled | pkg/client/retry.go:57-85 | At most N+1 calls; the result is that of the last call and every earlier one was a throttle; a throttle is returned only when the budget is spent; sleep k is the doubled, capped delay plus the draw modulo half of it, capped, so it lies between min(base*2^k, max) and min(3/2 of that, max); total sleep is at most N*max; retry metrics = sleeps = calls - 1; one observation |
| Retry.RetriesExactly | pkg/client/retry.go:33-52 | Retried are exactly server errors whose code contains Throttling or is one of three others, or whose HTTP status is 429 or 503 |
| Retry.BackoffDoubles | pkg/client/retry.go:80-83 | Doubling and capping the capped delay is capping the doubled one |
| CapacityCache.TemplateReconciler.ResolveCapacity | internal/controller/alibabacloudmachinetemplate_controller.go:80-113 | A resolved capacity equals the uncached one in a fresh list that no cache entry aliases; no cached list changes; it fails exactly when nothing is cached and the cloud call fails |
| CapacityCache.TruthfulMove | internal/controller/alibabacloudmachinetemplate_controller.go:80-113 | Every move of any interleaving keeps cache and calls true to the catalogue |
| CapacityCache.CapacityUnits | internal/controller/alibabacloudmachinetemplate_controller.go:96-111 | vCPUs as they are, MiB times 1048576, 110 pods, GiB times 1073741824 for a system disk of positive size, and no other resource |
| CapacityCache.CacheRefinesLookup | internal/controller/alibabacloudmachinetemplate_controller.go:80-113 | However calls overlap around the two lock regions, a resolved call returns its own region's uncached capacity, given region-independent specs |
| CapacityCache.TransparentExactly | internal/controller/alibabacloudmachinetemplate_controller.go:80-113 | The cache is transparent over every interleaving if and only if specs are region-independent |
| UserData.Base64RoundTrip | internal/controller/alibabacloudmachine_controller.go:889-892 | Decoding an encoded payload gives the payload (section 4 of RFC 4648) |
| UserData.SymbolsStandard | internal/controller/alibabacloudmachine_controller.go:889-892 | The 64 symbols are those of table 1 of RFC 4648 |
| UserData.EncodesGroup | internal/controller/alibabacloudmachine_controller.go:889-892 | Each three bytes become the four symbols of the same 24 bits |
| UserData.EncodesOne | internal/controller/alibabacloudmachine_controller.go:889-892 | One byte left over becomes two symbols of its bits and zeros, padded to four |
| UserData.EncodesTwo | internal/controller/alibabacloudmachine_controller.go:889-892 | Two bytes left over become three symbols of their bits and zeros, padded to four |
| UserData.MaybeOffloadUserData | internal/controller/alibabacloudmachine_controller.go:906-958 | The method equals the offload function on result, object store and recorded reference, with every error branch, also when the object is stored and signing its URL fails |
| UserData.RefIsPointer | internal/controller/alibabacloudmachine_controller.go:933-957 | An attempt records a reference only with a pointer, and then to exactly the stored object whose digest the pointer carries; else the recorded reference stays |
| UserData.InlineExactly | internal/controller/alibabacloudmachine_controller.go:913-925 | A secret stays inline if and only if its size is at most 3*floor(limit/4), the limit being the cluster's when positive and 16384 otherwise; a larger one is terminal exactly when no bucket is set; decoding never fails |
| UserData.OffloadsExactly | internal/controller/alibabacloudmachine_controller.go:926-957 | A secret beyond the limit, with a bucket, is stored under the machine's own key; a failed put or signing is an error; success yields a pointer with the digest and records bucket, endpoint and key; nothing else in the store or the record changes |
| UserData.KeysInjective | internal/controller/alibabacloudmachine_controller.go:962-964 | Slash-free cluster, namespace and name make distinct machines use distinct objects |
| UserData.BootsTheSecret | internal/controller/alibabacloudmachine_controller.go:906-958 | Whenever an attempt yields a payload the node boots exactly the secret, at once and after any later attempts of any machine, secrets being fixed |
| UserData.KeepsBooting | internal/controller/alibabacloudmachine_controller.go:960-964 | Later attempts of other machines, or of this one with the same secret, never change what a payload boots |
| UserData.NothingElseBoots | internal/controller/alibabacloudmachine_controller.go:966-988 | With a collision-free digest and an arbitrary store the node boots the secret or nothing |
| BundleDiff.DiffComplete | hack/verify-bundle-sync.py:91-108 | The diff of two trees is empty if and only if they are equal at every depth |
| BundleDiff.DiffSound | hack/verify-bundle-sync.py:91-108 | Every reported line is true of what the two trees hold at its path |
| BundleDiff.DiffExactly | hack/verify-bundle-sync.py:91-108 | The diff holds exactly the lines that what the two trees hold at each place calls for: every difference at every depth, and nothing else |
| BundleDiff.EqualIsExact | hack/verify-bundle-sync.py:107-108 | Scalars compare as themselves, but across the kinds of number by value |
| BundleSync.NormalizeIdempotent | hack/verify-bundle-sync.py:72-88 | Normalising a normalised spec changes nothing |
| BundleSync.CheckIsExact | hack/verify-bundle-sync.py:116-120 | The deployment check passes if and only if the two raw specs agree everywhere but in the elements named cert of the pod volumes and of the manager mounts, and in the manager image; all other volumes and mounts agree one by one, in order |
| BundleSync.NormalizesExactly | hack/verify-bundle-sync.py:65-88 | Normalisation raises on exactly the specs without a pod, without a named manager reached over named containers, or with volumes or mounts that are not dictionaries |
| BundleSync.GuardIsImplied | hack/verify-bundle-sync.py:124-130 | Once the diff is empty the guard against other dropped volumes cannot fire |

## Left out

- Adopting or overlapping under partial listings: `Env.current` is all or nothing; pages of a listing are not modelled.
- Stale informer-cache reads as steps of their own: they are overlapping reconciles that began earlier. The patch helper's conflict handling is library behaviour.
- User edits of controller-filled fields (region, zone, vSwitch, providerID) after creation.
- Node addresses, conditions and failure messages: reporting only.
- The deletion of offloaded objects: explicitly best effort.
- Controller.Client.CreateECSInstance: does not model the request fields other than token and tags, which are passed through, nor the best-effort tagging of disks and network interfaces; the id list of a launch answer is its first id.
- SDK construction, credentials and transport: pass-throughs.
- Owner and cluster lookup and the pause check: the one input `proceed` of a reconcile. Finding no bootstrap reference, a secret, an image, a client: inputs likewise.
- The choice between the two secret references in getUserData: a create attempt starts from the bytes of the chosen secret.
- CSR parsing, X.509 and identity checks: foreign code.
- The control-plane controller and the preflight checks of the cluster controller: one-branch status reporting.
- Integer width: sizes, durations and memory in MiB times 1024*1024 are unbounded here. The conversion of the memory size from floating point is not modelled.
- Retry.RetryThrottled: random draws and outcomes are parameters, time is counted in sleeps only; in the lifecycle its inner sends are the Resend step.
- UserData.NothingElseBoots: SHA-512 is an assumed collision-free digest, the pointer's JSON a datatype, the presigned URL's expiry is not modelled.
- UserData.Base64RoundTrip: the standard decoder also skips line breaks, which the encoder never writes.
- BundleSync.CheckIsExact: keys are strings, there is no NaN, and values are trees without sharing, so normalising a deep copy in place is modelled as a function; a run that ends in an exception is None. Loading YAML and the version check of the script are not modelled.
- BundleDiff.DiffComplete: the order of keys is any enumeration, of which the sorted one the script uses is an instance.
- HostNames.HostNameOK: characters stand for the bytes of the name; bytes outside ASCII are rejected either way.
- CapacityCache.TemplateReconciler.ResolveCapacity: the cloud's answer is a parameter true to the catalogue; overlapping calls are modelled on values beside the class.
- Controller.Client.FindInstanceByTag: the client answers from a script, so the method says which answer it makes of a listing; Controller.ScanIsCurrent says what that means for a complete one.
- Drain.DeletionTerminates: assumes calls succeed, that a stop takes a running instance below running and a release gets a stopped one through; no bound is claimed for failing calls.
