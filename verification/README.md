# Verification of the retycfs CSI driver

The driver mounts Retyc datarooms on Kubernetes nodes: per volume and node one mount pod runs the CLI, kubelet stages
the volume through the pod's FUSE mount and publishes it by bind mounts. This project models

- the life of one volume on one node (`PodSpec`, `Backoff`, `Machine`, `Safety`, `Lifecycle`, `Budget`): the pod and its
  Secrets in the API server, the finalizer, the restart backoff and the give-up, the marks the node plugin keeps,
  kubelet's side of staging and publishing, the garbage collector, the clock;
- the node plugin's code on it (`Node`, `Manager`, `NodeServer`, `Recovery`): Ensure, Delete, the stage, the unstage,
  the recovery and the sweep, call by call, on mutable fields;
- the keyed lock, and any number of threads and volumes under it (`KeyLock`, `Threads`);
- the mount table and the loops that unmount, stack and repair mounts (`MountTable`, `HostMounts`);
- the controller's capacity protocol and the sizes it sends to the CLI (`Controller`, `Sizes`).

## How it fits together

`Machine.World` is everything that exists about one volume. A step is one API call, one operation on the plugin's
memory, or a move of the environment. A step of the driver has a guard in two parts. `Machine.Checked` is what the code
tests before it: that kubelet sent the call, what the section under the volume's lock has itself read or done, the
plugin's memory and the clock, never the API server or the mounts. That Prepare meets no pod object, say, is proved and not assumed. `Machine.Obliged`
is what the code owes without a test of its own: no lock is given back and no pod created while an exit goes uncounted,
no report that is due is dropped. It reads the whole world and the history, and `Manager`, `NodeServer` and `Recovery`
are proved to take no step without it. `Safety.Inv` holds in every reachable world (`Safety.RunKeepsInv`), `Lifecycle`
and `Budget` say what it means over runs, and `Boundaries` and `BudgetRuns` have the runs in which their bounds are met.

`Node.Plugin` has the plugin's memory, the API objects and the host state as fields. Each of its methods updates the
fields for one step of the machine, after whatever the environment did meanwhile (an input script); a ghost run records
the steps, and `Valid()` ties the fields to its last world. `Manager`, `NodeServer` and `Recovery` follow the source
branch by branch on top of these calls, so the proof that they verify is also the proof that the code takes only steps
of the machine: every interleaving of the code with kubelet, the containers, kubectl, the garbage collector, the clock
and late answers is a run. `old(n.script) == []` in a contract means that nothing else happens and no call fails: these
clauses say what the outcome is, as a function of the world before (`Manager.Due`, `Manager.GivesUp`, `Manager.Deleted`,
`NodeServer.StageCode`, `Recovery.Recovers`), while the others hold in every interleaving.
`Threads` puts the machine of each volume under the lock's steps and shows that what happens to one volume is a run of
the machine, whatever the threads do.

## Assumptions

- One lifetime of the node plugin: its memory starts empty.
- An API call is atomic, and one that fails has no effect. A failed pod creation that took effect would lose the
  Secret of a live pod (`internal/mountpod/manager.go:437-439`).
- The clock never goes back. Pod UIDs and Secret names are never reused. A pod whose container ended stays so.
- Only the driver's finalizer is on its pods, nobody else takes it off, and only the driver and the garbage collector delete
  the Secret of a pod that exists. Only the node plugin mounts on pod target paths.
- kubelet publishes on a target path one call at a time. A FUSE device whose daemon is gone does not answer again, and a new
  mount has a device of its own.
- kubelet stages a volume on one path, waits for a stage or unstage it sent before the next one, publishes only a volume it
  staged, and removes the `vol_data.json` of that path only after OK of an unstage or a final code of a stage. Pods and
  `vol_data.json` files of a former kubelet layout can be on other paths; a former node plugin answered OK only with the
  pod on the path.
- The delays are positive and at most 2^62 ns, and MaxFatalExits is at least 1.
- SHA-256 is injective, JSON decoding the inverse of encoding.
- Others change datarooms only within the API's rules: a reservation is never shrunk, nor below 20 GiB; dataroom IDs
  are never reused.

## Where the code does less than one might expect

Each of these is a lemma with a run or an input, and the condition under which the code does meet the expectation.

- A give-up can go without a MountGaveUp event. `Lifecycle.WaivedIff` says exactly when: its report was still due, and
  startOver began it afresh in the same Ensure, its pod being deleted by hand already, or a ready answer to
  NodeGetVolumeStats, which takes no lock (`internal/driver/node.go:707`), came late and reset the counters before the
  section was told. Both happen (`Boundaries.WaivedByStartOver`, `Boundaries.WaivedByLateReset`). All others are
  reported once while no call fails (`Lifecycle.GiveUpReportedOnce`).
- MaxFatalExits does not bound the pods created when exits go uncounted, which happens in two ways. A pod is released
  stuck: RemoveFinalizer of a deleted pod whose container had not ended when it was read, more than stuckAfter past its
  deletion timestamp (`Budget.StuckReleases`). finished() reads the clock each time it is called, so that such a pod can
  become finished between two of the calls in ensureExisting, and is then released uncounted. Or a call fails: a Delete that
  fails between the finalizer's removal and the deletion, and a deletion from outside, drop a pod uncounted
  (`BudgetRuns.FailedDeletesLoseCounts`). With n stuck releases since the last clear and f failed calls at most n + f more
  pods are created (`Budget.FatalBudget`), for all n and f that many are (`BudgetRuns.BudgetIsMet`), and so MaxFatalExits
  is the bound if and only if both are 0 (`BudgetRuns.BudgetIff`).
- A target path can hold more than maxTargetLayers layers. The recovery reads the mount table, probes the pod, and
  rebinds what was dead in that table, while a publish takes no lock when the staging path is healthy. A rebind is
  crossed when unstack finds the top of four or more layers alive, because a publish has replaced it or the daemon of
  a former mount pod still answers, or when the table was read while a publish had removed one layer of four and not
  yet bound its own: then it adds a layer. There are at most maxTargetLayers layers and one for each crossed rebind
  (`HostMounts.LayerBound`), for every number of them there are that many (`HostMounts.BoundIsMet`, and
  `HostMounts.HalfwayCrosses` for the second way), and so maxTargetLayers is the bound if and only if none was crossed
  (`HostMounts.LayersIff`). 28 crossed rebinds leave Unpublish no turn to spare.
- restartDelay is min(base * 2^(n-1), max) for every base and n exactly if max is at most 2^62 ns
  (`Backoff.SafeIff`); above it a base of 2^62 gives a negative delay at the second failure.
- The sweep acts on what it saw. When it stops an orphan no stage or unstage is marked busy and kubelet does not hold the
  volume mounted, but vol_data.json can be there next to the pod's staging path, exactly if kubelet has just sent a stage
  on that path, which waits for the lock (`Lifecycle.LivePodsKept`), and the driver directory can have become unreadable
  since the sweep's own look (`Lifecycle.SweepLooked`). Both happen (`Boundaries.SweepCanBeLate`). A pod of a former kubelet
  layout, on another path, is swept even while kubelet retries a stage on the new one (`Boundaries.FormerPathSwept`).
- Two codes are final for kubelet beside an unfinished pod on the path: the refusal of a spec for good (a claim not found,
  say), when the pod of an earlier stage starts there (`Boundaries.RefusedBesideAPod`), and the Internal of checkStaged,
  exactly when the pod has answered and its mount is not on the path, or does not answer (`Boundaries.MountNotSeen`).
  `NodeServer.NodeStageVolume` has both conditions: a refused spec leaves the pod as it is, so that none mounts the volume
  there afterwards if none did before.
- Two creates of one name that overlap leave two datarooms, each answered with its own ID
  (`Controller.OverlappingCreates`), exactly if the first is made after the second's listing (`Controller.SecondIff`).
- DeleteVolume whose answer is lost returns an error although the dataroom is gone (`Controller.DeleteVolume`).
- Unpublish with exactly 32 layers empties the path and still returns its error (`HostMounts.Host.Unpublish`).
- ControllerExpandVolume asks for less than the current reservation exactly if somebody raises it above the request
  between the listing, which does not cover the request, and the `set` (`Controller.AsksForLessIff`); it happens
  (`Controller.AskForLessHappens`). The API refuses, and the reservation stays.

## Model

| member | source | states |
|---|---|---|
| KeyLock.RunKeepsInv | internal/driver/keylock.go:18-42 | in every interleaving of any threads: refs of every entry is the number of its users, threads between lookup and unlock have the entry in the map, an entry's mutex is held by the one thread inside |
| KeyLock.MutualExclusion | internal/driver/keylock.go:31-34 | two threads between Lock and unlock of one key are one thread |
| KeyLock.OneEntryPerKey | internal/driver/keylock.go:23-28 | all threads between refs++ and refs-- of a key hold one entry, the one in the map |
| KeyLock.KeyExactlyWhileUsed | internal/driver/keylock.go:28-40 | refs counts holders, waiters and threads inside unlock; outside l.mu a key is in the map exactly while it is used |
| KeyLock.NothingLeaks | internal/driver/keylock.go:36-39 | once every thread is out the map is empty |
| KeyLock.NoDeadlock | internal/driver/keylock.go:18-42 | a thread in Lock or unlock can step, or the thread it waits for can |
| Threads.SectionsAreAlone | internal/driver/node.go:162 | whenever a thread that has locked a volume starts its section, no section is open on the volume |
| Threads.VolumeRuns | internal/mountpod/manager.go:125-129 | with any threads on any volumes, what happens to one volume is a run of the machine, so that every theorem about runs holds for it |
| Threads.OneCreationAtATime | internal/mountpod/manager.go:125-129 | with any threads: one section per volume, no Prepare while a pod object exists, no creation that meets a pod |
| Backoff.RestartDelay | internal/mountpod/backoff.go:250-258 | the loop in int64, wrap-around included; min(base * 2^(n-1), max) unless a doubling leaves int64 before the cap, which no max up to 2^62 allows |
| Backoff.NoOverflow | internal/mountpod/backoff.go:253-255 | no doubling overflows for a maximum up to 2^62 |
| Backoff.SafeIff | internal/mountpod/backoff.go:250-258 | the delay is right for every base and every number of failures if and only if the maximum is at most 2^62; above it there is an input whose delay is negative |
| Backoff.DelayMonotone | internal/mountpod/backoff.go:250-258 | more failures never shorten the delay, which never exceeds the maximum |
| Backoff.ForRefines | internal/mountpod/backoff.go:138-148 | whatever config is asked for, the counters of its entry are those of its own history: another config begins with no failure, no give-up and no restart time |
| Backoff.RecordExit | internal/mountpod/backoff.go:152-183 | the update of an entry by an exit is the specified one, with a jitter of at most 10% |
| Backoff.SinceClearIs | internal/mountpod/backoff.go:193-200 | the history that counts is the longest suffix without a reset |
| Backoff.TrailingFatalIs | internal/mountpod/backoff.go:111-112 | the length of the longest suffix of 77/78 exits |
| Backoff.FromStableIs | internal/mountpod/backoff.go:108-110 | the exits from the latest stable one on |
| Backoff.RecordRefines | internal/mountpod/backoff.go:157-175 | after one more exit the counters still say what the exit history says: failures from the latest stable exit, trailing fatal exits, give-up once the limit was reached |
| Backoff.ResetRefines | internal/mountpod/backoff.go:193-226 | a reset, or startOver, starts the counted history afresh and keeps the last pod counted |
| Backoff.CountedOnce | internal/mountpod/backoff.go:158-160 | a pod seen again right after it was counted changes nothing |
| Backoff.NextRestartWindow | internal/mountpod/backoff.go:172-180 | NextRestart is between d and 1.1 d after the exit for the delay d of the history, or there is a give-up without a restart time |
| PodSpec.MergeResources | internal/mountpod/pod.go:179-199 | the merge loops give the spec's quantities over the configured ones, and lower a default request to its limit |
| PodSpec.Merged | internal/mountpod/pod.go:176-199 | what the spec requests is kept, and no default request exceeds its limit |
| PodSpec.ReadBackBuilt | internal/mountpod/manager.go:580-605 | the Spec read back from the pod and Secret built from a spec is that spec, with the node's cache settings |
| PodSpec.SameHashIff | internal/mountpod/pod.go:159-174 | the replacement has the dead pod's config hash exactly when cache, image and merged resources are what they were |
| PodSpec.StagingUnderPlugins | internal/mountpod/manager.go:202-209 | an accepted staging path is below the plugins directory, at least two levels deep |
| PodSpec.StagingIff | internal/mountpod/manager.go:202-209 | accepted if and only if the path is two or more names below the plugins directory |
| PodSpec.SpecOkIff | internal/mountpod/pod.go:112-122 | a spec is valid if and only if its node is named, its volume is a name without NUL, its credentials are complete and its staging path is accepted |
| Safety.RunKeepsInv | internal/mountpod/manager.go:123-129 | every reachable world has the invariant: names fresh, sections' knowledge true, Secrets kept, give-ups quiet, counters, creations and reports accounted for, pods in use unharmed |
| Safety.EnvKeepsInv | internal/driver/recovery.go:38-58 | kubelet, containers, kubectl, garbage collector, clock and late answers keep it at any moment |
| Safety.DriverKeepsInv | internal/mountpod/manager.go:312-628 | each step the driver's guards allow keeps it |
| Safety.CountExitKeepsInv | internal/mountpod/manager.go:395-409 | counting the exit of a finished pod keeps it, above all that every UID is counted once and a give-up is quiet |
| Safety.StripKeepsInv | internal/mountpod/manager.go:609-628 | removing the finalizer of a finished pod keeps it |
| Safety.CreatePodKeepsInv | internal/mountpod/manager.go:433-451 | a creation keeps it, above all that the spec can be read back and the pod's Secret is there |
| Lifecycle.NeverBesideAPod | internal/mountpod/manager.go:414-428 | Prepare never runs while a pod object exists; the creation never meets AlreadyExists |
| Lifecycle.CreationsAreDue | internal/mountpod/manager.go:334-342 | a pod appears only by a creation, with a new UID, and only of the config whose restart state allows it: not given up, restart time reached |
| Lifecycle.NextRestartIs | internal/mountpod/backoff.go:177-180 | over any run NextRestart is the delay due after the last counted exit, with at most 10% of jitter |
| Lifecycle.RestartSpacing | internal/mountpod/manager.go:338-342 | no pod of a config is created sooner after the last counted exit than the delay its failures call for, unless the restart state was cleared |
| Lifecycle.CountersRefineHistory | internal/mountpod/backoff.go:105-136 | over any run: failures, fatal exits and the give-up are functions of the exit history, in which each pod is once, in the order of creation |
| Lifecycle.GivenUpMeansQuiet | internal/mountpod/backoff.go:172-176 | a given-up volume has MaxFatalExits fatal exits, no restart time, and no pod but the finished one counted last |
| Lifecycle.GiveUpLasts | internal/mountpod/backoff.go:120-124 | no step creates a pod while given up; only another config, a deletion by hand, an unstage, the sweep or a late ready answer ends it |
| Lifecycle.NothingCreatedWhileGivenUp | internal/mountpod/backoff.go:202-213 | over any stretch of a run without such a step nothing is created and the give-up stands |
| Lifecycle.SweepWaits | internal/driver/recovery.go:159-167 | the sweep forgets no give-up within orphanGrace of the last stage that found it |
| Budget.RunKeepsCharged | internal/mountpod/manager.go:559-574 | over any run at most one pod is released uncounted, but for those stuck, with each call that failed; a section that owes a count has no pod in use |
| Budget.FatalBudget | internal/mountpod/backoff.go:167-175 | if all exits since the last clear were 77/78, at most MaxFatalExits pods were created since, the next one included, besides those gone uncounted: those released stuck, and one with each failed call, so that n and f of them allow at most n + f more |
| Budget.StuckReleases | internal/mountpod/manager.go:762-775 | a stuck release is RemoveFinalizer of a deleted pod read before its container ended, more than stuckAfter past its deletion timestamp |
| BudgetRuns.BudgetIsMet | internal/mountpod/manager.go:350-383 | for every MaxFatalExits, n and f there is a run with n stuck releases, f failed calls and MaxFatalExits + n + f pods created between two clears |
| BudgetRuns.BudgetIff | internal/mountpod/manager.go:350-383 | m bounds the pods created in all runs with n stuck releases and f failed calls if and only if m >= MaxFatalExits + n + f; MaxFatalExits does exactly while both are 0 |
| BudgetRuns.FailedDeletesLoseCounts | internal/mountpod/manager.go:559-574 | for every f: f failed Deletes and f pods that ended with 77, none counted, and one more created, whatever MaxFatalExits is |
| Lifecycle.OnlyReleaseDropsPod | internal/mountpod/manager.go:559-574 | the finalizer goes only from a finished pod by RemoveFinalizer's patch; with it the pod object stays, whoever deletes it; it vanishes only when finished |
| Lifecycle.SecretStays | internal/mountpod/pod.go:280-295 | as long as a pod object exists its Secret exists; collecting a former pod's Secret never takes it |
| Lifecycle.RecreationKeepsConfig | internal/mountpod/manager.go:576-605 | at any moment of a pod's life SpecOf gives a valid spec with the pod's own hash and staging path |
| Lifecycle.ExitEmittedOnce | internal/driver/node.go:486-496 | no exit is emitted twice, early and at the release together; one reported at its release was emitted |
| Lifecycle.GiveUpReportedOnce | internal/driver/node.go:321-335 | in every world of every run, whatever failed, there is at most one MountGaveUp since the latest give-up; while no call failed, each give-up was reported, waived, or its report is due to the section in progress |
| Lifecycle.WaivedIff | internal/mountpod/backoff.go:214-226 | a report is waived if and only if it is due and startOver begins the give-up afresh, or a ready answer comes late before the section was told |
| Boundaries.WaivedByStartOver | internal/mountpod/manager.go:358-363 | the first happens: counted and started over in one Ensure, one give-up, no report |
| Boundaries.WaivedByLateReset | internal/driver/node.go:700-711 | the second happens, with a pod that ran before it ended |
| Lifecycle.LivePodsKept | internal/driver/recovery.go:278-297 | neither the orphan sweep nor a changed config stops a pod while a target path carries a layer of its volume; the sweep stops none while a stage or unstage is marked busy or kubelet holds the volume mounted, and with vol_data.json next to the pod's own staging path only when kubelet has just sent a stage on it |
| Lifecycle.SweepLooked | internal/driver/recovery.go:48-58 | when the sweep stops a pod, the same section found the driver directory readable and no vol_data.json next to the pod's staging path |
| Boundaries.SweepCanBeLate | internal/driver/recovery.go:200-218 | the sweep does stop a pod with vol_data.json written, or the directory unreadable, after its look |
| Boundaries.FormerPathSwept | internal/driver/recovery.go:200-218 | it does stop a pod on a former path while kubelet retries a stage on the new one |
| Node.Plugin.Await | internal/mountpod/manager.go:123-129 | between two calls only the environment moves, and the fields follow it |
| Node.Plugin.BackoffState | internal/mountpod/backoff.go:185-191 | the entry used is that of the config, and the section knows what it says |
| Node.Plugin.RecordExit | internal/mountpod/backoff.go:150-183 | the fields after recordExit are those of the machine's step |
| Node.Plugin.StartOver | internal/mountpod/backoff.go:220-226 | the fields after startOver |
| Node.Plugin.ForgetUnlessGaveUp | internal/mountpod/backoff.go:202-212 | the entry goes, unless it gave up |
| Node.Plugin.ForgetReleased | internal/mountpod/backoff.go:231-235 | the entry goes, a give-up included |
| Node.Plugin.SwapGaveUp | internal/driver/node.go:327-331 | the mark gets this stage's time; a report is due when there was none |
| Node.Plugin.StoreGaveUp | internal/driver/recovery.go:265-270 | an existing mark stays; a report is due when there was none |
| Node.Plugin.ReportEarly | internal/driver/node.go:565-575 | the exit is emitted unless it was, and marked |
| Node.Plugin.ReportReleased | internal/driver/node.go:486-496 | the exit is emitted unless it is marked, and the mark is consumed |
| Node.Plugin.IsBusy | internal/driver/node.go:146-150 | the mark counts for ten minutes |
| Node.Plugin.IsStaged | internal/driver/recovery.go:48-58 | staged when vol_data.json is next to the path asked for or the driver directory cannot be read, not for an empty path |
| Node.Plugin.RemoveFinalizer | internal/mountpod/manager.go:607-628 | the finalizer is gone from the pod read, or the call failed; no call for a pod without it |
| Node.Plugin.DeletePodNow | internal/mountpod/manager.go:565-573 | deletion without grace of the pod read |
| Node.Plugin.PostSecret | internal/mountpod/manager.go:433-436 | a Secret with a new name, the spec's credentials and no owner |
| Node.Plugin.PostPod | internal/mountpod/manager.go:437-446 | the pod of the spec with the finalizer and the Secret's name, AlreadyExists exactly when there is a pod, or no effect |
| Node.Plugin.PatchOwner | internal/mountpod/manager.go:472-481 | the pod becomes the owner of its Secret |
| Node.Plugin.Ready | internal/mountpod/manager.go:630-662 | an answer resets the backoff, anything else changes nothing |
| Manager.IsFinished | internal/mountpod/manager.go:762-775 | the answer is that of the clock at the end of the call |
| Manager.Release | internal/mountpod/manager.go:559-574 | the pod object is gone and its release known to the section, or a call failed; the restart state is untouched |
| Manager.DeleteSecrets | internal/mountpod/manager.go:484-503 | without failed calls no Secret of the volume is left, or only owned ones |
| Manager.OwnSecret | internal/mountpod/manager.go:454-482 | the Secret the pod names has the pod as owner as long as the pod is there, or a call failed |
| Manager.CountExit | internal/mountpod/manager.go:393-409 | the exit is counted for the config ensured, an exit of another config changes nothing; no give-up escapes its report |
| Manager.Assess | internal/mountpod/manager.go:352-363 | the pod is counted, the section knows of a give-up exactly when it stands, and a pod deleted by hand is not given up |
| Manager.EnsureExisting | internal/mountpod/manager.go:350-383 | the pod stays and the state says why, or it is finished, due and released; if nothing else happens it is released exactly when a new one is due, and a give-up told exactly when one stands that does not start over |
| Manager.Create | internal/mountpod/manager.go:411-452 | a pod of spec's config on spec's staging path that owns its Secret, or a call failed; if nothing else happens no Secret is left without an owner |
| Manager.CreateWhenDue | internal/mountpod/manager.go:334-343 | a pod that is due is created, none before its time and none after a give-up; if nothing else happens, created exactly when due |
| Manager.Ensure | internal/mountpod/manager.go:301-343 | the end of a pod of spec's config is counted, whatever becomes of the pod, and no section is left that released one uncounted; without failed calls a pod in use before leaves a pod in use after; a give-up creates nothing and leaves no unfinished pod; an invalid spec touches nothing; a pod created runs spec's config on its path; no give-up escapes its report. If nothing else happens: a new pod exactly when there is none or a dead one, and its end is counted or of another config and the restart time reached, or its give-up was deleted by hand; otherwise the pod is as it was, and the error that of a give-up exactly when one stands |
| Manager.ForgetGone | internal/mountpod/manager.go:535-539 | the restart state goes, a give-up stays unless the pod was being deleted |
| Manager.Delete | internal/mountpod/manager.go:513-557 | Exited or Absent: no pod object, no Secret without failed calls, the restart state gone but for a give-up; Terminating: the pod is being deleted; nothing is left unsettled. If nothing else happens: Absent exactly without a pod, Exited exactly for a finished one, which is gone then, and Terminating for any other, which is being deleted, with the grace period unless it was before |
| NodeServer.StageGaveUp | internal/driver/node.go:321-335 | an event exactly when there was no mark, and the mark has the time of this stage |
| NodeServer.ReportExit | internal/driver/node.go:481-496 | the exit of a released pod is emitted, once over all |
| NodeServer.ReportExitEarly | internal/driver/node.go:562-575 | the exit of a dead pod that stays is emitted, once over all |
| NodeServer.Recreate | internal/driver/node.go:359-375 | OK: no pod object, its exit reported, the restart state fresh; if nothing else happens OK exactly without a pod or with a finished one, Aborted for one that is then being deleted |
| NodeServer.Restage | internal/driver/node.go:337-357 | refused, and the pod left alone, only while its path is mounted, and always if nothing else happens; recreated otherwise, with the same answers |
| NodeServer.EnsureOnce | internal/driver/node.go:264-279 | what each outcome of Ensure means for the stage, and when its error is final; if nothing else happens FailedPrecondition exactly for a give-up that does not start over, OK otherwise |
| NodeServer.Replace | internal/driver/node.go:280-310 | a pod has to go exactly when it is being deleted, is on another path, or has another config and the volume is not published; if nothing else happens it is refused exactly for a pod that starts or runs on another, mounted path, and OK exactly once it is gone |
| NodeServer.CheckReady | internal/driver/node.go:377-406 | OK only for a running pod that answered, and if nothing else happens exactly for that; a dead pod's exit is reported |
| NodeServer.EnsureMounted | internal/driver/node.go:239-316 | OK: the pod runs, answered, mounts spec's staging path, runs spec's config or the volume was seen published; a final code: no unfinished pod mounts that path, given complete credentials. If nothing else happens two of the four rounds are enough, and: OK exactly for a running pod that answers, on the path, of spec's config or published; FailedPrecondition exactly for a give-up that does not start over, or a pod on another, mounted path; otherwise Aborted, and a new pod exactly when one is due or the dead one was being deleted, the one there deleted exactly if it starts or runs and does not fit |
| NodeServer.NodeStageVolume | internal/driver/node.go:152-180 | kubelet's answer, the busy mark exactly while it is told Aborted; every give-up marked and, while no call failed, reported or waived; the stage's final codes: none with an unfinished pod on the path but Internal, when the mount is not seen or does not answer, and the code of a refused spec, which leaves the pod as it is. If nothing else happens: EnsureMounted's answer and pod, its OK being Internal exactly when the mount is not on the path or does not answer |
| Boundaries.RefusedBesideAPod | internal/driver/node.go:188-230 | a refused stage is final for kubelet while an unfinished pod mounts the path |
| Boundaries.MountNotSeen | internal/driver/node.go:416-436 | so is the Internal of checkStaged, for a running pod that answered |
| NodeServer.NodeUnstageVolume | internal/driver/node.go:438-479 | OK: no pod, no Secret without failed calls, nothing remembered, nothing mounted on the staging path; Aborted: the pod is on its way out; anything else is retried; every give-up marked and reported or waived. If nothing else happens: OK exactly without a pod or with a finished one, whose exit is emitted; otherwise Aborted, and the pod is being deleted |
| Recovery.SpecOf | internal/mountpod/manager.go:576-605 | the spec of the pod; of a pod of this plugin that exists, valid and with the pod's own hash; if nothing else happens, what its annotations and its Secret say |
| Recovery.Restart | internal/driver/recovery.go:230-256 | the exit is emitted, the record of the volume is kept, a replacement has the dead pod's hash and staging path, a give-up creates nothing. If nothing else happens: a new pod exactly when one is due, given up exactly for a give-up that does not start over, failed only for an invalid config, which no pod of this plugin has |
| Recovery.ReportGaveUp | internal/driver/recovery.go:262-276 | an event exactly when there was no mark, and there is one |
| Recovery.CheckRunning | internal/driver/recovery.go:221-229 | a pod that answers ends a give-up and its mark, and the targets that were dead in the mount table read before are rebound on its own staging path; one that does not answer is left alone, mounts included; if nothing else happens rebound exactly if it answers |
| Recovery.DeleteOrphan | internal/driver/recovery.go:278-297 | one step of the deletion; the Manager keeps a give-up; if nothing else happens a finished pod is gone and its exit emitted, another is being deleted |
| Recovery.RecoverVolume | internal/driver/recovery.go:196-260 | only an unbound, unstaged and idle volume loses its pod; otherwise a pod in use stays or is replaced while no call fails; mounts change only by the rebind of a pod that answered. If nothing else happens: no pod exactly without one; an orphan exactly if it is not bound, not held by kubelet and not busy, and then deleted; left exactly if busy, starting, or running without an answer; rebound exactly if running and answering; a dead or dying pod of a held volume reported and restarted as by Restart |
| Recovery.Sweep | internal/driver/recovery.go:141-170 | what is forgotten has no pod and no stage that found it within orphanGrace; otherwise nothing changes; if nothing else happens it is forgotten exactly if it is not busy, not held by kubelet, without a pod and past that time |
| MountTable.TopMount | internal/driver/recovery.go:467-480 | the loop finds the last entry of a path, none for an empty path |
| MountTable.Layers | internal/driver/recovery.go:334-344 | the loop counts the stack of a path |
| MountTable.Binds | internal/driver/recovery.go:378-389 | each target path with a layer of the volume, once |
| MountTable.DeadTargets | internal/driver/recovery.go:482-508 | the single pass finds exactly the target paths whose top, asked path by path, is a dead mount of the volume, each once |
| MountTable.BoundIffListed | internal/driver/recovery.go:378-399 | a target path carries a layer of the volume exactly when an entry of the table says so |
| MountTable.RemoveTopStack | internal/mount/bind.go:89-92 | removing the top entry of a path takes its top layer and nothing else |
| MountTable.PushStack | internal/mount/bind.go:66-74 | a new entry is the top layer of its path and nothing else |
| HostMounts.Host.Unpublish | internal/mount/bind.go:79-141 | each turn takes one layer of the path only, whatever umount answers; it succeeds exactly up to 31 layers, and empties 32 with an error |
| HostMounts.Host.UnmountAll | internal/driver/recovery.go:535-559 | succeeds exactly up to 8 layers, of the path only |
| HostMounts.Host.Unstack | internal/driver/recovery.go:346-368 | takes at most 8 layers of the dead run on top, never the bottom layer unless somebody else unmounts; success on a short stack of dead layers leaves at most the bottom one |
| HostMounts.UnstackedIs | internal/driver/recovery.go:349-358 | the run taken ends at a live layer, the bottom one or the bound |
| HostMounts.Host.BindMount | internal/mount/bind.go:45-77 | a dead top layer is replaced, a live one kept, an empty path gets one; whatever fails, layers on top go or the new one is there; undisturbed it succeeds exactly unless umount does not take the dead top layer |
| HostMounts.Host.Rebind | internal/driver/recovery.go:299-327 | paths not dead in the table read before keep their layers, the staging path included; a dead one with n layers in it gets one layer, whatever the staging path holds now, as read-only as the top one read, on all its present layers, or on those that unstack leaves if n is four or more; a failure leaves less, or that layer still writable. If the table has not changed since, no dead target of the volume is left after success, each repaired one being a prefix of its old stack with its bottom layer, plus one live layer |
| HostMounts.LayerBound | internal/driver/recovery.go:329-332 | in every interleaving of replacements, publishes, table readings, repairs and unpublishes, call by call and failed ones included, a target path never has more than maxTargetLayers layers and one for each rebind that was crossed; up to 27 of those leave Unpublish turns to spare |
| HostMounts.LayersIff | internal/driver/recovery.go:329-332 | m layers are enough for every sequence with n crossed rebinds if and only if m >= maxTargetLayers + n: maxTargetLayers are exactly if none was crossed |
| HostMounts.BoundIsMet | internal/driver/recovery.go:203-229 | for every n there is a sequence with n crossed rebinds and maxTargetLayers + n layers: each time a publish replaces the dead top layer after the table was read |
| HostMounts.HalfwayCrosses | internal/driver/recovery.go:313-324 | the other way to five layers: the table is read between a publish's unmount and its bind |
| HostMounts.RebindHappens | internal/driver/recovery.go:313-324 | what Host.Rebind leaves on a target, disturbed or not and however old the table it was read in, is what those events leave; crossed exactly if it adds a layer to several, the top one alive, where four or more were read, or to three read during a publish |
| HostMounts.BindMountHappens | internal/mount/bind.go:47-77 | so is what Host.BindMount leaves, whatever its source holds |
| Sizes.FormatSize | internal/retycclient/client.go:364-381 | the text denotes exactly the bytes, in the largest unit that divides them; zero and negative sizes denote nothing |
| Sizes.DecimalDenotes | internal/retycclient/client.go:376-380 | the decimal digits of a number denote it |
| Controller.ReservedBytesIs | internal/driver/controller.go:150-171 | 0 for an unset range; otherwise the smallest accepted reservation that meets it, or an error: then a bound is negative or nothing meets it |
| Controller.RetryCreates | internal/driver/controller.go:208-241 | however often a create is retried, lost answers included, while others leave the datarooms of its name alone: at most one of that name is added, and every answer that gives a volume gives the ID and size of the one that has the name in the end |
| Controller.CreateVolume | internal/driver/controller.go:173-265 | refused before anything is created, or a dataroom of that name within the range; what it answers and leaves is determined by what its three calls meet, lost answers included; a volume if and only if the listing is answered and shows a dataroom of the name in the range, or none while the account may have another and the two other calls are answered; alone and answered, that dataroom or a new one of exactly the size asked; others never see a reservation shrink |
| Controller.SecondIff | internal/driver/controller.go:208-241 | a create leaves a second dataroom of its name if and only if somebody made one after its listing |
| Controller.OverlappingCreates | internal/driver/controller.go:215-216 | two creates that overlap both give a volume, with two datarooms and two IDs |
| Controller.RetryCreatesAlone | internal/driver/controller.go:243-265 | when nobody else uses the store, all the retries together add that dataroom or nothing |
| Controller.DeleteVolume | internal/driver/controller.go:307-334 | success means that the dataroom is gone, by this call or before; an error that the call failed, or that its answer was lost and the dataroom is gone all the same |
| Controller.RetryExpands | internal/driver/controller.go:356-375 | however often an expand is retried, lost answers included, while others leave its dataroom alone: the reservation is raised once or not at all, and every answer gives the same size, at least the request |
| Controller.AsksForLessIff | internal/driver/controller.go:348-375 | a set asks for less than the current reservation if and only if the listing did not cover the request and somebody raised the reservation above it before the set; it is refused and the reservation stays |
| Controller.AskForLessHappens | internal/driver/controller.go:348-375 | a script in which it does |
| Controller.ControllerExpandVolume | internal/driver/controller.go:341-384 | the volume reserves what is reported, at least the request and 20 GiB; at most one set; what it asks, answers and leaves is determined by what its two calls meet; a volume if and only if the listing is answered and covers the request, or the set is answered and accepted; alone and answered, the larger of the reservation and the request, or NotFound without the dataroom; no reservation ever shrinks |
| Controller.Store.Set | internal/retycclient/client.go:334-349 | the API takes the size the text denotes, refuses a shrink, and keeps every other dataroom |

## Left out

- Kubernetes client calls, informers, the work queue and HTTP probes of `internal/driver/watch.go`: only their effects are steps of the environment or inputs.
- `main.go`, `internal/health`, identity and metrics servers, Helm charts: wiring.
- Running the CLI, JSON, regular expressions, SHA-256, mount system calls: inverses, injections and operations on the mount table.
- Event texts, log messages, ExitLabel and LostWrites, so that every exit with a code is a report: which Event it is (none for a clean exit) is not modelled.
- Annotation, config and tenant parsing, label values, mount arguments: one-branch helpers. stageSpec is an input: the spec it built, or the code it refused with.
- Real files: Prepare is "staging unmounted, spool emptied"; the removal of a target directory by unmount is not modelled.
- The mounts of `HostMounts` and the paths of `Machine` are not one state: the machine knows which target paths carry a layer and which staging paths a mount, and the mount table that `Recovery.RecoverVolume` reads is an input, tied neither to those paths nor to the mounts it rebinds.
- ControllerModifyVolume, capability checks and secrets of the controller: one-branch checks, inputs of the requests.
- Recover's listing of all pods, its metrics and warnPodless: each volume is recovered on its own.
- The order of NodePublishVolume's repair and its bind: repairStaging is RecoverVolume with staged set.
- Node.Plugin.Lock: does not model waiting, because the other threads' steps are the subject of Threads; a section starts when the lock is free.
- KeyLock and Threads are machines over steps and not classes: interleavings of several threads are what they are about.
- Backoff.RestartDelay: beyond 2^62 ns what the delay is good for is not stated, because the value after a wrap-around promises nothing.
