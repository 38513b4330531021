/** One volume on one node as a state machine: the API server's pod and Secrets, the memory the node
    plugin keeps about the volume, kubelet, the clock. A step is one API call, one operation on the
    memory, or one move of the environment. What the driver has checked before a step (Checked) is
    what the section under the volume's lock has itself read or done. What it owes (Obliged) is proved
    of the code in Manager, NodeServer and Recovery, which take no step without it. */
module Machine {
  import opened Base
  import opened PodSpec
  import B = Backoff

  /** stuckAfter, orphanGrace and busyFor, in nanoseconds. */
  const STUCK_AFTER: nat := 60_000_000_000
  const ORPHAN_GRACE: nat := 1_800_000_000_000
  const BUSY_FOR: nat := 600_000_000_000

  type Hash = ConfigHash
  type Entry = B.Entry<Hash>

  // ---------------------------------------------------------------- API server

  /** The mount container, or how the pod ended: its exit code (none when it was evicted before start or
      lost with its node) and how long it ran. */
  datatype Status = Waiting | Running | Ended(code: Option<int>, ran: nat)

  /** inUse: the finalizer is on the pod. deletedAt: its deletion timestamp. */
  datatype Pod = Pod(uid: Uid, ann: Annotations, status: Status, deletedAt: Option<nat>, inUse: bool)

  datatype Secret = Secret(data: SecretData, owner: Option<Uid>)

  /** Manager.finished. */
  predicate Finished(p: Pod, now: nat) {
    p.status.Ended? || (p.deletedAt.Some? && now > p.deletedAt.value + STUCK_AFTER)
  }

  function ExitCode(p: Pod): Option<int> { if p.status.Ended? then p.status.code else None }

  /** countExit's code and running time. */
  function CountedCode(p: Pod): int { if ExitCode(p).Some? then ExitCode(p).value else -1 }

  function RanFor(p: Pod): nat { if p.status.Ended? then p.status.ran else 0 }

  /** What can become of a pod object read earlier. */
  predicate Evolves(p: Pod, q: Pod) {
    && q.uid == p.uid && q.ann == p.ann
    && (p.status.Ended? ==> q.status.Ended?)
    && (p.status.Running? ==> !q.status.Waiting?)
    && (p.deletedAt.Some? ==> q.deletedAt.Some? && q.deletedAt.value <= p.deletedAt.value)
    && (q.inUse ==> p.inUse)
  }

  // ---------------------------------------------------------------- kubelet

  /** OK; a code kubelet takes as final; Aborted, Unavailable or a failed unstage, which it retries. */
  datatype Verdict = Accepted | Final | Retry

  /** kubelet's operations on one volume: it waits for its call, and publishes only a volume it staged. */
  datatype Kubelet =
    | Released
    | StageSent
    | StageAnswered(verdict: Verdict)
    | Staged
    | UnstageSent
    | UnstageAnswered(verdict: Verdict)

  // ---------------------------------------------------------------- a section under the volume's lock

  datatype Kind = Stage | Unstage | Recovery | Sweep

  /** What the section knows of the pod object, from its own calls. */
  datatype Know =
    | Unread
    | Saw(pod: Pod)
    | Stripped(pod: Pod)                  // its finalizer was removed, or was not there
    | SawAbsent                           // not found, or released by this section
    | Prepared                            // Prepare ran since
    | Holding(secret: SecretId, spec: Spec) // the next pod's Secret was created

  /** What the section saw of the host. bound, unbound: a target path carried a layer, or none did; unstaged:
      vol_data.json was absent next to the staging path; idle: no stage or unstage was marked busy. ready: the pod whose /readyz answered. */
  datatype View = View(bound: bool, unbound: bool, unstaged: bool, idle: bool, ready: Option<Uid>)

  /** home: the staging path of the first pod read. may: the restart state allows a pod of this config. told: it said
      that the volume gave up. owes: a pod was released uncounted, so that the restart state has to be forgotten.
      released: the pod released, its exit still to be reported. */
  datatype Section = Section(kind: Kind, view: View, know: Know, home: Option<Path>, may: Option<Hash>, told: bool,
                             owes: bool, released: Option<Pod>)

  // ---------------------------------------------------------------- history

  datatype Reason = Unstaging | Orphaned | ConfigChanged | Restaged

  /** A graceful deletion by the driver, with what held at that moment. */
  datatype Stop = Stop(uid: Uid, reason: Reason, bound: bool, staged: bool)

  /** epoch: what the entry went through since it was made. made, stuck: since the last clear of the restart state, the
      pods created, and those released on a read in which their container had not ended. */
  datatype Tally = Tally(epoch: seq<B.Seen>, made: set<Uid>, stuck: set<Uid>)

  /** emitted, closed: exits emitted, pods reported at their release. episodes, reports, waived: give-ups,
      MountGaveUp events, give-ups cleared before they were reported. */
  datatype Log = Log(emitted: multiset<Uid>, closed: set<Uid>, episodes: nat, reports: nat, waived: nat)

  /** failures: the number of calls that failed. */
  datatype History = History(tally: Tally, log: Log, stops: seq<Stop>, failures: nat)

  // ---------------------------------------------------------------- the world

  /** path: where kubelet stages the volume. Pods of a former kubelet layout have another staging path. */
  datatype Setup = Setup(volume: VolumeId, node: string, cfg: NodeConfig, cache: Cache, policy: B.Policy, path: Path, firstUid: Uid)

  /** NodeServer's busy, gaveUp and exitReported, for the volume. */
  datatype Marks = Marks(busy: Option<nat>, gaveUp: Option<nat>, reported: set<Uid>)

  /** kubelet, the staging paths with a vol_data.json, whether the driver directory can be read, the target paths with a
      layer, the staging paths with a mount. */
  datatype Host = Host(kubelet: Kubelet, volData: set<Path>, readable: bool, binds: set<Path>, mounts: set<Path>)

  datatype World = World(
    setup: Setup, clock: nat,
    pod: Option<Pod>, secrets: map<SecretId, Secret>, nextUid: Uid, nextSecret: SecretId,
    entry: Option<Entry>, marks: Marks, host: Host,
    sec: Option<Section>, hist: History)

  const NO_TALLY := Tally([], {}, {})
  const NO_HISTORY := History(NO_TALLY, Log(multiset{}, {}, 0, 0, 0), [], 0)

  /** The annotations are those of a mount pod of the volume, made by this node plugin or a former one. */
  predicate OfVolume(setup: Setup, a: Annotations) {
    && a.volume == setup.volume && a.node == setup.node
    && IsPathComponent(a.volume) && a.node != "" && StagingOk(setup.cfg, a.staging)
  }

  /** kubelet was told OK: the volume is mounted on its path. */
  predicate Mounted(w: World) { w.host.kubelet.Staged? || w.host.kubelet == StageAnswered(Accepted) }

  /** The pod mounts the volume where kubelet stages it. */
  predicate OnPath(w: World) { w.pod.Some? ==> w.pod.value.ann.staging == w.setup.path }

  /** The node plugin starts: its memory is empty, a pod and Secrets of a former one may be there. */
  predicate Initial(w: World) {
    && B.PolicyOk(w.setup.policy) && 0 < w.clock
    && w.entry.None? && w.marks == Marks(None, None, {}) && w.sec.None? && w.hist == NO_HISTORY
    && w.setup.firstUid == w.nextUid
    && (w.pod.Some? ==>
          w.pod.value.uid < w.nextUid && OfVolume(w.setup, w.pod.value.ann) && w.pod.value.ann.secret in w.secrets &&
          w.secrets[w.pod.value.ann.secret].owner in {None, Some(w.pod.value.uid)} &&
          (w.pod.value.inUse || Finished(w.pod.value, w.clock)))
    && (forall s :: s in w.secrets ==> s < w.nextSecret && (w.secrets[s].owner.Some? ==> w.secrets[s].owner.value < w.nextUid))
    && (w.host.kubelet.Released? || w.setup.path in w.host.volData) && (Mounted(w) ==> OnPath(w))
  }

  function SpecHash(w: World, s: Spec): Hash { HashOf(w.setup.cfg, s) }

  predicate GaveUp(w: World) { w.entry.Some? && w.entry.value.backoff.gaveUp }

  predicate IsBusy(w: World) { w.marks.busy.Some? && w.clock - w.marks.busy.value < BUSY_FOR }

  /** kubeletStaged. */
  predicate KubeletStaged(w: World, staging: Path) { staging != "" && (!w.host.readable || staging in w.host.volData) }

  /** What reading a Secret finds. */
  function Stored(w: World, s: SecretId): Option<SecretData> {
    if s in w.secrets then Some(w.secrets[s].data) else None
  }

  // ---------------------------------------------------------------- environment

  /** Tick: the clock. Start, End, Delete: the container, kubectl or an eviction. Reap: the API server removes a
      deleted pod without finalizer. Collect: the garbage collector. LateReset: NodeGetVolumeStats saw a pod
      ready, without the volume's lock. Mounts, Unmounts: a mount process, on a staging path. The rest is kubelet;
      Forgets: it drops the vol_data.json of a former layout. */
  datatype EnvAction =
    | Tick(d: nat)
    | Start
    | End(code: Option<int>, ran: nat)
    | OutsideDelete(grace: nat)
    | Reap
    | Collect(s: SecretId)
    | LateReset
    | SetReadable(b: bool)
    | SendStage
    | SendUnstage
    | TakeAnswer
    | Forgets(path: Path)
    | Publish(target: Path)
    | Unpublish(target: Path)
    | Mounts(path: Path)
    | Unmounts(path: Path)

  function NoPod(w: World): World { w.(pod := None) }

  function Cleared(w: World): World
    requires w.entry.Some?
  {
    w.(entry := Some(B.Reset(w.entry.value)),
       hist := w.hist.(tally := Tally(w.hist.tally.epoch + [B.Clear], {}, {})))
  }

  /** A report is due: for a give-up that is not marked, and that lasts or that the section was told of. */
  predicate Owed(w: World) { w.marks.gaveUp.None? && (GaveUp(w) || (w.sec.Some? && w.sec.value.told)) }

  /** The give-ups reported, waived or still to be reported. */
  function Answered(w: World): nat { w.hist.log.reports + w.hist.log.waived + (if Owed(w) then 1 else 0) }

  /** w' without the report that was due in w, if it no longer is. */
  function Waived(w: World, w': World): World {
    if Owed(w) && !Owed(w') then Waiver(w') else w'
  }

  function Waiver(w: World): World { w.(hist := w.hist.(log := w.hist.log.(waived := w.hist.log.waived + 1))) }

  function Forgotten(w: World): World {
    w.(entry := None, sec := if w.sec.Some? then Some(w.sec.value.(may := None, told := false, owes := false)) else None,
       hist := w.hist.(tally := NO_TALLY))
  }

  function WithDeletion(p: Pod, at: nat): Pod {
    p.(deletedAt := Some(if p.deletedAt.Some? then Min(p.deletedAt.value, at) else at))
  }

  /** A move of the environment; a move that is not possible changes nothing. */
  function EnvStep(w: World, e: EnvAction): World {
    match e
    case Tick(d) => w.(clock := w.clock + d)
    case Start =>
      if w.pod.Some? && w.pod.value.status.Waiting? then w.(pod := Some(w.pod.value.(status := Running))) else w
    case End(code, ran) =>
      if w.pod.Some? && !(w.pod.value.status.Ended? && w.pod.value.status.code.Some?)
      then w.(pod := Some(w.pod.value.(status := Ended(code, ran)))) else w
    case OutsideDelete(grace) =>
      if w.pod.Some? then w.(pod := Some(WithDeletion(w.pod.value, w.clock + grace))) else w
    case Reap => if w.pod.Some? && !w.pod.value.inUse && w.pod.value.deletedAt.Some? then NoPod(w) else w
    case Collect(s) =>
      if s in w.secrets && w.secrets[s].owner.Some? && !(w.pod.Some? && w.pod.value.uid == w.secrets[s].owner.value)
      then w.(secrets := w.secrets - {s}) else w
    case LateReset => if w.entry.Some? then Waived(w, Cleared(w)) else w
    case SetReadable(b) => w.(host := w.host.(readable := b))
    case SendStage =>
      if w.host.kubelet.Released? || w.host.kubelet.Staged? || w.host.kubelet == StageAnswered(Retry) || w.host.kubelet == UnstageAnswered(Retry)
      then w.(host := w.host.(kubelet := StageSent, volData := w.host.volData + {w.setup.path})) else w
    case SendUnstage =>
      if w.host.kubelet.Staged? || w.host.kubelet == StageAnswered(Retry) || w.host.kubelet == UnstageAnswered(Retry)
      then w.(host := w.host.(kubelet := UnstageSent)) else w
    case TakeAnswer =>
      if w.host.kubelet == StageAnswered(Accepted) then w.(host := w.host.(kubelet := Staged))
      else if w.host.kubelet == StageAnswered(Final) || w.host.kubelet == UnstageAnswered(Accepted)
      then w.(host := w.host.(kubelet := Released, volData := w.host.volData - {w.setup.path}))
      else w
    case Forgets(p) => if p != w.setup.path then w.(host := w.host.(volData := w.host.volData - {p})) else w
    case Publish(t) => if w.host.kubelet.Staged? then w.(host := w.host.(binds := w.host.binds + {t})) else w
    case Unpublish(t) => w.(host := w.host.(binds := w.host.binds - {t}))
    case Mounts(p) => w.(host := w.host.(mounts := w.host.mounts + {p}))
    case Unmounts(p) => w.(host := w.host.(mounts := w.host.mounts - {p}))
  }

  // ---------------------------------------------------------------- driver

  datatype DriverAction =
    | Enter(kind: Kind)                             // the lock is taken
    | Leave(verdict: Verdict)                       // and given back
    | FailCall                                      // a call failed, without effect
    | MarkBusy | ClearBusy | CheckIdle
    | ReadMounts | ReadVolData(staging: Path)
    | GetPod
    | UseConfig(hash: Hash)                         // m.backoff
    | CountExit(hash: Hash, jitter: nat)
    | StartOver(hash: Hash)
    | Permit(hash: Hash)                            // not given up, restart time reached
    | Strip                                         // RemoveFinalizer
    | DeleteNow                                     // without grace
    | StopPod(reason: Reason, grace: nat)           // with the pod's own grace period
    | Prepare(staging: Path)
    | Unmount(staging: Path)
    | DropSecret(s: SecretId)
    | CreateSecret(spec: Spec)
    | CreatePod
    | OwnSecret
    | SeenReady
    | ForgetUnlessGaveUp | ForgetReleased | ForgetUnstaged | ForgetSwept
    | StageFoundGaveUp | RecoveryFoundGaveUp | ClearGaveUp
    | EmitEarly | EmitReleased

  predicate Knows(w: World, k: Know) { w.sec.Some? && w.sec.value.know == k }

  predicate IsAbsent(s: Section) { s.know.SawAbsent? || s.know.Prepared? || s.know.Holding? }

  predicate KnowsAbsent(w: World) { w.sec.Some? && IsAbsent(w.sec.value) }

  function Learn(w: World, k: Know): World
    requires w.sec.Some?
  {
    w.(sec := Some(w.sec.value.(know := k)))
  }

  function Seeing(w: World, v: View): World
    requires w.sec.Some?
  {
    w.(sec := Some(w.sec.value.(view := v)))
  }

  function WithMark(w: World, mark: Option<nat>): World { w.(marks := w.marks.(gaveUp := mark)) }

  function Reporting(w: World, n: nat): World {
    w.(hist := w.hist.(log := w.hist.log.(reports := w.hist.log.reports + n)))
  }

  /** The entry for a config: an entry of another config is dropped with its history. */
  function WithConfig(w: World, hash: Hash): World {
    if w.entry.Some? && w.entry.value.hash == hash then w
    else
      Forgotten(w).(entry := Some(B.For(w.entry, hash)))
  }

  function Untold(w: World): World
    requires w.sec.Some?
  {
    w.(sec := Some(w.sec.value.(told := false)))
  }

  function StartedOver(w: World): World
    requires w.sec.Some? && w.entry.Some?
  {
    Untold(if GaveUp(w) then Cleared(w) else w)
  }

  /** The section is told what the entry says. */
  function Read(w: World): World
    requires w.sec.Some?
  {
    w.(sec := Some(w.sec.value.(told := GaveUp(w))))
  }

  /** recordExit, for the entry of the pod's config. */
  function Recorded(w: World, p: Pod, jitter: nat): World
    requires w.sec.Some? && w.entry.Some?
  {
    var e := w.entry.value;
    if e.lastPod == Some(p.uid) then w
    else
      var r := B.Record(w.setup.policy, e, p.uid, p.ann.staging, CountedCode(p), RanFor(p), w.clock, jitter);
      w.(entry := Some(r), sec := Some(w.sec.value.(may := None)),
         hist := w.hist.(tally := w.hist.tally.(epoch := w.hist.tally.epoch + [B.Exit(p.uid, CountedCode(p), RanFor(p))]),
                         log := w.hist.log.(episodes := w.hist.log.episodes + (if r.backoff.gaveUp && !e.backoff.gaveUp then 1 else 0))))
  }

  /** Nothing is left to do about a give-up: no report is due and, while no call failed, a mark left by a give-up since
      cleared sits on a pod that cannot be counted again. */
  predicate Settled(w: World) {
    && !Owed(w)
    && (w.hist.failures == 0 && w.marks.gaveUp.Some? && !GaveUp(w) && w.pod.Some? ==>
          w.entry.Some? && w.entry.value.lastPod == Some(w.pod.value.uid) && w.entry.value.hash == w.pod.value.ann.hash)
  }

  /** The pod's end needs no counting any more: it was counted, is of no config counted, or was being deleted before it
      ended. */
  predicate Paid(w: World, p: Pod) {
    w.entry.None? || w.entry.value.hash != p.ann.hash || w.entry.value.lastPod == Some(p.uid) ||
    (p.deletedAt.Some? && !p.status.Ended?)
  }

  /** Why the section may stop the pod it saw. */
  predicate MayStop(s: Section, reason: Reason) {
    && (reason.Unstaging? ==> s.kind.Unstage?)
    && (reason.Orphaned? ==> s.kind.Recovery? && s.view.unbound && s.view.unstaged && s.view.idle)
    && (reason.ConfigChanged? ==> s.kind.Stage? && s.view.unbound)
    && (reason.Restaged? ==> s.kind.Stage?)
  }

  predicate Enabled(w: World, d: DriverAction) { Checked(w, d) && Obliged(w, d) }

  /** The steps on the restart state. */
  predicate OnEntry(d: DriverAction) {
    d.UseConfig? || d.CountExit? || d.StartOver? || d.SeenReady? || DropsEntry(d)
  }

  predicate DropsEntry(d: DriverAction) { d.ForgetUnlessGaveUp? || d.ForgetReleased? || d.ForgetUnstaged? || d.ForgetSwept? }

  /** What the driver's code has checked before a step: its own section and memory, and the time. */
  predicate Checked(w: World, d: DriverAction) {
    if d.Enter? then w.sec.None? && Called(w, d.kind)
    else
      w.sec.Some? &&
      var s := w.sec.value;
      if d.Strip? then s.know.Saw? && Finished(s.know.pod, w.clock)
      else if d.DeleteNow? then s.know.Stripped?
      else if d.StopPod? then s.know.Saw? && s.know.pod.deletedAt.None? && MayStop(s, d.reason)
      else if d.DropSecret? then IsAbsent(s)
      else if d.CreateSecret? then
        s.know.Prepared? && SpecOk(w.setup.cfg, d.spec) && d.spec.volume == w.setup.volume && d.spec.node == w.setup.node &&
        d.spec.cache == w.setup.cache && Serves(w, d.spec)
      else if d.CreatePod? then s.know.Holding? && s.may == Some(SpecHash(w, s.know.spec))
      else if d.OwnSecret? then s.know.Saw?
      else if d.UseConfig? then !s.told
      else if d.CountExit? then
        s.know.Saw? && Finished(s.know.pod, w.clock) && s.know.pod.ann.hash == d.hash &&
        B.JitterOk(w.setup.policy, B.For(w.entry, d.hash), RanFor(s.know.pod), d.jitter)
      else if d.StartOver? then s.know.Saw? && Finished(s.know.pod, w.clock) && s.know.pod.deletedAt.Some?
      else if d.Permit? then
        !s.told && w.entry.Some? && w.entry.value.hash == d.hash && !w.entry.value.backoff.gaveUp &&
        w.entry.value.backoff.next <= w.clock
      else if d.SeenReady? then s.know.Saw? && s.know.pod.status.Running?
      else if d.ForgetUnlessGaveUp? then IsAbsent(s) && !GaveUp(w)
      else if d.ForgetReleased? then IsAbsent(s) && s.released.Some? && s.released.value.deletedAt.Some?
      else if d.ForgetUnstaged? then IsAbsent(s) && s.kind.Unstage?
      else if d.ForgetSwept? then
        s.kind.Sweep? && s.know.SawAbsent? && s.view.idle && s.view.unstaged &&
        (w.marks.gaveUp.None? || w.clock - w.marks.gaveUp.value >= ORPHAN_GRACE)
      else if d.MarkBusy? || d.ClearBusy? then s.kind.Stage? || s.kind.Unstage?
      else if d.ReadVolData? then s.kind.Recovery? ==> s.home == Some(d.staging)
      else if d.Prepare? then s.know.SawAbsent?
      else if d.Unmount? then s.kind.Unstage? && IsAbsent(s)
      else if d.StageFoundGaveUp? || d.RecoveryFoundGaveUp? then s.told
      else if d.ClearGaveUp? then !s.told
      else if d.EmitEarly? then s.know.Saw? || s.know.Stripped?
      else d.EmitReleased? ==> s.released.Some?
  }

  /** The spec is that of kubelet's request, or was read back from the pod found. */
  predicate Serves(w: World, spec: Spec) {
    w.sec.Some? &&
    ((w.sec.value.kind.Stage? && spec.staging == w.setup.path) || (w.sec.value.kind.Recovery? && w.sec.value.home == Some(spec.staging)))
  }

  /** What the driver owes at a step, without a check of its own: no report that is due is dropped, no pod is created or
      lock given back with a pod uncounted, no mark is cleared under a give-up or, while no call failed, met by a new one,
      and no stage succeeds with the pod on another path. */
  predicate Obliged(w: World, d: DriverAction) {
    if d.Leave? then Settled(w) && (w.sec.Some? ==> !w.sec.value.owes && (w.sec.value.kind.Stage? && d.verdict.Accepted? ==> OnPath(w)))
    else if d.CreatePod? then w.sec.Some? ==> !w.sec.value.owes
    else if d.UseConfig? then Owed(w) && w.entry.Some? ==> w.entry.value.hash == d.hash
    else if d.CountExit? then
      && !Owed(w)
      && (w.hist.failures == 0 && w.marks.gaveUp.Some? && w.sec.Some? && w.sec.value.know.Saw? ==>
            B.For(w.entry, d.hash).lastPod == Some(w.sec.value.know.pod.uid))
    else if d.SeenReady? || DropsEntry(d) then !Owed(w)
    else d.ClearGaveUp? ==> !GaveUp(w)
  }

  /** The section starts knowing nothing. */
  function Opened(w: World, kind: Kind): World {
    w.(sec := Some(Section(kind, View(false, false, false, false, None), Unread, None, None, false, false, None)))
  }

  /** kubelet waits for the call that stages or unstages. */
  predicate Called(w: World, kind: Kind) {
    (kind.Stage? ==> w.host.kubelet.StageSent?) && (kind.Unstage? ==> w.host.kubelet.UnstageSent?)
  }

  function DriverStep(w: World, d: DriverAction): World
    requires Enabled(w, d)
  {
    match d
    case Enter(kind) => Opened(w, kind)
    case Leave(v) =>
      w.(sec := None,
         host := w.host.(kubelet := if w.sec.value.kind.Stage? then StageAnswered(v)
                                    else if w.sec.value.kind.Unstage? then UnstageAnswered(v) else w.host.kubelet))
    case FailCall =>
      w.(sec := Some(w.sec.value.(owes := false)), hist := w.hist.(failures := w.hist.failures + 1)) // and is on record
    case MarkBusy => w.(marks := w.marks.(busy := Some(w.clock)))
    case ClearBusy => w.(marks := w.marks.(busy := None))
    case CheckIdle => Seeing(w, w.sec.value.view.(idle := !IsBusy(w)))
    case ReadMounts => Seeing(w, w.sec.value.view.(bound := w.host.binds != {}, unbound := w.host.binds == {}))
    case ReadVolData(staging) => Seeing(w, w.sec.value.view.(unstaged := !KubeletStaged(w, staging)))
    case GetPod =>
      var s := w.sec.value;
      w.(sec := Some(s.(know := if w.pod.Some? then Saw(w.pod.value) else SawAbsent,
                        home := if s.home.None? && w.pod.Some? then Some(w.pod.value.ann.staging) else s.home)))
    case UseConfig(hash) => Read(WithConfig(w, hash))
    case CountExit(hash, jitter) => Recorded(WithConfig(w, hash), w.sec.value.know.pod, jitter)
    case StartOver(hash) =>
      Waived(w, StartedOver(WithConfig(w, hash)))
    case Permit(hash) => w.(sec := Some(w.sec.value.(may := Some(hash))))
    case Strip =>
      var p := w.sec.value.know.pod;
      var u := if w.pod.Some? && p.inUse then w.(pod := Some(w.pod.value.(inUse := false))) else w;
      u.(sec := Some(w.sec.value.(know := Stripped(p), owes := w.sec.value.owes || !Paid(w, p))),
         hist := w.hist.(tally := w.hist.tally.(stuck := w.hist.tally.stuck + (if p.status.Ended? then {} else {p.uid}))))
    case DeleteNow =>
      var p := w.sec.value.know.pod;
      var l := w.(sec := Some(w.sec.value.(know := SawAbsent, released := Some(p))));
      if w.pod.None? then l
      else if w.pod.value.inUse then l.(pod := Some(WithDeletion(w.pod.value, w.clock)))
      else NoPod(l)
    case StopPod(reason, grace) =>
      if w.pod.None? then w
      else
        w.(pod := Some(WithDeletion(w.pod.value, w.clock + grace)),
           hist := w.hist.(stops := w.hist.stops + [Stop(w.pod.value.uid, reason, w.host.binds != {}, w.host.kubelet.Staged?)]))
    case Prepare(staging) => Learn(w.(host := w.host.(mounts := w.host.mounts - {staging})), Prepared)
    case Unmount(staging) => w.(host := w.host.(mounts := w.host.mounts - {staging}))
    case DropSecret(s) =>
      Learn(w.(secrets := w.secrets - {s}), if w.sec.value.know.Holding? && w.sec.value.know.secret == s then SawAbsent else w.sec.value.know)
    case CreateSecret(spec) =>
      Learn(w.(secrets := w.secrets[w.nextSecret := Secret(BuildSecret(spec), None)], nextSecret := w.nextSecret + 1),
            Holding(w.nextSecret, spec))
    case CreatePod =>
      if w.pod.Some? then w // AlreadyExists
      else
        var spec := w.sec.value.know.spec;
        var p := Pod(w.nextUid, BuildPod(w.setup.cfg, spec, w.sec.value.know.secret), Waiting, None, true);
        w.(pod := Some(p), nextUid := w.nextUid + 1, sec := Some(w.sec.value.(know := Saw(p), may := None)),
           hist := w.hist.(tally := w.hist.tally.(made := w.hist.tally.made + {p.uid})))
    case OwnSecret =>
      var p := w.sec.value.know.pod;
      if p.ann.secret in w.secrets
      then w.(secrets := w.secrets[p.ann.secret := w.secrets[p.ann.secret].(owner := Some(p.uid))]) else w
    case SeenReady =>
      var s := Seeing(w, w.sec.value.view.(ready := Some(w.sec.value.know.pod.uid)));
      if w.entry.Some? then Cleared(s) else s
    case ForgetUnlessGaveUp => Forgotten(w)
    case ForgetReleased => Forgotten(w)
    case ForgetUnstaged => WithMark(Forgotten(w), None)
    case ForgetSwept => WithMark(Forgotten(w), None)
    case StageFoundGaveUp => // Swap
      Reporting(WithMark(w, Some(w.clock)), if w.marks.gaveUp.None? then 1 else 0)
    case RecoveryFoundGaveUp => // LoadOrStore
      if w.marks.gaveUp.Some? then w else Reporting(WithMark(w, Some(w.clock)), 1)
    case ClearGaveUp => WithMark(w, None)
    case EmitEarly => // LoadOrStore
      var u := w.sec.value.know.pod.uid;
      w.(marks := w.marks.(reported := w.marks.reported + {u}),
         hist := w.hist.(log := w.hist.log.(emitted := EmittedFor(w, u))))
    case EmitReleased => // LoadAndDelete
      var u := w.sec.value.released.value.uid;
      w.(sec := Some(w.sec.value.(released := None)), marks := w.marks.(reported := w.marks.reported - {u}),
         hist := w.hist.(log := w.hist.log.(closed := w.hist.log.closed + {u}, emitted := EmittedFor(w, u))))
  }

  /** The exits emitted once u's is due: not again if it is marked. */
  function EmittedFor(w: World, u: Uid): multiset<Uid> {
    if u in w.marks.reported then w.hist.log.emitted else w.hist.log.emitted + multiset{u}
  }

  // ---------------------------------------------------------------- runs

  datatype Action = Env(e: EnvAction) | Driver(d: DriverAction)

  predicate Allowed(w: World, a: Action) { a.Driver? ==> Enabled(w, a.d) }

  function Step(w: World, a: Action): World
    requires Allowed(w, a)
  {
    match a
    case Env(e) => EnvStep(w, e)
    case Driver(d) => DriverStep(w, d)
  }

  datatype Run = Begin(w: World) | Then(prev: Run, a: Action)

  predicate Valid(r: Run)
    decreases r, 0
  {
    match r
    case Begin(w) => Initial(w)
    case Then(p, a) => Valid(p) && Allowed(Last(p), a)
  }

  function Last(r: Run): World
    requires Valid(r)
    decreases r, 1
  {
    match r
    case Begin(w) => w
    case Then(p, a) => Step(Last(p), a)
  }
}
