/** The node plugin's memory of one volume, the API objects and the host state around it, as fields updated in
    place, one machine step at a time. What happens meanwhile (the environment's moves, calls that fail, what
    /readyz answers, the jitter drawn) is an input: one interlude of a script before each call. */
module Node {
  import opened Base
  import opened PodSpec
  import opened Machine
  import opened Safety
  import B = Backoff

  /** The environment's moves before a call, whether the call succeeds, what /readyz or the mount asked answers, the random
      draw. */
  datatype Interlude = Interlude(moves: seq<EnvAction>, ok: bool, ready: bool, draw: nat)

  datatype Creation = Created(pod: Pod) | AlreadyExists | CreationFailed

  /** The run leads to the world. */
  ghost predicate Reached(r: Run, w: World) { Machine.Valid(r) && Last(r) == w }

  lemma ReachedInv(r: Run, w: World)
    requires Reached(r, w)
    ensures Inv(w)
  {
    RunKeepsInv(r);
  }

  class Plugin {
    const setup: Setup
    /** What /readyz, and the mount on the staging path, answer once the script is drained. */
    const calm: bool
    const alive: bool

    // The API server, kubelet and the host.
    var clock: nat
    var pod: Option<Pod>
    var secrets: map<SecretId, Secret>
    var nextUid: Uid
    var nextSecret: SecretId
    var kubelet: Kubelet
    var volData: set<Path>
    var readable: bool
    var binds: set<Path>
    var mounts: set<Path>

    // Manager.backoffs, NodeServer.busy, gaveUp and exitReported.
    var entry: Option<Entry>
    var busy: Option<nat>
    var gaveUp: Option<nat>
    var reported: set<Uid>

    var script: seq<Interlude>

    /** The machine's run so far, its last world, and the world right before the last step. */
    ghost var run: Run
    ghost var world: World
    ghost var before: World

    ghost predicate Valid()
      reads this
    {
      && Reached(run, world)
      && world == World(setup, clock, pod, secrets, nextUid, nextSecret, entry, Marks(busy, gaveUp, reported),
                        Host(kubelet, volData, readable, binds, mounts), world.sec, world.hist)
    }

    /** A plugin starts with an empty memory. */
    constructor (w: World, script: seq<Interlude>, calm: bool, alive: bool)
      requires Initial(w)
      ensures Valid() && world == w && this.script == script && this.calm == calm && this.alive == alive
    {
      this.setup, this.calm, this.alive, this.script := w.setup, calm, alive, script;
      clock, pod, secrets, nextUid, nextSecret := w.clock, w.pod, w.secrets, w.nextUid, w.nextSecret;
      kubelet, volData, readable := w.host.kubelet, w.host.volData, w.host.readable;
      binds, mounts := w.host.binds, w.host.mounts;
      entry, busy, gaveUp, reported := None, None, None, {};
      run, world, before := Begin(w), w, w;
    }

    // -------------------------------------------------------------- meanwhile

    /** Nothing else happens, and no call fails. */
    predicate Quiet()
      reads this
    {
      script == []
    }

    /** A move of the environment. */
    method Move(e: EnvAction)
      requires Valid()
      modifies this
      ensures Valid() && world == EnvStep(old(world), e)
      ensures script == old(script)
    {
      if e.Start? || e.End? || e.OutsideDelete? || e.Reap? {
        MovePod(e);
      } else if e.Tick? || e.Collect? || e.LateReset? {
        MoveCluster(e);
      } else if OfKubelet(e) {
        MoveKubelet(e);
      } else if e.Mounts? || e.Unmounts? {
        MoveMounts(e);
      } else {
        MoveTargets(e);
      }
    }

    ghost method Witness(e: EnvAction)
      requires Reached(run, world)
      modifies `run, `world, `before
      ensures Reached(run, world) && world == EnvStep(old(world), e)
    {
      before := world;
      world := EnvStep(world, e);
      run := Then(run, Env(e));
    }

    /** The container, kubectl, the API server. */
    method MovePod(e: EnvAction)
      requires Valid() && (e.Start? || e.End? || e.OutsideDelete? || e.Reap?)
      modifies `pod, `run, `world, `before
      ensures Valid() && world == EnvStep(old(world), e)
    {
      match e {
        case Start =>
          if pod.Some? && pod.value.status.Waiting? { pod := Some(pod.value.(status := Running)); }
        case End(code, ran) =>
          if pod.Some? && !(pod.value.status.Ended? && pod.value.status.code.Some?) {
            pod := Some(pod.value.(status := Ended(code, ran)));
          }
        case OutsideDelete(grace) => if pod.Some? { pod := Some(WithDeletion(pod.value, clock + grace)); }
        case Reap => if pod.Some? && !pod.value.inUse && pod.value.deletedAt.Some? { pod := None; }
      }
      Witness(e);
    }

    /** The clock, the garbage collector, a late NodeGetVolumeStats. */
    method MoveCluster(e: EnvAction)
      requires Valid() && (e.Tick? || e.Collect? || e.LateReset?)
      modifies `clock, `secrets, `entry, `run, `world, `before
      ensures Valid() && world == EnvStep(old(world), e)
    {
      match e {
        case Tick(d) => clock := clock + d;
        case Collect(s) =>
          if s in secrets && secrets[s].owner.Some? && !(pod.Some? && pod.value.uid == secrets[s].owner.value) {
            secrets := secrets - {s};
          }
        case LateReset => if entry.Some? { entry := Some(B.Reset(entry.value)); }
      }
      Witness(e);
    }

    predicate OfKubelet(e: EnvAction) { e.SendStage? || e.SendUnstage? || e.TakeAnswer? || e.Forgets? }

    /** kubelet's own steps on the volume. */
    method MoveKubelet(e: EnvAction)
      requires Valid() && OfKubelet(e)
      modifies `kubelet, `volData, `run, `world, `before
      ensures Valid() && world == EnvStep(old(world), e)
    {
      match e {
        case SendStage =>
          if kubelet in {Released, Staged, StageAnswered(Retry), UnstageAnswered(Retry)} { kubelet, volData := StageSent, volData + {setup.path}; }
        case SendUnstage =>
          if kubelet in {Staged, StageAnswered(Retry), UnstageAnswered(Retry)} { kubelet := UnstageSent; }
        case TakeAnswer =>
          if kubelet == StageAnswered(Accepted) {
            kubelet := Staged;
          } else if kubelet in {StageAnswered(Final), UnstageAnswered(Accepted)} {
            kubelet, volData := Released, volData - {setup.path};
          }
        case Forgets(p) => if p != setup.path { volData := volData - {p}; }
      }
      Witness(e);
    }

    /** kubelet's mounts on target paths; the driver directory. */
    method MoveTargets(e: EnvAction)
      requires Valid() && (e.Publish? || e.Unpublish? || e.SetReadable?)
      modifies `readable, `binds, `run, `world, `before
      ensures Valid() && world == EnvStep(old(world), e)
    {
      match e {
        case SetReadable(b) => readable := b;
        case Publish(t) => if kubelet.Staged? { binds := binds + {t}; }
        case Unpublish(t) => binds := binds - {t};
      }
      Witness(e);
    }

    /** The mount processes on staging paths. */
    method MoveMounts(e: EnvAction)
      requires Valid() && (e.Mounts? || e.Unmounts?)
      modifies `mounts, `run, `world, `before
      ensures Valid() && world == EnvStep(old(world), e)
    {
      mounts := if e.Mounts? then mounts + {e.path} else mounts - {e.path};
      Witness(e);
    }

    /** The moves of the next interlude. */
    method Await() returns (i: Interlude)
      requires Valid()
      modifies this
      ensures Valid() && Meanwhile(old(world), world)
      ensures old(Quiet()) ==> Quiet() && world == old(world) && i.ok && i.ready == calm
    {
      MeanwhileItself(world);
      if script == [] {
        return Interlude([], true, calm, 0);
      }
      i := script[0];
      script := script[1..];
      var k := 0;
      while k < |i.moves|
        invariant k <= |i.moves| && Valid() && Meanwhile(old(world), world)
      {
        EnvMeanwhile(world, i.moves[k]);
        MeanwhileMeanwhile(old(world), world, EnvStep(world, i.moves[k]));
        Move(i.moves[k]);
        k := k + 1;
      }
    }

    // -------------------------------------------------------------- the driver's steps

    /** The step d, after what happened meanwhile. */
    twostate predicate Stepped(d: DriverAction)
      reads this
    {
      && Valid() && Meanwhile(old(world), before) && Enabled(before, d) && world == DriverStep(before, d)
      && (old(script) == [] ==> script == [] && before == old(world))
    }

    /** No step, only what happened meanwhile. */
    twostate predicate Waited()
      reads this
    {
      && Valid() && Meanwhile(old(world), world)
      && (old(script) == [] ==> script == [] && world == old(world))
    }

    ghost method Take(d: DriverAction)
      requires Reached(run, world) && Enabled(world, d)
      modifies `run, `world, `before
      ensures Reached(run, world)
      ensures before == old(world) && world == DriverStep(before, d)
    {
      before := world;
      run := Then(run, Driver(d));
      world := Last(run);
    }

    method Lock(kind: Kind)
      requires Valid() && world.sec.None?
      requires (kind.Stage? ==> world.host.kubelet.StageSent?) && (kind.Unstage? ==> world.host.kubelet.UnstageSent?)
      modifies this
      ensures Stepped(Enter(kind))
    {
      var _ := Await();
      Take(Enter(kind));
    }

    method Unlock(kind: Kind, verdict: Verdict)
      requires Valid() && world.sec.Some? && world.sec.value.kind == kind && Settled(world) && !world.sec.value.owes
      requires kind.Stage? && verdict.Accepted? ==> OnPath(world)
      modifies this
      ensures Stepped(Leave(verdict))
    {
      var _ := Await();
      SettledMeanwhile(old(run), old(world), world);
      GiveBack(kind, verdict);
    }

    /** kubelet gets its answer. */
    method GiveBack(kind: Kind, verdict: Verdict)
      requires Valid() && Enabled(world, Leave(verdict)) && world.sec.value.kind == kind
      modifies `kubelet, `run, `world, `before
      ensures Valid() && before == old(world) && world == DriverStep(before, Leave(verdict))
    {
      if kind.Stage? {
        kubelet := StageAnswered(verdict);
      } else if kind.Unstage? {
        kubelet := UnstageAnswered(verdict);
      }
      Take(Leave(verdict));
    }

    /** Time now, for a comparison. */
    method Now() returns (now: nat)
      requires Valid()
      modifies this
      ensures Waited() && now == world.clock
    {
      var _ := Await();
      now := clock;
    }

    method MarkBusy()
      requires Valid() && world.sec.Some? && (world.sec.value.kind.Stage? || world.sec.value.kind.Unstage?)
      modifies this
      ensures Stepped(DriverAction.MarkBusy)
    {
      var _ := Await();
      busy := Some(clock);
      Take(DriverAction.MarkBusy);
    }

    method ClearBusy()
      requires Valid() && world.sec.Some? && (world.sec.value.kind.Stage? || world.sec.value.kind.Unstage?)
      modifies this
      ensures Stepped(DriverAction.ClearBusy)
    {
      var _ := Await();
      busy := None;
      Take(DriverAction.ClearBusy);
    }

    method IsBusy() returns (b: bool)
      requires Valid() && world.sec.Some?
      modifies this
      ensures Stepped(CheckIdle) && world.sec.value.view.idle == !b
    {
      var _ := Await();
      b := busy.Some? && clock - busy.value < BUSY_FOR;
      Take(CheckIdle);
    }

    /** The mount table: whether a pod target path carries a layer of the volume. */
    method ReadMountTable() returns (ok: bool, published: bool)
      requires Valid() && world.sec.Some?
      modifies this
      ensures Stepped(if ok then ReadMounts else FailCall) && (old(script) == [] ==> ok)
      ensures ok ==> published == (world.host.binds != {})
    {
      var i := Await();
      ok, published := i.ok, binds != {};
      Take(if ok then ReadMounts else FailCall);
    }

    /** Whether something is mounted on a staging path. */
    method LookAtMount(path: Path) returns (ok: bool, mounted: bool)
      requires Valid() && world.sec.Some?
      modifies this
      ensures if ok then Waited() && mounted == (path in world.host.mounts) else Stepped(FailCall)
      ensures old(script) == [] ==> ok
    {
      var i := Await();
      ok, mounted := i.ok, path in mounts;
      if !ok {
        Take(FailCall);
      }
    }

    /** Whether the mount on a path answers. */
    method AskMount() returns (ok: bool, answers: bool)
      requires Valid() && world.sec.Some?
      modifies this
      ensures if ok then Waited() else Stepped(FailCall)
      ensures old(script) == [] ==> ok && answers == alive
    {
      var drained := script == [];
      var i := Await();
      ok, answers := i.ok, if drained then alive else i.ready;
      if !ok {
        Take(FailCall);
      }
    }

    /** Unpublish of the staging path. */
    method UnmountStaging(staging: Path) returns (ok: bool)
      requires Valid() && KnowsAbsent(world) && world.sec.value.kind.Unstage?
      modifies this
      ensures Stepped(if ok then Unmount(staging) else FailCall) && (old(script) == [] ==> ok)
    {
      var i := Await();
      ok := i.ok;
      if ok {
        ClearMount(staging, Unmount(staging));
      } else {
        Take(FailCall);
      }
    }

    method ClearMount(staging: Path, ghost d: DriverAction)
      requires Valid() && Enabled(world, d) && (d == Unmount(staging) || d == Prepare(staging))
      modifies `mounts, `run, `world, `before
      ensures Valid() && before == old(world) && world == DriverStep(before, d)
    {
      mounts := mounts - {staging};
      Take(d);
    }

    /** kubeletStaged. */
    method IsStaged(staging: Path) returns (b: bool)
      requires Valid() && world.sec.Some? && (world.sec.value.kind.Recovery? ==> world.sec.value.home == Some(staging))
      modifies this
      ensures Stepped(ReadVolData(staging)) && b == KubeletStaged(world, staging)
    {
      var _ := Await();
      b := staging != "" && (!readable || staging in volData);
      Take(ReadVolData(staging));
    }

    method GetPod() returns (ok: bool, p: Option<Pod>)
      requires Valid() && world.sec.Some?
      modifies this
      ensures Stepped(if ok then DriverAction.GetPod else FailCall) && (old(script) == [] ==> ok)
      ensures ok ==> p == world.pod
    {
      var i := Await();
      ok, p := i.ok, pod;
      Take(if ok then DriverAction.GetPod else FailCall);
    }

    // -------------------------------------------------------------- the restart state

    /** Manager.backoff. */
    method UseEntry(hash: Hash) returns (e: Entry)
      modifies `entry
      ensures e == B.For(old(entry), hash) && entry == Some(e)
    {
      if entry.None? || entry.value.hash != hash {
        entry := Some(B.Entry(hash, B.ZERO, None, ""));
      }
      e := entry.value;
    }

    /** backoffState. */
    method BackoffState(hash: Hash) returns (b: B.Backoff)
      requires Valid() && world.sec.Some? && Enabled(world, UseConfig(hash))
      modifies this
      ensures Stepped(UseConfig(hash)) && world.entry.Some? && b == world.entry.value.backoff && world.entry.value.hash == hash
    {
      var _ := Await();
      ConfigEntry(world, hash);
      var e := UseEntry(hash);
      b := e.backoff;
      Take(UseConfig(hash));
    }

    /** recordExit. */
    method RecordExit(hash: Hash, p: Pod) returns (ghost jitter: nat)
      requires Valid() && B.PolicyOk(setup.policy) && Knows(world, Saw(p)) && Finished(p, world.clock) && p.ann.hash == hash && !Owed(world)
      requires world.hist.failures == 0 && world.marks.gaveUp.Some? ==> B.For(world.entry, hash).lastPod == Some(p.uid)
      modifies this
      ensures Stepped(CountExit(hash, jitter))
    {
      var i := Await();
      jitter := RecordDrawn(hash, p, i.draw);
    }

    /** The entry after the exit. */
    method RecordDrawn(hash: Hash, p: Pod, draw: nat) returns (ghost jitter: nat)
      requires Valid() && B.PolicyOk(setup.policy) && Knows(world, Saw(p)) && Finished(p, world.clock) && p.ann.hash == hash && !Owed(world)
      requires world.hist.failures == 0 && world.marks.gaveUp.Some? ==> B.For(world.entry, hash).lastPod == Some(p.uid)
      modifies `entry, `run, `world, `before
      ensures Valid() && before == old(world) && Enabled(before, CountExit(hash, jitter)) && world == DriverStep(before, CountExit(hash, jitter))
    {
      ConfigEntry(world, hash);
      var e := UseEntry(hash);
      var r, drawn := B.RecordExit(setup.policy, e, p.uid, p.ann.staging, CountedCode(p), RanFor(p), clock, draw);
      entry, jitter := Some(r), drawn;
      Take(CountExit(hash, jitter));
    }

    /** startOver. */
    method StartOver(hash: Hash)
      requires Valid() && world.sec.Some? && Enabled(world, DriverAction.StartOver(hash))
      modifies this
      ensures Stepped(DriverAction.StartOver(hash))
    {
      var _ := Await();
      ResetEntry(hash);
    }

    /** The entry afresh, if it gave up. */
    method ResetEntry(hash: Hash)
      requires Valid() && Enabled(world, DriverAction.StartOver(hash))
      modifies `entry, `run, `world, `before
      ensures Valid() && before == old(world) && world == DriverStep(before, DriverAction.StartOver(hash))
    {
      StartOverEntry(world, hash);
      var e := UseEntry(hash);
      if e.backoff.gaveUp {
        entry := Some(e.(backoff := B.ZERO));
      }
      Take(DriverAction.StartOver(hash));
    }

    /** forget: a give-up stays. */
    method ForgetUnlessGaveUp() returns (kept: bool)
      requires Valid() && KnowsAbsent(world) && !world.sec.value.told
      modifies this
      ensures if kept then Waited() && GaveUp(world) else Stepped(DriverAction.ForgetUnlessGaveUp)
    {
      var _ := Await();
      kept := entry.Some? && entry.value.backoff.gaveUp;
      if !kept {
        EraseEntry(DriverAction.ForgetUnlessGaveUp);
      }
    }

    method EraseEntry(d: DriverAction)
      requires Valid() && (d.ForgetUnlessGaveUp? || d.ForgetReleased?) && Enabled(world, d)
      modifies `entry, `run, `world, `before
      ensures Valid() && before == old(world) && world == DriverStep(before, d)
    {
      entry := None;
      Take(d);
    }

    /** Forget, after the release of a pod that was being deleted. */
    method ForgetReleased()
      requires Valid() && KnowsAbsent(world) && !Owed(world) && world.sec.value.released.Some? && world.sec.value.released.value.deletedAt.Some?
      modifies this
      ensures Stepped(DriverAction.ForgetReleased)
    {
      var _ := Await();
      EraseEntry(DriverAction.ForgetReleased);
    }

    /** gaveUp.Delete and Forget, at the end of an unstage. */
    method ForgetUnstaged()
      requires Valid() && KnowsAbsent(world) && !Owed(world) && world.sec.value.kind.Unstage?
      modifies this
      ensures Stepped(DriverAction.ForgetUnstaged)
    {
      var _ := Await();
      Erase(DriverAction.ForgetUnstaged);
    }

    /** The mark and the restart state, in either order. */
    method Erase(d: DriverAction)
      requires Valid() && (d.ForgetUnstaged? || d.ForgetSwept?) && Enabled(world, d)
      modifies `entry, `gaveUp, `run, `world, `before
      ensures Valid() && before == old(world) && world == DriverStep(before, d)
    {
      ErasedWorld(world, d);
      gaveUp := None;
      entry := None;
      Take(d);
    }

    /** Forget and gaveUp.Delete, by the sweep. */
    method ForgetSwept()
      requires Valid() && world.sec.Some? && Enabled(world, DriverAction.ForgetSwept)
      modifies this
      ensures Stepped(DriverAction.ForgetSwept)
    {
      var _ := Await();
      Erase(DriverAction.ForgetSwept);
    }

    // -------------------------------------------------------------- the marks of the node plugin

    /** gaveUp.Load: whether a stage found the volume given up within ORPHAN_GRACE. */
    method IsGaveUpRecent() returns (b: bool)
      requires Valid()
      modifies this
      ensures Waited() && b == (world.marks.gaveUp.Some? && world.clock - world.marks.gaveUp.value < ORPHAN_GRACE)
    {
      var _ := Await();
      b := gaveUp.Some? && clock - gaveUp.value < ORPHAN_GRACE;
    }

    /** gaveUp.Swap: whether a report is due. */
    method SwapGaveUp() returns (due: bool)
      requires Valid() && world.sec.Some? && world.sec.value.told
      modifies this
      ensures Stepped(StageFoundGaveUp) && due == before.marks.gaveUp.None?
    {
      var _ := Await();
      due := MarkFound(StageFoundGaveUp);
    }

    method MarkFound(d: DriverAction) returns (due: bool)
      requires Valid() && (d.StageFoundGaveUp? || d.RecoveryFoundGaveUp?) && Enabled(world, d)
      modifies `gaveUp, `run, `world, `before
      ensures Valid() && before == old(world) && world == DriverStep(before, d) && due == before.marks.gaveUp.None?
    {
      due := gaveUp.None?;
      if due || d.StageFoundGaveUp? {
        gaveUp := Some(clock);
      }
      Take(d);
    }

    /** gaveUp.LoadOrStore: whether a report is due. */
    method StoreGaveUp() returns (due: bool)
      requires Valid() && world.sec.Some? && world.sec.value.told
      modifies this
      ensures Stepped(RecoveryFoundGaveUp) && due == before.marks.gaveUp.None?
    {
      var _ := Await();
      due := MarkFound(RecoveryFoundGaveUp);
    }

    method ClearGaveUp()
      requires Valid() && world.sec.Some? && !GaveUp(world) && !world.sec.value.told
      modifies this
      ensures Stepped(DriverAction.ClearGaveUp)
    {
      var _ := Await();
      gaveUp := None;
      Take(DriverAction.ClearGaveUp);
    }

    /** exitReported.LoadOrStore, and the report if it is due. */
    method ReportEarly(p: Pod) returns (emitted: bool)
      requires Valid() && Knows(world, Saw(p))
      modifies this
      ensures Stepped(EmitEarly) && emitted == (p.uid !in before.marks.reported)
    {
      var _ := Await();
      emitted := Note(p);
    }

    method Note(p: Pod) returns (emitted: bool)
      requires Valid() && Knows(world, Saw(p))
      modifies `reported, `run, `world, `before
      ensures Valid() && before == old(world) && Enabled(before, EmitEarly) && world == DriverStep(before, EmitEarly)
      ensures emitted == (p.uid !in before.marks.reported)
    {
      emitted := p.uid !in reported;
      reported := reported + {p.uid};
      Take(EmitEarly);
    }

    /** exitReported.LoadAndDelete, and the report if it is due. */
    method ReportReleased(p: Pod) returns (emitted: bool)
      requires Valid() && world.sec.Some? && world.sec.value.released == Some(p)
      modifies this
      ensures Stepped(EmitReleased) && emitted == (p.uid !in before.marks.reported)
    {
      var _ := Await();
      emitted := p.uid !in reported;
      reported := reported - {p.uid};
      Take(EmitReleased);
    }

    // -------------------------------------------------------------- pods and Secrets

    /** RemoveFinalizer: no call for a pod read without the finalizer; the patch finds the pod, or not. */
    method RemoveFinalizer(p: Pod) returns (ok: bool)
      requires Valid() && Knows(world, Saw(p)) && Finished(p, world.clock)
      modifies this
      ensures Stepped(if ok then Strip else FailCall) && (old(script) == [] ==> ok)
    {
      ok := true;
      if !p.inUse {
        MeanwhileItself(world);
        Take(Strip);
      } else {
        ok := SendPatch(p);
      }
    }

    method SendPatch(p: Pod) returns (ok: bool)
      requires Valid() && Knows(world, Saw(p)) && Finished(p, world.clock) && p.inUse
      modifies this
      ensures Stepped(if ok then Strip else FailCall) && (old(script) == [] ==> ok)
    {
      var i := Await();
      ok := i.ok;
      if ok {
        PatchFinalizer(p);
      } else {
        Take(FailCall);
      }
    }

    /** The patch reaches the API server. */
    method PatchFinalizer(p: Pod)
      requires Valid() && Knows(world, Saw(p)) && Finished(p, world.clock) && p.inUse
      modifies `pod, `run, `world, `before
      ensures Valid() && before == old(world) && world == DriverStep(before, Strip)
    {
      if pod.Some? {
        pod := Some(pod.value.(inUse := false));
      }
      Take(Strip);
    }

    /** Deletion without grace, of the pod read. */
    method DeletePodNow(p: Pod) returns (ok: bool)
      requires Valid() && Knows(world, Stripped(p))
      modifies this
      ensures Stepped(if ok then DeleteNow else FailCall) && (old(script) == [] ==> ok)
    {
      var i := Await();
      ok := i.ok;
      if ok {
        RemovePod(p);
      } else {
        Take(FailCall);
      }
    }

    /** The deletion reaches the API server. */
    method RemovePod(p: Pod)
      requires Valid() && Knows(world, Stripped(p))
      modifies `pod, `run, `world, `before
      ensures Valid() && before == old(world) && world == DriverStep(before, DeleteNow)
    {
      if pod.Some? {
        pod := if pod.value.inUse then Some(WithDeletion(pod.value, clock)) else None;
      }
      Take(DeleteNow);
    }

    /** Deletion with the pod's own grace period. */
    method DeletePod(reason: Reason, grace: nat) returns (ok: bool)
      requires Valid() && world.sec.Some? && Enabled(world, StopPod(reason, grace))
      modifies this
      ensures Stepped(if ok then StopPod(reason, grace) else FailCall) && (old(script) == [] ==> ok)
    {
      var i := Await();
      ok := i.ok;
      if ok {
        StopGracefully(reason, grace);
      } else {
        Take(FailCall);
      }
    }

    /** The deletion reaches the API server. */
    method StopGracefully(reason: Reason, grace: nat)
      requires Valid() && Enabled(world, StopPod(reason, grace))
      modifies `pod, `run, `world, `before
      ensures Valid() && before == old(world) && world == DriverStep(before, StopPod(reason, grace))
    {
      if pod.Some? {
        pod := Some(WithDeletion(pod.value, clock + grace));
      }
      Take(StopPod(reason, grace));
    }

    method PrepareHost(staging: Path) returns (ok: bool)
      requires Valid() && world.sec.Some? && world.sec.value.know.SawAbsent?
      modifies this
      ensures Stepped(if ok then Prepare(staging) else FailCall) && (old(script) == [] ==> ok)
    {
      var i := Await();
      ok := i.ok;
      if ok {
        ClearMount(staging, Prepare(staging));
      } else {
        Take(FailCall);
      }
    }

    /** The Secrets of the volume's mount pods on the node. */
    method ListSecrets() returns (ok: bool, list: map<SecretId, Secret>)
      requires Valid() && world.sec.Some?
      modifies this
      ensures if ok then Waited() && list == world.secrets else Stepped(FailCall)
      ensures old(script) == [] ==> ok
    {
      var i := Await();
      ok, list := i.ok, secrets;
      if !ok {
        Take(FailCall);
      }
    }

    method DeleteSecret(s: SecretId) returns (ok: bool)
      requires Valid() && KnowsAbsent(world)
      modifies this
      ensures Stepped(if ok then DropSecret(s) else FailCall) && (old(script) == [] ==> ok)
    {
      var i := Await();
      ok := i.ok;
      if ok {
        EraseSecret(s);
      } else {
        Take(FailCall);
      }
    }

    /** The deletion reaches the API server. */
    method EraseSecret(s: SecretId)
      requires Valid() && KnowsAbsent(world)
      modifies `secrets, `run, `world, `before
      ensures Valid() && before == old(world) && world == DriverStep(before, DropSecret(s))
    {
      secrets := secrets - {s};
      Take(DropSecret(s));
    }

    method PostSecret(spec: Spec) returns (ok: bool, s: SecretId)
      requires Valid() && world.sec.Some? && Enabled(world, CreateSecret(spec))
      modifies this
      ensures Stepped(if ok then CreateSecret(spec) else FailCall) && (old(script) == [] ==> ok)
      ensures ok ==> s == before.nextSecret
    {
      var i := Await();
      ok, s := i.ok, nextSecret;
      if ok {
        StoreSecret(spec);
      } else {
        Take(FailCall);
      }
    }

    /** The call reaches the API server. */
    method StoreSecret(spec: Spec)
      requires Valid() && Enabled(world, CreateSecret(spec))
      modifies `secrets, `nextSecret, `run, `world, `before
      ensures Valid() && before == old(world) && Enabled(before, CreateSecret(spec)) && world == DriverStep(before, CreateSecret(spec))
    {
      StoredWorld(world, spec);
      secrets := secrets[nextSecret := Secret(BuildSecret(spec), None)];
      nextSecret := nextSecret + 1;
      Take(CreateSecret(spec));
    }

    method PostPod(spec: Spec, s: SecretId) returns (c: Creation)
      requires Valid() && Knows(world, Holding(s, spec)) && world.sec.value.may == Some(SpecHash(world, spec)) && !world.sec.value.owes
      modifies this
      ensures if c.CreationFailed? then Stepped(FailCall) else Stepped(CreatePod)
      ensures old(script) == [] ==> !c.CreationFailed?
      ensures c.AlreadyExists? <==> !c.CreationFailed? && before.pod.Some?
      ensures c.Created? ==> world.pod == Some(c.pod)
    {
      var i := Await();
      if !i.ok {
        Take(FailCall);
        return CreationFailed;
      }
      c := TryCreate(spec, s);
    }

    /** The call reaches the API server. */
    method TryCreate(spec: Spec, s: SecretId) returns (c: Creation)
      requires Valid() && Knows(world, Holding(s, spec)) && world.sec.value.may == Some(SpecHash(world, spec)) && !world.sec.value.owes
      modifies `pod, `nextUid, `run, `world, `before
      ensures Valid() && before == old(world) && Enabled(before, CreatePod) && world == DriverStep(before, CreatePod)
      ensures if before.pod.Some? then c.AlreadyExists? else c.Created? && world.pod == Some(c.pod)
    {
      if pod.Some? {
        Take(CreatePod);
        return AlreadyExists;
      }
      var p := Pod(nextUid, BuildPod(setup.cfg, spec, s), Waiting, None, true);
      StorePod(p);
      c := Created(p);
    }

    method StorePod(p: Pod)
      requires Valid() && Enabled(world, CreatePod) && pod.None?
      requires p == Pod(nextUid, BuildPod(setup.cfg, world.sec.value.know.spec, world.sec.value.know.secret), Waiting, None, true)
      modifies `pod, `nextUid, `run, `world, `before
      ensures Valid() && before == old(world) && world == DriverStep(before, CreatePod)
    {
      CreatedWorld(world, p);
      pod, nextUid := Some(p), nextUid + 1;
      Take(CreatePod);
    }

    method GetSecret(s: SecretId) returns (ok: bool, found: Option<Secret>)
      requires Valid() && world.sec.Some?
      modifies this
      ensures if ok then Waited() && found == (if s in world.secrets then Some(world.secrets[s]) else None) else Stepped(FailCall)
      ensures old(script) == [] ==> ok
    {
      var i := Await();
      ok, found := i.ok, if s in secrets then Some(secrets[s]) else None;
      if !ok {
        Take(FailCall);
      }
    }

    /** The owner reference of the pod's Secret; a Secret gone is an error. */
    method PatchOwner(p: Pod) returns (ok: bool)
      requires Valid() && Knows(world, Saw(p))
      modifies this
      ensures Stepped(if ok then OwnSecret else FailCall) && (ok ==> p.ann.secret in before.secrets)
      ensures old(script) == [] && p.ann.secret in old(world).secrets ==> ok
    {
      var i := Await();
      ok := i.ok && p.ann.secret in secrets;
      if ok {
        SetOwner(p);
      } else {
        Take(FailCall);
      }
    }

    /** The patch reaches the API server. */
    method SetOwner(p: Pod)
      requires Valid() && Knows(world, Saw(p)) && p.ann.secret in secrets
      modifies `secrets, `run, `world, `before
      ensures Valid() && before == old(world) && Enabled(before, OwnSecret) && world == DriverStep(before, OwnSecret)
      ensures p.ann.secret in before.secrets
    {
      secrets := secrets[p.ann.secret := secrets[p.ann.secret].(owner := Some(p.uid))];
      Take(OwnSecret);
    }

    /** Ready: a pod that answers resets the backoff. */
    method Ready(p: Pod) returns (ready: bool)
      requires Valid() && Knows(world, Saw(p)) && p.status.Running? && !Owed(world)
      modifies this
      ensures if ready then Stepped(SeenReady) else Waited()
      ensures old(script) == [] ==> ready == calm
    {
      var i := Await();
      ready := i.ready;
      if ready {
        ResetBackoff(p);
      }
    }

    /** resetBackoff. */
    method ResetBackoff(p: Pod)
      requires Valid() && Knows(world, Saw(p)) && p.status.Running? && !Owed(world)
      modifies `entry, `run, `world, `before
      ensures Valid() && before == old(world) && Enabled(before, SeenReady) && world == DriverStep(before, SeenReady)
    {
      if entry.Some? {
        entry := Some(entry.value.(backoff := B.ZERO));
      }
      Take(SeenReady);
    }
  }

  lemma MeanwhileItself(w: World)
    ensures Meanwhile(w, w)
  {}

  lemma MeanwhileMeanwhile(u: World, v: World, w: World)
    requires Meanwhile(u, v) && Meanwhile(v, w)
    ensures Meanwhile(u, w)
  {}

  /** What is settled stays so. */
  lemma SettledMeanwhile(r: Run, w: World, w': World)
    requires Reached(r, w) && Meanwhile(w, w') && Settled(w)
    ensures Settled(w') && (OnPath(w) ==> OnPath(w'))
  {
    ReachedInv(r, w);
    MeanwhileSettled(w, w');
  }

  lemma MeanwhileSettled(w: World, w': World)
    requires Meanwhile(w, w') && Quiescent(w) && Settled(w)
    ensures Settled(w')
  {}

  lemma CreatedWorld(w: World, p: Pod)
    requires Enabled(w, CreatePod) && w.pod.None?
    requires p == Pod(w.nextUid, BuildPod(w.setup.cfg, w.sec.value.know.spec, w.sec.value.know.secret), Waiting, None, true)
    ensures var w' := DriverStep(w, CreatePod); w' == w.(pod := Some(p), nextUid := w.nextUid + 1, sec := w'.sec, hist := w'.hist)
  {}

  lemma StoredWorld(w: World, spec: Spec)
    requires Enabled(w, CreateSecret(spec))
    ensures var w' := DriverStep(w, CreateSecret(spec));
            w' == w.(secrets := w.secrets[w.nextSecret := Secret(BuildSecret(spec), None)], nextSecret := w.nextSecret + 1, sec := w'.sec)
  {}

  lemma ErasedWorld(w: World, d: DriverAction)
    requires Enabled(w, d) && (d.ForgetUnstaged? || d.ForgetSwept?)
    ensures DriverStep(w, d) == WithMark(Forgotten(w), None)
  {}

  lemma StartOverEntry(w: World, hash: Hash)
    requires Enabled(w, StartOver(hash))
    ensures var w', e := DriverStep(w, StartOver(hash)), B.For(w.entry, hash);
            w'.entry == Some(if e.backoff.gaveUp then B.Reset(e) else e) && w' == w.(entry := w'.entry, sec := w'.sec, hist := w'.hist)
  {
    ConfigEntry(w, hash);
  }

  lemma ConfigEntry(w: World, hash: Hash)
    ensures var w' := WithConfig(w, hash);
            w'.entry == Some(B.For(w.entry, hash)) && (w'.sec.Some? <==> w.sec.Some?) &&
            w' == w.(entry := w'.entry, sec := w'.sec, hist := w'.hist)
  {}
}
