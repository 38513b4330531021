/** The recovery of one volume, and the sweep of the restart state of the volumes gone (internal/driver/recovery.go),
    on the fields of the plugin; the mounts are those of HostMounts. */
module Recovery {
  import opened Base
  import opened PodSpec
  import opened Machine
  import opened Safety
  import opened Node
  import opened Manager
  import opened NodeServer
  import B = Backoff
  import T = MountTable
  import H = HostMounts

  /** What recoverVolume leaves: no pod, a pod it left alone, one deleted as an orphan, a ready one whose targets are
      rebound or not, a dead one handed to Ensure, a give-up; or it failed. */
  datatype Outcome = NoPod | Left | Orphan | Rebound(repaired: bool) | Restarted(phase: Phase) | GivenUp(reported: bool) | Failed

  lemma PodOfVolume(r: Run, w: World)
    requires Reached(r, w) && w.pod.Some?
    ensures OfVolume(w.setup, w.pod.value.ann) && w.pod.value.ann.staging != ""
  {
    ReachedInv(r, w);
  }

  lemma SpecOfPod(r: Run, w: World, p: Pod)
    requires Reached(r, w) && Knows(w, Saw(p)) && w.pod.Some? && p.uid >= w.setup.firstUid
    ensures ReadsBack(w.setup, p.ann, Stored(w, p.ann.secret))
  {
    ReachedInv(r, w);
  }

  /** SpecOf: the Spec of a pod that was read, from its annotations and its Secret. */
  method SpecOf(n: Plugin, p: Pod) returns (ok: bool, spec: Spec)
    requires n.Valid() && Knows(n.world, Saw(p)) && OfVolume(n.setup, p.ann)
    modifies n
    ensures n.Valid() && Kept(old(n.world), n.world) && SameSection(old(n.world), n.world)
    ensures old(n.world).pod.Some? && old(n.world).pod.value.inUse ==> n.world.pod.Some? && n.world.pod.value.inUse
    ensures ok ==> n.world.hist.failures == old(n.world).hist.failures && ForThisVolume(n.setup, spec) && spec.staging == p.ann.staging
    // A pod of this node plugin gives its own config back, as long as it exists.
    ensures ok && n.world.pod.Some? && p.uid >= n.setup.firstUid ==>
              SpecOk(n.setup.cfg, spec) && HashOf(n.setup.cfg, spec) == p.ann.hash
    ensures !ok ==> n.world.hist.failures > old(n.world).hist.failures || n.world.pod.None? || p.ann.staging == ""
    ensures old(n.script) == [] ==> n.script == [] && n.world == old(n.world)
    // If nothing else happens it succeeds for a pod that exists.
    ensures old(n.script) == [] && p.ann.staging != "" && n.world.pod.Some? ==>
              ok && ReadBack(p.ann, Stored(n.world, p.ann.secret), n.setup.cache) == Some(spec)
  {
    KeptItself(n.world);
    spec := Spec("", "", "", "", "", Credentials("", ""), n.setup.cache, 0, 0, p.ann.stored.options, p.ann.stored.resources);
    if p.ann.staging == "" {
      return false, spec;
    }
    var found;
    ok, found := FindSecret(n, p.ann.secret);
    if n.world.pod.Some? {
      SecretOfPod(n.run, n.world, p);
      if p.uid >= n.setup.firstUid {
        SpecOfPod(n.run, n.world, p);
      }
    }
    if !ok || found.None? {
      return false, spec;
    }
    var data := found.value.data;
    spec := Spec(p.ann.volume, p.ann.node, p.ann.pvcName, p.ann.pvcNamespace, p.ann.staging,
                 Credentials(data.token, data.passphrase), n.setup.cache,
                 p.ann.stored.uid, p.ann.stored.gid, p.ann.stored.options, p.ann.stored.resources);
  }

  // ---------------------------------------------------------------- looking at the host

  /** What a look at the host leaves: all but the section's view of it. */
  ghost predicate Looked(u: World, w: World) {
    && Within(u, w) && EntryKept(u, w) && w.marks == u.marks && w.nextUid == u.nextUid && (Settled(u) ==> Settled(w))
    && w.sec.value == u.sec.value.(view := w.sec.value.view, owes := w.sec.value.owes) && w.sec.value.view.ready == u.sec.value.view.ready
    && (u.pod.Some? && u.pod.value.inUse ==> w.pod.Some? && w.pod.value.inUse)
    && (w.pod.Some? ==> u.pod.Some?)
  }

  method LookAtTargets(n: Plugin) returns (ok: bool, published: bool)
    requires n.Valid() && n.world.sec.Some?
    modifies n
    ensures n.Valid() && Looked(old(n.world), n.world)
    ensures ok ==> n.world.sec.value.view.unbound == !published && n.world.hist.failures == old(n.world).hist.failures
    ensures !ok ==> n.world.hist.failures > old(n.world).hist.failures
    ensures old(n.script) == [] ==>
              ok && n.script == [] && published == (n.world.host.binds != {}) && n.world == old(n.world).(sec := n.world.sec)
  {
    Quiet(n.run, n.world);
    ok, published := n.ReadMountTable();
  }

  method LookAtBusy(n: Plugin) returns (busy: bool)
    requires n.Valid() && n.world.sec.Some?
    modifies n
    ensures n.Valid() && Looked(old(n.world), n.world) && n.world.hist.failures == old(n.world).hist.failures
    ensures n.world.sec.value.view == old(n.world).sec.value.view.(idle := !busy)
    ensures old(n.script) == [] ==> n.script == [] && busy == IsBusy(n.world) && n.world == old(n.world).(sec := n.world.sec)
  {
    Quiet(n.run, n.world);
    busy := n.IsBusy();
  }

  method LookAtVolData(n: Plugin, staging: Path) returns (staged: bool)
    requires n.Valid() && n.world.sec.Some? && (n.world.sec.value.kind.Recovery? ==> n.world.sec.value.home == Some(staging))
    modifies n
    ensures n.Valid() && Looked(old(n.world), n.world) && n.world.hist.failures == old(n.world).hist.failures
    ensures n.world.sec.value.view == old(n.world).sec.value.view.(unstaged := !staged)
    ensures old(n.script) == [] ==>
              n.script == [] && staged == KubeletStaged(n.world, staging) && n.world == old(n.world).(sec := n.world.sec)
  {
    Quiet(n.run, n.world);
    staged := n.IsStaged(staging);
  }

  // ---------------------------------------------------------------- the branches of recoverVolume

  /** reportGaveUp: a MountGaveUp event unless one was reported. */
  method ReportGaveUp(n: Plugin) returns (reported: bool)
    requires n.Valid() && n.world.sec.Some? && n.world.sec.value.told && !n.world.sec.value.owes
    modifies n
    ensures n.Valid() && Within(old(n.world), n.world) && n.world.sec == old(n.world).sec && Done(n.world)
    ensures n.world.marks.gaveUp.Some? && reported == old(n.world).marks.gaveUp.None?
    ensures n.world.hist.log.reports == old(n.world).hist.log.reports + (if reported then 1 else 0)
    ensures n.world.nextUid == old(n.world).nextUid && n.world.hist.failures == old(n.world).hist.failures
    ensures n.world.hist.log.emitted == old(n.world).hist.log.emitted
    ensures old(n.world).pod.Some? && old(n.world).pod.value.inUse ==> n.world.pod.Some?
    ensures old(n.script) == [] ==> n.script == [] && Unmoved(old(n.world), n.world)
  {
    ghost var w0 := n.world;
    ReachedInv(n.run, w0);
    reported := n.StoreGaveUp();
    FoundMeanwhile(w0, n.before);
    FoundSettles(n.before);
  }

  /** The Spec that the pod gives back, when nothing fails. */
  function OldSpec(w: World): Option<Spec>
    requires w.pod.Some?
  {
    ReadBack(w.pod.value.ann, Stored(w, w.pod.value.ann.secret), w.setup.cache)
  }

  /** It is the pod's own config, for one of this node plugin. */
  predicate OwnConfig(w: World)
    requires w.pod.Some?
  {
    var p := w.pod.value;
    OldSpec(w).Some? && (p.uid >= w.setup.firstUid ==> SpecOk(w.setup.cfg, OldSpec(w).value) && SpecHash(w, OldSpec(w).value) == p.ann.hash)
  }

  /** What becomes of a dead pod, or one being deleted, when nothing else happens: a new one exactly when it is due, a give-up
      told unless it starts over, the pod as it was otherwise. It fails only for a former node plugin's pod of an invalid config. */
  predicate RestartIs(u: World, w: World, out: Outcome)
    requires u.pod.Some?
  {
    var r := OldSpec(u);
    r.Some? &&
    if !SpecOk(u.setup.cfg, r.value) then out.Failed? && w.pod == u.pod
    else if Due(u, SpecHash(u, r.value)) then out == Restarted(Pending) && NewPod(u, w, r.value)
    else w.pod == u.pod && w.nextUid == u.nextUid &&
         if GivesUp(u, SpecHash(u, r.value)) then out.GivenUp? else out == Restarted(PhaseOf(u.pod.value))
  }

  /** A dead pod of a staged volume: its exit is reported, and Ensure runs on the Spec read back from it. */
  method Restart(n: Plugin, p: Pod) returns (out: Outcome)
    requires n.Valid() && B.PolicyOk(n.setup.policy) && Knows(n.world, Saw(p)) && OfVolume(n.setup, p.ann)
    requires AtEase(n.world) && (PhaseOf(p).Exited? || PhaseOf(p).Terminating?)
    requires n.world.sec.value.kind.Recovery? && n.world.sec.value.home == Some(p.ann.staging)
    modifies n
    ensures n.Valid() && Within(old(n.world), n.world) && Done(n.world)
    ensures out.Failed? || out.GivenUp? || out.Restarted?
    ensures ExitCode(p).Some? ==> n.world.hist.log.emitted[p.uid] == 1
    // The record of the volume is kept.
    ensures n.world.hist.failures == old(n.world).hist.failures && old(n.world).pod.Some? && old(n.world).pod.value.inUse ==>
              n.world.pod.Some?
    // A replacement runs the dead pod's config on its staging path.
    ensures out.Restarted? && n.world.nextUid > old(n.world).nextUid &&
            old(n.world).pod.Some? && old(n.world).pod.value.inUse && p.uid >= n.setup.firstUid ==>
              && n.world.sec.value.know.Saw? && n.world.sec.value.know.pod.uid == old(n.world).nextUid
              && n.world.sec.value.know.pod.ann.hash == p.ann.hash && n.world.sec.value.know.pod.ann.staging == p.ann.staging
    ensures out.GivenUp? ==> n.world.nextUid == old(n.world).nextUid && n.world.marks.gaveUp.Some?
    ensures out.Restarted? ==> !GaveUp(n.world) && n.world.marks.gaveUp.None?
    ensures old(n.script) == [] ==>
              n.script == [] && (old(n.world).pod == Some(p) ==> RestartIs(old(n.world), n.world, out) && OwnConfig(old(n.world)))
  {
    ReportExitEarly(n, StateOf(p));
    ghost var w1 := n.world;
    out := Respawn(n, p);
    if old(n.script) == [] && old(n.world).pod == Some(p) {
      RestartSince(old(n.world), w1, n.world, out);
    }
  }

  lemma RestartSince(u: World, v: World, w: World, out: Outcome)
    requires Unmoved(u, v) && v.entry == u.entry && v.secrets == u.secrets && v.nextUid == u.nextUid && v.setup == u.setup
    requires u.pod.Some? && RestartIs(v, w, out) && OwnConfig(v)
    ensures RestartIs(u, w, out) && OwnConfig(u)
  {}

  /** Restart, but for the report of the exit. */
  method Respawn(n: Plugin, p: Pod) returns (out: Outcome)
    requires n.Valid() && B.PolicyOk(n.setup.policy) && Knows(n.world, Saw(p)) && OfVolume(n.setup, p.ann)
    requires AtEase(n.world)
    requires n.world.sec.value.kind.Recovery? && n.world.sec.value.home == Some(p.ann.staging)
    modifies n
    ensures n.Valid() && Within(old(n.world), n.world) && Done(n.world)
    ensures out.Failed? || out.GivenUp? || out.Restarted?
    ensures n.world.hist.log.emitted == old(n.world).hist.log.emitted
    ensures n.world.hist.failures == old(n.world).hist.failures && old(n.world).pod.Some? && old(n.world).pod.value.inUse ==>
              n.world.pod.Some?
    ensures out.Restarted? && n.world.nextUid > old(n.world).nextUid &&
            old(n.world).pod.Some? && old(n.world).pod.value.inUse && p.uid >= n.setup.firstUid ==>
              && n.world.sec.value.know.Saw? && n.world.sec.value.know.pod.uid == old(n.world).nextUid
              && n.world.sec.value.know.pod.ann.hash == p.ann.hash && n.world.sec.value.know.pod.ann.staging == p.ann.staging
    ensures out.GivenUp? ==> n.world.nextUid == old(n.world).nextUid && n.world.marks.gaveUp.Some?
    ensures out.Restarted? ==> !GaveUp(n.world) && n.world.marks.gaveUp.None?
    ensures old(n.script) == [] ==>
              n.script == [] && (old(n.world).pod == Some(p) ==> RestartIs(old(n.world), n.world, out) && OwnConfig(old(n.world)))
  {
    var ok, spec := SpecOf(n, p);
    if !ok {
      return Failed;
    }
    out := EnsureAgain(n, spec);
  }

  /** Ensure on the Spec read back. */
  method EnsureAgain(n: Plugin, spec: Spec) returns (out: Outcome)
    requires n.Valid() && B.PolicyOk(n.setup.policy) && n.world.sec.Some? && AtEase(n.world)
    requires ForThisVolume(n.setup, spec) && Serves(n.world, spec)
    modifies n
    ensures n.Valid() && Within(old(n.world), n.world) && Done(n.world)
    ensures out.Failed? || out.GivenUp? || out.Restarted?
    ensures n.world.hist.log.emitted == old(n.world).hist.log.emitted
    ensures n.world.hist.failures == old(n.world).hist.failures && old(n.world).pod.Some? && old(n.world).pod.value.inUse ==>
              n.world.pod.Some?
    ensures out.Failed? ==> n.world.hist.failures > old(n.world).hist.failures || !SpecOk(n.setup.cfg, spec)
    ensures out.Restarted? && n.world.nextUid > old(n.world).nextUid ==>
              && n.world.sec.value.know.Saw? && n.world.sec.value.know.pod.uid == old(n.world).nextUid
              && n.world.sec.value.know.pod.ann.hash == SpecHash(n.world, spec) && n.world.sec.value.know.pod.ann.staging == spec.staging
    ensures out.GivenUp? ==> n.world.nextUid == old(n.world).nextUid && n.world.marks.gaveUp.Some?
    ensures out.Restarted? ==> !GaveUp(n.world) && n.world.marks.gaveUp.None?
    ensures old(n.script) == [] ==>
              n.script == [] && (old(n.world).pod.Some? && OldSpec(old(n.world)) == Some(spec) ==> RestartIs(old(n.world), n.world, out))
  {
    ghost var w0, calm := n.world, n.script == [];
    var st, err := EnsureRead(n, spec);
    ghost var w1 := n.world;
    out := Conclude(n, st, err);
    if calm && w0.pod.Some? && OldSpec(w0) == Some(spec) {
      RespawnIs(w0, w1, n.world, spec, st, err, out);
    }
  }

  /** What the recovery needs of Ensure. */
  method EnsureRead(n: Plugin, spec: Spec) returns (st: State, err: Error)
    requires n.Valid() && B.PolicyOk(n.setup.policy) && n.world.sec.Some? && AtEase(n.world)
    requires ForThisVolume(n.setup, spec) && Serves(n.world, spec)
    modifies n
    ensures n.Valid() && Within(old(n.world), n.world) && !n.world.sec.value.owes
    ensures n.world.hist.log.emitted == old(n.world).hist.log.emitted
    ensures n.world.hist.failures == old(n.world).hist.failures && old(n.world).pod.Some? && old(n.world).pod.value.inUse ==>
              n.world.pod.Some? && n.world.pod.value.inUse
    ensures n.world.sec.value.told <==> err == GaveUpError
    ensures err == GaveUpError ==> n.world.nextUid == old(n.world).nextUid
    ensures err == NoError ==> !GaveUp(n.world)
    ensures err == InvalidSpec ==> !SpecOk(n.setup.cfg, spec)
    ensures err == ApiError ==> n.world.hist.failures > old(n.world).hist.failures
    ensures err == ApiError || err == InvalidSpec ==> Done(n.world)
    ensures err == NoError && n.world.nextUid > old(n.world).nextUid ==>
              && n.world.sec.value.know.Saw? && n.world.sec.value.know.pod.uid == old(n.world).nextUid
              && n.world.sec.value.know.pod.ann.hash == SpecHash(n.world, spec) && n.world.sec.value.know.pod.ann.staging == spec.staging
    ensures old(n.script) == [] ==> n.script == [] && EnsureIs(old(n.world), n.world, spec, st, err)
  {
    ghost var w0 := n.world;
    st, err := Ensure(n, spec);
    if err != NoError && err != GaveUpError {
      StillDone(w0, n.world);
    }
  }

  ghost predicate EnsureIs(u: World, w: World, spec: Spec, st: State, err: Error) {
    if SpecOk(u.setup.cfg, spec) then Ensured(u, w, spec, SpecHash(u, spec), st, err) else err == InvalidSpec && w == u
  }

  /** A failed Ensure leaves what was settled. */
  lemma StillDone(u: World, w: World)
    requires AtEase(u) && Managed(u, w) && !w.sec.value.told && (GaveUp(w) ==> GaveUp(u)) && (w == u || w.hist.failures > 0)
    ensures Done(w)
  {}

  /** What the recovery makes of Ensure's errors. */
  method Conclude(n: Plugin, st: State, err: Error) returns (out: Outcome)
    requires n.Valid() && n.world.sec.Some? && !n.world.sec.value.owes && (n.world.sec.value.told <==> err == GaveUpError)
    requires err == NoError ==> !GaveUp(n.world)
    requires err != NoError && err != GaveUpError ==> Done(n.world)
    modifies n
    ensures n.Valid() && Within(old(n.world), n.world) && Done(n.world)
    ensures n.world.sec == old(n.world).sec && n.world.nextUid == old(n.world).nextUid && n.world.hist.failures == old(n.world).hist.failures
    ensures n.world.hist.log.emitted == old(n.world).hist.log.emitted
    ensures old(n.world).pod.Some? && old(n.world).pod.value.inUse ==> n.world.pod.Some?
    ensures out == if err == GaveUpError then GivenUp(out.GivenUp? && out.reported) else if err == NoError then Restarted(st.phase) else Failed
    ensures out.GivenUp? ==> n.world.marks.gaveUp.Some?
    ensures out.Restarted? ==> !GaveUp(n.world) && n.world.marks.gaveUp.None?
    ensures old(n.script) == [] ==> n.script == [] && Unmoved(old(n.world), n.world)
  {
    match err
    case GaveUpError =>
      var reported := ReportGaveUp(n);
      out := GivenUp(reported);
    case NoError =>
      DropMark(n);
      out := Restarted(st.phase);
    case _ =>
      out := Failed;
  }

  lemma RespawnIs(u: World, v: World, w: World, spec: Spec, st: State, err: Error, out: Outcome)
    requires u.pod.Some? && OldSpec(u) == Some(spec) && v.setup == u.setup
    requires EnsureIs(u, v, spec, st, err)
    requires Unmoved(v, w) && w.nextUid == v.nextUid
    requires out == if err == GaveUpError then GivenUp(out.GivenUp? && out.reported) else if err == NoError then Restarted(st.phase) else Failed
    ensures RestartIs(u, w, out)
  {}

  /** The pod target paths are below <KubeletDir>/pods, the staging paths below <KubeletDir>/plugins. */
  function PodsDir(kubelet: Path): Path { kubelet + "/pods/" }

  predicate ConfiguredFor(setup: Setup, kubelet: Path) { setup.cfg.plugins == kubelet + "/plugins" }

  lemma StagingIsNoTarget(setup: Setup, kubelet: Path, staging: Path)
    requires ConfiguredFor(setup, kubelet) && StagingOk(setup.cfg, staging)
    ensures !T.IsTarget(PodsDir(kubelet), staging)
  {
    StagingUnderPlugins(setup.cfg, staging);
    assert (setup.cfg.plugins + "/")[|kubelet| + 2] == 'l' && PodsDir(kubelet)[|kubelet| + 2] == 'o';
  }

  /** A running pod: once it answers a give-up is over, and the target paths that were dead in the table are rebound. */
  method CheckRunning(n: Plugin, h: H.Host, infos: T.Table, p: Pod, kubelet: Path) returns (out: Outcome)
    requires n.Valid() && Knows(n.world, Saw(p)) && PhaseOf(p).Running? && AtEase(n.world)
    requires ConfiguredFor(n.setup, kubelet) && OfVolume(n.setup, p.ann)
    modifies n, h`mounts, h`umounts, h`faults
    ensures n.Valid() && Within(old(n.world), n.world) && Done(n.world) && n.world.nextUid == old(n.world).nextUid
    ensures out.Left? || out.Rebound?
    ensures out.Rebound? ==> n.world.sec.value.view.ready == Some(p.uid) && !GaveUp(n.world) && n.world.marks.gaveUp.None?
    ensures out.Rebound? ==> Knows(n.world, Saw(p)) && h.Rebinds(infos, n.setup.volume, p.ann.staging, PodsDir(kubelet), out.repaired)
    ensures out.Left? ==> EntryKept(old(n.world), n.world) && n.world.marks == old(n.world).marks && h.mounts == old(h.mounts)
    ensures old(n.world).pod.Some? && old(n.world).pod.value.inUse ==> n.world.pod.Some?
    ensures old(n.script) == [] ==> n.script == [] && (out.Rebound? <==> n.calm) && Unmoved(old(n.world), n.world)
  {
    var ready := Probe(n, p);
    if !ready {
      return Left;
    }
    DropMark(n);
    StagingIsNoTarget(n.setup, kubelet, p.ann.staging);
    var repaired := h.Rebind(infos, n.setup.volume, p.ann.staging, PodsDir(kubelet));
    out := Rebound(repaired);
  }

  /** deleteOrphan: one step per round. */
  method DeleteOrphan(n: Plugin, grace: nat) returns (out: Outcome)
    requires n.Valid() && n.world.sec.Some? && AtEase(n.world) && MayStop(n.world.sec.value, Orphaned)
    modifies n
    ensures n.Valid() && Within(old(n.world), n.world) && Done(n.world) && n.world.nextUid == old(n.world).nextUid
    ensures out.Orphan? || (out.Failed? && n.world.hist.failures > old(n.world).hist.failures)
    ensures n.world.sec.value.view == old(n.world).sec.value.view
    ensures out.Orphan? && n.world.pod.Some? ==> n.world.pod.value.deletedAt.Some?
    ensures out.Orphan? && n.world.pod.None? && n.world.hist.failures == old(n.world).hist.failures && n.world.sec.value.know.SawAbsent? ==>
              n.world.secrets == map[]
    // The Manager keeps a give-up.
    ensures GaveUp(n.world) ==> GaveUp(old(n.world))
    ensures old(n.script) == [] ==>
              n.script == [] && out.Orphan? && Deleted(old(n.world), n.world, grace) && (Gone(old(n.world)) ==> ExitOut(old(n.world), n.world))
  {
    var st, err := Delete(n, Orphaned, grace);
    if err != NoError {
      return Failed;
    }
    if st.phase.Terminating? {
      return Orphan;
    }
    ReportExit(n, st);
    assert n.world.secrets.Keys == {} ==> n.world.secrets == map[];
    out := Orphan;
  }

  // ---------------------------------------------------------------- recoverVolume and the sweep

  /** The pod of a volume that nobody holds: not bound, not staged, no stage or unstage under way. */
  predicate NobodyHolds(w: World, staged: bool) {
    w.pod.Some? && !staged && !IsBusy(w) && w.host.binds == {} && !KubeletStaged(w, w.pod.value.ann.staging)
  }

  /** What the recovery does with a volume that is held, by the pod's phase, when nothing else happens. */
  ghost predicate Held(u: World, w: World, calm: bool, out: Outcome)
    requires u.pod.Some?
  {
    var p := u.pod.value;
    if p.status.Ended? || p.deletedAt.Some? then RestartIs(u, w, out) && OwnConfig(u) && ExitOut(u, w)
    else (if p.status.Running? && calm then out.Rebound? else out.Left?) && w.pod == u.pod
  }

  /** What the recovery does when nothing else happens: an orphan is deleted; a volume under a stage or unstage and a pod that
      starts or does not answer are left alone; a pod that answers has its targets rebound; a dead one is restarted. */
  ghost predicate Recovers(u: World, w: World, staged: bool, calm: bool, grace: nat, out: Outcome) {
    if u.pod.None? then out.NoPod?
    else if NobodyHolds(u, staged) then out.Orphan? && Deleted(u, w, grace) && (Gone(u) ==> ExitOut(u, w))
    else if !staged && IsBusy(u) then out.Left? && w.pod == u.pod
    else Held(u, w, calm, out)
  }

  /** Whether a stage or unstage is under way and, if not, whether kubelet holds the volume staged. */
  method LookForHolder(n: Plugin, staging: Path) returns (busy: bool, held: bool)
    requires n.Valid() && n.world.sec.Some? && n.world.sec.value.home == Some(staging)
    modifies n
    ensures n.Valid() && Looked(old(n.world), n.world) && n.world.hist.failures == old(n.world).hist.failures
    ensures n.world.sec.value.view.idle == !busy && n.world.sec.value.view.unbound == old(n.world).sec.value.view.unbound
    ensures !busy ==> n.world.sec.value.view.unstaged == !held
    ensures old(n.script) == [] ==>
              && n.script == [] && n.world == old(n.world).(sec := n.world.sec)
              && busy == IsBusy(n.world) && (!busy ==> held == KubeletStaged(n.world, staging))
  {
    held := true;
    busy := LookAtBusy(n);
    if !busy {
      held := LookAtVolData(n, staging);
    }
  }

  /** A pod whose volume is held: by its phase. */
  method RecoverPod(n: Plugin, h: H.Host, infos: T.Table, p: Pod, kubelet: Path) returns (out: Outcome)
    requires n.Valid() && B.PolicyOk(n.setup.policy) && Knows(n.world, Saw(p)) && OfVolume(n.setup, p.ann)
    requires AtEase(n.world)
    requires ConfiguredFor(n.setup, kubelet)
    requires n.world.sec.value.kind.Recovery? && n.world.sec.value.home == Some(p.ann.staging)
    modifies n, h`mounts, h`umounts, h`faults
    ensures n.Valid() && Within(old(n.world), n.world) && Done(n.world)
    ensures !out.Orphan? && !out.NoPod?
    ensures n.world.hist.failures == old(n.world).hist.failures && old(n.world).pod.Some? && old(n.world).pod.value.inUse ==>
              n.world.pod.Some?
    ensures out.Rebound? || out.Restarted? ==> !GaveUp(n.world) && n.world.marks.gaveUp.None?
    ensures out.GivenUp? ==> n.world.marks.gaveUp.Some? && n.world.nextUid == old(n.world).nextUid
    ensures out.Rebound? ==> Knows(n.world, Saw(p))
    ensures if out.Rebound? then h.Rebinds(infos, n.setup.volume, p.ann.staging, PodsDir(kubelet), out.repaired) else h.mounts == old(h.mounts)
    ensures old(n.script) == [] ==> n.script == [] && (old(n.world).pod == Some(p) ==> Held(old(n.world), n.world, n.calm, out))
  {
    match PhaseOf(p)
    case Running =>
      out := CheckRunning(n, h, infos, p, kubelet);
    case Exited | Terminating =>
      out := Restart(n, p);
    case _ =>
      out := Left;
  }

  /** recoverVolume, under the lock; infos: the mount table when it is read, h: the mounts when they are rebound, perhaps
      not the same; staged: the caller knows that kubelet holds the volume staged. */
  method RecoverVolume(n: Plugin, h: H.Host, infos: T.Table, staged: bool, grace: nat, kubelet: Path) returns (out: Outcome)
    requires n.Valid() && B.PolicyOk(n.setup.policy) && n.world.sec.Some? && n.world.sec.value.kind.Recovery?
    requires AtEase(n.world)
    requires ConfiguredFor(n.setup, kubelet)
    requires n.world.sec.value.home.None?
    modifies n, h`mounts, h`umounts, h`faults
    ensures n.Valid() && Within(old(n.world), n.world) && Done(n.world)
    // Only an orphan loses its pod: unbound, unstaged and no stage or unstage under way.
    ensures out.Orphan? ==>
              !staged && n.world.sec.value.view.unbound && n.world.sec.value.view.unstaged && n.world.sec.value.view.idle
    ensures !out.Orphan? && n.world.hist.failures == old(n.world).hist.failures &&
            old(n.world).pod.Some? && old(n.world).pod.value.inUse ==>
              n.world.pod.Some?
    ensures out.NoPod? ==> n.world.pod.None?
    ensures out.Rebound? || out.Restarted? ==> !GaveUp(n.world) && n.world.marks.gaveUp.None?
    ensures out.GivenUp? ==> n.world.marks.gaveUp.Some? && n.world.nextUid == old(n.world).nextUid
    // The mounts change only by the rebind of a pod that answered.
    ensures out.Rebound? ==>
              n.world.sec.value.know.Saw? &&
              h.Rebinds(infos, n.setup.volume, n.world.sec.value.know.pod.ann.staging, PodsDir(kubelet), out.repaired)
    ensures !out.Rebound? ==> h.mounts == old(h.mounts)
    // If nothing else happens, the outcome is determined.
    ensures old(n.script) == [] ==> n.script == [] && Recovers(old(n.world), n.world, staged, n.calm, grace, out)
  {
    var ok, found := FindPod(n);
    if !ok {
      return Failed;
    }
    if found.None? {
      return NoPod;
    }
    PodOfVolume(n.run, n.world);
    ghost var w1 := n.world;
    out := RecoverFound(n, h, infos, found.value, staged, grace, kubelet);
    if old(n.script) == [] {
      RecoversSince(old(n.world), w1, n.world, n.world, staged, n.calm, grace, out);
    }
  }

  /** A section that has only looked so far; what it left at the end. */
  lemma RecoversSince(u: World, v: World, x: World, w: World, staged: bool, calm: bool, grace: nat, out: Outcome)
    requires v == u.(sec := v.sec) && Recovers(v, x, staged, calm, grace, out) && w == x.(sec := w.sec)
    ensures Recovers(u, w, staged, calm, grace, out)
  {
    if u.pod.Some? && !NobodyHolds(u, staged) && (staged || !IsBusy(u)) {
      HeldSince(u, v, x, calm, out);
      HeldTill(u, x, w, calm, out);
    }
  }

  lemma HeldTill(u: World, x: World, w: World, calm: bool, out: Outcome)
    requires u.pod.Some? && Held(u, x, calm, out) && w == x.(sec := w.sec)
    ensures Held(u, w, calm, out)
  {}

  /** recoverVolume, for a pod that exists. */
  method RecoverFound(n: Plugin, h: H.Host, infos: T.Table, p: Pod, staged: bool, grace: nat, kubelet: Path) returns (out: Outcome)
    requires n.Valid() && B.PolicyOk(n.setup.policy) && Knows(n.world, Saw(p)) && n.world.sec.value.kind.Recovery?
    requires AtEase(n.world) && OfVolume(n.setup, p.ann) && ConfiguredFor(n.setup, kubelet)
    requires n.world.sec.value.home == Some(p.ann.staging)
    modifies n, h`mounts, h`umounts, h`faults
    ensures n.Valid() && Within(old(n.world), n.world) && Done(n.world) && !out.NoPod?
    ensures out.Orphan? ==>
              !staged && n.world.sec.value.view.unbound && n.world.sec.value.view.unstaged && n.world.sec.value.view.idle
    ensures !out.Orphan? && n.world.hist.failures == old(n.world).hist.failures &&
            old(n.world).pod.Some? && old(n.world).pod.value.inUse ==>
              n.world.pod.Some?
    ensures out.Rebound? || out.Restarted? ==> !GaveUp(n.world) && n.world.marks.gaveUp.None?
    ensures out.GivenUp? ==> n.world.marks.gaveUp.Some? && n.world.nextUid == old(n.world).nextUid
    ensures out.Rebound? ==> Knows(n.world, Saw(p)) && h.Rebinds(infos, n.setup.volume, p.ann.staging, PodsDir(kubelet), out.repaired)
    ensures !out.Rebound? ==> h.mounts == old(h.mounts)
    ensures old(n.script) == [] ==>
              n.script == [] && (old(n.world).pod == Some(p) ==> Recovers(old(n.world), n.world, staged, n.calm, grace, out))
  {
    var ok, busy, orphan := Judge(n, p.ann.staging, staged);
    if !ok {
      out := Failed;
    } else if busy {
      out := Left;
    } else if orphan {
      out := DeleteOrphan(n, grace);
    } else {
      ghost var w1 := n.world;
      out := RecoverPod(n, h, infos, p, kubelet);
      if old(n.script) == [] && old(n.world).pod == Some(p) {
        HeldSince(old(n.world), w1, n.world, n.calm, out);
      }
    }
  }

  lemma HeldSince(u: World, v: World, w: World, calm: bool, out: Outcome)
    requires v == u.(sec := v.sec) && u.pod.Some? && Held(v, w, calm, out)
    ensures Held(u, w, calm, out)
  {}

  /** Whether a stage or unstage is under way and, if not, whether nothing holds the volume. */
  method Judge(n: Plugin, staging: Path, staged: bool) returns (ok: bool, busy: bool, orphan: bool)
    requires n.Valid() && n.world.sec.Some? && n.world.sec.value.kind.Recovery? && n.world.sec.value.home == Some(staging)
    modifies n
    ensures n.Valid() && Looked(old(n.world), n.world)
    ensures !ok ==> n.world.hist.failures > old(n.world).hist.failures
    ensures orphan ==> !staged && MayStop(n.world.sec.value, Orphaned)
    ensures old(n.script) == [] ==>
              && ok && n.script == [] && n.world == old(n.world).(sec := n.world.sec) && busy == (!staged && IsBusy(n.world))
              && (n.world.pod.Some? && n.world.pod.value.ann.staging == staging ==> orphan == NobodyHolds(n.world, staged))
  {
    busy, orphan := false, false;
    var published;
    ok, published := LookAtTargets(n);
    if ok && !staged {
      var held;
      busy, held := LookForHolder(n, staging);
      orphan := !busy && !held && !published;
    }
  }

  method Open(n: Plugin, kind: Kind)
    requires n.Valid() && n.world.sec.None? && (kind.Recovery? || kind.Sweep?)
    modifies n
    ensures n.Valid() && n.world.sec.Some? && n.world.sec.value.kind == kind && n.world.sec.value.home.None? && AtEase(n.world)
    ensures EntryKept(old(n.world), n.world) && n.world.marks == old(n.world).marks && n.world.nextUid == old(n.world).nextUid
    ensures n.world.setup == old(n.world).setup && n.world.clock >= old(n.world).clock
    ensures old(n.script) == [] ==> n.script == [] && n.world == old(n.world).(sec := n.world.sec)
  {
    assert Settled(n.world) && Quiescent(n.world) by { ReachedInv(n.run, n.world); }
    n.Lock(kind);
  }

  method Close(n: Plugin, kind: Kind)
    requires n.Valid() && n.world.sec.Some? && n.world.sec.value.kind == kind && (kind.Recovery? || kind.Sweep?) && Done(n.world)
    modifies n
    ensures n.Valid() && n.world.sec.None?
    ensures EntryKept(old(n.world), n.world) && n.world.marks == old(n.world).marks && n.world.nextUid == old(n.world).nextUid
    ensures (n.world.pod.Some? ==> old(n.world).pod.Some?) && n.world.clock >= old(n.world).clock
    ensures n.world.hist.log.emitted == old(n.world).hist.log.emitted
    ensures old(n.script) == [] ==> n.script == [] && n.world == old(n.world).(sec := None)
  {
    n.Unlock(kind, Accepted);
  }

  /** One turn of Recover, or of the pod watch, for a volume. */
  method Recover(n: Plugin, h: H.Host, infos: T.Table, staged: bool, grace: nat, kubelet: Path) returns (out: Outcome)
    requires n.Valid() && B.PolicyOk(n.setup.policy) && n.world.sec.None?
    requires ConfiguredFor(n.setup, kubelet)
    modifies n, h`mounts, h`umounts, h`faults
    ensures n.Valid() && n.world.sec.None?
    ensures Reported(n.world) && (!out.Rebound? ==> h.mounts == old(h.mounts))
    ensures old(n.script) == [] ==> n.script == [] && Recovers(old(n.world), n.world, staged, n.calm, grace, out)
  {
    Open(n, Kind.Recovery);
    ghost var w1 := n.world;
    out := RecoverVolume(n, h, infos, staged, grace, kubelet);
    ghost var w2 := n.world;
    Close(n, Kind.Recovery);
    AllReported(n.run, n.world);
    if old(n.script) == [] {
      RecoversSince(old(n.world), w1, w2, n.world, staged, n.calm, grace, out);
    }
  }

  /** pruneBackoffs, for a volume without a mount pod in the listing; staging is the path Volumes returned. */
  method Sweep(n: Plugin, staging: Path) returns (forgotten: bool)
    requires n.Valid() && n.world.sec.None?
    modifies n
    ensures n.Valid() && n.world.sec.None?
    ensures Reported(n.world)
    ensures forgotten ==> n.world.entry.None? && n.world.marks.gaveUp.None? && n.world.pod.None?
    // A give-up is not forgotten within ORPHAN_GRACE of the last stage that found it.
    ensures forgotten && old(n.world).marks.gaveUp.Some? ==> n.world.clock >= old(n.world).marks.gaveUp.value + ORPHAN_GRACE
    ensures !forgotten ==> EntryKept(old(n.world), n.world) && n.world.marks == old(n.world).marks
    ensures n.world.nextUid == old(n.world).nextUid
    // If nothing else happens, it forgets exactly then.
    ensures old(n.script) == [] ==>
              (forgotten <==> Forgettable(old(n.world), staging))
  {
    Open(n, Kind.Sweep);
    forgotten := SweepOpen(n, staging);
    Close(n, Kind.Sweep);
    AllReported(n.run, n.world);
  }

  /** The sweep under the lock. */
  method SweepOpen(n: Plugin, staging: Path) returns (forgotten: bool)
    requires n.Valid() && n.world.sec.Some? && n.world.sec.value.kind.Sweep? && AtEase(n.world)
    modifies n
    ensures n.Valid() && Within(old(n.world), n.world) && Done(n.world) && n.world.nextUid == old(n.world).nextUid
    ensures forgotten ==> n.world.entry.None? && n.world.marks.gaveUp.None? && n.world.pod.None?
    ensures forgotten && old(n.world).marks.gaveUp.Some? ==> n.world.clock >= old(n.world).marks.gaveUp.value + ORPHAN_GRACE
    ensures !forgotten ==> EntryKept(old(n.world), n.world) && n.world.marks == old(n.world).marks
    ensures old(n.script) == [] ==> (forgotten <==> Forgettable(old(n.world), staging))
  {
    forgotten := false;
    var busy := LookAtBusy(n);
    if !busy {
      var held := LookAtVolData(n, staging);
      if !held {
        forgotten := ForgetIfGone(n);
      }
    }
  }

  /** The volume has no pod, nobody holds it, and the last stage that found its give-up is ORPHAN_GRACE ago. */
  predicate Forgettable(w: World, staging: Path) {
    && !IsBusy(w) && !KubeletStaged(w, staging) && w.pod.None?
    && (w.marks.gaveUp.Some? ==> w.clock - w.marks.gaveUp.value >= ORPHAN_GRACE)
  }

  /** The end of the sweep, for a volume that is neither busy nor staged. */
  method ForgetIfGone(n: Plugin) returns (forgotten: bool)
    requires n.Valid() && n.world.sec.Some? && n.world.sec.value.kind.Sweep? && n.world.sec.value.view.idle && n.world.sec.value.view.unstaged
    requires AtEase(n.world)
    modifies n
    ensures n.Valid() && Within(old(n.world), n.world) && Done(n.world) && n.world.nextUid == old(n.world).nextUid
    ensures forgotten ==> n.world.entry.None? && n.world.marks.gaveUp.None? && n.world.pod.None?
    ensures forgotten && old(n.world).marks.gaveUp.Some? ==> n.world.clock >= old(n.world).marks.gaveUp.value + ORPHAN_GRACE
    ensures !forgotten ==> EntryKept(old(n.world), n.world) && n.world.marks == old(n.world).marks
    ensures old(n.script) == [] ==>
              (forgotten <==>
                 var w := old(n.world);
                 w.pod.None? && (w.marks.gaveUp.Some? ==> w.clock - w.marks.gaveUp.value >= ORPHAN_GRACE))
  {
    forgotten := false;
    var recent := FoundRecently(n);
    if recent {
      return;
    }
    var ok, found := FindPod(n);
    if !ok || found.Some? {
      return;
    }
    ForgetGiveUp(n);
    forgotten := true;
  }

  method FoundRecently(n: Plugin) returns (recent: bool)
    requires n.Valid() && n.world.sec.Some?
    modifies n
    ensures n.Valid() && Kept(old(n.world), n.world) && n.world.sec == old(n.world).sec
    ensures old(n.script) == [] ==> n.script == [] && n.world == old(n.world)
    ensures recent == (n.world.marks.gaveUp.Some? && n.world.clock - n.world.marks.gaveUp.value < ORPHAN_GRACE)
  {
    Quiet(n.run, n.world);
    recent := n.IsGaveUpRecent();
    KeptMeanwhile(old(n.world), n.world);
  }

  method ForgetGiveUp(n: Plugin)
    requires n.Valid() && n.world.sec.Some? && Enabled(n.world, ForgetSwept) && n.world.pod.None? && Done(n.world)
    requires !n.world.sec.value.told
    modifies n
    ensures n.Valid() && Within(old(n.world), n.world) && Done(n.world) && n.world.nextUid == old(n.world).nextUid
    ensures n.world.entry.None? && n.world.marks.gaveUp.None? && n.world.pod.None?
  {
    Quiet(n.run, n.world);
    n.ForgetSwept();
  }
}
