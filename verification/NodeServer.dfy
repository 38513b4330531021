/** The stage and unstage of one volume (internal/driver/node.go), on the fields of the plugin. */
module NodeServer {
  import opened Base
  import opened PodSpec
  import opened Machine
  import opened Safety
  import opened Node
  import opened Manager
  import B = Backoff

  /** The gRPC codes of the stage and the unstage. */
  datatype Code = OK | Aborted | Unavailable | FailedPrecondition | InvalidArgument | NotFound | Internal

  /** What kubelet makes of the answer to a stage. */
  function VerdictOf(c: Code): Verdict {
    match c
    case OK => Accepted
    case Aborted | Unavailable => Retry
    case _ => Final
  }

  const MAX_ENSURE_ROUNDS := 4

  /** What a section keeps to the end, besides what it knows. */
  ghost predicate Within(u: World, w: World) {
    && u.sec.Some? && w.sec.Some? && w.sec.value.kind == u.sec.value.kind && (u.sec.value.home.Some? ==> w.sec.value.home == u.sec.value.home)
    && w.setup == u.setup && u.clock <= w.clock && u.nextUid <= w.nextUid && w.marks.busy == u.marks.busy
    && u.hist.failures <= w.hist.failures && u.hist.log.emitted <= w.hist.log.emitted && (w.sec.value.owes ==> u.sec.value.owes)
    && (u.host.kubelet.StageSent? ==> w.host.kubelet.StageSent?) && (u.host.kubelet.UnstageSent? ==> w.host.kubelet.UnstageSent?)
  }

  /** No unfinished pod mounts the volume on the path. */
  predicate NoneOn(w: World, path: Path) {
    w.pod.Some? && w.pod.value.ann.staging == path ==> Finished(w.pod.value, w.clock)
  }

  /** The lock can be given back. */
  ghost predicate Done(w: World) { w.sec.Some? && Settled(w) && !w.sec.value.owes }

  // ---------------------------------------------------------------- marks and reports

  /** gaveUp.Delete, when the volume did not give up. */
  method DropMark(n: Plugin)
    requires n.Valid() && n.world.sec.Some? && !GaveUp(n.world) && !n.world.sec.value.told
    requires !n.world.sec.value.owes
    modifies n
    ensures n.Valid() && Within(old(n.world), n.world) && n.world.sec == old(n.world).sec && EntryKept(old(n.world), n.world)
    ensures Done(n.world) && n.world.marks.gaveUp.None? && n.world.hist.failures == old(n.world).hist.failures
    ensures n.world.nextUid == old(n.world).nextUid && n.world.hist.log.emitted == old(n.world).hist.log.emitted
    ensures old(n.world).pod.Some? && old(n.world).pod.value.inUse ==> n.world.pod.Some? && n.world.pod.value.inUse
    ensures n.world.pod.Some? ==> old(n.world).pod.Some?
    ensures old(n.script) == [] ==> n.script == [] && Unmoved(old(n.world), n.world) && n.world.entry == old(n.world).entry
  {
    n.ClearGaveUp();
  }

  lemma FoundSettles(w: World)
    requires Quiescent(w) && Told(w) && w.sec.Some? && w.sec.value.told
    ensures Settled(DriverStep(w, StageFoundGaveUp)) && Settled(DriverStep(w, RecoveryFoundGaveUp))
  {}

  /** stageGaveUp: a MountGaveUp event unless one was reported; the time of this stage. */
  method StageGaveUp(n: Plugin) returns (reported: bool)
    requires n.Valid() && n.world.sec.Some? && n.world.sec.value.told && !n.world.sec.value.owes
    modifies n
    ensures n.Valid() && Within(old(n.world), n.world) && n.world.sec == old(n.world).sec
    ensures Done(n.world) && n.world.marks.gaveUp == Some(n.world.clock)
    ensures reported == old(n.world).marks.gaveUp.None? && n.world.nextUid == old(n.world).nextUid
    ensures n.world.hist.log.reports == old(n.world).hist.log.reports + (if reported then 1 else 0)
    ensures n.world.pod.Some? ==> old(n.world).pod.Some? && Evolves(old(n.world).pod.value, n.world.pod.value)
    ensures old(n.script) == [] ==> n.script == [] && Unmoved(old(n.world), n.world) && n.world.entry == old(n.world).entry
  {
    ghost var w0 := n.world;
    ReachedInv(n.run, w0);
    reported := n.SwapGaveUp();
    FoundMeanwhile(w0, n.before);
    FoundSettles(n.before);
  }

  lemma FoundMeanwhile(u: World, w: World)
    requires Quiescent(u) && Told(u) && Meanwhile(u, w)
    ensures Quiescent(w) && Told(w)
  {}

  /** reportExit: the exit of a pod just released, unless it was reported early. */
  method ReportExit(n: Plugin, st: State)
    requires n.Valid() && n.world.sec.Some? && Done(n.world) && n.world.pod.None?
    requires st.phase.Exited? ==> st.pod.Some? && n.world.sec.value.released == st.pod
    modifies n
    ensures n.Valid() && Within(old(n.world), n.world) && EntryKept(old(n.world), n.world)
    ensures n.world.sec.value.(released := None) == old(n.world).sec.value.(released := None)
    ensures Done(n.world) && n.world.pod.None? && n.world.marks.gaveUp == old(n.world).marks.gaveUp
    ensures n.world.nextUid == old(n.world).nextUid
    ensures n.world.hist.failures == old(n.world).hist.failures && n.world.secrets.Keys <= old(n.world).secrets.Keys
    // An exit with a code is now emitted, and was or will be by nobody else.
    ensures st.phase.Exited? && ExitCode(st.pod.value).Some? ==>
              && st.pod.value.uid in n.world.hist.log.closed && n.world.hist.log.emitted[st.pod.value.uid] == 1
              && n.world.sec.value.released.None?
    ensures !st.phase.Exited? || ExitCode(st.pod.value).None? ==> n.world == old(n.world)
    ensures old(n.script) == [] ==> n.script == [] && Unmoved(old(n.world), n.world) && n.world.entry == old(n.world).entry
  {
    if !st.phase.Exited? || ExitCode(st.pod.value).None? {
      return;
    }
    Quiet(n.run, n.world);
    var _ := n.ReportReleased(st.pod.value);
    EmittedNow(n.run, n.world, st.pod.value.uid);
  }

  lemma EmittedNow(r: Run, w: World, u: Uid)
    requires Reached(r, w) && (u in w.hist.log.closed || u in w.marks.reported)
    ensures w.hist.log.emitted[u] == 1
  {
    ReachedInv(r, w);
  }

  /** reportExitEarly: the exit of a pod found dead, which stays for now. */
  method ReportExitEarly(n: Plugin, st: State)
    requires n.Valid() && n.world.sec.Some? && Done(n.world)
    requires st.pod.Some? ==> Knows(n.world, Saw(st.pod.value))
    modifies n
    ensures n.Valid() && Within(old(n.world), n.world) && EntryKept(old(n.world), n.world)
    ensures n.world.sec == old(n.world).sec && Done(n.world) && n.world.marks.gaveUp == old(n.world).marks.gaveUp
    ensures n.world.hist.failures == old(n.world).hist.failures && n.world.nextUid == old(n.world).nextUid
    ensures (st.phase.Exited? || st.phase.Terminating?) && st.pod.Some? && ExitCode(st.pod.value).Some? ==>
              st.pod.value.uid in n.world.marks.reported && n.world.hist.log.emitted[st.pod.value.uid] == 1
    ensures old(n.world).pod.Some? && old(n.world).pod.value.inUse ==> n.world.pod.Some? && n.world.pod.value.inUse
    ensures n.world.pod.Some? ==> old(n.world).pod.Some? && Evolves(old(n.world).pod.value, n.world.pod.value)
    ensures old(n.script) == [] ==> n.script == [] && Unmoved(old(n.world), n.world) && n.world.entry == old(n.world).entry
    ensures old(n.script) == [] ==> n.world.secrets == old(n.world).secrets
  {
    if (!st.phase.Exited? && !st.phase.Terminating?) || st.pod.None? || ExitCode(st.pod.value).None? {
      EvolvesItself(n.world);
      return;
    }
    Quiet(n.run, n.world);
    var _ := n.ReportEarly(st.pod.value);
    EmittedNow(n.run, n.world, st.pod.value.uid);
  }

  // ---------------------------------------------------------------- the stage

  /** The exit of the pod that was there is emitted, if it has a code. */
  ghost predicate ExitOut(u: World, w: World) {
    u.pod.Some? && ExitCode(u.pod.value).Some? ==> u.pod.value.uid in w.hist.log.emitted
  }

  /** recreate: OK once the pod is gone, Aborted while it drains. */
  method Recreate(n: Plugin, reason: Reason, grace: nat) returns (c: Code)
    requires n.Valid() && n.world.sec.Some? && AtEase(n.world) && MayStop(n.world.sec.value, reason)
    modifies n
    ensures n.Valid() && Within(old(n.world), n.world) && n.world.sec.value.view == old(n.world).sec.value.view
    ensures AtEase(n.world) && (GaveUp(n.world) ==> GaveUp(old(n.world)))
    ensures (c == OK || c == Aborted || c == Unavailable) && n.world.nextUid == old(n.world).nextUid
    ensures c == OK ==> n.world.pod.None? && (n.world.entry.Some? ==> GaveUp(old(n.world)))
    // The exit of the pod released is reported.
    ensures c == OK && n.world.sec.value.released.Some? ==>
              ExitCode(n.world.sec.value.released.value).None? || n.world.sec.value.released == old(n.world).sec.value.released
    // If nothing else happens: OK exactly without a pod or with a finished one, whose exit is emitted; another is deleted.
    ensures old(n.script) == [] ==>
              && n.script == [] && c == (if Gone(old(n.world)) then OK else Aborted) && Deleted(old(n.world), n.world, grace)
              && (c == OK ==> ExitOut(old(n.world), n.world))
  {
    var st, err := Delete(n, reason, grace);
    if err != NoError {
      return Unavailable;
    }
    if st.phase.Terminating? {
      return Aborted;
    }
    ReportExit(n, st);
    c := OK;
  }

  /** restage: the pod on another staging path is recreated, unless that path is still mounted. */
  method Restage(n: Plugin, path: Path, grace: nat) returns (c: Code)
    requires n.Valid() && n.world.sec.Some? && AtEase(n.world) && n.world.sec.value.kind.Stage?
    modifies n
    ensures n.Valid() && Within(old(n.world), n.world) && n.world.sec.value.view == old(n.world).sec.value.view
    ensures AtEase(n.world) && (GaveUp(n.world) ==> GaveUp(old(n.world)))
    ensures (c == OK || c == Aborted || c == Unavailable || c == FailedPrecondition) && n.world.nextUid == old(n.world).nextUid
    ensures c == OK ==> n.world.pod.None? && (n.world.entry.Some? ==> GaveUp(old(n.world)))
    // Refused: the path is mounted, and the pod left alone.
    ensures c == FailedPrecondition ==>
              && path in n.world.host.mounts && n.world.sec == old(n.world).sec
              && (n.world.pod.Some? ==> old(n.world).pod.Some? && Evolves(old(n.world).pod.value, n.world.pod.value))
              && (old(n.world).pod.Some? && old(n.world).pod.value.inUse ==> n.world.pod.Some?)
    ensures old(n.script) == [] ==>
              && n.script == [] && c == (if path in old(n.world).host.mounts then FailedPrecondition else if Gone(old(n.world)) then OK else Aborted)
              && (if c == FailedPrecondition then Unmoved(old(n.world), n.world) else Deleted(old(n.world), n.world, grace))
  {
    var ok, mounted := LookForMount(n, path);
    if !ok {
      return Unavailable;
    }
    if mounted {
      return FailedPrecondition;
    }
    c := Recreate(n, Restaged, grace);
  }

  /** topMount: whether something is mounted on the path. */
  method LookForMount(n: Plugin, path: Path) returns (ok: bool, mounted: bool)
    requires n.Valid() && n.world.sec.Some?
    modifies n
    ensures n.Valid() && Kept(old(n.world), n.world) && SameSection(old(n.world), n.world)
    ensures ok ==> n.world.hist.failures == old(n.world).hist.failures && mounted == (path in n.world.host.mounts)
    ensures ok ==> n.world.pod.Some? ==> old(n.world).pod.Some? && Evolves(old(n.world).pod.value, n.world.pod.value)
    ensures !ok ==> n.world.hist.failures > old(n.world).hist.failures
    ensures old(n.world).pod.Some? && old(n.world).pod.value.inUse ==> n.world.pod.Some?
    ensures old(n.script) == [] ==> ok && n.script == [] && n.world == old(n.world)
  {
    Quiet(n.run, n.world);
    ghost var w0 := n.world;
    ok, mounted := n.LookAtMount(path);
    if ok {
      KeptMeanwhile(w0, n.world);
    } else {
      KeptStep(w0, n.before, FailCall);
    }
  }

  /** Mounter.State of a mount: whether it answers. */
  method AskForMount(n: Plugin) returns (answers: bool)
    requires n.Valid() && n.world.sec.Some?
    modifies n
    ensures n.Valid() && Kept(old(n.world), n.world) && SameSection(old(n.world), n.world)
    ensures old(n.script) == [] ==> answers == n.alive && n.script == [] && n.world == old(n.world)
  {
    Quiet(n.run, n.world);
    ghost var w0 := n.world;
    var ok;
    ok, answers := n.AskMount();
    if ok {
      KeptMeanwhile(w0, n.world);
    } else {
      KeptStep(w0, n.before, FailCall);
    }
    answers := ok && answers;
  }

  /** publishedAt. */
  method IsPublished(n: Plugin) returns (ok: bool, published: bool)
    requires n.Valid() && n.world.sec.Some? && Done(n.world)
    modifies n
    ensures n.Valid() && Within(old(n.world), n.world) && EntryKept(old(n.world), n.world) && Done(n.world)
    ensures n.world.sec.value.(view := old(n.world).sec.value.view) == old(n.world).sec.value
    ensures n.world.sec.value.view.ready == old(n.world).sec.value.view.ready && n.world.marks == old(n.world).marks
    ensures ok ==> n.world.sec.value.view.bound == published && n.world.sec.value.view.unbound == !published
    ensures n.world.nextUid == old(n.world).nextUid
    ensures old(n.script) == [] ==> ok && n.script == [] && published == (n.world.host.binds != {}) && Unmoved(old(n.world), n.world)
  {
    Quiet(n.run, n.world);
    ok, published := n.ReadMountTable();
  }

  /** Ready: an answer starts the backoff afresh. */
  method Probe(n: Plugin, p: Pod) returns (ready: bool)
    requires n.Valid() && Knows(n.world, Saw(p)) && p.status.Running? && AtEase(n.world)
    modifies n
    ensures n.Valid() && Within(old(n.world), n.world) && n.world.marks == old(n.world).marks && n.world.nextUid == old(n.world).nextUid
    ensures n.world.sec.value == old(n.world).sec.value.(view := n.world.sec.value.view)
    ensures n.world.sec.value.view.(ready := None) == old(n.world).sec.value.view.(ready := None)
    ensures n.world.hist.failures == old(n.world).hist.failures
    ensures n.world.hist.log.emitted == old(n.world).hist.log.emitted
    ensures old(n.world).pod.Some? && old(n.world).pod.value.inUse ==> n.world.pod.Some? && n.world.pod.value.inUse
    ensures ready ==> n.world.sec.value.view.ready == Some(p.uid) && !GaveUp(n.world)
    ensures !ready ==> Done(n.world) && EntryKept(old(n.world), n.world)
    ensures old(n.script) == [] ==> n.script == [] && ready == n.calm && Unmoved(old(n.world), n.world)
  {
    Quiet(n.run, n.world);
    ready := n.Ready(p);
    if ready {
      ReadyStep(n.before);
    } else {
      KeptMeanwhile(old(n.world), n.world);
    }
  }

  lemma ReadyStep(u: World)
    requires Enabled(u, SeenReady) && !u.sec.value.told
    ensures var w := DriverStep(u, SeenReady);
            && w == u.(entry := w.entry, sec := w.sec, hist := w.hist) && !GaveUp(w) && w.sec.Some?
            && w.sec.value == u.sec.value.(view := u.sec.value.view.(ready := Some(u.sec.value.know.pod.uid)))
            && w.hist == u.hist.(tally := w.hist.tally) && Answered(w) == Answered(u)
  {}

  /** checkReady. */
  method CheckReady(n: Plugin, st: State) returns (c: Code)
    requires n.Valid() && n.world.sec.Some? && AtEase(n.world) && n.world.marks.gaveUp.None?
    requires st.pod.Some? ==> Knows(n.world, Saw(st.pod.value)) && st.phase == PhaseOf(st.pod.value)
    requires st.pod.None? ==> st.phase.Absent?
    modifies n
    ensures n.Valid() && Within(old(n.world), n.world) && AtEase(n.world)
    ensures n.world.marks.gaveUp.None?
    ensures n.world.sec.value.view.(ready := None) == old(n.world).sec.value.view.(ready := None)
    ensures st.phase.Exited? && ExitCode(st.pod.value).Some? ==> n.world.hist.log.emitted[st.pod.value.uid] == 1
    ensures (c == OK || c == Aborted) && n.world.nextUid == old(n.world).nextUid
    ensures c == OK ==>
              st.phase.Running? && st.pod.Some? && n.world.sec.value.view.ready == Some(st.pod.value.uid) && Knows(n.world, Saw(st.pod.value))
    // If nothing else happens, OK exactly for a running pod that answers.
    ensures old(n.script) == [] ==> n.script == [] && Unmoved(old(n.world), n.world) && (c == OK <==> st.phase.Running? && n.calm)
  {
    c := Aborted;
    match st.phase
    case Running =>
      var ready := Probe(n, st.pod.value);
      c := if ready then OK else Aborted;
    case Exited | Absent =>
      ReportExitEarly(n, st);
    case _ =>
  }

  /** Whatever is wrong with the spec but its credentials, no pod mounts the volume on its staging path. */
  lemma InvalidMountsNothing(r: Run, w: World, spec: Spec)
    requires Reached(r, w) && ForThisVolume(w.setup, spec) && !SpecOk(w.setup.cfg, spec)
    requires spec.credentials.token != "" && spec.credentials.passphrase != ""
    ensures NoneOn(w, spec.staging)
  {
    ReachedInv(r, w);
  }

  /** The pod is a new one of the spec. */
  predicate NewPod(u: World, w: World, spec: Spec) {
    && w.nextUid == u.nextUid + 1 && w.pod.Some? && w.pod.value.uid == u.nextUid && w.pod.value.status.Waiting? && w.pod.value.deletedAt.None?
    && w.pod.value.ann.hash == SpecHash(u, spec) && w.pod.value.ann.staging == spec.staging
  }

  /** What Ensure comes to when nothing else happens. */
  ghost predicate EnsuredOnce(u: World, w: World, spec: Spec, st: State, c: Code) {
    var hash := SpecHash(u, spec);
    && c == (if GivesUp(u, hash) && !Due(u, hash) then FailedPrecondition else OK)
    && (if Due(u, hash) then NewPod(u, w, spec) && st.pod == w.pod && st.phase.Pending? && !st.configChanged && st.staging == spec.staging
        else Unmoved(u, w) && w.nextUid == u.nextUid &&
             (c == OK ==> st.pod == u.pod && st.phase == if u.pod.Some? then PhaseOf(u.pod.value) else Absent))
  }

  /** A round's Ensure, and what the stage makes of its errors: OK when there are none. */
  method EnsureOnce(n: Plugin, spec: Spec) returns (c: Code, st: State)
    requires n.Valid() && B.PolicyOk(n.setup.policy) && n.world.sec.Some?
    requires AtEase(n.world) && ForThisVolume(n.setup, spec) && Serves(n.world, spec)
    modifies n
    ensures n.Valid() && Within(old(n.world), n.world) && Done(n.world) && n.world.sec.value.view == old(n.world).sec.value.view
    ensures c == OK || c == FailedPrecondition || c == InvalidArgument || c == Unavailable
    ensures c == InvalidArgument <==> !SpecOk(n.setup.cfg, spec)
    ensures c == OK ==>
              && !n.world.sec.value.told && n.world.marks.gaveUp.None?
              && (st.pod.None? ==> st.phase.Absent?)
              && (st.pod.Some? ==>
                    && Knows(n.world, Saw(st.pod.value)) && st.phase == PhaseOf(st.pod.value)
                    && st.staging == st.pod.value.ann.staging
                    && st.configChanged == (st.pod.value.ann.hash != HashOf(n.setup.cfg, spec)))
    ensures c == FailedPrecondition ==> NoneOn(n.world, spec.staging) && n.world.nextUid == old(n.world).nextUid
    ensures c == InvalidArgument && spec.credentials.token != "" && spec.credentials.passphrase != "" ==> NoneOn(n.world, spec.staging)
    ensures old(n.script) == [] ==> n.script == [] && if SpecOk(n.setup.cfg, spec) then EnsuredOnce(old(n.world), n.world, spec, st, c) else n.world == old(n.world)
  {
    var err;
    st, err := Ensure(n, spec);
    match err
    case GaveUpError =>
      var _ := StageGaveUp(n);
      c := FailedPrecondition;
    case InvalidSpec =>
      if spec.credentials.token != "" && spec.credentials.passphrase != "" {
        InvalidMountsNothing(n.run, n.world, spec);
      }
      c := InvalidArgument;
    case ApiError =>
      c := Unavailable;
    case NoError =>
      DropMark(n);
      c := OK;
  }

  /** A pod being deleted, on another staging path, or of another config unless the volume is published. */
  predicate HasToGo(st: State, spec: Spec, published: bool) {
    st.phase.Terminating? ||
    ((st.phase.Pending? || st.phase.Running?) && (st.staging != spec.staging || (st.configChanged && !published)))
  }

  /** Another staging path than the pod's is asked for, and that one is mounted. */
  predicate Blocked(w: World, spec: Spec) {
    Starting(w) && w.pod.value.ann.staging != spec.staging && w.pod.value.ann.staging in w.host.mounts
  }

  /** The pod starts or runs, and nobody deletes it. */
  predicate Starting(w: World) { w.pod.Some? && !w.pod.value.status.Ended? && w.pod.value.deletedAt.None? }

  /** What replacing the pod found comes to when nothing else happens. */
  ghost predicate Replaced(u: World, w: World, st: State, spec: Spec, grace: nat, replaced: bool, c: Code) {
    && (replaced <==> HasToGo(st, spec, u.host.binds != {}))
    && c == (if !replaced then OK else if Blocked(u, spec) then FailedPrecondition else if Gone(u) then OK else Aborted)
    && (if replaced && !Blocked(u, spec) then Deleted(u, w, grace) else Unmoved(u, w))
    && (replaced && u.pod.Some? && Gone(u) ==> ExitOut(u, w))
  }

  /** Whether the pod found has to go, and its end: OK once it is gone. */
  method Replace(n: Plugin, spec: Spec, st: State, grace: nat) returns (replaced: bool, c: Code)
    requires n.Valid() && n.world.sec.Some? && n.world.sec.value.kind.Stage? && Done(n.world)
    requires !n.world.sec.value.told && n.world.marks.gaveUp.None?
    requires st.pod.None? ==> st.phase.Absent?
    requires st.pod.Some? ==>
               Knows(n.world, Saw(st.pod.value)) && st.phase == PhaseOf(st.pod.value) && st.staging == st.pod.value.ann.staging
    modifies n
    ensures n.Valid() && Within(old(n.world), n.world) && AtEase(n.world)
    ensures (c == OK || c == Aborted || c == Unavailable || c == FailedPrecondition) && n.world.nextUid == old(n.world).nextUid
    ensures c != Unavailable ==> (replaced <==> HasToGo(st, spec, n.world.sec.value.view.bound))
    ensures replaced && c == OK ==> n.world.pod.None? && n.world.entry.None?
    ensures replaced && c == FailedPrecondition ==> NoneOn(n.world, spec.staging)
    ensures !replaced ==> c == OK && n.world.sec.value.know == old(n.world).sec.value.know && n.world.marks.gaveUp.None?
    ensures !replaced ==> (st.phase.Running? ==> st.staging == spec.staging && (st.configChanged ==> n.world.sec.value.view.bound))
    ensures old(n.script) == [] ==>
              n.script == [] && (st.pod == old(n.world).pod ==> Replaced(old(n.world), n.world, st, spec, grace, replaced, c))
    ensures st.phase.Pending? && !st.configChanged && st.staging == spec.staging ==> !replaced
  {
    var starting := st.phase.Pending? || st.phase.Running?;
    replaced, c := true, OK;
    if st.phase.Terminating? {
      c := Recreate(n, Restaged, grace);
    } else if starting && st.staging != spec.staging {
      c := Restage(n, st.staging, grace);
      if c == FailedPrecondition && n.world.pod.Some? {
        SawEvolves(n.run, n.world, st.pod.value);
      }
    } else if starting && st.configChanged {
      replaced, c := ReplaceChanged(n, grace);
    } else {
      replaced := false;
    }
  }

  /** A pod of another config goes, unless the volume is published. */
  method ReplaceChanged(n: Plugin, grace: nat) returns (replaced: bool, c: Code)
    requires n.Valid() && n.world.sec.Some? && n.world.sec.value.kind.Stage? && Done(n.world) && !n.world.sec.value.told
    requires n.world.marks.gaveUp.None?
    modifies n
    ensures n.Valid() && Within(old(n.world), n.world) && AtEase(n.world) && n.world.nextUid == old(n.world).nextUid
    ensures c == OK || c == Aborted || c == Unavailable
    ensures c != Unavailable ==> n.world.sec.value.view.bound == !replaced
    ensures replaced && c == OK ==> n.world.pod.None? && n.world.entry.None?
    ensures !replaced ==> c == OK && n.world.sec.value.know == old(n.world).sec.value.know && n.world.marks.gaveUp.None?
    ensures old(n.script) == [] ==>
              && n.script == [] && replaced == (old(n.world).host.binds == {})
              && c == (if !replaced || Gone(old(n.world)) then OK else Aborted)
              && (if replaced then Deleted(old(n.world), n.world, grace) else Unmoved(old(n.world), n.world))
              && (replaced && Gone(old(n.world)) ==> ExitOut(old(n.world), n.world))
  {
    ghost var w0, calm := n.world, n.script == [];
    replaced, c := true, OK;
    var ok, published := IsPublished(n);
    ghost var w1 := n.world;
    if !ok {
      c := Unavailable;
    } else if published {
      replaced := false;
    } else {
      c := Recreate(n, ConfigChanged, grace);
      if calm {
        RecreatedSince(w0, w1, n.world, grace);
      }
    }
  }

  lemma RecreatedSince(u: World, v: World, w: World, grace: nat)
    requires Unmoved(u, v) && Deleted(v, w, grace)
    ensures Deleted(u, w, grace) && Gone(u) == Gone(v) && (ExitOut(v, w) ==> ExitOut(u, w))
  {}

  /** The pod serves the spec: it starts or runs on its path, with its config unless the volume is published. */
  predicate Fits(w: World, spec: Spec) {
    && Starting(w) && w.pod.value.ann.staging == spec.staging
    && (w.pod.value.ann.hash == SpecHash(w, spec) || w.host.binds != {})
  }

  /** The stage makes a new pod: one is due, or the dead one was being deleted. */
  predicate Renewed(w: World, hash: Hash) { Due(w, hash) || (w.pod.Some? && Gone(w) && w.pod.value.deletedAt.Some?) }

  /** ensureMounted's answer, when nothing else happens: OK exactly for a running pod that fits and answers. */
  predicate StageCode(u: World, spec: Spec, calm: bool, c: Code) {
    c == if !SpecOk(u.setup.cfg, spec) then InvalidArgument
         else if Fits(u, spec) && u.pod.value.status.Running? && calm then OK
         else if Blocked(u, spec) || (GivesUp(u, SpecHash(u, spec)) && !Due(u, SpecHash(u, spec))) then FailedPrecondition
         else Aborted
  }

  /** A dead pod waits for its restart time. */
  predicate NotYetDue(w: World, hash: Hash) { w.pod.Some? && Gone(w) && !Due(w, hash) && !GivesUp(w, hash) }

  /** And what it leaves: a new pod, one that is being deleted because it does not fit, or the pod as it was. The exit of
      a dead one that waits is emitted. */
  ghost predicate PodAfter(u: World, w: World, spec: Spec, grace: nat) {
    && (SpecOk(u.setup.cfg, spec) && NotYetDue(u, SpecHash(u, spec)) ==> ExitOut(u, w))
    &&
    if SpecOk(u.setup.cfg, spec) && Renewed(u, SpecHash(u, spec)) then NewPod(u, w, spec)
    else
      w.pod == if SpecOk(u.setup.cfg, spec) && Starting(u) && !Fits(u, spec) && !Blocked(u, spec)
               then Some(WithDeletion(u.pod.value, u.clock + grace)) else u.pod
  }

  ghost predicate StageLeaves(u: World, w: World, spec: Spec, grace: nat) {
    PodAfter(u, w, spec, grace) && (Fits(u, spec) && SpecOk(u.setup.cfg, spec) ==> w.host == u.host)
  }

  /** What the rest of a round comes to when nothing else happens. */
  ghost predicate Proceeded(u: World, w: World, st: State, spec: Spec, grace: nat, calm: bool, c: Code, again: bool) {
    var has := HasToGo(st, spec, u.host.binds != {});
    && (again <==> has && !Blocked(u, spec) && Gone(u)) && w.nextUid == u.nextUid
    && (!again ==>
          c == if has then if Blocked(u, spec) then FailedPrecondition else Aborted
               else if st.phase.Running? && calm then OK else Aborted)
    && (if has && !Blocked(u, spec) then Deleted(u, w, grace) else Unmoved(u, w))
    && (u.pod.Some? && Gone(u) ==> ExitOut(u, w))
  }

  /** A round, when nothing else happens: the last one, or a dead pod that was being deleted is gone and another follows. */
  ghost predicate RoundIs(u: World, w: World, spec: Spec, grace: nat, calm: bool, c: Code, again: bool) {
    var hash := SpecHash(u, spec);
    if again then SpecOk(u.setup.cfg, spec) && Renewed(u, hash) && !Due(u, hash) && w.nextUid == u.nextUid && ExitOut(u, w)
    else StageCode(u, spec, calm, c) && StageLeaves(u, w, spec, grace) && (SpecOk(u.setup.cfg, spec) && Renewed(u, hash) ==> Due(u, hash))
  }

  /** The second round then creates the pod. */
  lemma SecondRound(u: World, v: World, w: World, spec: Spec, grace: nat, calm: bool, c: Code, again: bool)
    requires v.setup == u.setup && RoundIs(u, v, spec, grace, calm, OK, true) && v.pod.None? && v.entry.None?
    requires v.hist.log.emitted <= w.hist.log.emitted
    requires RoundIs(v, w, spec, grace, calm, c, again)
    ensures !again && StageCode(u, spec, calm, c) && StageLeaves(u, w, spec, grace)
  {
    assert Due(v, SpecHash(v, spec));
  }

  /** The pod of the state runs, answered, mounts the volume on the path of the spec, and runs its config unless the volume
      was seen published. */
  predicate Served(w: World, st: State, spec: Spec) {
    && w.sec.Some? && st.phase.Running? && st.pod.Some? && Knows(w, Saw(st.pod.value))
    && w.sec.value.view.ready == Some(st.pod.value.uid)
    && st.pod.value.ann.staging == spec.staging && (st.pod.value.ann.hash == SpecHash(w, spec) || w.sec.value.view.bound)
    && !GaveUp(w) && w.marks.gaveUp.None? && !w.sec.value.told
  }

  /** One turn of ensureMounted: another is needed once a pod is gone. */
  method Round(n: Plugin, spec: Spec, grace: nat) returns (c: Code, st: State, again: bool)
    requires n.Valid() && B.PolicyOk(n.setup.policy) && n.world.sec.Some? && n.world.sec.value.kind.Stage?
    requires AtEase(n.world) && ForThisVolume(n.setup, spec) && Serves(n.world, spec)
    modifies n
    ensures n.Valid() && Within(old(n.world), n.world) && Done(n.world)
    ensures again ==> !n.world.sec.value.told && n.world.pod.None? && n.world.entry.None? && SpecOk(n.setup.cfg, spec)
    ensures !again && c == OK ==> Served(n.world, st, spec)
    ensures !again && VerdictOf(c).Final? && spec.credentials.token != "" && spec.credentials.passphrase != "" ==>
              NoneOn(n.world, spec.staging)
    ensures !again ==> c != Internal && (c == InvalidArgument <==> !SpecOk(n.setup.cfg, spec))
    ensures old(n.script) == [] ==> n.script == [] && RoundIs(old(n.world), n.world, spec, grace, n.calm, c, again)
  {
    again := false;
    c, st := EnsureOnce(n, spec);
    if c != OK {
      return;
    }
    ghost var w1 := n.world;
    c, again := Proceed(n, spec, st, grace);
    if old(n.script) == [] {
      RoundFollows(old(n.world), w1, n.world, st, spec, grace, n.calm, c, again);
    }
  }

  /** The rest of the round, once Ensure says what there is. */
  method Proceed(n: Plugin, spec: Spec, st: State, grace: nat) returns (c: Code, again: bool)
    requires n.Valid() && n.world.sec.Some? && n.world.sec.value.kind.Stage? && Done(n.world)
    requires !n.world.sec.value.told && n.world.marks.gaveUp.None?
    requires st.pod.None? ==> st.phase.Absent?
    requires st.pod.Some? ==>
               && Knows(n.world, Saw(st.pod.value)) && st.phase == PhaseOf(st.pod.value) && st.staging == st.pod.value.ann.staging
               && st.configChanged == (st.pod.value.ann.hash != HashOf(n.setup.cfg, spec))
    modifies n
    ensures n.Valid() && Within(old(n.world), n.world) && AtEase(n.world)
    ensures again ==> n.world.pod.None? && n.world.entry.None?
    ensures !again && c == OK ==> Served(n.world, st, spec)
    ensures !again && c == FailedPrecondition ==> NoneOn(n.world, spec.staging)
    ensures !again ==> c == OK || c == Aborted || c == Unavailable || c == FailedPrecondition
    ensures old(n.script) == [] ==>
              n.script == [] && (st.pod == old(n.world).pod ==> Proceeded(old(n.world), n.world, st, spec, grace, n.calm, c, again))
  {
    again, c := Replace(n, spec, st, grace);
    if c != OK {
      again := false;
    } else if !again {
      c := CheckReady(n, st);
    }
  }

  lemma RoundFollows(u: World, v: World, w: World, st: State, spec: Spec, grace: nat, calm: bool, c: Code, again: bool)
    requires SpecOk(u.setup.cfg, spec) && v.setup == u.setup && EnsuredOnce(u, v, spec, st, OK) && Proceeded(v, w, st, spec, grace, calm, c, again)
    requires st.pod.Some? ==>
               && st.phase == PhaseOf(st.pod.value) && st.staging == st.pod.value.ann.staging
               && st.configChanged == (st.pod.value.ann.hash != SpecHash(u, spec))
    ensures RoundIs(u, w, spec, grace, calm, c, again)
  {}

  /** ensureMounted, with the number of its Ensure rounds. */
  method EnsureMounted(n: Plugin, spec: Spec, grace: nat) returns (c: Code, st: State, rounds: nat)
    requires n.Valid() && B.PolicyOk(n.setup.policy) && n.world.sec.Some? && n.world.sec.value.kind.Stage?
    requires AtEase(n.world) && ForThisVolume(n.setup, spec) && Serves(n.world, spec)
    modifies n
    ensures n.Valid() && Within(old(n.world), n.world) && Done(n.world)
    ensures c == OK ==> Served(n.world, st, spec)
    // Final for kubelet: no unfinished pod mounts the volume there, given complete credentials.
    ensures VerdictOf(c).Final? && spec.credentials.token != "" && spec.credentials.passphrase != "" ==>
              NoneOn(n.world, spec.staging)
    ensures c == InvalidArgument <==> !SpecOk(n.setup.cfg, spec)
    ensures c != Internal && rounds <= MAX_ENSURE_ROUNDS
    // If nothing changes under it, two rounds are enough, and the answer and the pod are determined.
    ensures old(n.script) == [] ==>
              rounds <= 2 && n.script == [] && StageCode(old(n.world), spec, n.calm, c) && StageLeaves(old(n.world), n.world, spec, grace)
  {
    c, st, rounds := Aborted, NOTHING, 0;
    while rounds < MAX_ENSURE_ROUNDS
      invariant rounds <= MAX_ENSURE_ROUNDS && n.Valid() && Within(old(n.world), n.world)
      invariant AtEase(n.world) && (rounds == 0 ==> n.world == old(n.world))
      invariant rounds > 0 ==> SpecOk(n.setup.cfg, spec)
      invariant old(n.script) == [] ==> n.script == [] && rounds <= 1
      invariant old(n.script) == [] && rounds == 1 ==>
                  n.world.pod.None? && n.world.entry.None? && RoundIs(old(n.world), n.world, spec, grace, n.calm, OK, true)
    {
      ghost var w1 := n.world;
      rounds := rounds + 1;
      var again;
      c, st, again := Round(n, spec, grace);
      if old(n.script) == [] && rounds == 2 {
        SecondRound(old(n.world), w1, n.world, spec, grace, n.calm, c, again);
      }
      if !again {
        return;
      }
    }
    c := Aborted;
  }

  /** checkStaged: the node plugin sees the mount on the staging path, alive. */
  method CheckStaged(n: Plugin, staging: Path) returns (c: Code)
    requires n.Valid() && n.world.sec.Some? && AtEase(n.world)
    modifies n
    ensures n.Valid() && Kept(old(n.world), n.world) && n.world.sec == old(n.world).sec
    ensures c == OK || c == Unavailable || c == Internal
    ensures old(n.script) == [] ==> n.script == [] && n.world == old(n.world)
    ensures old(n.script) == [] ==> c == if staging in n.world.host.mounts && n.alive then OK else Internal
  {
    var ok, mounted := LookForMount(n, staging);
    if !ok {
      return Unavailable;
    }
    if !mounted {
      return Internal;
    }
    var answers := AskForMount(n);
    c := if answers then OK else Internal;
  }

  /** The lock, then the mark of markBusy. */
  method Begin(n: Plugin, kind: Kind)
    requires n.Valid() && n.world.sec.None?
    requires (kind.Stage? && n.world.host.kubelet.StageSent?) || (kind.Unstage? && n.world.host.kubelet.UnstageSent?)
    modifies n
    ensures n.Valid() && n.world.sec.Some? && n.world.sec.value.kind == kind && AtEase(n.world)
    ensures n.world.marks.busy == Some(n.world.clock) && n.world.setup == old(n.world).setup
    ensures EntryKept(old(n.world), n.world) && n.world.nextUid == old(n.world).nextUid && n.world.clock >= old(n.world).clock
    ensures n.world.pod.Some? ==> old(n.world).pod.Some? && Evolves(old(n.world).pod.value, n.world.pod.value)
    ensures old(n.world).pod.Some? && old(n.world).pod.value.inUse ==> n.world.pod.Some? && n.world.pod.value.inUse
    ensures n.world.hist.failures == old(n.world).hist.failures
    ensures old(n.script) == [] ==> n.script == [] && Unmoved(old(n.world), n.world) && n.world.entry == old(n.world).entry
  {
    EvolvesItself(n.world);
    ghost var w0 := n.world;
    assert Settled(w0) && Quiescent(w0) by { ReachedInv(n.run, w0); }
    n.Lock(kind);
    RaiseBusy(n);
  }

  method RaiseBusy(n: Plugin)
    requires n.Valid() && n.world.sec.Some? && (n.world.sec.value.kind.Stage? || n.world.sec.value.kind.Unstage?) && AtEase(n.world)
    modifies n
    ensures n.Valid() && AtEase(n.world) && n.world.sec == old(n.world).sec && n.world.setup == old(n.world).setup
    ensures n.world.marks == old(n.world).marks.(busy := Some(n.world.clock))
    ensures n.world.pod.Some? ==> old(n.world).pod.Some? && Evolves(old(n.world).pod.value, n.world.pod.value)
    ensures old(n.world).pod.Some? && old(n.world).pod.value.inUse ==> n.world.pod.Some? && n.world.pod.value.inUse
    ensures n.world.nextUid == old(n.world).nextUid && n.world.hist.failures == old(n.world).hist.failures
    ensures EntryKept(old(n.world), n.world) && n.world.clock >= old(n.world).clock
    ensures old(n.script) == [] ==> n.script == [] && Unmoved(old(n.world), n.world) && n.world.entry == old(n.world).entry
  {
    Quiet(n.run, n.world);
    n.MarkBusy();
  }

  /** clearBusy, unless kubelet is told to come back, then the lock. */
  method End(n: Plugin, kind: Kind, c: Code, verdict: Verdict)
    requires n.Valid() && n.world.sec.Some? && n.world.sec.value.kind == kind && (kind.Stage? || kind.Unstage?) && Done(n.world)
    requires kind.Stage? && verdict.Accepted? ==> OnPath(n.world)
    modifies n
    ensures n.Valid() && n.world.sec.None? && n.world.setup == old(n.world).setup
    ensures n.world.host.kubelet == if kind.Stage? then StageAnswered(verdict) else UnstageAnswered(verdict)
    ensures n.world.marks == (if c == Aborted then old(n.world).marks else old(n.world).marks.(busy := None))
    ensures n.world.pod.Some? ==> old(n.world).pod.Some? && Evolves(old(n.world).pod.value, n.world.pod.value)
    ensures old(n.world).pod.Some? && old(n.world).pod.value.inUse ==> n.world.pod.Some? && n.world.pod.value.inUse
    ensures n.world.nextUid == old(n.world).nextUid
    ensures EntryKept(old(n.world), n.world) && n.world.clock >= old(n.world).clock
    ensures n.world.hist.failures == old(n.world).hist.failures && n.world.secrets.Keys <= old(n.world).secrets.Keys
    ensures n.world.hist.log.emitted == old(n.world).hist.log.emitted
    ensures old(n.script) == [] ==> n.script == [] && n.world.pod == old(n.world).pod && n.world.host.mounts == old(n.world).host.mounts
  {
    EvolvesItself(n.world);
    if c != Aborted {
      DropBusy(n);
    }
    n.Unlock(kind, verdict);
  }

  method DropBusy(n: Plugin)
    requires n.Valid() && n.world.sec.Some? && (n.world.sec.value.kind.Stage? || n.world.sec.value.kind.Unstage?) && Done(n.world)
    modifies n
    ensures n.Valid() && Done(n.world) && n.world.sec == old(n.world).sec && n.world.setup == old(n.world).setup
    ensures n.world.marks == old(n.world).marks.(busy := None)
    ensures n.world.pod.Some? ==> old(n.world).pod.Some? && Evolves(old(n.world).pod.value, n.world.pod.value)
    ensures old(n.world).pod.Some? && old(n.world).pod.value.inUse ==> n.world.pod.Some? && n.world.pod.value.inUse
    ensures n.world.nextUid == old(n.world).nextUid
    ensures EntryKept(old(n.world), n.world) && n.world.clock >= old(n.world).clock
    ensures n.world.hist.failures == old(n.world).hist.failures && n.world.secrets.Keys <= old(n.world).secrets.Keys
    ensures n.world.hist.log.emitted == old(n.world).hist.log.emitted
    ensures old(n.script) == [] ==> n.script == [] && n.world.pod == old(n.world).pod && n.world.host.mounts == old(n.world).host.mounts
  {
    Quiet(n.run, n.world);
    n.ClearBusy();
  }

  /** stageSpec's outcome: the spec of the mount pod, or why there is none. */
  datatype Wanted = Build(spec: Spec) | Refuse(code: Code)

  /** Every give-up is marked; while no call failed, each was reported once, but for those waived. */
  predicate Reported(w: World) {
    && (GaveUp(w) ==> w.marks.gaveUp.Some?)
    && w.hist.log.reports + w.hist.log.waived <= w.hist.log.episodes
    && (w.hist.failures == 0 ==> w.hist.log.reports + w.hist.log.waived == w.hist.log.episodes)
  }

  lemma AllReported(r: Run, w: World)
    requires Reached(r, w) && w.sec.None?
    ensures Reported(w)
  {
    ReachedInv(r, w);
  }

  /** NodeStageVolume's answer when nothing else happens: ensureMounted's, or Internal for a mount that is not seen or does not
      answer. */
  predicate StageAnswer(u: World, spec: Spec, calm: bool, alive: bool, c: Code) {
    if c == Internal then StageCode(u, spec, calm, OK) && !(spec.staging in u.host.mounts && alive)
    else StageCode(u, spec, calm, c) && (c == OK ==> spec.staging in u.host.mounts && alive)
  }

  /** NodeStageVolume, from kubelet's request to the answer. */
  method NodeStageVolume(n: Plugin, staging: Path, wanted: Wanted, grace: nat) returns (c: Code)
    requires n.Valid() && B.PolicyOk(n.setup.policy) && n.world.sec.None? && n.world.host.kubelet.StageSent?
    requires staging == n.setup.path && (wanted.Build? ==> ForThisVolume(n.setup, wanted.spec) && wanted.spec.staging == staging)
    requires wanted.Refuse? ==> wanted.code != OK
    modifies n
    ensures n.Valid() && n.world.sec.None? && n.world.host.kubelet == StageAnswered(VerdictOf(c))
    // The busy mark stays while kubelet is told to come back with Aborted, and only then.
    ensures n.world.marks.busy.Some? <==> c == Aborted
    ensures Reported(n.world)
    ensures c == OK ==> n.world.marks.gaveUp.None? && wanted.Build? && SpecOk(n.setup.cfg, wanted.spec)
    ensures c == OK && n.world.pod.Some? ==> n.world.pod.value.ann.staging == staging
    // Final but for a mount this node plugin does not see: no unfinished pod mounts the volume on the path.
    ensures wanted.Build? && VerdictOf(c).Final? && c != Internal &&
            wanted.spec.credentials.token != "" && wanted.spec.credentials.passphrase != "" ==>
              NoneOn(n.world, staging)
    // Internal, which is final too: the pod is on the path, ready, and its mount is not there or does not answer.
    ensures wanted.Build? && c == Internal ==>
              SpecOk(n.setup.cfg, wanted.spec) && (n.world.pod.Some? ==> n.world.pod.value.ann.staging == staging)
    // If nothing else happens, the answer and the pod are determined: OK exactly for a running pod that fits, answers and is mounted.
    ensures wanted.Build? && old(n.script) == [] ==>
              && StageAnswer(old(n.world), wanted.spec, n.calm, n.alive, c)
              && PodAfter(old(n.world), n.world, wanted.spec, grace)
    // A refused spec leaves the pod alone, final or not: none mounts the volume on the path exactly if none did before.
    ensures wanted.Refuse? ==>
              && c == wanted.code && n.world.nextUid == old(n.world).nextUid && (NoneOn(old(n.world), staging) ==> NoneOn(n.world, staging))
              && (old(n.world).pod.Some? && old(n.world).pod.value.inUse ==> n.world.pod.Some? && n.world.pod.value.inUse)
    ensures wanted.Refuse? && old(n.script) == [] ==> n.world.pod == old(n.world).pod
  {
    Begin(n, Stage);
    ghost var w1 := n.world;
    if wanted.Refuse? {
      c := wanted.code;
    } else {
      c := StageBuilt(n, wanted.spec, grace);
    }
    ghost var w2 := n.world;
    End(n, Stage, c, VerdictOf(c));
    AllReported(n.run, n.world);
    if wanted.Build? && old(n.script) == [] {
      StageSince(old(n.world), w1, w2, n.world, wanted.spec, grace, n.calm, n.alive, c);
    }
  }

  lemma StageSince(u: World, v: World, x: World, w: World, spec: Spec, grace: nat, calm: bool, alive: bool, c: Code)
    requires Unmoved(u, v) && v.entry == u.entry && v.setup == u.setup && v.nextUid == u.nextUid
    requires StageAnswer(v, spec, calm, alive, c) && PodAfter(v, x, spec, grace) && w.pod == x.pod && w.nextUid == x.nextUid
    requires w.hist.log.emitted == x.hist.log.emitted
    ensures StageAnswer(u, spec, calm, alive, c) && PodAfter(u, w, spec, grace)
  {}

  /** The stage of a spec that was built. */
  method StageBuilt(n: Plugin, spec: Spec, grace: nat) returns (c: Code)
    requires n.Valid() && B.PolicyOk(n.setup.policy) && n.world.sec.Some? && n.world.sec.value.kind.Stage?
    requires AtEase(n.world) && ForThisVolume(n.setup, spec) && Serves(n.world, spec)
    modifies n
    ensures n.Valid() && Within(old(n.world), n.world) && Done(n.world)
    ensures c == OK ==> n.world.marks.gaveUp.None? && SpecOk(n.setup.cfg, spec)
    ensures (c == OK || c == Internal) && n.world.pod.Some? ==> n.world.pod.value.ann.staging == spec.staging
    ensures c == Internal ==> SpecOk(n.setup.cfg, spec)
    ensures VerdictOf(c).Final? && c != Internal && spec.credentials.token != "" && spec.credentials.passphrase != "" ==>
              NoneOn(n.world, spec.staging)
    ensures old(n.script) == [] ==>
              n.script == [] && StageAnswer(old(n.world), spec, n.calm, n.alive, c) && StageLeaves(old(n.world), n.world, spec, grace)
  {
    var st, rounds;
    c, st, rounds := EnsureMounted(n, spec, grace);
    if c != OK {
      return;
    }
    c := CheckStaged(n, spec.staging);
    if c == OK {
      DropMark(n);
    }
    if n.world.pod.Some? {
      SawEvolves(n.run, n.world, st.pod.value);
    }
  }

  /** NodeUnstageVolume: the pod first, then whatever is left on the staging path. Any error is retried. */
  method NodeUnstageVolume(n: Plugin, staging: Path, grace: nat) returns (c: Code)
    requires n.Valid() && n.world.sec.None? && n.world.host.kubelet.UnstageSent?
    modifies n
    ensures n.Valid() && n.world.sec.None?
    ensures n.world.host.kubelet == UnstageAnswered(if c == OK then Accepted else Retry)
    ensures n.world.marks.busy.Some? <==> c == Aborted
    ensures c in {OK, Aborted, Unavailable, Internal} && Reported(n.world)
    // Unstaged: no pod, no Secret unless a call failed, nothing remembered.
    ensures c == OK || c == Internal ==>
              && n.world.pod.None? && n.world.entry.None? && n.world.marks.gaveUp.None?
              && (n.world.hist.failures == old(n.world).hist.failures ==> n.world.secrets == map[])
    // Not yet: the pod is on its way out.
    ensures c == Aborted && n.world.pod.Some? ==> n.world.pod.value.deletedAt.Some?
    // If nothing else happens, nothing is left on the staging path.
    ensures old(n.script) == [] && c == OK ==> staging !in n.world.host.mounts
    // And it is done exactly without a pod or with a finished one, whose exit is emitted; another is deleted.
    ensures old(n.script) == [] ==>
              && c == (if Gone(old(n.world)) then OK else Aborted) && Deleted(old(n.world), n.world, grace)
              && (c == OK ==> ExitOut(old(n.world), n.world))
  {
    Begin(n, Unstage);
    c := TearDown(n, staging, grace);
    End(n, Unstage, c, if c == OK then Accepted else Retry);
    AllReported(n.run, n.world);
    assert n.world.secrets.Keys == {} ==> n.world.secrets == map[];
  }

  /** The unstage under the lock. */
  method TearDown(n: Plugin, staging: Path, grace: nat) returns (c: Code)
    requires n.Valid() && n.world.sec.Some? && n.world.sec.value.kind.Unstage? && AtEase(n.world)
    modifies n
    ensures n.Valid() && Within(old(n.world), n.world) && Done(n.world)
    ensures c in {OK, Aborted, Unavailable, Internal}
    ensures c == OK || c == Internal ==>
              && n.world.pod.None? && n.world.entry.None? && n.world.marks.gaveUp.None?
              && (n.world.hist.failures == old(n.world).hist.failures ==> n.world.secrets.Keys == {})
    ensures c == Aborted && n.world.pod.Some? ==> n.world.pod.value.deletedAt.Some?
    ensures old(n.script) == [] ==> n.script == [] && (c == OK ==> staging !in n.world.host.mounts)
    ensures old(n.script) == [] ==>
              && c == (if Gone(old(n.world)) then OK else Aborted) && Deleted(old(n.world), n.world, grace)
              && (c == OK ==> ExitOut(old(n.world), n.world))
  {
    ghost var w0, calm := n.world, n.script == [];
    var _, _ := IsPublished(n); // only logged
    ghost var w1 := n.world;
    var st, err := Delete(n, Unstaging, grace);
    if err != NoError {
      c := Unavailable;
    } else if st.phase.Terminating? {
      c := Aborted;
    } else {
      c := Dismantle(n, st, staging);
    }
    if calm {
      RecreatedSince(w0, w1, n.world, grace);
    }
  }

  /** The end of the unstage, once the pod is gone. */
  method Dismantle(n: Plugin, st: State, staging: Path) returns (c: Code)
    requires n.Valid() && KnowsAbsent(n.world) && n.world.sec.value.kind.Unstage? && AtEase(n.world) && n.world.pod.None?
    requires st.phase.Exited? ==> st.pod.Some? && n.world.sec.value.released == st.pod
    modifies n
    ensures n.Valid() && Within(old(n.world), n.world) && AtEase(n.world) && (c == OK || c == Internal)
    ensures n.world.pod.None? && n.world.entry.None? && n.world.marks.gaveUp.None? && n.world.secrets.Keys <= old(n.world).secrets.Keys
    ensures c == OK ==> n.world.hist.failures == old(n.world).hist.failures && staging !in n.world.host.mounts
    ensures st.phase.Exited? && ExitCode(st.pod.value).Some? ==> n.world.hist.log.emitted[st.pod.value.uid] == 1
    ensures old(n.script) == [] ==> c == OK && n.script == []
  {
    ReportExit(n, st);
    ForgetAll(n);
    Quiet(n.run, n.world);
    ghost var w0 := n.world;
    var unmounted := n.UnmountStaging(staging);
    UnmountStep(w0, n.before, if unmounted then Unmount(staging) else FailCall);
    c := if unmounted then OK else Internal;
  }

  lemma UnmountStep(u: World, b: World, d: DriverAction)
    requires Quiescent(u) && Meanwhile(u, b) && u.sec.Some? && (d.Unmount? || d.FailCall?) && Enabled(b, d)
    ensures Kept(u, DriverStep(b, d)) && DriverStep(b, d).secrets.Keys <= u.secrets.Keys
  {
    KeptMeanwhile(u, b);
  }

  /** gaveUp.Delete and Forget: the next stage tries anew. */
  method ForgetAll(n: Plugin)
    requires n.Valid() && KnowsAbsent(n.world) && n.world.sec.value.kind.Unstage? && Done(n.world)
    requires !n.world.sec.value.told && n.world.pod.None?
    modifies n
    ensures n.Valid() && Within(old(n.world), n.world) && AtEase(n.world)
    ensures n.world.pod.None? && n.world.entry.None? && n.world.marks.gaveUp.None? && KnowsAbsent(n.world)
    ensures n.world.hist.failures == old(n.world).hist.failures && n.world.secrets.Keys <= old(n.world).secrets.Keys
    ensures n.world.hist.log.emitted == old(n.world).hist.log.emitted
    ensures old(n.script) == [] ==> n.script == []
  {
    Quiet(n.run, n.world);
    n.ForgetUnstaged();
  }
}
