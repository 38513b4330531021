/** What holds in every reachable world of the machine, whatever the interleaving of the sections, the
    environment and kubelet, and what it means for the volumes. */
module Safety {
  import opened Base
  import opened PodSpec
  import opened Machine
  import B = Backoff

  // ---------------------------------------------------------------- invariants, one per concern

  function Known(w: World): Option<Pod> {
    if w.sec.Some? && (w.sec.value.know.Saw? || w.sec.value.know.Stripped?) then Some(w.sec.value.know.pod) else None
  }

  /** UIDs and Secret names in use are below the counters they are drawn from. */
  ghost predicate Fresh(w: World) {
    && w.setup.firstUid <= w.nextUid
    && (w.pod.Some? ==> w.pod.value.uid < w.nextUid)
    && (Known(w).Some? ==> Known(w).value.uid < w.nextUid)
    && (w.sec.Some? && w.sec.value.released.Some? ==> w.sec.value.released.value.uid < w.nextUid)
    && (w.entry.Some? && w.entry.value.lastPod.Some? ==> w.entry.value.lastPod.value < w.nextUid)
    && (w.sec.Some? && w.sec.value.know.Holding? ==> w.sec.value.know.secret < w.nextSecret)
    && (forall s :: s in w.secrets ==> s < w.nextSecret)
    && (forall s :: s in w.secrets && w.secrets[s].owner.Some? ==> w.secrets[s].owner.value < w.nextUid)
  }

  /** What a section knows is true: nobody creates a pod behind its back, and a pod it read can only have
      moved on. A pod without finalizer is finished. */
  ghost predicate Truthful(w: World) {
    && (w.pod.Some? ==> (!w.pod.value.inUse ==> Finished(w.pod.value, w.clock)))
    && (KnowsAbsent(w) ==> w.pod.None?)
    && (Known(w).Some? ==>
          var p := Known(w).value;
          && (w.pod.Some? ==> Evolves(p, w.pod.value))
          && (!p.inUse ==> Finished(p, w.clock)))
    && (w.sec.Some? && w.sec.value.know.Stripped? ==>
          Finished(w.sec.value.know.pod, w.clock) && (w.pod.Some? ==> !w.pod.value.inUse))
    && (w.sec.Some? && w.sec.value.released.Some? ==>
          && (w.pod.Some? ==> w.pod.value.uid != w.sec.value.released.value.uid)
          && (Known(w).Some? ==> Known(w).value.uid != w.sec.value.released.value.uid))
  }

  /** The Secret a pod names exists as long as the pod object, and the garbage collector cannot take it. */
  ghost predicate Secured(w: World) {
    && (w.pod.Some? ==>
          w.pod.value.ann.secret in w.secrets && w.secrets[w.pod.value.ann.secret].owner in {None, Some(w.pod.value.uid)})
    && (w.sec.Some? && w.sec.value.know.Holding? ==>
          var k := w.sec.value.know;
          && k.secret in w.secrets && w.secrets[k.secret] == Secret(BuildSecret(k.spec), None)
          && SpecOk(w.setup.cfg, k.spec) && k.spec.volume == w.setup.volume && k.spec.node == w.setup.node
          && k.spec.cache == w.setup.cache)
  }

  /** The pod is one of the volume. The Spec a pod made by this node plugin was built from can be read back from it. */
  ghost predicate Recreatable(w: World) {
    && (w.pod.Some? ==> OfVolume(w.setup, w.pod.value.ann))
    && (w.pod.Some? && w.pod.value.uid >= w.setup.firstUid ==> ReadsBack(w.setup, w.pod.value.ann, Stored(w, w.pod.value.ann.secret)))
  }

  predicate ReadsBack(setup: Setup, a: Annotations, secret: Option<SecretData>) {
    var r := ReadBack(a, secret, setup.cache);
    && r.Some? && HashOf(setup.cfg, r.value) == a.hash && r.value.staging == a.staging && SpecOk(setup.cfg, r.value)
    && r.value.volume == setup.volume && r.value.node == setup.node
  }

  /** Give-up quiescence: the pod is absent or the finished one counted last; no permission to create. */
  ghost predicate Quiescent(w: World) {
    && (w.entry.Some? ==> w.entry.value.backoff.fatal <= w.setup.policy.maxFatal)
    && (GaveUp(w) ==>
          var e := w.entry.value;
          && e.backoff.fatal >= w.setup.policy.maxFatal && e.backoff.next == 0 && e.lastPod.Some?
          && (w.pod.Some? ==> e.lastPod == Some(w.pod.value.uid) && Finished(w.pod.value, w.clock))
          && (Known(w).Some? ==> e.lastPod == Some(Known(w).value.uid)))
    && (w.sec.Some? && w.sec.value.may.Some? ==>
          w.entry.Some? && Some(w.entry.value.hash) == w.sec.value.may && !w.entry.value.backoff.gaveUp &&
          w.entry.value.backoff.next <= w.clock)
    && (w.entry.Some? && w.pod.Some? && w.entry.value.lastPod == Some(w.pod.value.uid) ==>
          w.entry.value.hash == w.pod.value.ann.hash)
    && (w.entry.Some? && Known(w).Some? && w.entry.value.lastPod == Some(Known(w).value.uid) ==>
          w.entry.value.hash == Known(w).value.ann.hash)
  }

  /** A section told of a give-up deals with the pod that gave up. */
  ghost predicate Told(w: World) {
    w.sec.Some? && w.sec.value.told ==>
      && w.entry.Some? && w.sec.value.may.None?
      && (w.pod.Some? ==> w.entry.value.lastPod == Some(w.pod.value.uid))
      && (Known(w).Some? ==> w.entry.value.lastPod == Some(Known(w).value.uid))
  }

  predicate UidsBelow(h: seq<B.Seen>, bound: int) {
    forall i :: 0 <= i < |h| && h[i].Exit? ==> h[i].uid < bound
  }

  /** The pods of a history come in the order of their creation: each once. */
  predicate Increasing(h: seq<B.Seen>) {
    h == [] ||
    var r, x := h[..|h| - 1], h[|h| - 1];
    Increasing(r) && (x.Exit? ==> UidsBelow(r, x.uid))
  }

  lemma Appended(h: seq<B.Seen>, x: B.Seen)
    ensures Increasing(h + [x]) <==> Increasing(h) && (x.Exit? ==> UidsBelow(h, x.uid))
    ensures forall b :: UidsBelow(h + [x], b) <==> UidsBelow(h, b) && (x.Exit? ==> x.uid < b)
  {
    assert (h + [x])[..|h|] == h;
    forall b | UidsBelow(h + [x], b) ensures UidsBelow(h, b) {
      forall i | 0 <= i < |h| && h[i].Exit? ensures h[i].uid < b {
        assert (h + [x])[i] == h[i];
      }
    }
    assert (h + [x])[|h|] == x;
  }

  /** The counters say what the exit history says, and each pod is in it once. */
  ghost predicate Accounted(w: World) {
    && (w.entry.None? ==> w.hist.tally.epoch == [])
    && (w.entry.Some? ==> B.Refines(w.setup.policy, w.entry.value, w.hist.tally.epoch))
    && Increasing(w.hist.tally.epoch)
    && UidsBelow(w.hist.tally.epoch, w.nextUid)
    && (w.pod.Some? ==> UidsBelow(w.hist.tally.epoch, w.pod.value.uid + 1))
    && (Known(w).Some? ==> UidsBelow(w.hist.tally.epoch, Known(w).value.uid + 1))
  }

  /** The pods counted in a history. */
  function UidsOf(s: seq<B.Seen>): set<Uid> {
    if s == [] then {} else UidsOf(s[..|s| - 1]) + (if s[|s| - 1].Exit? then {s[|s| - 1].uid} else {})
  }

  /** The pods created since the last clear, and not counted. */
  function Uncounted(w: World): set<Uid> { w.hist.tally.made - UidsOf(B.SinceClear(w.hist.tally.epoch)) }

  /** Those of them that are gone. */
  function Lost(w: World): set<Uid> { Uncounted(w) - (if w.pod.Some? then {w.pod.value.uid} else {}) }

  /** The pods created since the last clear are of the entry's config. */
  ghost predicate Rationed(w: World) {
    var t := w.hist.tally;
    && (t.made != {} ==> w.entry.Some?)
    && (forall u :: u in t.made ==> w.setup.firstUid <= u < w.nextUid)
    && (w.pod.Some? && w.pod.value.uid in t.made ==> w.entry.value.hash == w.pod.value.ann.hash)
    && (w.entry.Some? && w.entry.value.lastPod.Some? ==> w.entry.value.lastPod.value !in Uncounted(w))
  }

  /** Each was counted, is there with its finalizer, or was released on a read in which its container had not ended,
      unless a call failed or the section that released it has still to forget the restart state. */
  ghost predicate Excused(w: World) {
    w.hist.failures == 0 && !(w.sec.Some? && w.sec.value.owes) ==>
      forall u :: u in Uncounted(w) ==> u in w.hist.tally.stuck || (w.pod.Some? && w.pod.value.uid == u && w.pod.value.inUse)
  }

  /** Exits are emitted once: an emitted exit is marked until its pod is released, and then cannot be seen. */
  ghost predicate EmittedOnce(w: World) {
    && w.hist.log.emitted == multiset(w.marks.reported + w.hist.log.closed)
    && w.marks.reported !! w.hist.log.closed
    && (forall u :: u in w.hist.log.closed ==> u < w.nextUid)
    && (w.pod.Some? ==> w.pod.value.uid !in w.hist.log.closed)
    && (Known(w).Some? ==> Known(w).value.uid !in w.hist.log.closed)
    && (w.sec.Some? && w.sec.value.released.Some? ==> w.sec.value.released.value.uid !in w.hist.log.closed)
  }

  /** No give-up is reported twice; while no call failed, each was reported, waived, or is still to be reported. */
  ghost predicate ReportedOnce(w: World) {
    Answered(w) <= w.hist.log.episodes && (w.hist.failures == 0 ==> Answered(w) == w.hist.log.episodes)
  }

  /** kubelet's discipline, and what a section's readings of the host are still worth. */
  ghost predicate Observed(w: World) {
    && (w.host.kubelet.Released? || w.setup.path in w.host.volData)
    && (w.sec.Some? ==>
          var s := w.sec.value;
          && (s.kind.Stage? ==> w.host.kubelet.StageSent?)
          && (s.kind.Unstage? ==> w.host.kubelet.UnstageSent?)
          && (s.kind.Stage? && s.view.unbound ==> w.host.binds == {})
          && (s.view.unbound && w.host.binds != {} ==> w.host.kubelet.Staged? || w.host.kubelet.StageSent? || w.host.kubelet.UnstageSent?)
          && (s.kind.Recovery? && s.view.unstaged ==> s.home.Some? && Absent(w, s.home.value, s.view.unbound))
          && (s.kind.Recovery? && s.view.unbound && w.host.binds != {} ==> OnPath(w) && s.home in {None, Some(w.setup.path)})
          && ((s.kind.Recovery? || s.kind.Sweep?) && s.view.idle ==> !IsBusy(w)))
  }

  /** What it means that vol_data.json was absent next to a staging path. */
  predicate Absent(w: World, home: Path, unbound: bool) {
    if home == w.setup.path then
      && (w.host.kubelet.Released? || w.host.kubelet.StageSent?)
      && (home in w.host.volData ==> w.host.kubelet.StageSent?)
      && (unbound ==> w.host.binds == {})
    else home !in w.host.volData
  }

  /** A volume that kubelet holds mounted has its pod on kubelet's path; a recovery stays on the path of the pod it found. */
  ghost predicate Placed(w: World) {
    && (Mounted(w) ==> OnPath(w))
    && (w.sec.Some? ==>
          var s := w.sec.value;
          && (s.know.Holding? ==> Serves(w, s.know.spec))
          && (s.kind.Recovery? && s.home.None? ==> s.know.Unread? || s.know.SawAbsent? || s.know.Prepared?)
          && (s.kind.Recovery? && s.home.Some? ==>
                && StagingOk(w.setup.cfg, s.home.value) && (s.home.value != w.setup.path ==> !Mounted(w))
                && (w.pod.Some? ==> w.pod.value.ann.staging == s.home.value)
                && (Known(w).Some? ==> Known(w).value.ann.staging == s.home.value)))
  }

  /** The orphan sweep and the changed-config branch never stop a pod in use, the sweep none of a staged volume. */
  ghost predicate Harmless(w: World) {
    forall i :: 0 <= i < |w.hist.stops| ==>
      var s := w.hist.stops[i];
      && (s.reason.Orphaned? || s.reason.ConfigChanged? ==> !s.bound)
      && (s.reason.Orphaned? ==> !s.staged)
  }

  /** All but the reports of the give-ups. */
  ghost predicate Core(w: World) {
    && B.PolicyOk(w.setup.policy)
    && Fresh(w) && Truthful(w) && Secured(w) && Recreatable(w) && Quiescent(w) && Told(w) && Accounted(w) && Rationed(w)
    && Excused(w) && EmittedOnce(w) && Observed(w) && Placed(w) && Harmless(w)
  }

  ghost predicate Inv(w: World) {
    Core(w) && ReportedOnce(w) && (w.sec.None? ==> Settled(w))
  }

  // ---------------------------------------------------------------- the environment keeps them

  lemma EnvKeepsFresh(w: World, e: EnvAction)
    requires Fresh(w)
    ensures Fresh(EnvStep(w, e))
  {
    EnvMeanwhile(w, e);
  }

  /** What the environment can have made of a world: the sections, the reports and the names drawn stay; a pod
      object can move on, or go once it has no finalizer; the counters can be cleared. */
  ghost predicate Meanwhile(w: World, w': World) {
    && w'.setup == w.setup && w'.sec == w.sec && w'.nextUid == w.nextUid && w'.nextSecret == w.nextSecret
    && w'.marks == w.marks && w.clock <= w'.clock
    && w'.hist.log.emitted == w.hist.log.emitted && w'.hist.log.closed == w.hist.log.closed
    && w'.hist.stops == w.hist.stops
    && w'.hist.log.reports == w.hist.log.reports && w'.hist.log.episodes == w.hist.log.episodes
    && Answered(w') == Answered(w) && w'.hist.failures == w.hist.failures
    && (w.host.kubelet.StageSent? ==> w'.host.kubelet.StageSent?) && (w.host.kubelet.UnstageSent? ==> w'.host.kubelet.UnstageSent?)
    && w'.secrets.Keys <= w.secrets.Keys && (forall s :: s in w'.secrets ==> w'.secrets[s] == w.secrets[s])
    && (w'.pod.Some? ==> w.pod.Some? && Evolves(w.pod.value, w'.pod.value) && w'.pod.value.inUse == w.pod.value.inUse)
    && (w.pod.Some? && w.pod.value.inUse ==> w'.pod.Some?)
    && (w'.entry == w.entry || (w.entry.Some? && w'.entry == Some(B.Reset(w.entry.value))))
  }

  lemma EnvMeanwhile(w: World, e: EnvAction)
    ensures Meanwhile(w, EnvStep(w, e))
  {
    match e
    case Start => PodMeanwhile(w, e);
    case End(_, _) => PodMeanwhile(w, e);
    case OutsideDelete(_) => PodMeanwhile(w, e);
    case Reap => PodMeanwhile(w, e);
    case LateReset => ResetMeanwhile(w);
    case Tick(_) =>
    case Collect(_) =>
    case _ => HostMeanwhile(w, e);
  }

  /** kubelet and the mounts. */
  lemma HostMeanwhile(w: World, e: EnvAction)
    requires !(e.Start? || e.End? || e.OutsideDelete? || e.Reap? || e.LateReset? || e.Tick? || e.Collect?)
    ensures Meanwhile(w, EnvStep(w, e))
  {}

  lemma ResetMeanwhile(w: World)
    ensures Meanwhile(w, EnvStep(w, LateReset))
  {}

  lemma PodMeanwhile(w: World, e: EnvAction)
    requires e.Start? || e.End? || e.OutsideDelete? || e.Reap?
    ensures Meanwhile(w, EnvStep(w, e))
  {
    match e
    case Start =>
    case End(_, _) =>
    case OutsideDelete(_) =>
    case Reap =>
  }

  lemma EnvKeepsTruthful(w: World, e: EnvAction)
    requires Truthful(w)
    ensures Truthful(EnvStep(w, e))
  {}

  lemma EnvKeepsSecured(w: World, e: EnvAction)
    requires Secured(w) && Truthful(w)
    ensures Secured(EnvStep(w, e))
  {
    var w' := EnvStep(w, e);
    assert w'.pod.Some? ==> w.pod.Some? && w'.pod.value.uid == w.pod.value.uid && w'.pod.value.ann == w.pod.value.ann;
    assert w'.sec == w.sec && (e.Collect? || w'.secrets == w.secrets);
  }

  lemma EnvKeepsRecreatable(w: World, e: EnvAction)
    requires Recreatable(w) && Secured(w)
    ensures Recreatable(EnvStep(w, e))
  {
    EnvKeepsPod(w, e);
    if w.pod.Some? {
      EnvKeepsStored(w, e);
    }
  }

  lemma EnvKeepsPod(w: World, e: EnvAction)
    ensures var w' := EnvStep(w, e);
            w'.setup == w.setup && (w'.pod.Some? ==> w.pod.Some? && w'.pod.value.uid == w.pod.value.uid && w'.pod.value.ann == w.pod.value.ann)
  {}

  lemma EnvKeepsStored(w: World, e: EnvAction)
    requires Secured(w) && w.pod.Some?
    ensures Stored(EnvStep(w, e), w.pod.value.ann.secret) == Stored(w, w.pod.value.ann.secret)
  {}

  lemma EnvKeepsQuiescent(w: World, e: EnvAction)
    requires Quiescent(w)
    ensures Quiescent(EnvStep(w, e))
  {}

  lemma EnvKeepsTold(w: World, e: EnvAction)
    requires Told(w)
    ensures Told(EnvStep(w, e))
  {}

  lemma EnvKeepsAccounted(w: World, e: EnvAction)
    requires Accounted(w)
    ensures Accounted(EnvStep(w, e))
  {
    EnvMeanwhile(w, e);
    EnvEpoch(w, e);
    if Reset(w, EnvStep(w, e)) {
      ResetKeepsAccounted(w, EnvStep(w, e));
    } else {
      SameAccounts(w, EnvStep(w, e));
    }
  }

  ghost predicate Reset(w: World, w': World) {
    w.entry.Some? && w'.entry == Some(B.Reset(w.entry.value)) && w'.hist.tally.epoch == w.hist.tally.epoch + [B.Clear]
  }

  lemma EnvEpoch(w: World, e: EnvAction)
    ensures var w' := EnvStep(w, e);
            (w'.entry == w.entry && w'.hist.tally.epoch == w.hist.tally.epoch) || Reset(w, w')
  {
    match e
    case LateReset =>
    case _ =>
  }

  lemma SameAccounts(w: World, w': World)
    requires Accounted(w) && w'.setup == w.setup && w'.entry == w.entry && w'.hist.tally.epoch == w.hist.tally.epoch && w'.nextUid == w.nextUid
    requires w'.pod.Some? ==> w.pod.Some? && w'.pod.value.uid == w.pod.value.uid
    requires Known(w').Some? ==> Known(w).Some? && Known(w').value.uid == Known(w).value.uid
    ensures Accounted(w')
  {}

  lemma ResetKeepsAccounted(w: World, w': World)
    requires Accounted(w) && Reset(w, w') && w'.setup == w.setup && w'.nextUid == w.nextUid
    requires w'.pod.Some? ==> w.pod.Some? && w'.pod.value.uid == w.pod.value.uid
    requires Known(w').Some? ==> Known(w).Some? && Known(w').value.uid == Known(w).value.uid
    ensures Accounted(w')
  {
    B.ResetRefines(w.setup.policy, w.entry.value, w.hist.tally.epoch);
    Appended(w.hist.tally.epoch, B.Clear);
  }

  lemma EnvKeepsRationed(w: World, e: EnvAction)
    requires Rationed(w)
    ensures Rationed(EnvStep(w, e))
  {
    if !e.LateReset? {
      TallyStays(w, e);
    }
  }

  lemma TallyStays(w: World, e: EnvAction)
    requires !e.LateReset?
    ensures var w' := EnvStep(w, e);
            && w'.hist.tally == w.hist.tally && w'.entry == w.entry && w'.setup == w.setup && w'.nextUid == w.nextUid
            && (w'.pod.Some? ==>
                  && w.pod.Some? && w'.pod.value.uid == w.pod.value.uid && w'.pod.value.ann == w.pod.value.ann
                  && w'.pod.value.inUse == w.pod.value.inUse)
            && (w.pod.Some? && w.pod.value.inUse ==> w'.pod.Some?)
  {}

  lemma EnvKeepsExcused(w: World, e: EnvAction)
    requires Excused(w) && Rationed(w)
    ensures Excused(EnvStep(w, e))
  {
    EnvMeanwhile(w, e);
    if !e.LateReset? {
      TallyStays(w, e);
    }
  }

  lemma EnvKeepsReports(w: World, e: EnvAction)
    requires EmittedOnce(w) && ReportedOnce(w)
    ensures EmittedOnce(EnvStep(w, e)) && ReportedOnce(EnvStep(w, e))
  {
    EnvMeanwhile(w, e);
    assert GaveUp(EnvStep(w, e)) ==> GaveUp(w);
  }

  lemma EnvKeepsObserved(w: World, e: EnvAction)
    requires Observed(w) && Placed(w) && Harmless(w)
    ensures Observed(EnvStep(w, e)) && Placed(EnvStep(w, e)) && Harmless(EnvStep(w, e))
  {
    EnvKeepsPlaced(w, e);
    if e.SendStage? || e.SendUnstage? || e.TakeAnswer? || e.Publish? || e.Unpublish? || e.Forgets? {
      KubeletKeepsObserved(w, e);
    } else {
      OthersKeepObserved(w, e);
    }
  }

  lemma KubeletKeepsObserved(w: World, e: EnvAction)
    requires Observed(w) && Placed(w) && (e.SendStage? || e.SendUnstage? || e.TakeAnswer? || e.Publish? || e.Unpublish? || e.Forgets?)
    ensures Observed(EnvStep(w, e)) && EnvStep(w, e).hist == w.hist
  {}

  lemma OthersKeepObserved(w: World, e: EnvAction)
    requires Observed(w) && !(e.SendStage? || e.SendUnstage? || e.TakeAnswer? || e.Publish? || e.Unpublish? || e.Forgets?)
    ensures Observed(EnvStep(w, e)) && EnvStep(w, e).hist.stops == w.hist.stops
  {
    EnvMeanwhile(w, e);
  }

  lemma EnvKeepsPlaced(w: World, e: EnvAction)
    requires Placed(w)
    ensures Placed(EnvStep(w, e))
  {
    EnvMeanwhile(w, e);
    assert Mounted(EnvStep(w, e)) ==> Mounted(w);
  }

  lemma EnvKeepsSettled(w: World, e: EnvAction)
    requires Settled(w) && Quiescent(w)
    ensures Settled(EnvStep(w, e))
  {}

  lemma EnvKeepsInv(w: World, e: EnvAction)
    requires Inv(w)
    ensures Inv(EnvStep(w, e))
  {
    var w' := EnvStep(w, e);
    assert w'.setup == w.setup && w'.sec == w.sec by { EnvMeanwhile(w, e); }
    assert Fresh(w') by { EnvKeepsFresh(w, e); }
    assert Truthful(w') by { EnvKeepsTruthful(w, e); }
    assert Secured(w') by { EnvKeepsSecured(w, e); }
    assert Recreatable(w') by { EnvKeepsRecreatable(w, e); }
    assert Quiescent(w') by { EnvKeepsQuiescent(w, e); }
    assert Told(w') by { EnvKeepsTold(w, e); }
    assert Accounted(w') by { EnvKeepsAccounted(w, e); }
    assert Rationed(w') by { EnvKeepsRationed(w, e); }
    assert Excused(w') by { EnvKeepsExcused(w, e); }
    assert EmittedOnce(w') && ReportedOnce(w') by { EnvKeepsReports(w, e); }
    assert Observed(w') && Placed(w') && Harmless(w') by { EnvKeepsObserved(w, e); }
    assert w'.sec.None? ==> Settled(w') by {
      if w.sec.None? {
        EnvKeepsSettled(w, e);
      }
    }
  }

  // ---------------------------------------------------------------- the driver keeps them

  lemma EnterKeepsInv(w: World, kind: Kind)
    requires Inv(w) && Enabled(w, Enter(kind))
    ensures Inv(DriverStep(w, Enter(kind)))
  {
    var w' := DriverStep(w, Enter(kind));
    ObjectsStay(w, w');
    CountsStay(w, w');
    LogStays(w, w');
  }

  /** A step that leaves the API objects alone, and what the section knows of them. */
  lemma ObjectsStay(w: World, w': World)
    requires Fresh(w) && Truthful(w) && Secured(w) && Recreatable(w)
    requires w'.setup == w.setup && w'.clock == w.clock && w'.pod == w.pod && w'.secrets == w.secrets
    requires w'.nextUid == w.nextUid && w'.nextSecret == w.nextSecret
    requires w'.entry.Some? && w'.entry.value.lastPod.Some? ==> w.entry.Some? && w'.entry.value.lastPod == w.entry.value.lastPod
    requires w'.sec.Some? ==>
               if w.sec.None? then w'.sec.value.know.Unread? && w'.sec.value.released.None?
               else w'.sec.value.know == w.sec.value.know && w'.sec.value.released == w.sec.value.released
    ensures Fresh(w') && Truthful(w') && Secured(w') && Recreatable(w')
  {}

  /** A step that leaves the restart state alone, its history, and what the section knows of it; the section can know
      less of the pod, or have just read it. */
  lemma CountsStay(w: World, w': World)
    requires Quiescent(w) && Told(w) && Accounted(w) && Rationed(w) && Excused(w)
    requires w'.setup == w.setup && w'.clock == w.clock && w'.pod == w.pod && w'.entry == w.entry && w'.nextUid == w.nextUid
    requires w'.hist.tally == w.hist.tally && (w'.hist.failures == w.hist.failures || w'.hist.failures > 0)
    requires w'.sec.Some? && w'.sec.value.may.Some? ==> w.sec.Some? && w'.sec.value.may == w.sec.value.may
    requires w'.sec.Some? && w'.sec.value.told ==> w.sec.Some? && w.sec.value.told && w'.sec.value.may == w.sec.value.may
    requires w'.hist.failures == 0 && w.sec.Some? && w.sec.value.owes ==> w'.sec.Some? && w'.sec.value.owes
    requires Known(w').Some? ==> Known(w') in {Known(w), w.pod}
    ensures Quiescent(w') && Told(w') && Accounted(w') && Rationed(w') && Excused(w')
  {
    assert Accounted(w') by { AccountsStay(w, w'); }
  }

  lemma AccountsStay(w: World, w': World)
    requires Accounted(w) && w'.setup == w.setup && w'.entry == w.entry && w'.hist.tally.epoch == w.hist.tally.epoch
    requires w'.nextUid == w.nextUid && w'.pod == w.pod && (Known(w').Some? ==> Known(w') in {Known(w), w.pod})
    ensures Accounted(w')
  {}

  /** A step that leaves the reports alone, and what they are about. */
  lemma LogStays(w: World, w': World)
    requires EmittedOnce(w) && ReportedOnce(w) && Harmless(w)
    requires w'.marks.reported == w.marks.reported && w'.nextUid >= w.nextUid
    requires w'.hist.log == w.hist.log && w'.hist.stops == w.hist.stops && w'.hist.failures >= w.hist.failures
    requires (w'.pod.Some? ==> w'.pod == w.pod) && (Known(w').Some? ==> Known(w') in {Known(w), w.pod})
    requires w'.sec.Some? && w'.sec.value.released.Some? ==> w.sec.Some? && w'.sec.value.released in {w.sec.value.released, Known(w)}
    requires Owed(w') == Owed(w)
    ensures EmittedOnce(w') && ReportedOnce(w') && Harmless(w')
  {}

  /** A step that leaves the host alone, and what the section saw of it. */
  lemma HostStays(w: World, w': World)
    requires Observed(w) && Placed(w)
    requires w'.setup == w.setup && w'.clock == w.clock && w'.host == w.host && w'.marks.busy == w.marks.busy && w'.pod == w.pod
    requires w.sec.Some? && w'.sec.Some? && w'.sec.value.kind == w.sec.value.kind && w'.sec.value.home == w.sec.value.home
    requires w'.sec.value.view == w.sec.value.view && w'.sec.value.know == w.sec.value.know
    ensures Observed(w') && Placed(w')
  {}

  lemma LeaveKeepsInv(w: World, v: Verdict)
    requires Inv(w) && Enabled(w, Leave(v))
    ensures Inv(DriverStep(w, Leave(v)))
  {
    var w' := DriverStep(w, Leave(v));
    ObjectsStay(w, w');
    CountsStay(w, w');
    LogStays(w, w');
  }

  lemma FailCallKeepsInv(w: World)
    requires Inv(w) && Enabled(w, FailCall)
    ensures Inv(DriverStep(w, FailCall))
  {
    var w' := DriverStep(w, FailCall);
    ObjectsStay(w, w');
    CountsStay(w, w');
    LogStays(w, w');
    HostStays(w, w');
  }

  lemma MarkBusyKeepsInv(w: World)
    requires Inv(w) && Enabled(w, MarkBusy)
    ensures Inv(DriverStep(w, MarkBusy))
  {
    BusyKeepsInv(w, Some(w.clock));
  }

  lemma ClearBusyKeepsInv(w: World)
    requires Inv(w) && Enabled(w, ClearBusy)
    ensures Inv(DriverStep(w, ClearBusy))
  {
    BusyKeepsInv(w, None);
  }

  lemma BusyKeepsInv(w: World, busy: Option<nat>)
    requires Inv(w) && w.sec.Some? && (w.sec.value.kind.Stage? || w.sec.value.kind.Unstage?)
    ensures Inv(w.(marks := w.marks.(busy := busy)))
  {
    var w' := w.(marks := w.marks.(busy := busy));
    ObjectsStay(w, w');
    CountsStay(w, w');
    LogStays(w, w');
  }

  lemma CheckIdleKeepsInv(w: World)
    requires Inv(w) && Enabled(w, CheckIdle)
    ensures Inv(DriverStep(w, CheckIdle))
  {
    SeeingKeepsInv(w, w.sec.value.view.(idle := !IsBusy(w)));
  }

  lemma ReadMountsKeepsInv(w: World)
    requires Inv(w) && Enabled(w, ReadMounts)
    ensures Inv(DriverStep(w, ReadMounts))
  {
    SeeingKeepsInv(w, w.sec.value.view.(bound := w.host.binds != {}, unbound := w.host.binds == {}));
  }

  lemma ReadVolDataKeepsInv(w: World, path: Path)
    requires Inv(w) && Enabled(w, ReadVolData(path))
    ensures Inv(DriverStep(w, ReadVolData(path)))
  {
    SeeingKeepsInv(w, w.sec.value.view.(unstaged := !KubeletStaged(w, path)));
  }

  /** A look at the host is true when it is made. */
  lemma SeeingKeepsInv(w: World, v: View)
    requires Inv(w) && w.sec.Some? && Observed(Seeing(w, v))
    ensures Inv(Seeing(w, v))
  {
    var w' := Seeing(w, v);
    ObjectsStay(w, w');
    CountsStay(w, w');
    LogStays(w, w');
  }

  lemma GetPodKeepsInv(w: World)
    requires Inv(w) && Enabled(w, GetPod)
    ensures Inv(DriverStep(w, GetPod))
  {
    var w' := DriverStep(w, GetPod);
    GetPodKeepsFacts(w);
    CountsStay(w, w');
    LogStays(w, w');
    GetPodKeepsPlace(w);
  }

  lemma GetPodKeepsFacts(w: World)
    requires Fresh(w) && Truthful(w) && Secured(w) && Recreatable(w) && Enabled(w, GetPod)
    ensures var w' := DriverStep(w, GetPod);
            Fresh(w') && Truthful(w') && Secured(w') && Recreatable(w')
  {}

  lemma GetPodKeepsPlace(w: World)
    requires Recreatable(w) && Observed(w) && Placed(w) && Enabled(w, GetPod)
    ensures Observed(DriverStep(w, GetPod)) && Placed(DriverStep(w, GetPod))
  {}

  lemma UseConfigKeepsInv(w: World, hash: Hash)
    requires Inv(w) && Enabled(w, UseConfig(hash))
    ensures Inv(DriverStep(w, UseConfig(hash)))
  {
    WithConfigKeepsCore(w, hash);
    ReadKeepsCore(WithConfig(w, hash));
    ConfigLog(w, hash);
  }

  lemma WithConfigKeepsCore(w: World, hash: Hash)
    requires Core(w) && w.sec.Some?
    ensures Core(WithConfig(w, hash))
  {
    var w' := WithConfig(w, hash);
    if w' != w {
      NewEntry(w, hash);
      ObjectsStay(w, w');
      HostStays(w, w');
    }
  }

  lemma NewEntry(w: World, hash: Hash)
    requires B.PolicyOk(w.setup.policy) && Accounted(w) && Fresh(w) && w.sec.Some? && WithConfig(w, hash) != w
    ensures var w' := WithConfig(w, hash);
            Quiescent(w') && Told(w') && Accounted(w') && Rationed(w') && Excused(w')
  {
    var w' := WithConfig(w, hash);
    assert Accounted(w') by { B.ForRefines(w.setup.policy, w.entry, w.hist.tally.epoch, hash); }
    assert w'.hist.tally.epoch == [];
  }

  lemma ReadKeepsCore(w: World)
    requires Core(w) && w.sec.Some?
    ensures Core(Read(w))
  {
    var w' := Read(w);
    ObjectsStay(w, w');
    assert Quiescent(w') && Told(w');
    assert Accounted(w') by { SameAccounts(w, w'); }
    assert Rationed(w') && Excused(w');
    HostStays(w, w');
  }

  lemma CountExitKeepsInv(w: World, hash: Hash, jitter: nat)
    requires Inv(w) && Enabled(w, CountExit(hash, jitter))
    ensures Inv(DriverStep(w, CountExit(hash, jitter)))
  {
    WithConfigKeepsCore(w, hash);
    ConfigLog(w, hash);
    RecordedKeepsInv(WithConfig(w, hash), w.sec.value.know.pod, jitter);
  }

  lemma RecordedKeepsInv(w: World, p: Pod, jitter: nat)
    requires Inv(w) && Knows(w, Saw(p)) && Finished(p, w.clock) && w.entry.Some? && w.entry.value.hash == p.ann.hash
    requires w.hist.failures == 0 && w.marks.gaveUp.Some? ==> w.entry.value.lastPod == Some(p.uid)
    ensures Inv(Recorded(w, p, jitter))
  {
    if w.entry.value.lastPod != Some(p.uid) {
      var w' := Recorded(w, p, jitter);
      assert Accounted(w') by { RecordedKeepsAccounted(w, p, jitter); }
      assert Rationed(w') by { RecordedKeepsRationed(w, p, jitter); }
      assert Quiescent(w') && ReportedOnce(w') by { RecordedKeepsQuiescent(w, p, jitter); }
      HostStays(w, w');
      assert Fresh(w') && Truthful(w') && Secured(w') && Recreatable(w');
      assert Excused(w') && EmittedOnce(w') && Observed(w') && Harmless(w');
    }
  }

  lemma RecordedKeepsAccounted(w: World, p: Pod, jitter: nat)
    requires B.PolicyOk(w.setup.policy) && Fresh(w) && Truthful(w) && Accounted(w) && Knows(w, Saw(p))
    requires w.entry.Some? && w.entry.value.lastPod != Some(p.uid)
    ensures Accounted(Recorded(w, p, jitter))
  {
    B.RecordRefines(w.setup.policy, w.entry.value, w.hist.tally.epoch, p.uid, p.ann.staging, CountedCode(p), RanFor(p), w.clock, jitter);
    NeverLast(w.hist.tally.epoch, w.entry.value.lastPod, p.uid);
    CountedLast(w.hist.tally.epoch, B.Exit(p.uid, CountedCode(p), RanFor(p)), w.nextUid);
    var w' := Recorded(w, p, jitter);
    assert w'.hist.tally.epoch == w.hist.tally.epoch + [B.Exit(p.uid, CountedCode(p), RanFor(p))];
    assert Known(w') == Some(p) && (w'.pod.Some? ==> w'.pod.value.uid == p.uid);
  }

  lemma CountedLast(h: seq<B.Seen>, x: B.Seen, next: Uid)
    requires Increasing(h) && x.Exit? && UidsBelow(h, x.uid) && x.uid < next && UidsBelow(h, next)
    ensures Increasing(h + [x]) && UidsBelow(h + [x], x.uid + 1) && UidsBelow(h + [x], next)
  {
    Appended(h, x);
    assert UidsBelow(h, x.uid + 1);
  }

  /** A pod that was not counted last was not counted at all: pods come in the order of their UIDs. */
  lemma {:induction false} NeverLast(h: seq<B.Seen>, last: Option<Uid>, uid: Uid)
    requires Increasing(h) && B.LastCounted(h, last) && UidsBelow(h, uid + 1) && last != Some(uid)
    ensures UidsBelow(h, uid)
  {
    if h != [] {
      var r, x := h[..|h| - 1], h[|h| - 1];
      assert h == r + [x];
      Appended(r, x);
      if x.Clear? {
        NeverLast(r, last, uid);
      } else {
        assert x.uid < uid;
        forall i | 0 <= i < |h| && h[i].Exit? ensures h[i].uid < uid {
          assert i < |r| ==> r[i] == h[i];
        }
      }
    }
  }

  lemma RecordedKeepsRationed(w: World, p: Pod, jitter: nat)
    requires Rationed(w) && w.sec.Some? && w.entry.Some? && w.entry.value.lastPod != Some(p.uid)
    ensures Rationed(Recorded(w, p, jitter))
  {
    B.OneMoreExit(w.setup.policy, w.hist.tally.epoch, B.Exit(p.uid, CountedCode(p), RanFor(p)));
  }

  lemma RecordedKeepsQuiescent(w: World, p: Pod, jitter: nat)
    requires B.PolicyOk(w.setup.policy) && Truthful(w) && Quiescent(w) && ReportedOnce(w)
    requires Knows(w, Saw(p)) && Finished(p, w.clock) && w.entry.Some? && w.entry.value.hash == p.ann.hash
    requires w.entry.value.lastPod != Some(p.uid) && w.entry.value.backoff.fatal < w.setup.policy.maxFatal
    requires (w.hist.failures == 0 ==> w.marks.gaveUp.None?) && Told(w)
    ensures Quiescent(Recorded(w, p, jitter)) && ReportedOnce(Recorded(w, p, jitter))
  {}

  lemma StartOverKeepsInv(w: World, hash: Hash)
    requires Inv(w) && Enabled(w, StartOver(hash))
    ensures Inv(DriverStep(w, StartOver(hash)))
  {
    var c := WithConfig(w, hash);
    WithConfigKeepsCore(w, hash);
    ConfigLog(w, hash);
    StartedOverKeepsCore(c);
    WaivedKeepsInv(w, StartedOver(c));
  }

  /** A report that was due is waived. */
  lemma WaivedKeepsInv(w: World, w': World)
    requires ReportedOnce(w) && Core(w') && w'.sec.Some? && !Owed(w')
    requires w'.hist.log == w.hist.log && w'.hist.failures == w.hist.failures
    ensures Inv(Waived(w, w'))
  {
    if Owed(w) {
      WaiverKeepsCore(w');
      WaivedReports(w, w');
    } else {
      assert ReportedOnce(w');
    }
  }

  lemma WaivedReports(w: World, w': World)
    requires ReportedOnce(w) && Owed(w) && !Owed(w') && w'.hist.log == w.hist.log && w'.hist.failures == w.hist.failures
    ensures ReportedOnce(Waiver(w')) && !Owed(Waiver(w'))
  {}

  /** What another config, or a new start, leaves of the reports. */
  lemma ConfigLog(w: World, hash: Hash)
    requires w.sec.Some?
    ensures var c := WithConfig(w, hash);
            && c.entry.Some? && c.sec.Some? && c.hist.log == w.hist.log && c.hist.failures == w.hist.failures && c.marks == w.marks
            && (c.sec.value.told ==> w.sec.value.told) && (GaveUp(c) ==> GaveUp(w)) && (c == w || !GaveUp(c))
            && (c == w <== w.entry.Some? && w.entry.value.hash == hash)
            && StartedOver(c).sec.Some? && StartedOver(c).hist.log == w.hist.log && StartedOver(c).hist.failures == w.hist.failures
  {}

  lemma StartedOverKeepsCore(c: World)
    requires Core(c) && c.sec.Some? && c.entry.Some?
    ensures Core(StartedOver(c)) && !Owed(StartedOver(c))
  {
    if GaveUp(c) {
      ClearedKeepsCore(c);
      UntoldKeepsCore(Cleared(c));
    } else {
      UntoldKeepsCore(c);
    }
  }

  /** Waiving a report bears on nothing else. */
  lemma WaiverKeepsCore(w: World)
    requires Core(w) && w.sec.Some?
    ensures Core(Waiver(w))
  {
    var v := Waiver(w);
    ObjectsStay(w, v);
    CountsStay(w, v);
  }

  lemma UntoldKeepsCore(w: World)
    requires Core(w) && w.sec.Some?
    ensures Core(Untold(w))
  {
    var w' := Untold(w);
    ObjectsStay(w, w');
    CountsStay(w, w');
    HostStays(w, w');
  }

  lemma ClearedKeepsCore(w: World)
    requires Core(w) && w.entry.Some? && w.sec.Some?
    ensures Core(Cleared(w))
  {
    var w' := Cleared(w);
    assert Accounted(w') by { ResetKeepsAccounted(w, w'); }
    ObjectsStay(w, w');
    assert Quiescent(w') && Told(w') && Rationed(w') && Excused(w');
    assert EmittedOnce(w') && Observed(w') && Harmless(w');
  }

  lemma PermitKeepsInv(w: World, hash: Hash)
    requires Inv(w) && Enabled(w, Permit(hash))
    ensures Inv(DriverStep(w, Permit(hash)))
  {
    var w' := DriverStep(w, Permit(hash));
    ObjectsStay(w, w');
    PermitKeepsCounts(w, hash);
    LogStays(w, w');
    HostStays(w, w');
  }

  lemma PermitKeepsCounts(w: World, hash: Hash)
    requires Quiescent(w) && Told(w) && Accounted(w) && Rationed(w) && Excused(w) && Enabled(w, Permit(hash))
    ensures var w' := DriverStep(w, Permit(hash));
            Quiescent(w') && Told(w') && Accounted(w') && Rationed(w') && Excused(w')
  {
    assert Accounted(DriverStep(w, Permit(hash))) by { AccountsStay(w, DriverStep(w, Permit(hash))); }
  }

  lemma StripKeepsInv(w: World)
    requires Inv(w) && Enabled(w, Strip)
    ensures Inv(DriverStep(w, Strip))
  {
    StripKeepsFacts(w);
    StripKeepsExcused(w);
    StripKeepsRest(w);
    StripKeepsReports(w);
  }

  lemma StripKeepsRest(w: World)
    requires Recreatable(w) && Accounted(w) && Quiescent(w) && Told(w) && Enabled(w, Strip)
    ensures var w' := DriverStep(w, Strip);
            Recreatable(w') && Accounted(w') && Quiescent(w') && Told(w')
  {
    var w' := DriverStep(w, Strip);
    assert Accounted(w') by { SameAccounts(w, w'); }
    assert Quiescent(w') && Told(w') && Recreatable(w');
  }

  lemma StripKeepsReports(w: World)
    requires EmittedOnce(w) && ReportedOnce(w) && Observed(w) && Harmless(w) && Enabled(w, Strip)
    ensures var w' := DriverStep(w, Strip);
            EmittedOnce(w') && ReportedOnce(w') && Observed(w') && Harmless(w')
  {}

  lemma StripKeepsFacts(w: World)
    requires Fresh(w) && Truthful(w) && Secured(w) && Enabled(w, Strip)
    ensures var w' := DriverStep(w, Strip);
            Fresh(w') && Truthful(w') && Secured(w')
  {}

  /** A pod to be counted is not released without a debt. */
  lemma StripKeepsExcused(w: World)
    requires Truthful(w) && Rationed(w) && Excused(w) && Enabled(w, Strip)
    ensures var w' := DriverStep(w, Strip);
            Rationed(w') && Excused(w')
  {
    var p := w.sec.value.know.pod;
    assert w.pod.Some? && Paid(w, p) && p.uid in Uncounted(w) ==> p.deletedAt.Some? && !p.status.Ended?;
  }

  lemma DeleteNowKeepsInv(w: World)
    requires Inv(w) && Enabled(w, DeleteNow)
    ensures Inv(DriverStep(w, DeleteNow))
  {
    var w1 := if w.pod.Some? then NoPod(w) else w;
    NoPodKeepsInv(w);
    ReleasedKeepsInv(w1, w.sec.value.know.pod);
    assert DriverStep(w, DeleteNow) == Released(w1, w.sec.value.know.pod);
  }

  function Released(w: World, p: Pod): World
    requires w.sec.Some?
  {
    w.(sec := Some(w.sec.value.(know := SawAbsent, released := Some(p))))
  }

  lemma ReleasedKeepsInv(w: World, p: Pod)
    requires Inv(w) && Knows(w, Stripped(p)) && w.pod.None?
    ensures Inv(Released(w, p))
  {
    var w' := Released(w, p);
    assert Fresh(w') && Truthful(w') && Secured(w') && Recreatable(w');
    CountsStay(w, w');
    LogStays(w, w');
  }

  lemma NoPodKeepsInv(w: World)
    requires Inv(w) && w.sec.Some? && (w.pod.Some? ==> !w.pod.value.inUse)
    ensures Inv(NoPod(w))
  {
    var w' := NoPod(w);
    assert Fresh(w') && Truthful(w');
    assert Secured(w') && Recreatable(w');
    assert Accounted(w') by { SameAccounts(w, w'); }
    assert Quiescent(w') && Told(w') && Rationed(w');
    assert Excused(w') && EmittedOnce(w');
  }

  lemma StopPodKeepsInv(w: World, reason: Reason, grace: nat)
    requires Inv(w) && Enabled(w, StopPod(reason, grace))
    ensures Inv(DriverStep(w, StopPod(reason, grace)))
  {
    if w.pod.Some? {
      EnvKeepsInv(w, OutsideDelete(grace));
      StopWorld(w, reason, grace);
      StoppedKeepsInv(EnvStep(w, OutsideDelete(grace)), Stop(w.pod.value.uid, reason, w.host.binds != {}, w.host.kubelet.Staged?));
    }
  }

  /** A stop is a deletion like another, on record with what held then. */
  lemma StopWorld(w: World, reason: Reason, grace: nat)
    requires Observed(w) && Placed(w) && Enabled(w, StopPod(reason, grace)) && w.pod.Some?
    ensures DriverStep(w, StopPod(reason, grace)) ==
              Stopped(EnvStep(w, OutsideDelete(grace)), Stop(w.pod.value.uid, reason, w.host.binds != {}, w.host.kubelet.Staged?))
    ensures reason.Orphaned? || reason.ConfigChanged? ==> w.host.binds == {}
    ensures reason.Orphaned? ==> !w.host.kubelet.Staged?
  {}

  function Stopped(w: World, s: Stop): World { w.(hist := w.hist.(stops := w.hist.stops + [s])) }

  lemma StoppedKeepsInv(w: World, s: Stop)
    requires Inv(w) && w.sec.Some?
    requires (s.reason.Orphaned? || s.reason.ConfigChanged? ==> !s.bound) && (s.reason.Orphaned? ==> !s.staged)
    ensures Inv(Stopped(w, s))
  {
    var w' := Stopped(w, s);
    ObjectsStay(w, w');
    CountsStay(w, w');
    HostStays(w, w');
  }

  lemma PrepareKeepsInv(w: World, staging: Path)
    requires Inv(w) && Enabled(w, Prepare(staging))
    ensures Inv(DriverStep(w, Prepare(staging)))
  {
    var w' := DriverStep(w, Prepare(staging));
    assert Fresh(w') && Truthful(w');
    assert Secured(w') && Recreatable(w');
    CountsStay(w, w');
    LogStays(w, w');
  }

  lemma UnmountKeepsInv(w: World, staging: Path)
    requires Inv(w) && Enabled(w, Unmount(staging))
    ensures Inv(DriverStep(w, Unmount(staging)))
  {
    var w' := DriverStep(w, Unmount(staging));
    assert Fresh(w') && Truthful(w') && Secured(w') && Recreatable(w');
    CountsStay(w, w');
    LogStays(w, w');
  }

  lemma DropSecretKeepsInv(w: World, s: SecretId)
    requires Inv(w) && Enabled(w, DropSecret(s))
    ensures Inv(DriverStep(w, DropSecret(s)))
  {
    var w' := DriverStep(w, DropSecret(s));
    assert Fresh(w') && Truthful(w');
    assert Secured(w') && Recreatable(w');
    CountsStay(w, w');
    LogStays(w, w');
  }

  lemma CreateSecretKeepsInv(w: World, spec: Spec)
    requires Inv(w) && Enabled(w, CreateSecret(spec))
    ensures Inv(DriverStep(w, CreateSecret(spec)))
  {
    var w' := DriverStep(w, CreateSecret(spec));
    assert Fresh(w') && Truthful(w');
    assert Secured(w') && Recreatable(w');
    CountsStay(w, w');
    LogStays(w, w');
  }

  lemma CreatePodKeepsInv(w: World)
    requires Inv(w) && Enabled(w, CreatePod)
    ensures Inv(DriverStep(w, CreatePod))
  {
    if w.pod.None? {
      var w' := DriverStep(w, CreatePod);
      var k := w.sec.value.know;
      assert Recreatable(w') by { ReadBackBuilt(w.setup.cfg, k.spec, k.secret, w.setup.cache); }
      CreatePodKeepsCounts(w);
      CreatePodKeepsFacts(w);
      CreatePodKeepsRest(w);
      CreatePodKeepsHost(w);
    }
  }

  lemma CreatePodKeepsRest(w: World)
    requires Fresh(w) && EmittedOnce(w) && ReportedOnce(w) && Harmless(w)
    requires Enabled(w, CreatePod) && w.pod.None?
    ensures var w' := DriverStep(w, CreatePod);
            EmittedOnce(w') && ReportedOnce(w') && Harmless(w')
  {}

  lemma CreatePodKeepsHost(w: World)
    requires Observed(w) && Placed(w) && Enabled(w, CreatePod) && w.pod.None?
    ensures var w' := DriverStep(w, CreatePod); Observed(w') && Placed(w')
  {}

  lemma CreatePodKeepsFacts(w: World)
    requires Fresh(w) && Truthful(w) && Secured(w) && Enabled(w, CreatePod) && w.pod.None?
    ensures var w' := DriverStep(w, CreatePod); Fresh(w') && Truthful(w') && Secured(w')
  {}

  lemma CreatePodKeepsCounts(w: World)
    requires Fresh(w) && Truthful(w) && Accounted(w) && Quiescent(w) && Told(w) && Rationed(w) && Excused(w) && Enabled(w, CreatePod)
    ensures var w' := DriverStep(w, CreatePod);
            Accounted(w') && Quiescent(w') && Told(w') && Rationed(w') && Excused(w')
  {}

  lemma OwnSecretKeepsInv(w: World)
    requires Inv(w) && Enabled(w, OwnSecret)
    ensures Inv(DriverStep(w, OwnSecret))
  {
    var w' := DriverStep(w, OwnSecret);
    assert w' == w.(secrets := w'.secrets);
    OwnSecretKeepsSecrets(w);
    CountsStay(w, w');
    LogStays(w, w');
    HostStays(w, w');
  }

  lemma OwnSecretKeepsSecrets(w: World)
    requires Fresh(w) && Truthful(w) && Secured(w) && Recreatable(w) && Enabled(w, OwnSecret)
    ensures var w' := DriverStep(w, OwnSecret); Fresh(w') && Truthful(w') && Secured(w') && Recreatable(w')
  {}

  lemma SeenReadyKeepsInv(w: World)
    requires Inv(w) && Enabled(w, SeenReady)
    ensures Inv(DriverStep(w, SeenReady))
  {
    var s := Seeing(w, w.sec.value.view.(ready := Some(w.sec.value.know.pod.uid)));
    ReadyWorld(w, s);
    SeeingKeepsInv(w, s.sec.value.view);
    if w.entry.Some? {
      ReadyKeepsInv(s);
    }
  }

  lemma ReadyWorld(w: World, s: World)
    requires Enabled(w, SeenReady) && Observed(w) && s == Seeing(w, w.sec.value.view.(ready := Some(w.sec.value.know.pod.uid)))
    ensures DriverStep(w, SeenReady) == (if w.entry.Some? then Cleared(s) else s) && Observed(s) && !Owed(s)
  {}

  lemma ReadyKeepsInv(w: World)
    requires Inv(w) && w.sec.Some? && w.entry.Some? && !Owed(w)
    ensures Inv(Cleared(w))
  {
    ClearedKeepsCore(w);
  }

  lemma ForgetUnlessGaveUpKeepsInv(w: World)
    requires Inv(w) && Enabled(w, ForgetUnlessGaveUp)
    ensures Inv(DriverStep(w, ForgetUnlessGaveUp))
  {
    ForgottenKeepsInv(w, w.marks.gaveUp);
  }

  lemma ForgetReleasedKeepsInv(w: World)
    requires Inv(w) && Enabled(w, ForgetReleased)
    ensures Inv(DriverStep(w, ForgetReleased))
  {
    ForgottenKeepsInv(w, w.marks.gaveUp);
  }

  lemma ForgetUnstagedKeepsInv(w: World)
    requires Inv(w) && Enabled(w, ForgetUnstaged)
    ensures Inv(DriverStep(w, ForgetUnstaged))
  {
    ForgottenKeepsInv(w, None);
  }

  lemma ForgetSweptKeepsInv(w: World)
    requires Inv(w) && Enabled(w, ForgetSwept)
    ensures Inv(DriverStep(w, ForgetSwept))
  {
    ForgottenKeepsInv(w, None);
  }

  lemma ForgottenKeepsInv(w: World, mark: Option<nat>)
    requires Inv(w) && w.sec.Some? && !Owed(w)
    ensures WithMark(Forgotten(w), w.marks.gaveUp) == Forgotten(w)
    ensures Inv(WithMark(Forgotten(w), mark))
  {
    var w' := WithMark(Forgotten(w), mark);
    ObjectsStay(w, w');
    assert w'.hist.tally.epoch == [] && Accounted(w') && Rationed(w') && Excused(w');
    assert Quiescent(w') && Told(w') && !Owed(w');
  }

  lemma StageFoundGaveUpKeepsInv(w: World)
    requires Inv(w) && Enabled(w, StageFoundGaveUp)
    ensures Inv(DriverStep(w, StageFoundGaveUp))
  {
    FoundKeepsInv(w, DriverStep(w, StageFoundGaveUp));
  }

  lemma RecoveryFoundGaveUpKeepsInv(w: World)
    requires Inv(w) && Enabled(w, RecoveryFoundGaveUp)
    ensures Inv(DriverStep(w, RecoveryFoundGaveUp))
  {
    if w.marks.gaveUp.None? {
      FoundKeepsInv(w, DriverStep(w, RecoveryFoundGaveUp));
    }
  }

  /** A mark is set, and the report made that was due. */
  lemma FoundKeepsInv(w: World, w': World)
    requires Inv(w) && w.sec.Some? && w.sec.value.told
    requires w' == Reporting(WithMark(w, Some(w.clock)), if w.marks.gaveUp.None? then 1 else 0)
    ensures Inv(w')
  {
    ObjectsStay(w, w');
    CountsStay(w, w');
    assert ReportedOnce(w');
    HostStays(w, w');
  }

  lemma ClearGaveUpKeepsInv(w: World)
    requires Inv(w) && Enabled(w, ClearGaveUp)
    ensures Inv(DriverStep(w, ClearGaveUp))
  {
    var w' := WithMark(w, None);
    ObjectsStay(w, w');
    CountsStay(w, w');
    LogStays(w, w');
    HostStays(w, w');
  }

  lemma EmitEarlyKeepsInv(w: World)
    requires Inv(w) && Enabled(w, EmitEarly)
    ensures Inv(DriverStep(w, EmitEarly))
  {
    EmitEarlyKeepsEmittedOnce(w);
    MarkingKeepsRest(w, DriverStep(w, EmitEarly));
  }

  lemma EmitEarlyKeepsEmittedOnce(w: World)
    requires Fresh(w) && Truthful(w) && EmittedOnce(w) && Enabled(w, EmitEarly)
    ensures EmittedOnce(DriverStep(w, EmitEarly))
  {
    var w' := DriverStep(w, EmitEarly);
    var u := w.sec.value.know.pod.uid;
    assert w'.marks.reported + w'.hist.log.closed == (w.marks.reported + w.hist.log.closed) + {u};
    assert w'.hist.log.emitted == multiset(w'.marks.reported + w'.hist.log.closed);
  }

  lemma EmitReleasedKeepsInv(w: World)
    requires Inv(w) && Enabled(w, EmitReleased)
    ensures Inv(DriverStep(w, EmitReleased))
  {
    var w' := DriverStep(w, EmitReleased);
    assert EmittedOnce(w') by { EmitReleasedKeepsEmittedOnce(w); }
    MarkingKeepsRest(w, w');
  }

  lemma EmitReleasedKeepsEmittedOnce(w: World)
    requires Fresh(w) && Truthful(w) && EmittedOnce(w) && Enabled(w, EmitReleased)
    ensures EmittedOnce(DriverStep(w, EmitReleased))
  {
    var w' := DriverStep(w, EmitReleased);
    var u := w.sec.value.released.value.uid;
    assert w'.marks.reported + w'.hist.log.closed == (w.marks.reported + w.hist.log.closed) + {u};
    assert w'.hist.log.emitted == multiset(w'.marks.reported + w'.hist.log.closed);
  }

  /** The marks of reported exits bear on nothing else. */
  lemma MarkingKeepsRest(w: World, w': World)
    requires Inv(w) && w.sec.Some?
    requires w' == w.(sec := w'.sec, marks := w.marks.(reported := w'.marks.reported),
                          hist := w.hist.(log := w.hist.log.(emitted := w'.hist.log.emitted, closed := w'.hist.log.closed)))
    requires w'.sec.Some? && w'.sec.value == w.sec.value.(released := w'.sec.value.released)
    requires w'.sec.value.released in {None, w.sec.value.released}
    requires EmittedOnce(w')
    ensures Inv(w')
  {
    assert Fresh(w') && Truthful(w');
    assert Secured(w');
    assert Recreatable(w');
    CountsStay(w, w');
    assert ReportedOnce(w') && Observed(w') && Harmless(w');
    HostStays(w, w');
  }

  /** Sections, calls that fail, the busy mark, what the section sees of the host. */
  lemma SectionStepKeepsInv(w: World, d: DriverAction)
    requires Inv(w) && Enabled(w, d)
    requires d.Enter? || d.Leave? || d.FailCall? || d.MarkBusy? || d.ClearBusy? || d.CheckIdle? || d.ReadMounts? || d.ReadVolData?
    ensures Inv(DriverStep(w, d))
  {
    match d
    case Enter(kind) => EnterKeepsInv(w, kind);
    case Leave(v) => LeaveKeepsInv(w, v);
    case FailCall => FailCallKeepsInv(w);
    case MarkBusy => MarkBusyKeepsInv(w);
    case ClearBusy => ClearBusyKeepsInv(w);
    case CheckIdle => CheckIdleKeepsInv(w);
    case ReadMounts => ReadMountsKeepsInv(w);
    case ReadVolData(path) => ReadVolDataKeepsInv(w, path);
  }

  /** The pod. */
  lemma PodStepKeepsInv(w: World, d: DriverAction)
    requires Inv(w) && Enabled(w, d)
    requires d.GetPod? || d.Strip? || d.DeleteNow? || d.StopPod? || d.CreatePod?
    ensures Inv(DriverStep(w, d))
  {
    match d
    case GetPod => GetPodKeepsInv(w);
    case Strip => StripKeepsInv(w);
    case DeleteNow => DeleteNowKeepsInv(w);
    case StopPod(reason, grace) => StopPodKeepsInv(w, reason, grace);
    case CreatePod => CreatePodKeepsInv(w);
  }

  /** The Secrets and the host. */
  lemma SecretStepKeepsInv(w: World, d: DriverAction)
    requires Inv(w) && Enabled(w, d)
    requires d.Prepare? || d.Unmount? || d.DropSecret? || d.CreateSecret? || d.OwnSecret?
    ensures Inv(DriverStep(w, d))
  {
    match d
    case Prepare(staging) => PrepareKeepsInv(w, staging);
    case Unmount(staging) => UnmountKeepsInv(w, staging);
    case DropSecret(s) => DropSecretKeepsInv(w, s);
    case CreateSecret(spec) => CreateSecretKeepsInv(w, spec);
    case OwnSecret => OwnSecretKeepsInv(w);
  }

  /** The restart state. */
  lemma EntryStepKeepsInv(w: World, d: DriverAction)
    requires Inv(w) && Enabled(w, d)
    requires d.UseConfig? || d.CountExit? || d.StartOver? || d.Permit? || d.SeenReady?
    ensures Inv(DriverStep(w, d))
  {
    match d
    case UseConfig(hash) => UseConfigKeepsInv(w, hash);
    case CountExit(hash, jitter) => CountExitKeepsInv(w, hash, jitter);
    case StartOver(hash) => StartOverKeepsInv(w, hash);
    case Permit(hash) => PermitKeepsInv(w, hash);
    case SeenReady => SeenReadyKeepsInv(w);
  }

  /** Its end. */
  lemma ForgetStepKeepsInv(w: World, d: DriverAction)
    requires Inv(w) && Enabled(w, d) && (d.ForgetUnlessGaveUp? || d.ForgetReleased? || d.ForgetUnstaged? || d.ForgetSwept?)
    ensures Inv(DriverStep(w, d))
  {
    match d
    case ForgetUnlessGaveUp => ForgetUnlessGaveUpKeepsInv(w);
    case ForgetReleased => ForgetReleasedKeepsInv(w);
    case ForgetUnstaged => ForgetUnstagedKeepsInv(w);
    case ForgetSwept => ForgetSweptKeepsInv(w);
  }

  /** The marks of the node plugin, and its reports. */
  lemma MarkStepKeepsInv(w: World, d: DriverAction)
    requires Inv(w) && Enabled(w, d)
    requires d.StageFoundGaveUp? || d.RecoveryFoundGaveUp? || d.ClearGaveUp? || d.EmitEarly? || d.EmitReleased?
    ensures Inv(DriverStep(w, d))
  {
    match d
    case StageFoundGaveUp => StageFoundGaveUpKeepsInv(w);
    case RecoveryFoundGaveUp => RecoveryFoundGaveUpKeepsInv(w);
    case ClearGaveUp => ClearGaveUpKeepsInv(w);
    case EmitEarly => EmitEarlyKeepsInv(w);
    case EmitReleased => EmitReleasedKeepsInv(w);
  }

  lemma DriverKeepsInv(w: World, d: DriverAction)
    requires Inv(w) && Enabled(w, d)
    ensures Inv(DriverStep(w, d))
  {
    if d.Enter? || d.Leave? || d.FailCall? || d.MarkBusy? || d.ClearBusy? || d.CheckIdle? || d.ReadMounts? || d.ReadVolData? {
      SectionStepKeepsInv(w, d);
    } else if d.GetPod? || d.Strip? || d.DeleteNow? || d.StopPod? || d.CreatePod? {
      PodStepKeepsInv(w, d);
    } else if d.Prepare? || d.Unmount? || d.DropSecret? || d.CreateSecret? || d.OwnSecret? {
      SecretStepKeepsInv(w, d);
    } else if d.StageFoundGaveUp? || d.RecoveryFoundGaveUp? || d.ClearGaveUp? || d.EmitEarly? || d.EmitReleased? {
      MarkStepKeepsInv(w, d);
    } else if d.ForgetUnlessGaveUp? || d.ForgetReleased? || d.ForgetUnstaged? || d.ForgetSwept? {
      ForgetStepKeepsInv(w, d);
    } else {
      EntryStepKeepsInv(w, d);
    }
  }

  // ---------------------------------------------------------------- every run

  lemma InitialInv(w: World)
    requires Initial(w)
    ensures Inv(w)
  {}

  /** Every reachable world has the invariant. */
  lemma {:induction false} RunKeepsInv(r: Run)
    requires Valid(r)
    ensures Inv(Last(r))
  {
    match r
    case Begin(w) => InitialInv(w);
    case Then(p, a) =>
      RunKeepsInv(p);
      match a
      case Env(e) => EnvKeepsInv(Last(p), e);
      case Driver(d) => DriverKeepsInv(Last(p), d);
  }
}
