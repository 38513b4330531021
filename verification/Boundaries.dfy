/** Runs of the machine that show where the bounds of Lifecycle are sharp, for every setup and every spec that a pod
    can be built from. */
module Boundaries {
  import opened Base
  import opened PodSpec
  import opened Machine
  import opened Runs
  import L = Lifecycle
  import B = Backoff

  // ---------------------------------------------------------------- give-ups without a report

  /** The first pod ran, ended with 77, was deleted by hand, and a stage has counted its exit: the volume gave up. */
  lemma GivesUp(w: World, spec: Spec) returns (r: Run)
    requires Fresh(w) && ForVolume(w.setup, spec) && w.setup.policy.maxFatal == 1
    ensures Valid(r) && Owed(Last(r)) && GaveUp(Last(r)) && Last(r).entry.value.hash == SpecHash(w, spec) && Last(r).setup == w.setup
    ensures var s := Last(r).sec;
            s.Some? && !s.value.told && s.value.know.Saw? && Finished(s.value.know.pod, Last(r).clock) && s.value.know.pod.deletedAt.Some?
    ensures Last(r).hist.log == Log(multiset{}, {}, 1, 0, 0) && Last(r).hist.failures == 0
  {
    r := DeletedByHand(w, spec);
    r := OpenStage(r);
    r := Drive(r, CountExit(SpecHash(w, spec), 0));
  }

  lemma DeletedByHand(w: World, spec: Spec) returns (r: Run)
    requires Fresh(w) && ForVolume(w.setup, spec)
    ensures Valid(r) && Last(r).setup == w.setup && Last(r).sec.None? && Last(r).host.kubelet == StageAnswered(Retry)
    ensures Last(r).entry == Some(B.Entry(SpecHash(w, spec), B.ZERO, None, "")) && Last(r).marks.gaveUp.None?
    ensures Last(r).hist.log == NO_HISTORY.log && Last(r).hist.failures == 0
    ensures var p := Last(r).pod;
            && p.Some? && p.value.status == Status.Ended(Some(B.EXIT_AUTH_REQUIRED), 0) && p.value.deletedAt.Some?
            && p.value.ann.hash == SpecHash(w, spec)
  {
    r := FirstPod(w, spec);
    r := Befall(r, Start);
    r := Befall(r, End(Some(B.EXIT_AUTH_REQUIRED), 0));
    r := Befall(r, OutsideDelete(0));
  }

  lemma Told(w: World, spec: Spec) returns (r: Run)
    requires Fresh(w) && ForVolume(w.setup, spec) && w.setup.policy.maxFatal == 1
    ensures Valid(r) && Allowed(Last(r), Driver(StartOver(SpecHash(w, spec)))) && L.Waives(Last(r), Driver(StartOver(SpecHash(w, spec))))
    ensures Last(r).hist.log == Log(multiset{}, {}, 1, 0, 0) && Last(r).hist.failures == 0
  {
    r := GivesUp(w, spec);
    r := Drive(r, UseConfig(SpecHash(w, spec)));
  }

  /** The same Ensure starts the give-up over: no MountGaveUp will ever report it. */
  lemma WaivedByStartOver(w: World, spec: Spec) returns (r: Run)
    requires Fresh(w) && ForVolume(w.setup, spec) && w.setup.policy.maxFatal == 1
    ensures Valid(r) && Last(r).hist.log == Log(multiset{}, {}, 1, 0, 1) && !Owed(Last(r)) && Last(r).hist.failures == 0
  {
    r := Told(w, spec);
    L.WaivedIff(Last(r), Driver(StartOver(SpecHash(w, spec))));
    r := Drive(r, StartOver(SpecHash(w, spec)));
  }

  /** Or the ready answer that the pod gave NodeGetVolumeStats while it ran comes late, before the section is told of the
      give-up. */
  lemma WaivedByLateReset(w: World, spec: Spec) returns (r: Run)
    requires Fresh(w) && ForVolume(w.setup, spec) && w.setup.policy.maxFatal == 1
    ensures Valid(r) && Last(r).hist.log == Log(multiset{}, {}, 1, 0, 1) && !Owed(Last(r)) && Last(r).hist.failures == 0
  {
    r := GivesUp(w, spec);
    r := Befall(r, LateReset);
  }

  // ---------------------------------------------------------------- the orphan sweep

  /** The pod of a former node plugin, on a path that kubelet does not hold staged. */
  predicate IsOrphan(w: World) {
    && Initial(w) && w.pod.Some? && w.pod.value.deletedAt.None?
    && w.host.readable && w.host.binds == {} && w.pod.value.ann.staging !in w.host.volData
  }

  /** The section of the recovery, with what it has seen of the host. */
  function Recovering(w: World, v: View): World
    requires w.pod.Some?
  {
    w.(sec := Some(Section(Recovery, v, Saw(w.pod.value), Some(w.pod.value.ann.staging), None, false, false, None)))
  }

  /** The sweep has looked at everything and is about to stop the orphan. */
  lemma OrphanFound(w: World, grace: nat) returns (r: Run)
    requires IsOrphan(w)
    ensures Valid(r) && Enabled(Last(r), StopPod(Orphaned, grace))
    ensures Last(r).host == w.host && Last(r).setup == w.setup
  {
    r := OrphanUnstaged(w);
  }

  lemma OrphanUnstaged(w: World) returns (r: Run)
    requires IsOrphan(w)
    ensures Valid(r) && Last(r) == Recovering(w, View(false, true, true, true, None))
  {
    r := OrphanIdle(w);
    r := Drive(r, ReadVolData(w.pod.value.ann.staging));
  }

  lemma OrphanIdle(w: World) returns (r: Run)
    requires IsOrphan(w)
    ensures Valid(r) && Last(r) == Recovering(w, View(false, true, false, true, None))
  {
    r := OrphanUnbound(w);
    r := Drive(r, CheckIdle);
  }

  lemma OrphanUnbound(w: World) returns (r: Run)
    requires IsOrphan(w)
    ensures Valid(r) && Last(r) == Recovering(w, View(false, true, false, false, None))
  {
    r := LookUp(Begin(w), Recovery);
    r := Drive(r, ReadMounts);
  }

  /** What it saw is not what is: kubelet has written vol_data.json and waits for the lock with its stage, or the driver
      directory can no longer be read. The pod is stopped all the same. */
  lemma SweepCanBeLate(w: World, grace: nat) returns (sent: Run, unreadable: Run)
    requires IsOrphan(w) && w.pod.value.ann.staging == w.setup.path
    ensures Valid(sent) && Enabled(Last(sent), StopPod(Orphaned, grace))
    ensures w.setup.path in Last(sent).host.volData && Last(sent).host.kubelet.StageSent?
    ensures Valid(unreadable) && Enabled(Last(unreadable), StopPod(Orphaned, grace)) && !Last(unreadable).host.readable
  {
    var r := OrphanFound(w, grace);
    sent := Befall(r, SendStage);
    unreadable := Befall(r, SetReadable(false));
  }

  /** A pod of a former layout is an orphan even while kubelet holds the volume on its new path, and retries its stage. */
  lemma FormerPathSwept(w: World, grace: nat) returns (r: Run)
    requires IsOrphan(w) && w.pod.value.ann.staging != w.setup.path && w.host.kubelet == StageAnswered(Retry)
    ensures Valid(r) && Enabled(Last(r), StopPod(Orphaned, grace))
    ensures w.setup.path in Last(r).host.volData && Last(r).host.kubelet == StageAnswered(Retry)
  {
    r := OrphanFound(w, grace);
  }

  // ---------------------------------------------------------------- final codes beside a pod

  /** A stage whose spec is refused for good is final for kubelet although the pod of an earlier stage starts on the
      path. NodeServer.NodeStageVolume says when: the pod is left as it is. */
  lemma RefusedBesideAPod(w: World, spec: Spec) returns (r: Run)
    requires Fresh(w) && ForVolume(w.setup, spec)
    ensures Valid(r) && Last(r).sec.None? && Last(r).host.kubelet == StageAnswered(Final)
    ensures var w' := Last(r);
            w'.pod.Some? && w'.pod.value.ann.staging == spec.staging && !Finished(w'.pod.value, w'.clock)
  {
    r := FirstPod(w, spec);
    r := Befall(r, SendStage);
    r := Drive(r, Enter(Stage));
    r := Drive(r, Leave(Final));
  }

  /** So is the Internal of checkStaged: the pod runs on the path and has answered, but its mount is not seen there. */
  lemma MountNotSeen(w: World, spec: Spec) returns (r: Run)
    requires Fresh(w) && ForVolume(w.setup, spec)
    ensures Valid(r) && Last(r).sec.None? && Last(r).host.kubelet == StageAnswered(Final)
    ensures var w' := Last(r);
            w'.pod.Some? && w'.pod.value.ann.staging == spec.staging && spec.staging !in w'.host.mounts && w'.pod.value.status.Running?
  {
    r := FirstPod(w, spec);
    r := Befall(r, Start);
    r := OpenStage(r);
    r := AnswersReady(r);
    r := Drive(r, Leave(Final));
  }

  lemma AnswersReady(r: Run) returns (r': Run)
    requires Valid(r) && Last(r).sec.Some? && Last(r).sec.value.know.Saw? && Last(r).sec.value.know.pod.status.Running?
    requires !Owed(Last(r)) && !Last(r).sec.value.owes && Last(r).marks.gaveUp.None? && !Last(r).sec.value.told
    ensures Valid(r') && Last(r').sec.Some? && Last(r').pod == Last(r).pod && Last(r').host == Last(r).host && Last(r').marks == Last(r).marks
    ensures !GaveUp(Last(r')) && Last(r').sec.value == Last(r).sec.value.(view := Last(r').sec.value.view) && Last(r').setup == Last(r).setup
  {
    r' := Drive(r, SeenReady);
  }
}
