/** Runs in which a stage creates a pod, for every setup and every spec that a pod can be built from. */
module Runs {
  import opened Base
  import opened PodSpec
  import opened Machine
  import B = Backoff

  function Drive(r: Run, d: DriverAction): (r': Run)
    requires Valid(Then(r, Driver(d)))
    ensures Valid(r') && Last(r') == DriverStep(Last(r), d)
  {
    Then(r, Driver(d))
  }

  function Befall(r: Run, e: EnvAction): (r': Run)
    requires Valid(r)
    ensures Valid(r') && Last(r') == EnvStep(Last(r), e)
  {
    Then(r, Env(e))
  }

  // ---------------------------------------------------------------- a stage that creates a pod

  predicate ForVolume(setup: Setup, spec: Spec) {
    SpecOk(setup.cfg, spec) && spec.volume == setup.volume && spec.node == setup.node && spec.cache == setup.cache &&
    spec.staging == setup.path
  }

  /** A stage has found no pod, and the restart state allows one. */
  predicate CanCreate(w: World, spec: Spec) {
    && ForVolume(w.setup, spec) && w.pod.None? && w.marks.gaveUp.None?
    && w.sec.Some? && w.sec.value.kind.Stage? && w.sec.value.know.SawAbsent? && !w.sec.value.told && !w.sec.value.owes
    && !GaveUp(w) && (w.entry.Some? ==> w.entry.value.hash == SpecHash(w, spec) && w.entry.value.backoff.next <= w.clock)
  }

  /** What the stage leaves: a pod that was just created, the answer Aborted. */
  predicate Created(u: World, w: World, spec: Spec) {
    && w.setup == u.setup && w.clock == u.clock && w.sec.None? && w.marks.gaveUp.None?
    && w.host.kubelet == StageAnswered(Retry) && spec.staging !in w.host.mounts
    && w.pod == Some(Pod(u.nextUid, BuildPod(u.setup.cfg, spec, u.nextSecret), Waiting, None, true)) && w.nextUid == u.nextUid + 1
    && w.entry == Some(B.For(u.entry, SpecHash(u, spec)))
    && w.hist == u.hist.(tally := (if u.entry.Some? then u.hist.tally else NO_TALLY).(
                          made := (if u.entry.Some? then u.hist.tally.made else {}) + {u.nextUid}))
  }

  lemma Create(r: Run, spec: Spec) returns (r': Run)
    requires Valid(r) && CanCreate(Last(r), spec)
    ensures Valid(r') && Created(Last(r), Last(r'), spec)
  {
    r' := Allow(r, spec);
    ghost var p;
    r', p := MakePod(r', spec);
    r' := Answer(r', p);
  }

  function Permitted(w: World, hash: Hash): World
    requires w.sec.Some?
  {
    w.(entry := Some(B.For(w.entry, hash)), sec := Some(w.sec.value.(may := Some(hash))),
       hist := w.hist.(tally := if w.entry.Some? then w.hist.tally else NO_TALLY))
  }

  /** The world with a new pod, created by the section. */
  function WithPod(w: World, p: Pod): World
    requires w.sec.Some?
  {
    w.(pod := Some(p), nextUid := w.nextUid + 1, sec := Some(w.sec.value.(know := Saw(p), may := None)),
       hist := w.hist.(tally := w.hist.tally.(made := w.hist.tally.made + {p.uid})))
  }

  function WithSecrets(w: World, secrets: map<SecretId, Secret>, next: SecretId, mounts: set<Path>): World {
    w.(secrets := secrets, nextSecret := next, host := w.host.(mounts := mounts))
  }

  /** The end of a section that kubelet waited for. */
  function Closed(w: World, answer: Kubelet): World {
    w.(sec := None, host := w.host.(kubelet := answer))
  }

  /** The start of one, which has looked the pod up. */
  function Looking(w: World, kind: Kind, kubelet: Kubelet, volData: set<Path>): World {
    w.(host := w.host.(kubelet := kubelet, volData := volData),
       sec := Some(Section(kind, View(false, false, false, false, None), if w.pod.Some? then Saw(w.pod.value) else SawAbsent,
                           if w.pod.Some? then Some(w.pod.value.ann.staging) else None, None, false, false, None)))
  }

  lemma Allow(r: Run, spec: Spec) returns (r': Run)
    requires Valid(r) && CanCreate(Last(r), spec)
    ensures Valid(r') && Last(r') == Permitted(Last(r), SpecHash(Last(r), spec))
  {
    r' := Consult(r, spec);
    r' := Drive(r', Permit(SpecHash(Last(r), spec)));
  }

  lemma Consult(r: Run, spec: Spec) returns (r': Run)
    requires Valid(r) && CanCreate(Last(r), spec)
    ensures Valid(r') && Last(r').sec.Some? && Last(r').sec.value == Last(r).sec.value.(may := Last(r').sec.value.may)
    ensures Last(r').(sec := Permitted(Last(r), SpecHash(Last(r), spec)).sec) == Permitted(Last(r), SpecHash(Last(r), spec))
  {
    r' := Drive(r, UseConfig(SpecHash(Last(r), spec)));
  }

  lemma MakePod(r: Run, spec: Spec) returns (r': Run, p: Pod)
    requires Valid(r) && ForVolume(Last(r).setup, spec) && Last(r).pod.None? && Knows(Last(r), SawAbsent)
    requires Last(r).sec.value.kind.Stage?
    requires Last(r).sec.value.may == Some(SpecHash(Last(r), spec)) && !Last(r).sec.value.owes
    ensures Valid(r') && p == Pod(Last(r).nextUid, BuildPod(Last(r).setup.cfg, spec, Last(r).nextSecret), Waiting, None, true)
    ensures Last(r') == WithPod(WithSecrets(Last(r), Last(r').secrets, Last(r').nextSecret, Last(r').host.mounts), p)
    ensures spec.staging !in Last(r').host.mounts
  {
    r' := MakeSecret(r, spec);
    p := Pod(Last(r).nextUid, BuildPod(Last(r).setup.cfg, spec, Last(r).nextSecret), Waiting, None, true);
    r' := Drive(r', CreatePod);
  }

  lemma MakeSecret(r: Run, spec: Spec) returns (r': Run)
    requires Valid(r) && ForVolume(Last(r).setup, spec) && Knows(Last(r), SawAbsent) && Last(r).sec.value.kind.Stage?
    ensures Valid(r') && spec.staging !in Last(r').host.mounts
    ensures Last(r') == Learn(WithSecrets(Last(r), Last(r').secrets, Last(r').nextSecret, Last(r').host.mounts),
                              Holding(Last(r).nextSecret, spec))
  {
    r' := Drive(r, Prepare(spec.staging));
    r' := Drive(r', CreateSecret(spec));
  }

  /** The pod gets its Secret, and the stage ends with Aborted. */
  lemma Answer(r: Run, p: Pod) returns (r': Run)
    requires Valid(r) && Knows(Last(r), Saw(p)) && Last(r).sec.value.kind.Stage? && !Last(r).sec.value.told && !Last(r).sec.value.owes
    requires !GaveUp(Last(r))
    ensures Valid(r')
    ensures Last(r') == Closed(WithMark(WithSecrets(Last(r), Last(r').secrets, Last(r).nextSecret, Last(r).host.mounts), None), StageAnswered(Retry))
  {
    r' := Drive(r, OwnSecret);
    r' := Finish(r');
  }

  lemma Finish(r: Run) returns (r': Run)
    requires Valid(r) && Last(r).sec.Some? && Last(r).sec.value.kind.Stage? && !Last(r).sec.value.told && !Last(r).sec.value.owes
    requires !GaveUp(Last(r))
    ensures Valid(r') && Last(r') == Closed(WithMark(Last(r), None), StageAnswered(Retry))
  {
    r' := Drive(r, ClearGaveUp);
    r' := Drive(r', Leave(Retry));
  }

  /** kubelet sends a stage, which looks the pod up. */
  lemma OpenStage(r: Run) returns (r': Run)
    requires Valid(r) && Last(r).sec.None?
    requires Last(r).host.kubelet in {Released, StageAnswered(Retry), UnstageAnswered(Retry)}
    ensures Valid(r') && Last(r') == Looking(Last(r), Stage, StageSent, Last(r).host.volData + {Last(r).setup.path})
  {
    r' := Befall(r, SendStage);
    r' := LookUp(r', Stage);
  }

  lemma LookUp(r: Run, kind: Kind) returns (r': Run)
    requires Valid(r) && Last(r).sec.None? && Called(Last(r), kind)
    ensures Valid(r') && Last(r') == Looking(Last(r), kind, Last(r).host.kubelet, Last(r).host.volData)
  {
    r' := Drive(r, Enter(kind));
    r' := Drive(r', GetPod);
  }

  /** A node plugin that starts with nothing about the volume. */
  predicate Fresh(w: World) { Initial(w) && w.pod.None? && w.host.kubelet.Released? }

  lemma FirstPod(w: World, spec: Spec) returns (r: Run)
    requires Fresh(w) && ForVolume(w.setup, spec)
    ensures Valid(r) && Last(r).setup == w.setup && Created(w, Last(r), spec)
  {
    r := OpenStage(Begin(w));
    r := Create(r, spec);
  }
}
