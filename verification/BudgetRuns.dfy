/** Runs that spend the budget of Budget.FatalBudget, for every setup and every spec that a pod can be built from. */
module BudgetRuns {
  import opened Base
  import opened PodSpec
  import opened Machine
  import opened Runs
  import G = Budget
  import B = Backoff

  // ---------------------------------------------------------------- pods that go

  /** The pod is released. */
  function PodGone(w: World, p: Pod): World
    requires w.sec.Some?
  {
    w.(pod := None, sec := Some(w.sec.value.(know := SawAbsent, released := Some(p))),
       hist := w.hist.(tally := w.hist.tally.(stuck := w.hist.tally.stuck + (if p.status.Ended? then {} else {p.uid}))))
  }

  /** A call has failed. */
  function Failed(w: World): World { w.(hist := w.hist.(failures := w.hist.failures + 1)) }

  // ---------------------------------------------------------------- how many pods are created

  /** Since the restart state was made, n pods were released stuck, f lost with a failed call each, and k counted with 77;
      one more is there. */
  ghost predicate Round(w: World, spec: Spec, n: nat, f: nat, k: nat) {
    var t := w.hist.tally;
    && ForVolume(w.setup, spec) && w.sec.None? && w.marks.gaveUp.None? && w.host.kubelet == StageAnswered(Retry)
    && w.pod.Some? && w.pod.value.status.Waiting? && w.pod.value.deletedAt.None? && w.pod.value.inUse
    && w.pod.value.ann.hash == SpecHash(w, spec) && w.nextUid == w.pod.value.uid + 1
    && w.entry.Some? && w.entry.value.hash == SpecHash(w, spec) && !GaveUp(w) && w.entry.value.backoff.next <= w.clock
    && w.entry.value.backoff.fatal == k < w.setup.policy.maxFatal
    && (w.entry.value.lastPod.Some? ==> w.entry.value.lastPod.value < w.pod.value.uid)
    && |t.epoch| == k && (forall i :: 0 <= i < k ==> B.Fatal(t.epoch[i]))
    && |t.made| == n + f + k + 1 && |t.stuck| == n && (forall u :: u in t.made || u in t.stuck ==> u < w.nextUid)
    && w.pod.value.uid !in t.stuck && w.hist.failures == f
  }

  lemma FirstRound(w: World, spec: Spec) returns (r: Run)
    requires Fresh(w) && ForVolume(w.setup, spec)
    ensures Valid(r) && Last(r).setup == w.setup && Round(Last(r), spec, 0, 0, 0)
  {
    r := FirstPod(w, spec);
  }

  /** A pod deleted by somebody is stuck. It becomes finished between two looks at the clock of ensureExisting: after the
      one that would have counted it, before the one that releases it. */
  lemma OneMoreStuck(r: Run, spec: Spec, n: nat) returns (r': Run)
    requires Valid(r) && Round(Last(r), spec, n, 0, 0)
    ensures Valid(r') && Last(r').setup == Last(r).setup && Round(Last(r'), spec, n + 1, 0, 0)
  {
    r' := Befall(r, OutsideDelete(0));
    r' := OpenStage(r');
    r' := ReleaseStuck(r', spec);
    r' := Create(r', spec);
  }

  /** The stage does not find the deleted pod finished yet, and does not count it; then the pod is, and is released. */
  lemma ReleaseStuck(r: Run, spec: Spec) returns (r': Run)
    requires Valid(r) && Last(r).sec.Some? && Last(r).sec.value.know.Saw? && Last(r).pod == Some(Last(r).sec.value.know.pod)
    requires !Last(r).sec.value.told && !Last(r).sec.value.owes
    requires Last(r).entry.Some? && Last(r).entry.value.hash == SpecHash(Last(r), spec) && !GaveUp(Last(r))
    requires var p := Last(r).pod.value; p.status.Waiting? && p.deletedAt == Some(Last(r).clock) && p.inUse
    ensures Valid(r') && Last(r') == PodGone(Last(r), Last(r).pod.value).(clock := Last(r).clock + STUCK_AFTER + 1)
  {
    assert !Finished(Last(r).pod.value, Last(r).clock);
    r' := Drive(r, UseConfig(SpecHash(Last(r), spec)));
    r' := Befall(r', Tick(STUCK_AFTER + 1));
    assert Last(r') == Last(r).(clock := Last(r).clock + STUCK_AFTER + 1);
    r' := Release(r');
  }

  /** A finished pod goes, to be counted or not. */
  lemma Release(r: Run) returns (r': Run)
    requires Valid(r) && Last(r).sec.Some? && Last(r).sec.value.know.Saw? && Last(r).pod == Some(Last(r).sec.value.know.pod)
    requires Last(r).pod.value.inUse && Finished(Last(r).pod.value, Last(r).clock) && Paid(Last(r), Last(r).pod.value)
    requires !Last(r).sec.value.owes
    ensures Valid(r') && Last(r') == PodGone(Last(r), Last(r).pod.value)
  {
    r' := Drive(r, Strip);
    r' := Drive(r', DeleteNow);
  }

  /** A pod that ended with 77 is counted, released once its time has come, and replaced. */
  lemma OneMoreCounted(r: Run, spec: Spec, n: nat, f: nat, k: nat) returns (r': Run)
    requires Valid(r) && Round(Last(r), spec, n, f, k) && k + 1 < Last(r).setup.policy.maxFatal
    ensures Valid(r') && Last(r').setup == Last(r).setup && Round(Last(r'), spec, n, f, k + 1)
  {
    r' := Befall(r, End(Some(B.EXIT_AUTH_REQUIRED), 0));
    r' := OpenStage(r');
    r' := ReplaceCounted(r', spec);
  }

  /** The pod counted is gone, the next one there. */
  predicate ReplacedCounted(w: World, w': World, spec: Spec)
    requires w.pod.Some? && w.entry.Some?
  {
    var t := w.hist.tally;
    && w'.setup == w.setup && w'.sec.None? && w'.marks.gaveUp.None? && w'.host.kubelet == StageAnswered(Retry)
    && w'.pod == Some(Pod(w.nextUid, BuildPod(w.setup.cfg, spec, w.nextSecret), Waiting, None, true)) && w'.nextUid == w.nextUid + 1
    && w'.entry.Some? && w'.entry.value.hash == SpecHash(w, spec) && w'.entry.value.lastPod == Some(w.pod.value.uid)
    && !GaveUp(w') && w'.entry.value.backoff.next <= w'.clock && w'.entry.value.backoff.fatal == w.entry.value.backoff.fatal + 1
    && w'.hist == w.hist.(tally := t.(epoch := t.epoch + [B.Exit(w.pod.value.uid, B.EXIT_AUTH_REQUIRED, 0)], made := t.made + {w.nextUid}))
  }

  lemma ReplaceCounted(r: Run, spec: Spec) returns (r': Run)
    requires Valid(r) && EndedFatally(Last(r), spec) && ForVolume(Last(r).setup, spec) && Last(r).pod.value.inUse
    requires Last(r).sec.value.kind.Stage? && !Last(r).sec.value.owes
    ensures Valid(r')
    ensures ReplacedCounted(Last(r), Last(r'), spec)
  {
    r' := CountFatal(r, spec);
    r' := Release(r');
    r' := Create(r', spec);
  }

  /** A stage has found the pod ended with 77, not counted yet. */
  predicate EndedFatally(w: World, spec: Spec) {
    && w.sec.Some? && w.pod.Some? && w.sec.value.know == Saw(w.pod.value) && !w.sec.value.told && w.sec.value.may.None?
    && w.marks.gaveUp.None? && !GaveUp(w) && w.entry.Some? && w.entry.value.hash == SpecHash(w, spec)
    && w.pod.value.status == Status.Ended(Some(B.EXIT_AUTH_REQUIRED), 0) && w.pod.value.ann.hash == SpecHash(w, spec)
    && w.entry.value.lastPod != Some(w.pod.value.uid) && w.entry.value.backoff.fatal + 1 < w.setup.policy.maxFatal
  }

  /** It is counted, and its restart time has come. */
  predicate CountedFatally(w: World, w': World)
    requires w.pod.Some? && w.entry.Some?
  {
    var uid, e := w.pod.value.uid, w'.entry;
    && w' == w.(clock := w'.clock, entry := e,
                hist := w.hist.(tally := w.hist.tally.(epoch := w.hist.tally.epoch + [B.Exit(uid, B.EXIT_AUTH_REQUIRED, 0)])))
    && e.Some? && e.value.hash == w.entry.value.hash && e.value.lastPod == Some(uid) && !e.value.backoff.gaveUp
    && e.value.backoff.fatal == w.entry.value.backoff.fatal + 1 && e.value.backoff.next <= w'.clock
  }

  lemma CountFatal(r: Run, spec: Spec) returns (r': Run)
    requires Valid(r) && EndedFatally(Last(r), spec)
    ensures Valid(r') && CountedFatally(Last(r), Last(r'))
  {
    r' := Drive(r, CountExit(SpecHash(Last(r), spec), 0));
    var wait := Last(r').entry.value.backoff.next;
    r' := Befall(r', Tick(wait));
  }

  lemma {:induction false} StuckRounds(w: World, spec: Spec, n: nat) returns (r: Run)
    requires Fresh(w) && ForVolume(w.setup, spec)
    ensures Valid(r) && Last(r).setup == w.setup && Round(Last(r), spec, n, 0, 0)
  {
    if n == 0 {
      r := FirstRound(w, spec);
    } else {
      r := StuckRounds(w, spec, n - 1);
      r := OneMoreStuck(r, spec, n - 1);
    }
  }

  /** A Delete that fails after the finalizer's removal, and a deletion from outside, take a pod that ended with 77
      uncounted; the next one is created. */
  lemma OneMoreFailed(r: Run, spec: Spec, n: nat, f: nat) returns (r': Run)
    requires Valid(r) && Round(Last(r), spec, n, f, 0)
    ensures Valid(r') && Last(r').setup == Last(r).setup && Round(Last(r'), spec, n, f + 1, 0)
  {
    r' := LoseEnded(r);
    r' := OpenStage(r');
    r' := Create(r', spec);
  }

  lemma {:induction false} FailedRounds(w: World, spec: Spec, n: nat, f: nat) returns (r: Run)
    requires Fresh(w) && ForVolume(w.setup, spec)
    ensures Valid(r) && Last(r).setup == w.setup && Round(Last(r), spec, n, f, 0)
    decreases f
  {
    if f == 0 {
      r := StuckRounds(w, spec, n);
    } else {
      r := FailedRounds(w, spec, n, f - 1);
      r := OneMoreFailed(r, spec, n, f - 1);
    }
  }

  lemma {:induction false} CountedRounds(w: World, spec: Spec, n: nat, f: nat, k: nat) returns (r: Run)
    requires Fresh(w) && ForVolume(w.setup, spec) && k < w.setup.policy.maxFatal
    ensures Valid(r) && Last(r).setup == w.setup && Round(Last(r), spec, n, f, k)
    decreases k
  {
    if k == 0 {
      r := FailedRounds(w, spec, n, f);
    } else {
      r := CountedRounds(w, spec, n, f, k - 1);
      r := OneMoreCounted(r, spec, n, f, k - 1);
    }
  }

  /** Between sections, every exit counted a 77 or 78, n stuck releases since the clear, f calls that failed. */
  ghost predicate Resting(w: World, setup: Setup, n: nat, f: nat) {
    w.setup == setup && w.sec.None? && w.entry.Some? && w.hist.failures == f && G.AllFatal(w) && |w.hist.tally.stuck| == n
  }

  /** The bound of Budget.FatalBudget is reached, whatever MaxFatalExits is: n stuck releases and f failed calls make for
      that many more pods. */
  lemma BudgetIsMet(w: World, spec: Spec, n: nat, f: nat) returns (r: Run)
    requires Fresh(w) && ForVolume(w.setup, spec)
    ensures Valid(r) && Resting(Last(r), w.setup, n, f) && |Last(r).hist.tally.made| == w.setup.policy.maxFatal + n + f
  {
    r := CountedRounds(w, spec, n, f, w.setup.policy.maxFatal - 1);
    AllSince(Last(r).hist.tally.epoch);
  }

  lemma {:induction false} AllSince(h: seq<B.Seen>)
    requires forall i :: 0 <= i < |h| ==> h[i].Exit?
    ensures B.SinceClear(h) == h
  {
    if h != [] {
      AllSince(h[..|h| - 1]);
      assert h == h[..|h| - 1] + [h[|h| - 1]];
    }
  }

  /** m pods are enough for every run with n stuck releases and f failed calls if and only if m is at least MaxFatalExits
      and n and f: MaxFatalExits bounds the pods created exactly while none was released stuck and no call failed. */
  lemma BudgetIff(w: World, spec: Spec, n: nat, f: nat, m: nat)
    requires Fresh(w) && ForVolume(w.setup, spec)
    ensures (forall r: Run :: Valid(r) && Resting(Last(r), w.setup, n, f) ==> |Last(r).hist.tally.made| <= m) <==>
            w.setup.policy.maxFatal + n + f <= m
  {
    forall r: Run | Valid(r) && Resting(Last(r), w.setup, n, f)
      ensures |Last(r).hist.tally.made| <= w.setup.policy.maxFatal + n + f
    {
      G.FatalBudget(r);
    }
    var r := BudgetIsMet(w, spec, n, f);
    assert Valid(r) && Resting(Last(r), w.setup, n, f);
  }

  /** With f failed calls f pods that ended with 77 go uncounted, and one more is created, whatever MaxFatalExits is. */
  lemma FailedDeletesLoseCounts(w: World, spec: Spec, f: nat) returns (r: Run)
    requires Fresh(w) && ForVolume(w.setup, spec)
    ensures Valid(r) && Last(r).hist.failures == f && Last(r).hist.tally.stuck == {} && Last(r).sec.None?
    ensures B.SinceClear(Last(r).hist.tally.epoch) == [] && |Last(r).hist.tally.made| == f + 1
  {
    r := FailedRounds(w, spec, 0, f);
  }

  lemma LoseEnded(r: Run) returns (r': Run)
    requires Valid(r) && Last(r).sec.None? && Last(r).host.kubelet == StageAnswered(Retry) && Last(r).marks.gaveUp.None? && !GaveUp(Last(r))
    requires Last(r).pod.Some? && Last(r).pod.value.status.Waiting? && Last(r).pod.value.inUse
    ensures Valid(r') && Last(r') == Failed(Closed(Last(r).(pod := None), UnstageAnswered(Retry)))
  {
    r' := Befall(r, End(Some(B.EXIT_AUTH_REQUIRED), 0));
    r' := FailHalfway(r');
  }

  /** An unstage takes the finalizer off the pod that ended, and fails; then somebody deletes the pod. */
  lemma FailHalfway(r: Run) returns (r': Run)
    requires Valid(r) && Last(r).sec.None? && Last(r).host.kubelet == StageAnswered(Retry) && Last(r).marks.gaveUp.None? && !GaveUp(Last(r))
    requires Last(r).pod.Some? && Last(r).pod.value.status.Ended? && Last(r).pod.value.inUse
    ensures Valid(r') && Last(r') == Failed(Closed(Last(r).(pod := None), UnstageAnswered(Retry)))
  {
    r' := StripAndFail(r);
    r' := Befall(r', OutsideDelete(0));
    r' := Befall(r', Reap);
  }

  lemma StripAndFail(r: Run) returns (r': Run)
    requires Valid(r) && Last(r).sec.None? && Last(r).host.kubelet == StageAnswered(Retry) && Last(r).marks.gaveUp.None? && !GaveUp(Last(r))
    requires Last(r).pod.Some? && Last(r).pod.value.status.Ended? && Last(r).pod.value.inUse
    ensures Valid(r') && Last(r') == Failed(Closed(Last(r).(pod := Some(Last(r).pod.value.(inUse := false))), UnstageAnswered(Retry)))
  {
    r' := OpenUnstage(r);
    r' := StripEnded(r');
    r' := FailUnstage(r');
  }

  lemma StripEnded(r: Run) returns (r': Run)
    requires Valid(r) && Last(r).pod.Some? && Last(r).pod.value.status.Ended? && Last(r).pod.value.inUse
    requires Knows(Last(r), Saw(Last(r).pod.value))
    ensures Valid(r') && Last(r').sec.Some?
    ensures Last(r') == Last(r).(pod := Some(Last(r).pod.value.(inUse := false)), sec := Last(r').sec)
    ensures Last(r').sec.value == Last(r).sec.value.(know := Stripped(Last(r).pod.value), owes := Last(r').sec.value.owes)
  {
    r' := Drive(r, Strip);
  }

  lemma FailUnstage(r: Run) returns (r': Run)
    requires Valid(r) && Last(r).sec.Some? && Last(r).sec.value.kind.Unstage? && Last(r).marks.gaveUp.None?
    requires !GaveUp(Last(r)) && !Last(r).sec.value.told
    ensures Valid(r') && Last(r') == Failed(Closed(Last(r), UnstageAnswered(Retry)))
  {
    r' := Drive(r, FailCall);
    r' := Drive(r', Leave(Retry));
  }

  lemma OpenUnstage(r: Run) returns (r': Run)
    requires Valid(r) && Last(r).sec.None? && Last(r).host.kubelet == StageAnswered(Retry) && Last(r).pod.Some?
    ensures Valid(r') && Last(r') == Looking(Last(r), Unstage, UnstageSent, Last(r).host.volData)
  {
    r' := Befall(r, SendUnstage);
    r' := LookUp(r', Unstage);
  }
}
