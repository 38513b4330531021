/** How many pods are created while every exit is a 77 or 78: the budget that MaxFatalExits is, and what goes uncounted. */
module Budget {
  import opened Base
  import opened Machine
  import opened Safety
  import B = Backoff

  // ---------------------------------------------------------------- what goes uncounted

  /** The pods created since the last clear that are neither counted nor stuck, nor there with the finalizer. */
  function Adrift(w: World): set<Uid> {
    Uncounted(w) - w.hist.tally.stuck - (if w.pod.Some? && w.pod.value.inUse then {w.pod.value.uid} else {})
  }

  /** What can account for them: a failed call each, or the section that has still to forget the restart state. */
  function Excuses(w: World): nat { w.hist.failures + (if Owes(w) then 1 else 0) }

  predicate Owes(w: World) { w.sec.Some? && w.sec.value.owes }

  /** No more than one pod goes adrift with a failed call, and the section that owes has none in use. */
  ghost predicate Charged(w: World) {
    |Adrift(w)| <= Excuses(w) && (Owes(w) ==> w.pod.Some? ==> !w.pod.value.inUse)
  }

  lemma {:induction false} RunKeepsCharged(r: Run)
    requires Valid(r)
    ensures Charged(Last(r))
  {
    if r.Then? {
      RunKeepsCharged(r.prev);
      RunKeepsInv(r.prev);
      StepKeepsCharged(Last(r.prev), r.a);
    }
  }

  lemma StepKeepsCharged(w: World, a: Action)
    requires Inv(w) && Charged(w) && Allowed(w, a)
    ensures Charged(Step(w, a))
  {
    match a
    case Env(e) => EnvKeepsCharged(w, e);
    case Driver(d) =>
      if d.Strip? {
        StripKeepsCharged(w);
      } else if OnEntry(d) {
        OnEntryKeepsCharged(w, d);
      } else if d.CreatePod? {
        CreatePodKeepsCharged(w);
      } else {
        OtherKeepsCharged(w, d);
      }
  }

  /** Fewer adrift, and no excuse less. */
  lemma FewerAdrift(w: World, w': World)
    requires Charged(w) && Adrift(w') <= Adrift(w) && (Excuses(w) <= Excuses(w') || Adrift(w') == {})
    requires Owes(w') && w'.pod.Some? ==> !w'.pod.value.inUse
    ensures Charged(w')
  {
    SubsetSize(Adrift(w'), Adrift(w));
  }

  lemma EnvKeepsCharged(w: World, e: EnvAction)
    requires Charged(w)
    ensures Charged(EnvStep(w, e))
  {
    EnvMeanwhile(w, e);
    if !e.LateReset? {
      TallyStays(w, e);
    }
    FewerAdrift(w, EnvStep(w, e));
  }

  /** The pod released goes adrift if the section then owes, and did not before. */
  lemma StripKeepsCharged(w: World)
    requires Truthful(w) && Rationed(w) && Charged(w) && Enabled(w, Strip)
    ensures Charged(DriverStep(w, Strip))
  {
    var w', u := DriverStep(w, Strip), w.sec.value.know.pod.uid;
    StripTally(w);
    if Owes(w) || Owes(w') == Owes(w) {
      FewerAdrift(w, w');
    } else {
      SubsetSize(Adrift(w'), Adrift(w) + {u});
    }
  }

  lemma StripTally(w: World)
    requires Truthful(w) && Rationed(w) && Enabled(w, Strip)
    ensures var w', p := DriverStep(w, Strip), w.sec.value.know.pod;
            && w'.hist.failures == w.hist.failures && (Owes(w) ==> Owes(w'))
            && (w'.pod.Some? ==> !w'.pod.value.inUse)
            && Adrift(w') <= Adrift(w) + (if w.pod.Some? && w.pod.value.inUse && !Paid(w, p) then {p.uid} else {})
            && (!Paid(w, p) ==> Owes(w'))
  {
    Stripped(w);
    var p := w.sec.value.know.pod;
    assert w.pod.Some? && Paid(w, p) && p.uid in Uncounted(w) ==> p.deletedAt.Some? && !p.status.Ended?;
  }

  lemma Stripped(w: World)
    requires Truthful(w) && Enabled(w, Strip)
    ensures var w', p := DriverStep(w, Strip), w.sec.value.know.pod;
            && w'.hist.failures == w.hist.failures && Owes(w') == (Owes(w) || !Paid(w, p))
            && Uncounted(w') == Uncounted(w)
            && w'.hist.tally.stuck == w.hist.tally.stuck + (if p.status.Ended? then {} else {p.uid})
            && (w'.pod.Some? ==> !w'.pod.value.inUse) && (w.pod.Some? ==> w.pod.value.uid == p.uid)
  {}

  lemma OnEntryKeepsCharged(w: World, d: DriverAction)
    requires Charged(w) && Enabled(w, d) && OnEntry(d)
    ensures Charged(DriverStep(w, d))
  {
    OnEntryTally(w, d);
    FewerAdrift(w, DriverStep(w, d));
  }

  /** The restart state is cleared, with what counts since, or nobody is more adrift. */
  ghost predicate NoneMore(w: World, w': World) {
    && w'.pod == w.pod && w'.hist.failures == w.hist.failures && (Owes(w') ==> Owes(w))
    && ((w'.hist.tally.made == {} && w'.hist.tally.stuck == {}) ||
        (Uncounted(w') <= Uncounted(w) && w'.hist.tally.stuck == w.hist.tally.stuck && Owes(w') == Owes(w)))
  }

  lemma OnEntryTally(w: World, d: DriverAction)
    requires Enabled(w, d) && OnEntry(d)
    ensures NoneMore(w, DriverStep(w, d))
  {
    match d
    case UseConfig(hash) => ConfigTally(w, hash);
    case CountExit(hash, jitter) => CountExitTally(w, hash, jitter);
    case StartOver(hash) => StartOverTally(w, hash);
    case _ =>
  }

  lemma StartOverTally(w: World, hash: Hash)
    requires Enabled(w, StartOver(hash))
    ensures NoneMore(w, DriverStep(w, StartOver(hash)))
  {
    ConfigTally(w, hash);
  }

  lemma CountExitTally(w: World, hash: Hash, jitter: nat)
    requires Enabled(w, CountExit(hash, jitter))
    ensures NoneMore(w, DriverStep(w, CountExit(hash, jitter)))
  {
    ConfigTally(w, hash);
    CountedTally(WithConfig(w, hash), w.sec.value.know.pod, jitter);
  }

  lemma ConfigTally(w: World, hash: Hash)
    requires w.sec.Some?
    ensures var w' := WithConfig(w, hash);
            && w'.entry.Some? && w'.sec.Some? && w'.pod == w.pod && w'.hist.failures == w.hist.failures && (Owes(w') ==> Owes(w))
            && (w' == w || (w'.hist.tally == NO_TALLY && !Owes(w')))
  {}

  lemma CountedTally(w: World, p: Pod, jitter: nat)
    requires w.sec.Some? && w.entry.Some?
    ensures var w' := Recorded(w, p, jitter);
            && Uncounted(w') <= Uncounted(w) && w'.hist.tally.made == w.hist.tally.made && w'.hist.tally.stuck == w.hist.tally.stuck
            && w'.pod == w.pod && w'.hist.failures == w.hist.failures && Owes(w') == Owes(w)
  {
    var h, x := w.hist.tally.epoch, B.Exit(p.uid, CountedCode(p), RanFor(p));
    assert (h + [x])[..|h|] == h;
  }

  lemma CreatePodKeepsCharged(w: World)
    requires Truthful(w) && Charged(w) && Enabled(w, CreatePod)
    ensures Charged(DriverStep(w, CreatePod))
  {
    CreatedTally(w);
    FewerAdrift(w, DriverStep(w, CreatePod));
  }

  lemma CreatedTally(w: World)
    requires Truthful(w) && Enabled(w, CreatePod)
    ensures var w' := DriverStep(w, CreatePod);
            && w.pod.None? && w'.hist == w.hist.(tally := w.hist.tally.(made := w.hist.tally.made + {w.nextUid}))
            && w'.pod.Some? && w'.pod.value.uid == w.nextUid && w'.pod.value.inUse && !Owes(w) && !Owes(w')
  {}

  lemma OtherKeepsCharged(w: World, d: DriverAction)
    requires Charged(w) && Enabled(w, d) && !d.Strip? && !OnEntry(d) && !d.CreatePod?
    ensures Charged(DriverStep(w, d))
  {
    OtherTally(w, d);
    FewerAdrift(w, DriverStep(w, d));
  }

  lemma OtherTally(w: World, d: DriverAction)
    requires Enabled(w, d) && !d.Strip? && !OnEntry(d) && !d.CreatePod?
    ensures var w' := DriverStep(w, d);
            && w'.hist.tally == w.hist.tally && Excuses(w') >= Excuses(w) && (Owes(w') ==> Owes(w))
            && (w'.pod.Some? ==> w.pod.Some? && w'.pod.value.uid == w.pod.value.uid && w'.pod.value.inUse == w.pod.value.inUse)
            && (w.pod.Some? && w.pod.value.inUse ==> w'.pod.Some?)
  {}

  // ---------------------------------------------------------------- the budget

  /** If every exit counted since the last clear was a 77 or 78, at most MaxFatalExits pods were created since, besides
      those that are gone uncounted: those released stuck (StuckReleases), and one more for each call that failed. That holds
      between sections, and with the pod about to be created. BudgetRuns.BudgetIff has the other direction. */
  lemma FatalBudget(r: Run)
    requires Valid(r) && Last(r).entry.Some? && AllFatal(Last(r))
    ensures var w := Last(r);
            var t := w.hist.tally;
            var limit := w.setup.policy.maxFatal;
            && |t.made| <= limit + |Lost(w)|
            && (Enabled(w, CreatePod) ==> |t.made| + 1 <= limit + |Lost(w)|)
            && (w.sec.None? || Enabled(w, CreatePod) ==> |Lost(w)| <= |t.stuck| + w.hist.failures)
            && (w.hist.failures == 0 && (w.sec.None? || Enabled(w, CreatePod)) ==> Lost(w) <= t.stuck)
            && (w.sec.None? ==> |t.made| <= limit + |t.stuck| + w.hist.failures)
            && (Enabled(w, CreatePod) ==> |t.made| + 1 <= limit + |t.stuck| + w.hist.failures)
  {
    RunKeepsInv(r);
    RunKeepsCharged(r);
    AllTrailing(B.SinceClear(Last(r).hist.tally.epoch));
    BudgetOf(Last(r));
    LostSize(Last(r));
  }

  lemma LostSize(w: World)
    ensures |Lost(w)| <= |w.hist.tally.stuck| + |Adrift(w)|
  {
    SubsetSize(Lost(w), w.hist.tally.stuck + Adrift(w));
  }

  predicate AllFatal(w: World) {
    var s := B.SinceClear(w.hist.tally.epoch);
    forall i :: 0 <= i < |s| ==> B.Fatal(s[i])
  }

  lemma {:induction false} AllTrailing(s: seq<B.Seen>)
    requires forall i :: 0 <= i < |s| ==> B.Fatal(s[i])
    ensures B.TrailingFatal(s) == |s|
  {
    if s != [] {
      AllTrailing(s[..|s| - 1]);
    }
  }

  lemma {:induction false} SubsetSize(a: set<Uid>, b: set<Uid>)
    requires a <= b
    ensures |a| <= |b|
    decreases b
  {
    if a != {} {
      var u :| u in a;
      SubsetSize(a - {u}, b - {u});
    }
  }

  lemma {:induction false} UidsSize(s: seq<B.Seen>)
    ensures |UidsOf(s)| <= |s|
  {
    if s != [] {
      UidsSize(s[..|s| - 1]);
    }
  }

  /** The pods created were counted, are gone uncounted, or one of them is there uncounted. */
  lemma MadeSize(w: World)
    ensures |w.hist.tally.made| <= |B.SinceClear(w.hist.tally.epoch)| + |Lost(w)| +
                                   (if w.pod.Some? && w.pod.value.uid in Uncounted(w) then 1 else 0)
  {
    var s := B.SinceClear(w.hist.tally.epoch);
    var live := if w.pod.Some? && w.pod.value.uid in Uncounted(w) then {w.pod.value.uid} else {};
    UidsSize(s);
    SubsetSize(w.hist.tally.made, UidsOf(s) + Lost(w) + live);
  }

  lemma BudgetOf(w: World)
    requires Truthful(w) && Quiescent(w) && Rationed(w) && Excused(w) && w.entry.Some?
    requires B.PolicyOk(w.setup.policy) && B.Refines(w.setup.policy, w.entry.value, w.hist.tally.epoch)
    requires B.TrailingFatal(B.SinceClear(w.hist.tally.epoch)) == |B.SinceClear(w.hist.tally.epoch)|
    ensures var t := w.hist.tally;
            && |t.made| <= w.setup.policy.maxFatal + |Lost(w)|
            && (Enabled(w, CreatePod) ==> |t.made| + 1 <= w.setup.policy.maxFatal + |Lost(w)|)
            && (w.hist.failures == 0 && (w.sec.None? || Enabled(w, CreatePod)) ==> Lost(w) <= t.stuck)
  {
    MadeSize(w);
    if GaveUp(w) {
      LiveTries(w);
    } else {
      BelowLimit(w);
    }
    if Enabled(w, CreatePod) {
      assert w.pod.None?;
    }
  }

  lemma BelowLimit(w: World)
    requires w.entry.Some? && !GaveUp(w) && B.PolicyOk(w.setup.policy) && B.Refines(w.setup.policy, w.entry.value, w.hist.tally.epoch)
    requires B.TrailingFatal(B.SinceClear(w.hist.tally.epoch)) == |B.SinceClear(w.hist.tally.epoch)|
    ensures |B.SinceClear(w.hist.tally.epoch)| < w.setup.policy.maxFatal
  {
    var s := B.SinceClear(w.hist.tally.epoch);
    assert |s| >= w.setup.policy.maxFatal ==> B.ReachedLimit(w.setup.policy, s);
  }

  /** A volume that gave up has no pod to be counted, and creates none. */
  lemma LiveTries(w: World)
    requires Quiescent(w) && Rationed(w) && GaveUp(w)
    ensures w.pod.Some? ==> w.pod.value.uid !in Uncounted(w)
    ensures !Enabled(w, CreatePod)
  {}

  /** A stuck release: RemoveFinalizer of a deleted pod whose container had not ended when it was read, more than
      STUCK_AFTER past its deletion timestamp. */
  lemma StuckReleases(w: World, a: Action, u: Uid)
    requires Allowed(w, a) && u in Step(w, a).hist.tally.stuck && u !in w.hist.tally.stuck
    ensures a == Driver(Strip) && w.sec.value.know.pod.uid == u
    ensures var p := w.sec.value.know.pod;
            !p.status.Ended? && p.deletedAt.Some? && w.clock > p.deletedAt.value + STUCK_AFTER
  {
    if a != Driver(Strip) {
      StuckStays(w, a);
    }
  }

  lemma StuckStays(w: World, a: Action)
    requires Allowed(w, a) && a != Driver(Strip)
    ensures Step(w, a).hist.tally.stuck <= w.hist.tally.stuck
  {
    if a.Driver? && OnEntry(a.d) {
      OnEntryTally(w, a.d);
    }
  }
}
