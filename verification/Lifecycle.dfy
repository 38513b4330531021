/** What the invariants mean for a volume, over every run: any interleaving of the sections under its lock with
    kubelet, the containers, kubectl, the garbage collector and the clock. */
module Lifecycle {
  import opened Base
  import opened PodSpec
  import opened Machine
  import opened Safety
  import B = Backoff

  // ---------------------------------------------------------------- creations

  /** The step makes a pod object. */
  predicate Creates(w: World, a: Action) { a == Driver(CreatePod) && w.pod.None? }

  /** Prepare, which empties the spool, never runs while a pod object of the volume exists; no creation meets a
      pod that is already there. */
  lemma NeverBesideAPod(r: Run, staging: Path)
    requires Valid(r)
    ensures Enabled(Last(r), Prepare(staging)) ==> Last(r).pod.None?
    ensures Enabled(Last(r), CreatePod) ==> Creates(Last(r), Driver(CreatePod))
  {
    assert Truthful(Last(r)) by { RunKeepsInv(r); }
  }

  /** A pod object appears in no other way, with a UID never seen before, and a config the restart state allows. */
  lemma CreationsAreDue(r: Run, a: Action)
    requires Valid(r) && Allowed(Last(r), a)
    ensures var w, w' := Last(r), Step(Last(r), a);
            Creates(w, a) <==> w'.pod.Some? && (w.pod.None? || w'.pod.value.uid != w.pod.value.uid)
    ensures Creates(Last(r), a) ==>
              var w, p := Last(r), Step(Last(r), a).pod.value;
              && p.uid == w.nextUid && p.inUse
              && w.entry.Some? && w.entry.value.hash == p.ann.hash && !GaveUp(w) && w.entry.value.backoff.next <= w.clock
  {
    RunKeepsInv(r);
    CreationStep(Last(r), a);
  }

  lemma CreationStep(w: World, a: Action)
    requires Fresh(w) && Quiescent(w) && Allowed(w, a)
    ensures Creates(w, a) <==> Step(w, a).pod.Some? && (w.pod.None? || Step(w, a).pod.value.uid != w.pod.value.uid)
    ensures Creates(w, a) ==>
              var p := Step(w, a).pod.value;
              && p.uid == w.nextUid && p.inUse
              && w.entry.Some? && w.entry.value.hash == p.ann.hash && !GaveUp(w) && w.entry.value.backoff.next <= w.clock
  {
    if !Creates(w, a) {
      NothingCreated(w, a);
    }
  }

  lemma NothingCreated(w: World, a: Action)
    requires Allowed(w, a) && !Creates(w, a)
    ensures Step(w, a).pod.Some? ==> w.pod.Some? && Step(w, a).pod.value.uid == w.pod.value.uid
  {
    if a.Driver? && !(a.d.Strip? || a.d.DeleteNow? || a.d.StopPod?) {
      PodUntouched(w, a.d);
    }
  }

  lemma PodUntouched(w: World, d: DriverAction)
    requires Enabled(w, d) && !(d.Strip? || d.DeleteNow? || d.StopPod? || (d.CreatePod? && w.pod.None?))
    ensures DriverStep(w, d).pod == w.pod
  {
    if OnEntry(d) {
      OnEntryPod(w, d);
    }
  }

  lemma OnEntryPod(w: World, d: DriverAction)
    requires Enabled(w, d) && OnEntry(d)
    ensures DriverStep(w, d).pod == w.pod && DriverStep(w, d).nextUid == w.nextUid
  {
    if d.UseConfig? || d.CountExit? || d.StartOver? {
      ConfigPod(w, d.hash);
    } else {
      ClearsNoPod(w, d);
    }
  }

  lemma ConfigPod(w: World, hash: Hash)
    requires w.sec.Some?
    ensures var w' := WithConfig(w, hash); w'.pod == w.pod && w'.nextUid == w.nextUid && w'.entry.Some? && w'.sec.Some?
  {}

  lemma ClearsNoPod(w: World, d: DriverAction)
    requires Enabled(w, d) && (d.SeenReady? || DropsEntry(d))
    ensures DriverStep(w, d).pod == w.pod && DriverStep(w, d).nextUid == w.nextUid
  {}

  /** When the last counted exit was counted: the clock at that step. */
  ghost function CountedAt(r: Run): nat
    requires Valid(r)
  {
    match r
    case Begin(_) => 0
    case Then(p, a) => if Counts(Last(p), a) then Last(p).clock else CountedAt(p)
  }

  /** The step counts the exit of a pod not counted before. */
  predicate Counts(w: World, a: Action)
    requires Allowed(w, a)
  {
    a.Driver? && a.d.CountExit? && WithConfig(w, a.d.hash).entry.value.lastPod != Some(w.sec.value.know.pod.uid)
  }

  /** The delay due after the exits counted since the last clear. */
  function DelayDue(w: World): nat {
    B.CappedDelay(w.setup.policy.base, w.setup.policy.maxDelay, B.FromStable(w.setup.policy, B.SinceClear(w.hist.tally.epoch)))
  }

  /** NextRestart is the delay after the last counted exit, with at most 10% of jitter. */
  lemma {:induction false} NextRestartIs(r: Run)
    requires Valid(r)
    ensures var w := Last(r);
            w.entry.Some? && B.SinceClear(w.hist.tally.epoch) != [] && !GaveUp(w) ==>
              CountedAt(r) + DelayDue(w) <= w.entry.value.backoff.next <= CountedAt(r) + DelayDue(w) + DelayDue(w) / 10
  {
    if r.Then? {
      NextRestartIs(r.prev);
      RunKeepsInv(r.prev);
      NextRestartStep(Last(r.prev), r.a, CountedAt(r.prev));
    }
  }

  ghost predicate NextWithin(w: World, at: nat) {
    w.entry.Some? && B.SinceClear(w.hist.tally.epoch) != [] && !GaveUp(w) ==>
      at + DelayDue(w) <= w.entry.value.backoff.next <= at + DelayDue(w) + DelayDue(w) / 10
  }

  lemma NextRestartStep(w: World, a: Action, at: nat)
    requires Inv(w) && Allowed(w, a) && NextWithin(w, at)
    ensures NextWithin(Step(w, a), if Counts(w, a) then w.clock else at)
  {
    if Counts(w, a) {
      CountedStep(w, a.d.hash, a.d.jitter);
    } else {
      UncountedNext(w, a, at);
    }
  }

  lemma CountedStep(w: World, hash: Hash, jitter: nat)
    requires Core(w) && Enabled(w, CountExit(hash, jitter))
    requires WithConfig(w, hash).entry.value.lastPod != Some(w.sec.value.know.pod.uid)
    ensures NextWithin(DriverStep(w, CountExit(hash, jitter)), w.clock)
  {
    ConfigRefines(w, hash);
    CountedNext(WithConfig(w, hash), w.sec.value.know.pod, jitter);
  }

  lemma ConfigRefines(w: World, hash: Hash)
    requires Core(w) && w.sec.Some?
    ensures var c := WithConfig(w, hash);
            && B.PolicyOk(c.setup.policy) && c.setup == w.setup && c.clock == w.clock && c.sec.Some? && c.entry.Some?
            && B.Refines(c.setup.policy, c.entry.value, c.hist.tally.epoch)
  {
    WithConfigKeepsCore(w, hash);
  }

  lemma CountedNext(w: World, p: Pod, jitter: nat)
    requires B.PolicyOk(w.setup.policy) && w.entry.Some? && B.Refines(w.setup.policy, w.entry.value, w.hist.tally.epoch) && w.sec.Some?
    requires w.entry.value.lastPod != Some(p.uid) && B.JitterOk(w.setup.policy, w.entry.value, RanFor(p), jitter)
    ensures NextWithin(Recorded(w, p, jitter), w.clock)
  {
    B.NextRestartWindow(w.setup.policy, w.entry.value, w.hist.tally.epoch, p.uid, p.ann.staging, CountedCode(p), RanFor(p), w.clock, jitter);
    B.RecordRefines(w.setup.policy, w.entry.value, w.hist.tally.epoch, p.uid, p.ann.staging, CountedCode(p), RanFor(p), w.clock, jitter);
  }

  lemma UncountedNext(w: World, a: Action, at: nat)
    requires Allowed(w, a) && !Counts(w, a) && NextWithin(w, at)
    ensures NextWithin(Step(w, a), at)
  {
    EpochStep(w, a);
    SetupStays(w, a);
  }

  lemma SetupStays(w: World, a: Action)
    requires Allowed(w, a)
    ensures Step(w, a).setup == w.setup
  {
    match a
    case Env(e) => EnvMeanwhile(w, e);
    case Driver(d) =>
      match d
      case Enter(_) =>
      case Leave(_) =>
      case UseConfig(_) =>
      case CountExit(_, _) =>
      case StartOver(_) =>
      case StopPod(_, _) =>
      case DeleteNow =>
      case CreatePod =>
      case _ =>
  }

  /** A step that counts no exit leaves the entry and its history, or leaves no exit since a clear. */
  lemma EpochStep(w: World, a: Action)
    requires Allowed(w, a) && !Counts(w, a)
    ensures var w' := Step(w, a);
            (w'.entry == w.entry && w'.hist.tally.epoch == w.hist.tally.epoch) || B.SinceClear(w'.hist.tally.epoch) == []
  {
    match a
    case Env(e) =>
      if e.LateReset? && w.entry.Some? {
        assert EnvStep(w, e).hist.tally.epoch == w.hist.tally.epoch + [B.Clear];
      } else {
        assert EnvStep(w, e).entry == w.entry && EnvStep(w, e).hist.tally.epoch == w.hist.tally.epoch;
      }
    case Driver(d) => DriverEpochStep(w, d);
  }

  lemma EntryUntouched(w: World, d: DriverAction)
    requires Enabled(w, d) && !OnEntry(d)
    ensures DriverStep(w, d).entry == w.entry && DriverStep(w, d).hist.tally.epoch == w.hist.tally.epoch
    ensures !d.CreatePod? ==> DriverStep(w, d).nextUid == w.nextUid
  {}

  lemma DriverEpochStep(w: World, d: DriverAction)
    requires Enabled(w, d) && !Counts(w, Driver(d))
    ensures var w' := DriverStep(w, d);
            (w'.entry == w.entry && w'.hist.tally.epoch == w.hist.tally.epoch) || B.SinceClear(w'.hist.tally.epoch) == []
  {
    if OnEntry(d) {
      OnEntryEpoch(w, d);
    } else {
      EntryUntouched(w, d);
    }
  }

  lemma OnEntryEpoch(w: World, d: DriverAction)
    requires Enabled(w, d) && OnEntry(d) && !Counts(w, Driver(d))
    ensures var w' := DriverStep(w, d);
            (w'.entry == w.entry && w'.hist.tally.epoch == w.hist.tally.epoch) || B.SinceClear(w'.hist.tally.epoch) == []
  {
    match d
    case UseConfig(hash) => assert WithConfig(w, hash) == w || WithConfig(w, hash).hist.tally.epoch == [];
    case CountExit(hash, _) => assert WithConfig(w, hash) == w || WithConfig(w, hash).hist.tally.epoch == [];
    case StartOver(hash) => assert WithConfig(w, hash) == w || WithConfig(w, hash).hist.tally.epoch == [];
    case SeenReady => assert w.entry.None? || DriverStep(w, d).hist.tally.epoch == w.hist.tally.epoch + [B.Clear];
    case ForgetUnlessGaveUp => assert DriverStep(w, d).hist.tally.epoch == [];
    case ForgetReleased => assert DriverStep(w, d).hist.tally.epoch == [];
    case ForgetUnstaged => assert DriverStep(w, d).hist.tally.epoch == [];
    case ForgetSwept => assert DriverStep(w, d).hist.tally.epoch == [];
  }

  /** Restart spacing: no pod of a config is created sooner after the last counted exit than the delay its
      failures call for, unless the restart state was cleared since. */
  lemma RestartSpacing(r: Run, a: Action)
    requires Valid(r) && Allowed(Last(r), a) && Creates(Last(r), a) && B.SinceClear(Last(r).hist.tally.epoch) != []
    ensures Last(r).clock >= CountedAt(r) + DelayDue(Last(r))
  {
    NextRestartIs(r);
    CreationsAreDue(r, a);
  }

  // ---------------------------------------------------------------- give-up

  /** The exit counters are those of the history: every pod in it once, in the order of creation. */
  lemma CountersRefineHistory(r: Run)
    requires Valid(r) && Last(r).entry.Some?
    ensures var w := Last(r);
            var s := B.SinceClear(w.hist.tally.epoch);
            && w.entry.value.backoff.failures == B.FromStable(w.setup.policy, s)
            && w.entry.value.backoff.fatal == B.TrailingFatal(s)
            && (GaveUp(w) <==> w.entry.value.backoff.fatal >= w.setup.policy.maxFatal)
            && forall i, j :: 0 <= i < j < |w.hist.tally.epoch| && w.hist.tally.epoch[i].Exit? && w.hist.tally.epoch[j].Exit? ==>
                 w.hist.tally.epoch[i].uid < w.hist.tally.epoch[j].uid
  {
    RunKeepsInv(r);
    IncreasingIs(Last(r).hist.tally.epoch);
  }

  lemma {:induction false} IncreasingIs(h: seq<B.Seen>)
    requires Increasing(h)
    ensures forall i, j :: 0 <= i < j < |h| && h[i].Exit? && h[j].Exit? ==> h[i].uid < h[j].uid
  {
    if h != [] {
      var s := h[..|h| - 1];
      IncreasingIs(s);
      forall i, j | 0 <= i < j < |h| && h[i].Exit? && h[j].Exit? ensures h[i].uid < h[j].uid {
        assert s[i] == h[i] && (j < |s| ==> s[j] == h[j]);
      }
    }
  }

  /** Give-up quiescence: the pod is gone, or is the finished one that was counted last. */
  lemma GivenUpMeansQuiet(r: Run)
    requires Valid(r) && GaveUp(Last(r))
    ensures var w := Last(r);
            && w.entry.value.backoff.next == 0
            && w.entry.value.backoff.fatal == w.setup.policy.maxFatal
            && (w.pod.Some? ==> Finished(w.pod.value, w.clock) && w.entry.value.lastPod == Some(w.pod.value.uid))
  {
    RunKeepsInv(r);
  }

  /** The steps that end a give-up: another config, a pod that gave up deleted by hand, an unstage, the sweep, or
      a pod seen ready before it was counted. */
  predicate EndsGiveUp(w: World, a: Action) {
    match a
    case Env(e) => e.LateReset?
    case Driver(d) =>
      match d
      case UseConfig(hash) => w.entry.Some? && hash != w.entry.value.hash
      case StartOver(_) => true
      case ForgetReleased => true
      case ForgetUnstaged => true
      case ForgetSwept => true
      case SeenReady => true
      case _ => false
  }

  /** While a give-up lasts nothing is created, and only those steps end it. CountExit is not one of them:
      the pod counted is the one that gave up. */
  lemma GiveUpLasts(r: Run, a: Action)
    requires Valid(r) && Allowed(Last(r), a) && GaveUp(Last(r))
    ensures !Creates(Last(r), a)
    ensures Step(Last(r), a).nextUid == Last(r).nextUid
    ensures EndsGiveUp(Last(r), a) || (GaveUp(Step(Last(r), a)) && Step(Last(r), a).entry == Last(r).entry)
  {
    RunKeepsInv(r);
    GiveUpStep(Last(r), a);
  }

  /** While given up, a step of the driver that is no end of it leaves the entry alone. */
  lemma GiveUpStep(w: World, a: Action)
    requires Quiescent(w) && Allowed(w, a) && GaveUp(w)
    ensures !Creates(w, a)
    ensures Step(w, a).nextUid == w.nextUid
    ensures EndsGiveUp(w, a) || (GaveUp(Step(w, a)) && Step(w, a).entry == w.entry)
  {
    match a
    case Env(e) => assert e.LateReset? || (EnvStep(w, e).entry == w.entry && EnvStep(w, e).nextUid == w.nextUid);
    case Driver(d) => DriverGiveUpStep(w, d);
  }

  lemma DriverGiveUpStep(w: World, d: DriverAction)
    requires Quiescent(w) && Enabled(w, d) && GaveUp(w)
    ensures !d.CreatePod? && DriverStep(w, d).nextUid == w.nextUid
    ensures EndsGiveUp(w, Driver(d)) || DriverStep(w, d).entry == w.entry
  {
    if OnEntry(d) {
      OnEntryGiveUp(w, d);
    } else {
      EntryUntouched(w, d);
    }
  }

  lemma OnEntryGiveUp(w: World, d: DriverAction)
    requires Quiescent(w) && Enabled(w, d) && GaveUp(w) && OnEntry(d)
    ensures DriverStep(w, d).nextUid == w.nextUid
    ensures EndsGiveUp(w, Driver(d)) || DriverStep(w, d).entry == w.entry
  {
    OnEntryPod(w, d);
    if d.CountExit? {
      CountedAlready(w, d.hash, d.jitter);
    } else if d.UseConfig? {
      UsedAlready(w, d.hash);
    } else {
      assert !d.ForgetUnlessGaveUp?;
    }
  }

  lemma CountedAlready(w: World, hash: Hash, jitter: nat)
    requires Quiescent(w) && Enabled(w, CountExit(hash, jitter)) && GaveUp(w)
    ensures var w' := DriverStep(w, CountExit(hash, jitter)); w'.nextUid == w.nextUid && w'.entry == w.entry
  {
    assert w.entry.value.lastPod == Some(w.sec.value.know.pod.uid) && w.entry.value.hash == hash;
  }

  lemma UsedAlready(w: World, hash: Hash)
    requires Enabled(w, UseConfig(hash)) && GaveUp(w)
    ensures var w' := DriverStep(w, UseConfig(hash)); w'.nextUid == w.nextUid && (hash == w.entry.value.hash ==> w'.entry == w.entry)
  {}

  /** r' goes on from r, and none of the steps in between ends a give-up. */
  predicate GoesOn(r: Run, r': Run)
    requires Valid(r')
    decreases r'
  {
    r' == r || (r'.Then? && GoesOn(r, r'.prev) && !EndsGiveUp(Last(r'.prev), r'.a))
  }

  /** However long a give-up lasts, no pod is created. */
  lemma {:induction false} NothingCreatedWhileGivenUp(r: Run, r': Run)
    requires Valid(r) && Valid(r') && GoesOn(r, r') && GaveUp(Last(r))
    ensures GaveUp(Last(r')) && Last(r').nextUid == Last(r).nextUid && Last(r').entry == Last(r).entry
    decreases r'
  {
    if r' != r {
      NothingCreatedWhileGivenUp(r, r'.prev);
      GiveUpLasts(r'.prev, r'.a);
    }
  }

  /** When a stage last found the volume given up, in the give-up that still lasts. */
  ghost function FoundAt(r: Run): Option<nat>
    requires Valid(r)
  {
    match r
    case Begin(_) => None
    case Then(p, a) =>
      if !GaveUp(Last(r)) then None
      else if a == Driver(StageFoundGaveUp) then Some(Last(p).clock)
      else FoundAt(p)
  }

  lemma {:induction false} FoundIsMarked(r: Run)
    requires Valid(r) && FoundAt(r).Some?
    ensures Last(r).marks.gaveUp.Some? && Last(r).marks.gaveUp.value >= FoundAt(r).value && GaveUp(Last(r))
  {
    if r.a != Driver(StageFoundGaveUp) {
      FoundIsMarked(r.prev);
      MarkStays(Last(r.prev), r.a);
    }
  }

  lemma MarkStays(w: World, a: Action)
    requires Allowed(w, a) && a != Driver(StageFoundGaveUp) && GaveUp(w) && GaveUp(Step(w, a)) && w.marks.gaveUp.Some?
    ensures Step(w, a).marks.gaveUp == w.marks.gaveUp
  {
    match a
    case Env(e) => EnvMeanwhile(w, e);
    case Driver(d) =>
      match d
      case UseConfig(_) =>
      case CountExit(_, _) =>
      case StartOver(_) =>
      case _ =>
  }

  /** The sweep forgets no give-up within ORPHAN_GRACE of the last stage that found it. */
  lemma SweepWaits(r: Run)
    requires Valid(r) && Enabled(Last(r), ForgetSwept) && FoundAt(r).Some?
    ensures Last(r).clock - FoundAt(r).value >= ORPHAN_GRACE
  {
    FoundIsMarked(r);
  }

  // ---------------------------------------------------------------- pods and Secrets

  /** The finalizer goes only from a finished pod, by the patch of RemoveFinalizer, and while it is there the pod
      object stays: the record of a staged volume is dropped only by a release. */
  lemma OnlyReleaseDropsPod(r: Run, a: Action)
    requires Valid(r) && Allowed(Last(r), a) && Last(r).pod.Some?
    ensures var w, w' := Last(r), Step(Last(r), a);
            && (w.pod.value.inUse ==> w'.pod.Some? && w'.pod.value.uid == w.pod.value.uid && w'.pod.value.ann == w.pod.value.ann)
            && (w.pod.value.inUse && !w'.pod.value.inUse ==> a == Driver(Strip) && Finished(w.pod.value, w.clock))
            && (w'.pod.None? ==> Finished(w.pod.value, w.clock))
  {
    RunKeepsInv(r);
    DropStep(Last(r), a);
  }

  lemma DropStep(w: World, a: Action)
    requires Truthful(w) && Allowed(w, a) && w.pod.Some?
    ensures var w' := Step(w, a);
            && (w.pod.value.inUse ==> w'.pod.Some? && w'.pod.value.uid == w.pod.value.uid && w'.pod.value.ann == w.pod.value.ann)
            && (w.pod.value.inUse && !w'.pod.value.inUse ==> a == Driver(Strip) && Finished(w.pod.value, w.clock))
            && (w'.pod.None? ==> Finished(w.pod.value, w.clock))
  {
    if a.Driver? && !(a.d.Strip? || a.d.DeleteNow? || a.d.StopPod?) {
      PodUntouched(w, a.d);
    }
  }

  /** As long as a pod object exists, finished or not, its Secret exists; the garbage collection of a former pod's
      Secret never takes it. */
  lemma SecretStays(r: Run, s: SecretId)
    requires Valid(r) && Last(r).pod.Some?
    ensures Last(r).pod.value.ann.secret in Last(r).secrets
    ensures EnvStep(Last(r), Collect(s)).secrets != Last(r).secrets ==> s != Last(r).pod.value.ann.secret
  {
    RunKeepsInv(r);
  }

  /** Recreation preserves the config: what SpecOf reads back from a pod made by this node plugin, at any moment of
      its life, has the hash and the staging path of the pod, and passes the validation of Ensure. */
  lemma RecreationKeepsConfig(r: Run)
    requires Valid(r) && Last(r).pod.Some? && Last(r).pod.value.uid >= Last(r).setup.firstUid
    ensures var w := Last(r);
            var spec := ReadBack(w.pod.value.ann, Stored(w, w.pod.value.ann.secret), w.setup.cache);
            && spec.Some? && SpecOk(w.setup.cfg, spec.value)
            && HashOf(w.setup.cfg, spec.value) == w.pod.value.ann.hash && spec.value.staging == w.pod.value.ann.staging
  {
    RunKeepsInv(r);
  }

  // ---------------------------------------------------------------- reports

  /** No exit is emitted twice, early and at the release together. */
  lemma ExitEmittedOnce(r: Run, u: Uid)
    requires Valid(r)
    ensures Last(r).hist.log.emitted[u] <= 1
    ensures u in Last(r).hist.log.closed ==> Last(r).hist.log.emitted[u] == 1
  {
    RunKeepsInv(r);
  }

  /** The MountGaveUp events since the latest give-up: those that report it. */
  ghost function ReportsSince(r: Run): int
    requires Valid(r)
  {
    match r
    case Begin(_) => 0
    case Then(p, a) =>
      var w, w' := Last(p).hist.log, Last(r).hist.log;
      if w'.episodes > w.episodes then 0 else ReportsSince(p) + w'.reports - w.reports
  }

  /** Each give-up is reported at most once, whatever fails. While no call failed, each was reported, waived, or its
      report is due to the section in progress; and none is due once a section has ended, which Leave owes and the code
      is shown to keep. */
  lemma GiveUpReportedOnce(r: Run)
    requires Valid(r)
    ensures 0 <= ReportsSince(r) <= 1
    ensures Last(r).hist.log.reports + Last(r).hist.log.waived <= Last(r).hist.log.episodes
    ensures Last(r).hist.failures == 0 ==>
              Last(r).hist.log.reports + Last(r).hist.log.waived + (if Owed(Last(r)) then 1 else 0) == Last(r).hist.log.episodes
    ensures Last(r).sec.None? && GaveUp(Last(r)) ==> Last(r).marks.gaveUp.Some?
    ensures Last(r).sec.None? && Last(r).hist.failures == 0 ==>
              Last(r).hist.log.reports + Last(r).hist.log.waived == Last(r).hist.log.episodes
  {
    RunKeepsInv(r);
    ReportedIsMarked(r);
  }

  /** A give-up that was reported is marked as long as it, or what a section was told of it, lasts. */
  ghost predicate MarkedOnce(w: World, reports: int) {
    0 <= reports <= 1 && (reports == 1 && (GaveUp(w) || (w.sec.Some? && w.sec.value.told)) ==> w.marks.gaveUp.Some?)
  }

  lemma {:induction false} ReportedIsMarked(r: Run)
    requires Valid(r)
    ensures MarkedOnce(Last(r), ReportsSince(r))
  {
    if r.Then? {
      ReportedIsMarked(r.prev);
      RunKeepsInv(r.prev);
      ReportStep(Last(r.prev), r.a, ReportsSince(r.prev));
    }
  }

  /** What a step leaves of that. */
  ghost predicate ReportsKept(w: World, w': World, n: int) {
    var l, l' := w.hist.log, w'.hist.log;
    MarkedOnce(w', if l'.episodes > l.episodes then 0 else n + l'.reports - l.reports)
  }

  lemma ReportStep(w: World, a: Action, n: int)
    requires Quiescent(w) && Allowed(w, a) && MarkedOnce(w, n)
    ensures ReportsKept(w, Step(w, a), n)
  {
    match a
    case Env(e) => EnvMeanwhile(w, e);
    case Driver(d) =>
      if d.UseConfig? {
        UseConfigReports(w, d.hash, n);
      } else if d.CountExit? {
        CountReports(w, d, n);
      } else if d.StageFoundGaveUp? || d.RecoveryFoundGaveUp? {
        FoundReports(w, d, n);
      } else {
        OtherReports(w, d, n);
      }
  }

  /** A section is told only of a give-up that stands. */
  lemma UseConfigReports(w: World, hash: Hash, n: int)
    requires Enabled(w, UseConfig(hash)) && MarkedOnce(w, n)
    ensures ReportsKept(w, DriverStep(w, UseConfig(hash)), n)
  {
    ConfigLog(w, hash);
  }

  /** Counting an exit is a new give-up, or leaves an old one alone. */
  lemma CountReports(w: World, d: DriverAction, n: int)
    requires Quiescent(w) && Enabled(w, d) && d.CountExit? && MarkedOnce(w, n)
    ensures ReportsKept(w, DriverStep(w, d), n)
  {
    ConfigLog(w, d.hash);
  }

  lemma FoundReports(w: World, d: DriverAction, n: int)
    requires Enabled(w, d) && (d.StageFoundGaveUp? || d.RecoveryFoundGaveUp?) && MarkedOnce(w, n)
    ensures ReportsKept(w, DriverStep(w, d), n)
  {}

  lemma OtherReports(w: World, d: DriverAction, n: int)
    requires Enabled(w, d) && !(d.UseConfig? || d.CountExit? || d.StageFoundGaveUp? || d.RecoveryFoundGaveUp?) && MarkedOnce(w, n)
    ensures ReportsKept(w, DriverStep(w, d), n)
  {
    OtherLog(w, d);
  }

  /** Any other step reports nothing, and drops a mark only with its give-up. */
  lemma OtherLog(w: World, d: DriverAction)
    requires Enabled(w, d) && !(d.UseConfig? || d.CountExit? || d.StageFoundGaveUp? || d.RecoveryFoundGaveUp?)
    ensures var w' := DriverStep(w, d);
            && w'.hist.log.reports == w.hist.log.reports && w'.hist.log.episodes == w.hist.log.episodes
            && (GaveUp(w') ==> GaveUp(w)) && (w'.sec.Some? && w'.sec.value.told ==> w.sec.Some? && w.sec.value.told)
            && (w'.marks.gaveUp == w.marks.gaveUp || (!GaveUp(w') && !(w'.sec.Some? && w'.sec.value.told)))
  {
    if d.StartOver? {
      ConfigLog(w, d.hash);
    } else if OnEntry(d) {
      OnEntryLog(w, d);
    }
  }

  lemma OnEntryLog(w: World, d: DriverAction)
    requires Enabled(w, d) && OnEntry(d) && !(d.UseConfig? || d.CountExit? || d.StartOver?)
    ensures var w' := DriverStep(w, d);
            && w'.hist.log.reports == w.hist.log.reports && w'.hist.log.episodes == w.hist.log.episodes
            && !GaveUp(w') && (w'.sec.Some? && w'.sec.value.told ==> w.sec.Some? && w.sec.value.told)
            && (w'.marks.gaveUp == w.marks.gaveUp || !(w'.sec.Some? && w'.sec.value.told))
  {}

  /** A report is waived exactly when it is due and its give-up starts over, or is cleared by a late ready answer before
      a section was told of it. */
  lemma WaivedIff(w: World, a: Action)
    requires Allowed(w, a)
    ensures Step(w, a).hist.log.waived == w.hist.log.waived + (if Waives(w, a) then 1 else 0)
  {
    match a
    case Env(e) =>
      if e != LateReset {
        assert EnvStep(w, e).hist.log == w.hist.log;
      }
    case Driver(d) =>
      if d.StartOver? {
        ConfigLog(w, d.hash);
        assert !Owed(StartedOver(WithConfig(w, d.hash)));
      } else {
        WaivesNothing(w, d);
      }
  }

  predicate Waives(w: World, a: Action) {
    Owed(w) &&
    match a
    case Env(e) => e.LateReset? && w.entry.Some? && (w.sec.Some? ==> !w.sec.value.told)
    case Driver(d) => d.StartOver?
  }

  lemma WaivesNothing(w: World, d: DriverAction)
    requires Enabled(w, d) && !d.StartOver?
    ensures DriverStep(w, d).hist.log.waived == w.hist.log.waived
  {
    if OnEntry(d) {
      OnEntryWaivesNothing(w, d);
    } else {
      OthersWaiveNothing(w, d);
    }
  }

  lemma OnEntryWaivesNothing(w: World, d: DriverAction)
    requires Enabled(w, d) && OnEntry(d) && !d.StartOver?
    ensures DriverStep(w, d).hist.log.waived == w.hist.log.waived
  {}

  lemma OthersWaiveNothing(w: World, d: DriverAction)
    requires Enabled(w, d) && !OnEntry(d)
    ensures DriverStep(w, d).hist.log.waived == w.hist.log.waived
  {}

  // ---------------------------------------------------------------- pods in use

  /** Neither the orphan sweep nor a changed config stops a pod while a target path carries a layer of its volume. When
      the sweep stops one, no stage or unstage is marked busy, kubelet does not hold the volume mounted, and next to the
      pod's own staging path there is a vol_data.json exactly if kubelet has just sent a stage on that path, which waits
      for the lock. */
  lemma LivePodsKept(r: Run, reason: Reason, grace: nat)
    requires Valid(r) && Enabled(Last(r), StopPod(reason, grace))
    ensures reason.Orphaned? || reason.ConfigChanged? ==> Last(r).host.binds == {}
    ensures reason.Orphaned? ==>
              var w, q := Last(r), Last(r).sec.value.know.pod.ann.staging;
              && !IsBusy(w) && !Mounted(w) && (w.pod.Some? ==> w.pod.value.ann.staging == q)
              && (q in w.host.volData <==> w.host.kubelet.StageSent? && q == w.setup.path)
              && (q == w.setup.path ==> w.host.kubelet.Released? || w.host.kubelet.StageSent?)
  {
    RunKeepsInv(r);
  }

  /** The world in which the open section last looked for vol_data.json. */
  ghost function LookedIn(r: Run): Option<World>
    requires Valid(r)
  {
    match r
    case Begin(_) => None
    case Then(p, a) =>
      if a.Driver? && a.d.Enter? then None
      else if a.Driver? && a.d.ReadVolData? then Some(Last(p))
      else LookedIn(p)
  }

  lemma {:induction false} UnstagedSeen(r: Run)
    requires Valid(r) && Last(r).sec.Some? && Last(r).sec.value.view.unstaged && Last(r).sec.value.kind.Recovery?
    ensures Last(r).sec.value.home.Some?
    ensures LookedIn(r).Some? && LookedIn(r).value.host.readable && Last(r).sec.value.home.value !in LookedIn(r).value.host.volData
  {
    if r.Then? {
      RunKeepsInv(r.prev);
      if !(r.a.Driver? && (r.a.d.ReadVolData? || r.a.d.Enter?)) {
        ViewStays(Last(r.prev), r.a);
        UnstagedSeen(r.prev);
      }
    }
  }

  lemma ViewStays(w: World, a: Action)
    requires Allowed(w, a) && Step(w, a).sec.Some? && !(a.Driver? && (a.d.ReadVolData? || a.d.Enter?))
    ensures w.sec.Some? && SameLook(w.sec.value, Step(w, a).sec.value)
  {
    match a
    case Env(e) => EnvMeanwhile(w, e);
    case Driver(d) => if OnEntry(d) { EntryStepView(w, d); } else { OtherStepView(w, d); }
  }

  predicate SameLook(s: Section, s': Section) {
    s'.kind == s.kind && s'.view.unstaged == s.view.unstaged && (s.home.Some? ==> s'.home == s.home)
  }

  lemma OtherStepView(w: World, d: DriverAction)
    requires Enabled(w, d) && !OnEntry(d) && !d.ReadVolData? && !d.Enter? && DriverStep(w, d).sec.Some?
    ensures w.sec.Some? && SameLook(w.sec.value, DriverStep(w, d).sec.value)
  {}

  lemma EntryStepView(w: World, d: DriverAction)
    requires Enabled(w, d) && OnEntry(d)
    ensures DriverStep(w, d).sec.Some? && SameLook(w.sec.value, DriverStep(w, d).sec.value)
  {
    if d.UseConfig? || d.CountExit? || d.StartOver? {
      ConfigView(w, d.hash);
    }
    if d.CountExit? {
      RecordedView(WithConfig(w, d.hash), w.sec.value.know.pod, d.jitter);
    }
  }

  lemma ConfigView(w: World, hash: Hash)
    requires w.sec.Some?
    ensures var c := WithConfig(w, hash);
            && c.sec.Some? && c.entry.Some? && SameLook(w.sec.value, c.sec.value)
            && StartedOver(c).sec.Some? && SameLook(w.sec.value, StartedOver(c).sec.value)
  {}

  lemma RecordedView(w: World, p: Pod, jitter: nat)
    requires w.sec.Some? && w.entry.Some?
    ensures Recorded(w, p, jitter).sec.Some? && SameLook(w.sec.value, Recorded(w, p, jitter).sec.value)
  {}

  /** When the sweep stops a pod, its own look found the driver directory readable and no vol_data.json next to the
      pod's staging path. */
  lemma SweepLooked(r: Run, grace: nat)
    requires Valid(r) && Enabled(Last(r), StopPod(Orphaned, grace))
    ensures LookedIn(r).Some? && LookedIn(r).value.host.readable
    ensures Last(r).sec.value.know.pod.ann.staging !in LookedIn(r).value.host.volData
  {
    RunKeepsInv(r);
    UnstagedSeen(r);
  }
}
