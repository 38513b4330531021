/** mountpod.Manager's operations on one volume (internal/mountpod/manager.go), on the fields of the plugin and
    call by call. The caller holds the volume's lock: it is inside a section. */
module Manager {
  import opened Base
  import opened PodSpec
  import opened Machine
  import opened Safety
  import opened Node
  import B = Backoff

  datatype Phase = Absent | Pending | Running | Terminating | Exited

  /** What a call found, or left. */
  datatype State = State(phase: Phase, pod: Option<Pod>, staging: Path, configChanged: bool, backoff: B.Backoff)

  datatype Error = NoError | GaveUpError | InvalidSpec | ApiError

  /** The phase of stateOf; it reads the clock only for a deleted pod, which is Terminating anyway. */
  function PhaseOf(p: Pod): Phase {
    if p.deletedAt.Some? then Phase.Terminating
    else if p.status.Ended? then Phase.Exited
    else if p.status.Running? then Phase.Running
    else Phase.Pending
  }

  const NOTHING := State(Absent, None, "", false, B.ZERO)

  function StateOf(p: Pod): State { State(PhaseOf(p), Some(p), p.ann.staging, false, B.ZERO) }

  // ---------------------------------------------------------------- what a call can change

  /** What every operation of the Manager leaves: the marks and reports of the node plugin, what the section read of
      the host; no pod goes uncounted. */
  ghost predicate Managed(u: World, w: World) {
    Moved(u, w) && (w.sec.value.owes ==> u.sec.value.owes)
  }

  ghost predicate Moved(u: World, w: World) {
    && u.sec.Some? && w.sec.Some?
    && w.sec.value.kind == u.sec.value.kind && (u.sec.value.home.Some? ==> w.sec.value.home == u.sec.value.home)
    && w.sec.value.view == u.sec.value.view && w.marks == u.marks
    && w.setup == u.setup && u.clock <= w.clock && u.nextUid <= w.nextUid
    && w.hist.log == u.hist.log.(episodes := w.hist.log.episodes, waived := w.hist.log.waived)
    && u.hist.failures <= w.hist.failures
    && (u.host.kubelet.StageSent? ==> w.host.kubelet.StageSent?) && (u.host.kubelet.UnstageSent? ==> w.host.kubelet.UnstageSent?)
  }

  ghost predicate EntryKept(u: World, w: World) {
    w.entry == u.entry || (u.entry.Some? && w.entry == Some(B.Reset(u.entry.value)))
  }

  /** Moreover, the restart state is left, but for a late clear of its counters, no pod is created, and what was
      settled stays so. */
  ghost predicate Kept(u: World, w: World) {
    KeptButOne(u, w) && (w.sec.value.owes ==> u.sec.value.owes)
  }

  /** All that, but a pod may have been released uncounted. */
  ghost predicate KeptButOne(u: World, w: World) {
    && Moved(u, w) && EntryKept(u, w)
    && w.nextUid == u.nextUid && w.sec.value.may == u.sec.value.may && w.sec.value.told == u.sec.value.told
    && (w.pod.Some? ==> u.pod.Some? && w.pod.value.uid == u.pod.value.uid && w.pod.value.ann == u.pod.value.ann)
    && (Settled(u) && !u.sec.value.told ==> Settled(w))
  }

  /** The section is as it was; a call that failed settled what it owed. */
  predicate SameSection(u: World, w: World) {
    u.sec.Some? && w.sec.Some? && w.sec.value == u.sec.value.(owes := w.sec.value.owes) && (w.sec.value.owes ==> u.sec.value.owes)
  }

  /** Nothing hangs over the section: it was not told of a give-up, and released no pod uncounted. */
  predicate Free(w: World) { w.sec.Some? && !w.sec.value.told && !w.sec.value.owes }

  ghost predicate AtEase(w: World) { Free(w) && Settled(w) }

  lemma KeptItself(w: World)
    requires w.sec.Some?
    ensures Kept(w, w)
  {}

  lemma KeptMeanwhile(u: World, w: World)
    requires Quiescent(u) && Meanwhile(u, w) && u.sec.Some?
    ensures Kept(u, w)
  {}

  /** Nothing has changed that the calls look at: the pod object, the host, the time. */
  ghost predicate Unmoved(u: World, w: World) { w.clock == u.clock && w.pod == u.pod && w.host == u.host }

  predicate Keeps(d: DriverAction) {
    d.FailCall? || d.GetPod? || d.DeleteNow? || d.StopPod? || d.Prepare? || d.DropSecret? || d.CreateSecret? || d.OwnSecret?
  }

  /** A step on pods and Secrets that creates no pod, after what happened meanwhile. */
  lemma KeptStep(u: World, b: World, d: DriverAction)
    requires Quiescent(u) && Meanwhile(u, b) && u.sec.Some? && Keeps(d) && Enabled(b, d)
    ensures Kept(u, DriverStep(b, d))
  {
    KeptMeanwhile(u, b);
    StepKept(b, d);
  }

  lemma StepKept(b: World, d: DriverAction)
    requires b.sec.Some? && Keeps(d) && Enabled(b, d)
    ensures Kept(b, DriverStep(b, d))
  {
    if d.StopPod? || d.DeleteNow? {
      DeletionKept(b, d);
    } else {
      OthersKept(b, d);
    }
  }

  lemma DeletionKept(b: World, d: DriverAction)
    requires b.sec.Some? && (d.StopPod? || d.DeleteNow?) && Enabled(b, d)
    ensures Kept(b, DriverStep(b, d))
  {}

  lemma OthersKept(b: World, d: DriverAction)
    requires b.sec.Some? && Keeps(d) && !d.StopPod? && !d.DeleteNow? && Enabled(b, d)
    ensures Kept(b, DriverStep(b, d))
  {}

  /** Releasing a pod to be counted puts the section in debt. */
  lemma StripStep(u: World, b: World)
    requires Quiescent(u) && Truthful(u) && Meanwhile(u, b) && u.sec.Some? && Enabled(b, Strip)
    ensures var w := DriverStep(b, Strip);
            && KeptButOne(u, w)
            && (Paid(u, u.sec.value.know.pod) || GaveUp(w) ==> (w.sec.value.owes ==> u.sec.value.owes))
  {
    KeptMeanwhile(u, b);
    assert Paid(u, u.sec.value.know.pod) ==> Paid(b, u.sec.value.know.pod);
    assert GaveUp(u) ==> Paid(u, u.sec.value.know.pod);
  }

  lemma Quiet(r: Run, w: World)
    requires Reached(r, w)
    ensures Quiescent(w)
  {
    ReachedInv(r, w);
  }

  /** A mark left by a give-up since cleared sits on a pod that is counted already: the next give-up finds no mark. */
  ghost predicate Countable(w: World) {
    && AtEase(w)
    && (w.hist.failures == 0 && w.marks.gaveUp.Some? && !GaveUp(w) && Known(w).Some? ==>
          w.entry.Some? && w.entry.value.lastPod == Some(Known(w).value.uid) && w.entry.value.hash == Known(w).value.ann.hash)
  }

  lemma CountableMeanwhile(u: World, w: World)
    requires Quiescent(u) && Meanwhile(u, w) && Countable(u)
    ensures Countable(w)
  {}

  lemma EvolvesItself(w: World)
    ensures w.pod.Some? ==> Evolves(w.pod.value, w.pod.value)
  {}

  // ---------------------------------------------------------------- calls

  method FindPod(n: Plugin) returns (ok: bool, p: Option<Pod>)
    requires n.Valid() && n.world.sec.Some?
    modifies n
    ensures n.Valid() && Kept(old(n.world), n.world) && n.world.sec.value.released == old(n.world).sec.value.released
    ensures ok ==> p == n.world.pod && Knows(n.world, if p.Some? then Saw(p.value) else SawAbsent)
    ensures ok && p.Some? && old(n.world).sec.value.home.None? ==> n.world.sec.value.home == Some(p.value.ann.staging)
    ensures ok ==> n.world.hist.failures == old(n.world).hist.failures
    ensures !ok ==> n.world.hist.failures > old(n.world).hist.failures
    ensures old(n.world).pod.Some? && old(n.world).pod.value.inUse ==> n.world.pod.Some? && n.world.pod.value.inUse
    ensures n.world.pod.Some? ==> old(n.world).pod.Some? && Evolves(old(n.world).pod.value, n.world.pod.value)
    ensures old(n.script) == [] ==> ok && n.script == [] && n.world == old(n.world).(sec := n.world.sec)
  {
    Quiet(n.run, n.world);
    ghost var w0 := n.world;
    EvolvesItself(w0);
    ok, p := n.GetPod();
    KeptStep(w0, n.before, if ok then GetPod else FailCall);
  }

  /** finished: the clock is read for a deleted pod whose container has not ended. */
  method IsFinished(n: Plugin, p: Pod) returns (b: bool)
    requires n.Valid() && n.world.sec.Some?
    modifies n
    ensures n.Valid() && Kept(old(n.world), n.world) && n.world.sec == old(n.world).sec
    ensures n.world.hist.failures == old(n.world).hist.failures
    ensures b == Finished(p, n.world.clock) && (Countable(old(n.world)) ==> Countable(n.world))
    ensures old(n.world).pod.Some? && old(n.world).pod.value.inUse ==> n.world.pod.Some? && n.world.pod.value.inUse
    ensures old(n.script) == [] ==> n.script == [] && n.world == old(n.world)
  {
    KeptItself(n.world);
    b := p.status.Ended?;
    if !b && p.deletedAt.Some? {
      Quiet(n.run, n.world);
      var now := n.Now();
      KeptMeanwhile(old(n.world), n.world);
      if Countable(old(n.world)) {
        CountableMeanwhile(old(n.world), n.world);
      }
      b := now > p.deletedAt.value + STUCK_AFTER;
    }
  }

  method DropFinalizer(n: Plugin, p: Pod) returns (ok: bool)
    requires n.Valid() && Knows(n.world, Saw(p)) && Finished(p, n.world.clock)
    modifies n
    ensures n.Valid() && KeptButOne(old(n.world), n.world) && n.world.sec.value.released == old(n.world).sec.value.released
    ensures Paid(old(n.world), p) || GaveUp(n.world) ==> (n.world.sec.value.owes ==> old(n.world).sec.value.owes)
    ensures ok ==> Knows(n.world, Stripped(p)) && n.world.hist.failures == old(n.world).hist.failures
    ensures !ok ==> n.world.hist.failures > old(n.world).hist.failures && !n.world.sec.value.owes
    ensures old(n.script) == [] ==> ok && n.script == [] && n.world.entry == old(n.world).entry && n.world.clock == old(n.world).clock
  {
    ghost var w0 := n.world;
    assert Quiescent(w0) && Truthful(w0) by { ReachedInv(n.run, w0); }
    ok := n.RemoveFinalizer(p);
    if ok {
      StripStep(w0, n.before);
    } else {
      KeptStep(w0, n.before, FailCall);
    }
  }

  method DropPod(n: Plugin, p: Pod) returns (ok: bool)
    requires n.Valid() && Knows(n.world, Stripped(p))
    modifies n
    ensures n.Valid() && Kept(old(n.world), n.world)
    ensures ok ==> Knows(n.world, SawAbsent) && n.world.sec.value.released == Some(p) && n.world.pod.None?
    ensures ok ==> n.world.hist.failures == old(n.world).hist.failures
    ensures !ok ==> n.world.hist.failures > old(n.world).hist.failures && !n.world.sec.value.owes
    ensures !ok ==> n.world.sec.value.released == old(n.world).sec.value.released
    ensures old(n.script) == [] ==> ok && n.script == [] && n.world.entry == old(n.world).entry && n.world.clock == old(n.world).clock
  {
    Quiet(n.run, n.world);
    ghost var w0 := n.world;
    ok := n.DeletePodNow(p);
    KeptStep(w0, n.before, if ok then DeleteNow else FailCall);
    if ok {
      assert n.world.pod.None? by { ReachedInv(n.run, n.world); }
    }
  }

  /** release: the finalizer goes first, then the pod. It ends without the pod object, or a call failed. */
  method Release(n: Plugin, p: Pod) returns (ok: bool)
    requires n.Valid() && Knows(n.world, Saw(p)) && Finished(p, n.world.clock)
    modifies n
    ensures n.Valid() && KeptButOne(old(n.world), n.world)
    ensures Paid(old(n.world), p) || GaveUp(n.world) ==> (n.world.sec.value.owes ==> old(n.world).sec.value.owes)
    ensures ok ==> n.world.pod.None? && Knows(n.world, SawAbsent) && n.world.sec.value.released == Some(p)
    ensures ok ==> n.world.hist.failures == old(n.world).hist.failures
    ensures !ok ==> n.world.hist.failures > old(n.world).hist.failures && !n.world.sec.value.owes
    ensures !ok ==> n.world.sec.value.released == old(n.world).sec.value.released
    ensures old(n.script) == [] ==> ok && n.script == [] && n.world.entry == old(n.world).entry && n.world.clock == old(n.world).clock
  {
    ok := DropFinalizer(n, p);
    if ok {
      ok := DropPod(n, p);
    }
  }

  /** Delete's own call, and the pod is deleted if it still exists. */
  method StopGracefully(n: Plugin, p: Pod, reason: Reason, grace: nat) returns (ok: bool)
    requires n.Valid() && Knows(n.world, Saw(p)) && p.deletedAt.None? && MayStop(n.world.sec.value, reason)
    modifies n
    ensures n.Valid() && Kept(old(n.world), n.world) && SameSection(old(n.world), n.world)
    ensures ok ==> n.world.hist.failures == old(n.world).hist.failures && (n.world.pod.Some? ==> n.world.pod.value.deletedAt.Some?)
    ensures !ok ==> n.world.hist.failures > old(n.world).hist.failures
    ensures old(n.script) == [] ==> ok && n.script == [] && n.world.entry == old(n.world).entry && n.world.clock == old(n.world).clock
    ensures old(n.script) == [] && old(n.world).pod == Some(p) ==> n.world.pod == Some(WithDeletion(p, n.world.clock + grace))
  {
    Quiet(n.run, n.world);
    ghost var w0 := n.world;
    ok := n.DeletePod(reason, grace);
    KeptStep(w0, n.before, if ok then StopPod(reason, grace) else FailCall);
  }

  method DropOneSecret(n: Plugin, s: SecretId)
    requires n.Valid() && KnowsAbsent(n.world)
    modifies n
    ensures n.Valid() && Kept(old(n.world), n.world) && KnowsAbsent(n.world)
    ensures !old(n.world).sec.value.know.Holding? ==> SameSection(old(n.world), n.world)
    ensures n.world.sec.value.released == old(n.world).sec.value.released
    ensures n.world.secrets.Keys <= old(n.world).secrets.Keys
    ensures forall x :: x in n.world.secrets ==> n.world.secrets[x] == old(n.world).secrets[x]
    ensures n.world.hist.failures == old(n.world).hist.failures ==> s !in n.world.secrets
    ensures old(n.script) == [] ==> n.script == [] && n.world.hist.failures == old(n.world).hist.failures && n.world.entry == old(n.world).entry
  {
    Quiet(n.run, n.world);
    ghost var w0 := n.world;
    var ok := n.DeleteSecret(s);
    KeptStep(w0, n.before, if ok then DropSecret(s) else FailCall);
  }

  method FindSecrets(n: Plugin) returns (ok: bool, list: map<SecretId, Secret>)
    requires n.Valid() && n.world.sec.Some?
    modifies n
    ensures n.Valid() && Kept(old(n.world), n.world) && SameSection(old(n.world), n.world)
    ensures ok ==> list == n.world.secrets && n.world.hist.failures == old(n.world).hist.failures
    ensures !ok ==> n.world.hist.failures > old(n.world).hist.failures
    ensures old(n.script) == [] ==> ok && n.script == [] && n.world.entry == old(n.world).entry
  {
    Quiet(n.run, n.world);
    ghost var w0 := n.world;
    ok, list := n.ListSecrets();
    if ok {
      KeptMeanwhile(w0, n.world);
    } else {
      KeptStep(w0, n.before, FailCall);
    }
  }

  // ---------------------------------------------------------------- Secrets

  /** deleteSecrets: all of the volume's Secrets on the node, or those without owner. A deletion that fails is
      only logged. */
  method DeleteSecrets(n: Plugin, onlyOrphans: bool) returns (ok: bool)
    requires n.Valid() && KnowsAbsent(n.world) && !n.world.sec.value.know.Holding?
    modifies n
    ensures n.Valid() && Kept(old(n.world), n.world)
    ensures SameSection(old(n.world), n.world)
    ensures !ok ==> n.world.hist.failures > old(n.world).hist.failures
    ensures n.world.hist.failures == old(n.world).hist.failures ==>
              forall s :: s in n.world.secrets ==> onlyOrphans && n.world.secrets[s].owner.Some?
    ensures old(n.script) == [] ==> ok && n.script == [] && n.world.hist.failures == old(n.world).hist.failures && n.world.entry == old(n.world).entry
  {
    var list;
    ok, list := FindSecrets(n);
    if ok {
      DropListed(n, list, onlyOrphans);
    }
  }

  /** Of the listed Secrets the rest is there, and those that stay; others too if a deletion failed. */
  ghost predicate Dropping(w: World, list: map<SecretId, Secret>, rest: set<SecretId>, onlyOrphans: bool, calm: bool) {
    forall s :: s in w.secrets ==>
      s in list && w.secrets[s] == list[s] && (calm ==> s in rest || (onlyOrphans && list[s].owner.Some?))
  }

  /** The loop over the listed Secrets. */
  method DropListed(n: Plugin, list: map<SecretId, Secret>, onlyOrphans: bool)
    requires n.Valid() && KnowsAbsent(n.world) && !n.world.sec.value.know.Holding? && list == n.world.secrets
    modifies n
    ensures n.Valid() && Kept(old(n.world), n.world) && SameSection(old(n.world), n.world)
    ensures n.world.hist.failures == old(n.world).hist.failures ==>
              forall s :: s in n.world.secrets ==> onlyOrphans && n.world.secrets[s].owner.Some?
    ensures old(n.script) == [] ==> n.script == [] && n.world.hist.failures == old(n.world).hist.failures && n.world.entry == old(n.world).entry
  {
    ghost var w0 := n.world;
    var rest := list.Keys;
    while rest != {}
      invariant n.Valid() && Kept(w0, n.world) && SameSection(w0, n.world)
      invariant rest <= list.Keys && Dropping(n.world, list, rest, onlyOrphans, n.world.hist.failures == w0.hist.failures)
      invariant old(n.script) == [] ==> n.script == [] && n.world.hist.failures == w0.hist.failures && n.world.entry == w0.entry
      decreases rest
    {
      var s :| s in rest;
      rest := rest - {s};
      if !(onlyOrphans && list[s].owner.Some?) {
        ghost var w1 := n.world;
        DropOneSecret(n, s);
        KeptKept(w0, w1, n.world);
      }
    }
  }

  lemma KeptKept(u: World, v: World, w: World)
    requires Kept(u, v) && Kept(v, w) && SameSection(u, v) && SameSection(v, w)
    ensures Kept(u, w) && SameSection(u, w)
  {}

  lemma SecretOfPod(r: Run, w: World, p: Pod)
    requires Reached(r, w) && Knows(w, Saw(p)) && w.pod.Some?
    ensures p.ann.secret in w.secrets && w.pod.value.uid == p.uid
  {
    ReachedInv(r, w);
  }

  method FindSecret(n: Plugin, s: SecretId) returns (ok: bool, found: Option<Secret>)
    requires n.Valid() && n.world.sec.Some?
    modifies n
    ensures n.Valid() && Kept(old(n.world), n.world) && SameSection(old(n.world), n.world)
    ensures old(n.world).pod.Some? && old(n.world).pod.value.inUse ==> n.world.pod.Some? && n.world.pod.value.inUse
    ensures ok ==> n.world.hist.failures == old(n.world).hist.failures
    ensures ok ==> found == (if s in n.world.secrets then Some(n.world.secrets[s]) else None)
    ensures !ok ==> n.world.hist.failures > old(n.world).hist.failures
    ensures old(n.script) == [] ==> ok && n.script == [] && n.world == old(n.world)
  {
    Quiet(n.run, n.world);
    ghost var w0 := n.world;
    ok, found := n.GetSecret(s);
    if ok {
      KeptMeanwhile(w0, n.world);
    } else {
      KeptStep(w0, n.before, FailCall);
    }
  }

  /** The Secret the pod names goes with it. */
  predicate Owned(w: World, p: Pod) { p.ann.secret in w.secrets && w.secrets[p.ann.secret].owner == Some(p.uid) }

  /** No Secret comes, and the others keep their owners. */
  predicate OthersKeepSecrets(u: World, w: World, s: SecretId) {
    forall x :: x in w.secrets ==> x in u.secrets && (x != s ==> w.secrets[x] == u.secrets[x])
  }

  /** ownSecret. */
  method OwnSecret(n: Plugin, p: Pod) returns (ok: bool)
    requires n.Valid() && Knows(n.world, Saw(p))
    modifies n
    ensures n.Valid() && Kept(old(n.world), n.world) && SameSection(old(n.world), n.world)
    ensures old(n.world).pod.Some? && old(n.world).pod.value.inUse ==> n.world.pod.Some? && n.world.pod.value.inUse
    ensures ok ==> n.world.hist.failures == old(n.world).hist.failures
    ensures ok && n.world.pod.Some? ==> Owned(n.world, p)
    ensures !ok ==> n.world.hist.failures > old(n.world).hist.failures
    ensures old(n.script) == [] ==> n.script == [] && Unmoved(old(n.world), n.world) && n.world.entry == old(n.world).entry
    ensures old(n.script) == [] ==> OthersKeepSecrets(old(n.world), n.world, p.ann.secret)
    ensures old(n.script) == [] ==> ok
  {
    var found;
    ok, found := FindSecret(n, p.ann.secret);
    if !ok {
      return;
    }
    if n.world.pod.Some? {
      SecretOfPod(n.run, n.world, p);
    }
    if found.None? || found.value.owner == Some(p.uid) {
      return;
    }
    ok := SetOwner(n, p);
  }

  method SetOwner(n: Plugin, p: Pod) returns (ok: bool)
    requires n.Valid() && Knows(n.world, Saw(p))
    modifies n
    ensures n.Valid() && Kept(old(n.world), n.world) && SameSection(old(n.world), n.world)
    ensures old(n.world).pod.Some? && old(n.world).pod.value.inUse ==> n.world.pod.Some? && n.world.pod.value.inUse
    ensures ok ==> n.world.hist.failures == old(n.world).hist.failures
    ensures ok ==> Owned(n.world, p)
    ensures !ok ==> n.world.hist.failures > old(n.world).hist.failures
    ensures old(n.script) == [] ==> n.script == [] && Unmoved(old(n.world), n.world) && n.world.entry == old(n.world).entry
    ensures old(n.script) == [] ==> OthersKeepSecrets(old(n.world), n.world, p.ann.secret)
    ensures old(n.script) == [] && p.ann.secret in old(n.world).secrets ==> ok
  {
    Quiet(n.run, n.world);
    ghost var w0 := n.world;
    ok := n.PatchOwner(p);
    KeptStep(w0, n.before, if ok then DriverAction.OwnSecret else FailCall);
  }

  // ---------------------------------------------------------------- Delete

  lemma SawEvolves(r: Run, w: World, p: Pod)
    requires Reached(r, w) && Knows(w, Saw(p)) && w.pod.Some?
    ensures Evolves(p, w.pod.value)
  {
    ReachedInv(r, w);
  }

  /** forget or Forget, once the pod is gone: a give-up stays unless the pod was being deleted by somebody. */
  method ForgetGone(n: Plugin, deleted: bool)
    requires n.Valid() && n.world.pod.None? && Knows(n.world, SawAbsent) && Settled(n.world) && !n.world.sec.value.told
    requires n.world.sec.value.owes ==> !GaveUp(n.world)
    requires deleted ==> n.world.sec.value.released.Some? && n.world.sec.value.released.value.deletedAt.Some?
    modifies n
    ensures n.Valid() && Managed(old(n.world), n.world) && n.world.nextUid == old(n.world).nextUid
    ensures AtEase(n.world) && n.world.pod.None? && Knows(n.world, SawAbsent)
    ensures n.world.sec.value.released == old(n.world).sec.value.released
    ensures n.world.hist.failures == old(n.world).hist.failures && (old(n.script) == [] ==> n.script == [])
    ensures old(n.script) == [] && GaveUp(old(n.world)) && !deleted ==> n.world.entry == old(n.world).entry
    ensures n.world.entry.Some? ==> GaveUp(old(n.world)) && !deleted
    ensures GaveUp(n.world) ==> GaveUp(old(n.world))
  {
    if deleted {
      Quiet(n.run, n.world);
      n.ForgetReleased();
      ForgottenSettles(old(n.world), n.before);
    } else {
      ForgetTries(n);
    }
  }

  /** forget: a give-up stays. */
  method ForgetTries(n: Plugin)
    requires n.Valid() && n.world.pod.None? && Knows(n.world, SawAbsent) && Settled(n.world) && !n.world.sec.value.told
    requires n.world.sec.value.owes ==> !GaveUp(n.world)
    modifies n
    ensures n.Valid() && Managed(old(n.world), n.world) && n.world.nextUid == old(n.world).nextUid
    ensures AtEase(n.world) && n.world.pod.None? && Knows(n.world, SawAbsent)
    ensures n.world.sec.value.released == old(n.world).sec.value.released
    ensures n.world.hist.failures == old(n.world).hist.failures && (old(n.script) == [] ==> n.script == [])
    ensures old(n.script) == [] && GaveUp(old(n.world)) ==> n.world.entry == old(n.world).entry
    ensures n.world.entry.Some? ==> GaveUp(old(n.world))
    ensures GaveUp(n.world) ==> GaveUp(old(n.world))
  {
    Quiet(n.run, n.world);
    var kept := n.ForgetUnlessGaveUp();
    if kept {
      KeptMeanwhile(old(n.world), n.world);
    } else {
      ForgottenSettles(old(n.world), n.before);
    }
  }

  lemma ForgottenSettles(u: World, b: World)
    requires Settled(u) && Quiescent(u) && Meanwhile(u, b) && u.pod.None? && u.sec.Some? && !u.sec.value.told
    ensures var w := Forgotten(b);
            && Managed(u, w) && Settled(w) && w.nextUid == u.nextUid && w.pod.None? && w.entry.None?
            && w.sec.value.know == u.sec.value.know && Free(w) && w.sec.value.released == u.sec.value.released
            && w.hist.failures == u.hist.failures
  {}

  /** The end of a Delete: the restart state, then all the Secrets. */
  method Finish(n: Plugin, deleted: bool) returns (ok: bool)
    requires n.Valid() && n.world.pod.None? && Knows(n.world, SawAbsent) && Settled(n.world) && !n.world.sec.value.told
    requires n.world.sec.value.owes ==> !GaveUp(n.world)
    requires deleted ==> n.world.sec.value.released.Some? && n.world.sec.value.released.value.deletedAt.Some?
    modifies n
    ensures n.Valid() && Managed(old(n.world), n.world) && n.world.nextUid == old(n.world).nextUid
    ensures AtEase(n.world) && n.world.pod.None? && Knows(n.world, SawAbsent)
    ensures n.world.sec.value.released == old(n.world).sec.value.released
    ensures !ok ==> n.world.hist.failures > old(n.world).hist.failures
    ensures n.world.hist.failures == old(n.world).hist.failures ==> n.world.secrets == map[]
    ensures n.world.entry.Some? ==> GaveUp(old(n.world)) && !deleted
    ensures old(n.script) == [] && GaveUp(old(n.world)) && !deleted ==> n.world.entry == old(n.world).entry
    ensures GaveUp(n.world) ==> GaveUp(old(n.world))
    ensures old(n.script) == [] ==> ok && n.script == [] && n.world.hist.failures == old(n.world).hist.failures
  {
    ForgetGone(n, deleted);
    ok := DeleteSecrets(n, false);
  }

  /** What a deletion leaves when nothing else happens: a finished pod is gone, another is being deleted, with its own grace
      period unless it was before. */
  ghost predicate Deleted(u: World, w: World, grace: nat) {
    w.pod == if Gone(u) then None else if u.pod.value.deletedAt.Some? then u.pod else Some(WithDeletion(u.pod.value, u.clock + grace))
  }

  /** Delete, called until the phase is Exited (the pod is released) or Absent; before that it is Terminating. */
  method Delete(n: Plugin, reason: Reason, grace: nat) returns (st: State, err: Error)
    requires n.Valid() && n.world.sec.Some? && AtEase(n.world) && MayStop(n.world.sec.value, reason)
    modifies n
    ensures n.Valid() && Managed(old(n.world), n.world) && n.world.nextUid == old(n.world).nextUid
    ensures AtEase(n.world) && (GaveUp(n.world) ==> GaveUp(old(n.world)))
    ensures err == NoError || (err == ApiError && n.world.hist.failures > old(n.world).hist.failures)
    ensures err == NoError ==> st.phase.Absent? || st.phase.Exited? || st.phase.Terminating?
    // Done: no pod object, and no Secret of the volume if no call failed; the restart state is gone, a give-up apart.
    ensures err == NoError && !st.phase.Terminating? ==>
              && n.world.pod.None? && Knows(n.world, SawAbsent)
              && (n.world.hist.failures == old(n.world).hist.failures ==> n.world.secrets == map[])
              && (n.world.entry.Some? ==> GaveUp(old(n.world)))
    ensures err == NoError && st.phase.Absent? ==> n.world.sec.value.released == old(n.world).sec.value.released
    ensures err == NoError && st.phase.Exited? ==>
              && st.pod.Some? && n.world.sec.value.released == st.pod && Finished(st.pod.value, n.world.clock)
              && (st.pod.value.deletedAt.Some? ==> n.world.entry.None?)
    // A give-up stays, unless the pod was being deleted by somebody.
    ensures old(n.script) == [] && GaveUp(old(n.world)) && (st.pod.Some? && st.phase.Exited? ==> st.pod.value.deletedAt.None?) ==>
              n.world.entry == old(n.world).entry
    // Not done: the pod is being deleted.
    ensures err == NoError && st.phase.Terminating? ==>
              && st.pod.Some? && Knows(n.world, Saw(st.pod.value)) && (n.world.pod.Some? ==> n.world.pod.value.deletedAt.Some?)
    // If nothing else happens: Absent exactly without a pod, Exited exactly for a finished one, which is gone then.
    ensures old(n.script) == [] ==>
              && err == NoError && n.script == [] && n.world.hist.failures == old(n.world).hist.failures
              && st.pod == old(n.world).pod && Deleted(old(n.world), n.world, grace)
              && st.phase == if old(n.world).pod.None? then Absent else if Gone(old(n.world)) then Exited else Phase.Terminating
  {
    var ok, found := FindPod(n);
    st, err := NOTHING, if ok then NoError else ApiError;
    if !ok {
      return;
    }
    if found.None? {
      ok := Finish(n, false);
      return st, if ok then NoError else ApiError;
    }
    var p := found.value;
    st, err := StopOrRelease(n, p, reason, grace);
  }

  /** Delete, for a finished pod. */
  method ReleaseAndFinish(n: Plugin, p: Pod) returns (st: State, err: Error)
    requires n.Valid() && Knows(n.world, Saw(p)) && Finished(p, n.world.clock) && AtEase(n.world)
    modifies n
    ensures n.Valid() && Managed(old(n.world), n.world) && n.world.nextUid == old(n.world).nextUid
    ensures AtEase(n.world) && (GaveUp(n.world) ==> GaveUp(old(n.world)))
    ensures err == NoError || (err == ApiError && n.world.hist.failures > old(n.world).hist.failures)
    ensures st.pod == Some(p) && (err == NoError ==> st.phase.Exited?)
    ensures err == NoError ==>
              && n.world.pod.None? && Knows(n.world, SawAbsent)
              && (n.world.hist.failures == old(n.world).hist.failures ==> n.world.secrets == map[])
              && (n.world.entry.Some? ==> GaveUp(old(n.world)) && p.deletedAt.None?)
              && n.world.sec.value.released == Some(p)
    ensures old(n.script) == [] && GaveUp(old(n.world)) && p.deletedAt.None? ==> n.world.entry == old(n.world).entry
    ensures old(n.script) == [] ==> err == NoError && n.script == [] && n.world.hist.failures == old(n.world).hist.failures
  {
    st := StateOf(p);
    var ok := Release(n, p);
    if !ok {
      return st, ApiError;
    }
    ok := Finish(n, p.deletedAt.Some?);
    st := st.(phase := Exited);
    err := if ok then NoError else ApiError;
  }

  /** Delete, for a pod that exists. */
  method StopOrRelease(n: Plugin, p: Pod, reason: Reason, grace: nat) returns (st: State, err: Error)
    requires n.Valid() && Knows(n.world, Saw(p)) && AtEase(n.world) && MayStop(n.world.sec.value, reason)
    modifies n
    ensures n.Valid() && Managed(old(n.world), n.world) && n.world.nextUid == old(n.world).nextUid
    ensures AtEase(n.world) && (GaveUp(n.world) ==> GaveUp(old(n.world)))
    ensures err == NoError || (err == ApiError && n.world.hist.failures > old(n.world).hist.failures)
    ensures err == NoError ==> st.pod == Some(p) && (st.phase.Exited? || st.phase.Terminating?)
    ensures err == NoError && st.phase.Exited? ==>
              && n.world.pod.None? && Knows(n.world, SawAbsent)
              && (n.world.hist.failures == old(n.world).hist.failures ==> n.world.secrets == map[])
              && (n.world.entry.Some? ==> GaveUp(old(n.world)))
              && n.world.sec.value.released == Some(p) && Finished(p, n.world.clock)
              && (p.deletedAt.Some? ==> n.world.entry.None?)
    ensures old(n.script) == [] && GaveUp(old(n.world)) && (st.phase.Exited? ==> p.deletedAt.None?) ==> n.world.entry == old(n.world).entry
    ensures err == NoError && st.phase.Terminating? ==>
              Knows(n.world, Saw(p)) && (n.world.pod.Some? ==> n.world.pod.value.deletedAt.Some?)
    ensures old(n.script) == [] ==>
              && err == NoError && n.script == [] && n.world.hist.failures == old(n.world).hist.failures
              && (st.phase.Exited? <==> Finished(p, old(n.world).clock))
              && (old(n.world).pod == Some(p) ==> Deleted(old(n.world), n.world, grace))
  {
    st, err := StateOf(p), NoError;
    var finished := IsFinished(n, p);
    if finished {
      st, err := ReleaseAndFinish(n, p);
      return;
    }
    if p.deletedAt.None? {
      var ok := StopGracefully(n, p, reason, grace);
      if !ok {
        return st, ApiError;
      }
    } else if n.world.pod.Some? {
      SawEvolves(n.run, n.world, p);
    }
    st := st.(phase := Terminating);
  }

  // ---------------------------------------------------------------- Ensure: what it decides

  /** There is no pod, or a dead one. */
  predicate Gone(w: World) { w.pod.Some? ==> Finished(w.pod.value, w.clock) }

  /** The dead pod ran the config, and its end is not counted yet. */
  predicate ToCount(w: World, hash: Hash) {
    w.pod.Some? && Finished(w.pod.value, w.clock) && w.pod.value.ann.hash == hash && B.For(w.entry, hash).lastPod != Some(w.pod.value.uid)
  }

  /** That end counted, the volume has given up with the config: the limit of 77 and 78 in a row is reached, or was before. */
  predicate GivesUp(w: World, hash: Hash) {
    var b := B.For(w.entry, hash).backoff;
    Gone(w) && if ToCount(w, hash) then B.IsFatal(CountedCode(w.pod.value)) && b.fatal + 1 >= w.setup.policy.maxFatal else b.gaveUp
  }

  /** A new pod is due: the restart time is reached, which it never is right after an end, or somebody deleted the pod of a
      give-up by hand. */
  predicate Due(w: World, hash: Hash) {
    Gone(w) &&
    if GivesUp(w, hash) then w.pod.Some? && w.pod.value.deletedAt.Some?
    else !ToCount(w, hash) && B.For(w.entry, hash).backoff.next <= w.clock
  }

  /** The restart state with the end counted. */
  ghost predicate CountedAs(u: World, b: B.Backoff, hash: Hash) {
    && (b.gaveUp <==> GivesUp(u, hash))
    && (!b.gaveUp ==> (b.next <= u.clock <==> !ToCount(u, hash) && B.For(u.entry, hash).backoff.next <= u.clock))
  }

  /** And started over after a deletion by hand. */
  ghost predicate AssessedAs(u: World, b: B.Backoff, hash: Hash) {
    && (b.gaveUp <==> GivesUp(u, hash) && !Due(u, hash))
    && (!b.gaveUp ==> (b.next <= u.clock <==> Due(u, hash)))
  }

  lemma CountedEntry(w: World, hash: Hash, jitter: nat)
    requires B.PolicyOk(w.setup.policy) && Quiescent(w) && Enabled(w, DriverAction.CountExit(hash, jitter)) && w.pod == Some(w.sec.value.know.pod)
    ensures var w' := DriverStep(w, DriverAction.CountExit(hash, jitter));
            Unmoved(w, w') && w'.entry.Some? && w'.entry.value.hash == hash && CountedAs(w, w'.entry.value.backoff, hash)
  {
    var e, p := B.For(w.entry, hash), w.pod.value;
    ConfigEntry(w, hash);
    if e.lastPod != Some(p.uid) {
      CountedBackoff(w.setup.policy, e, p.uid, p.ann.staging, CountedCode(p), RanFor(p), w.clock, jitter);
    }
  }

  /** An end is never due at once. */
  lemma CountedBackoff(policy: B.Policy, e: Entry, uid: Uid, staging: Path, code: int, ran: nat, now: nat, jitter: nat)
    requires B.PolicyOk(policy) && e.lastPod != Some(uid) && !e.backoff.gaveUp
    ensures var b := B.Record(policy, e, uid, staging, code, ran, now, jitter).backoff;
            (b.gaveUp <==> B.IsFatal(code) && e.backoff.fatal + 1 >= policy.maxFatal) && (!b.gaveUp ==> b.next > now)
  {
    B.DoubledMonotone(policy.base, 0, if ran >= policy.stableAfter then 0 else e.backoff.failures);
    B.Doubling(policy.base, 0);
  }

  // ---------------------------------------------------------------- Ensure: the restart state

  lemma CountManaged(w: World, hash: Hash, jitter: nat)
    requires Enabled(w, DriverAction.CountExit(hash, jitter))
    ensures var w', p := DriverStep(w, DriverAction.CountExit(hash, jitter)), w.sec.value.know.pod;
            && Managed(w, w') && w'.nextUid == w.nextUid && w'.pod == w.pod && Knows(w', Saw(p)) && w'.hist.failures == w.hist.failures
            && w'.sec.value.told == (w.sec.value.told && w.entry.Some? && w.entry.value.hash == hash)
            && w'.sec.value.released == w.sec.value.released
            && w'.entry.Some? && w'.entry.value.hash == hash && w'.entry.value.lastPod == Some(p.uid)
            && Unmoved(w, w')
  {}

  /** A give-up that is counted now finds no mark. */
  lemma CountObliged(w: World, hash: Hash)
    requires Quiescent(w) && Countable(w) && w.sec.value.know.Saw? && w.sec.value.know.pod.ann.hash == hash
    ensures !Owed(w)
    ensures w.hist.failures == 0 && w.marks.gaveUp.Some? ==> B.For(w.entry, hash).lastPod == Some(w.sec.value.know.pod.uid)
  {}

  /** countExit: the exit counts only for the config being ensured. */
  method CountExit(n: Plugin, hash: Hash, p: Pod)
    requires n.Valid() && B.PolicyOk(n.setup.policy) && Knows(n.world, Saw(p)) && Finished(p, n.world.clock) && Countable(n.world)
    modifies n
    ensures n.Valid() && Managed(old(n.world), n.world) && n.world.nextUid == old(n.world).nextUid
    ensures Knows(n.world, Saw(p)) && !n.world.sec.value.told && n.world.hist.failures == old(n.world).hist.failures
    ensures n.world.sec.value.released == old(n.world).sec.value.released
    ensures old(n.world).pod.Some? && old(n.world).pod.value.inUse ==> n.world.pod.Some? && n.world.pod.value.inUse
    ensures p.ann.hash == hash ==>
              n.world.entry.Some? && n.world.entry.value.hash == hash && n.world.entry.value.lastPod == Some(p.uid)
    ensures p.ann.hash != hash ==> n.world == old(n.world)
    ensures old(n.script) == [] ==> n.script == [] && Unmoved(old(n.world), n.world)
    ensures old(n.script) == [] && old(n.world).pod == Some(p) ==> CountedAs(old(n.world), B.For(n.world.entry, hash).backoff, hash)
  {
    if p.ann.hash == hash {
      Quiet(n.run, n.world);
      ghost var w0 := n.world;
      CountObliged(w0, hash);
      var jitter := n.RecordExit(hash, p);
      KeptMeanwhile(w0, n.before);
      CountManaged(n.before, hash, jitter);
      if old(n.script) == [] && w0.pod == Some(p) {
        CountedEntry(w0, hash, jitter);
      }
    }
  }

  /** What a use of the restart state for a config leaves: everything but the entry, its history and the section's own
      knowledge of it. */
  ghost predicate OnlyEntry(u: World, w: World) {
    && u.sec.Some? && w.sec.Some? && w == u.(entry := w.entry, sec := w.sec, hist := w.hist)
    && w.sec.value == u.sec.value.(may := w.sec.value.may, told := w.sec.value.told, owes := w.sec.value.owes)
    && (w.sec.value.owes ==> u.sec.value.owes)
    && w.hist == u.hist.(tally := w.hist.tally, log := u.hist.log.(waived := w.hist.log.waived))
    && Answered(w) == Answered(u)
  }

  lemma UseConfigStep(u: World, hash: Hash)
    requires u.sec.Some? && Enabled(u, UseConfig(hash))
    ensures var w := DriverStep(u, UseConfig(hash));
            OnlyEntry(u, w) && w.entry == Some(B.For(u.entry, hash)) && w.sec.value.told == GaveUp(w)
  {
    ConfigEntry(u, hash);
  }

  lemma StartOverStep(u: World, hash: Hash)
    requires Enabled(u, DriverAction.StartOver(hash))
    ensures var w := DriverStep(u, DriverAction.StartOver(hash));
            && OnlyEntry(u, w) && w.entry.Some? && w.entry.value.hash == hash && !GaveUp(w) && !w.sec.value.told
            && w.entry.value.lastPod == B.For(u.entry, hash).lastPod
            && (B.For(u.entry, hash).backoff.gaveUp ==> w.entry.value.backoff == B.ZERO)
  {
    ConfigEntry(u, hash);
    var c := WithConfig(u, hash);
    var c1 := if GaveUp(c) then Cleared(c) else c;
    assert !GaveUp(Untold(c1));
  }

  /** backoffState: the section is told what it says. */
  method ReadBackoff(n: Plugin, hash: Hash) returns (b: B.Backoff)
    requires n.Valid() && n.world.sec.Some? && Enabled(n.world, UseConfig(hash))
    modifies n
    ensures n.Valid() && Managed(old(n.world), n.world) && n.world.nextUid == old(n.world).nextUid
    ensures n.world.entry.Some? && n.world.entry.value.hash == hash && b == n.world.entry.value.backoff
    ensures n.world.sec.value.told == b.gaveUp
    ensures old(n.world).entry.Some? && old(n.world).entry.value.hash == hash ==> EntryKept(old(n.world), n.world)
    ensures !(old(n.world).entry.Some? && old(n.world).entry.value.hash == hash) ==> b == B.ZERO
    ensures n.world.sec.value.know == old(n.world).sec.value.know && n.world.hist.failures == old(n.world).hist.failures
    ensures n.world.sec.value.released == old(n.world).sec.value.released
    ensures n.world.pod.Some? ==> old(n.world).pod.Some?
    ensures old(n.world).pod.Some? && old(n.world).pod.value.inUse ==> n.world.pod.Some? && n.world.pod.value.inUse
    ensures old(n.script) == [] ==> n.script == [] && Unmoved(old(n.world), n.world) && b == B.For(old(n.world).entry, hash).backoff
    ensures old(n.script) == [] ==> n.world.secrets == old(n.world).secrets
  {
    Quiet(n.run, n.world);
    ghost var w0 := n.world;
    b := n.BackoffState(hash);
    KeptMeanwhile(w0, n.before);
    UseConfigStep(n.before, hash);
  }

  /** Whether the restart time is reached. */
  method IsDue(n: Plugin, b: B.Backoff) returns (due: bool)
    requires n.Valid() && n.world.sec.Some?
    modifies n
    ensures n.Valid() && Kept(old(n.world), n.world) && n.world.sec == old(n.world).sec
    ensures n.world.hist.failures == old(n.world).hist.failures && due == (b.next <= n.world.clock)
    ensures old(n.world).pod.Some? && old(n.world).pod.value.inUse ==> n.world.pod.Some? && n.world.pod.value.inUse
    ensures old(n.script) == [] ==> n.script == [] && n.world == old(n.world)
  {
    Quiet(n.run, n.world);
    var now := n.Now();
    KeptMeanwhile(old(n.world), n.world);
    due := now >= b.next;
  }

  /** startOver, then the restart state again. */
  method TryAgain(n: Plugin, hash: Hash, p: Pod) returns (b: B.Backoff)
    requires n.Valid() && Knows(n.world, Saw(p)) && Finished(p, n.world.clock) && p.deletedAt.Some?
    requires n.world.entry.Some? && n.world.entry.value.hash == hash
    modifies n
    ensures n.Valid() && Managed(old(n.world), n.world) && n.world.nextUid == old(n.world).nextUid
    ensures n.world.entry.Some? && n.world.entry.value.hash == hash && b == n.world.entry.value.backoff
    ensures n.world.entry.value.lastPod == old(n.world).entry.value.lastPod
    ensures !b.gaveUp && !n.world.sec.value.told && Knows(n.world, Saw(p)) && n.world.hist.failures == old(n.world).hist.failures
    ensures n.world.sec.value.released == old(n.world).sec.value.released
    ensures old(n.world).pod.Some? && old(n.world).pod.value.inUse ==> n.world.pod.Some? && n.world.pod.value.inUse
    ensures old(n.script) == [] ==> n.script == [] && Unmoved(old(n.world), n.world) && (GaveUp(old(n.world)) ==> b == B.ZERO)
  {
    Quiet(n.run, n.world);
    ghost var w0 := n.world;
    n.StartOver(hash);
    KeptMeanwhile(w0, n.before);
    StartOverStep(n.before, hash);
    b := ReadBackoff(n, hash);
  }

  // ---------------------------------------------------------------- Ensure

  /** A pod that is not finished did not give up. */
  lemma UnfinishedTries(r: Run, w: World, p: Pod)
    requires Reached(r, w) && w.pod == Some(p) && !Finished(p, w.clock)
    ensures !GaveUp(w)
  {
    ReachedInv(r, w);
  }

  /** The first half of ensureExisting: the exit is counted, and a give-up whose pod was deleted by hand starts over. */
  method Assess(n: Plugin, hash: Hash, p: Pod) returns (b: B.Backoff)
    requires n.Valid() && B.PolicyOk(n.setup.policy) && Knows(n.world, Saw(p)) && n.world.pod == Some(p) && Countable(n.world)
    modifies n
    ensures n.Valid() && Managed(old(n.world), n.world) && n.world.nextUid == old(n.world).nextUid
    ensures Knows(n.world, Saw(p)) && n.world.hist.failures == old(n.world).hist.failures
    ensures n.world.sec.value.released == old(n.world).sec.value.released
    ensures old(n.world).pod.value.inUse ==> n.world.pod.Some? && n.world.pod.value.inUse
    ensures n.world.entry.Some? && n.world.entry.value.hash == hash && b == n.world.entry.value.backoff
    ensures n.world.sec.value.told == b.gaveUp
    ensures b.gaveUp ==> Finished(p, n.world.clock) && p.deletedAt.None?
    ensures p.ann.hash == hash && Finished(p, old(n.world).clock) ==> n.world.entry.value.lastPod == Some(p.uid)
    ensures p.deletedAt.Some? || p.status.Ended? ==> Paid(n.world, p)
    ensures old(n.script) == [] ==> n.script == [] && Unmoved(old(n.world), n.world)
    ensures old(n.script) == [] && Finished(p, old(n.world).clock) ==> AssessedAs(old(n.world), b, hash)
  {
    CountFinished(n, hash, p);
    b := ReadBackoff(n, hash);
    if b.gaveUp && p.deletedAt.Some? {
      b := TryDeleted(n, hash, p, b);
    }
  }

  /** The exit is counted if the pod is finished. */
  method CountFinished(n: Plugin, hash: Hash, p: Pod)
    requires n.Valid() && B.PolicyOk(n.setup.policy) && Knows(n.world, Saw(p)) && n.world.pod == Some(p) && Countable(n.world)
    modifies n
    ensures n.Valid() && Managed(old(n.world), n.world) && n.world.nextUid == old(n.world).nextUid
    ensures Knows(n.world, Saw(p)) && !n.world.sec.value.told && n.world.hist.failures == old(n.world).hist.failures
    ensures n.world.sec.value.released == old(n.world).sec.value.released
    ensures old(n.world).pod.value.inUse ==> n.world.pod.Some? && n.world.pod.value.inUse
    ensures GaveUp(n.world) ==> Finished(p, n.world.clock)
    ensures p.ann.hash == hash && Finished(p, old(n.world).clock) ==>
              n.world.entry.Some? && n.world.entry.value.hash == hash && n.world.entry.value.lastPod == Some(p.uid)
    ensures Enabled(n.world, UseConfig(hash))
    ensures old(n.script) == [] ==> n.script == [] && Unmoved(old(n.world), n.world)
    ensures old(n.script) == [] && Finished(p, old(n.world).clock) ==> CountedAs(old(n.world), B.For(n.world.entry, hash).backoff, hash)
  {
    ghost var w0 := n.world;
    if !Finished(p, w0.clock) {
      UnfinishedTries(n.run, w0, p);
    }
    var finished := IsFinished(n, p);
    if finished {
      CountExit(n, hash, p);
    }
  }

  /** A give-up whose pod was deleted by hand starts over, once the pod is finished. */
  method TryDeleted(n: Plugin, hash: Hash, p: Pod, b: B.Backoff) returns (b': B.Backoff)
    requires n.Valid() && Knows(n.world, Saw(p)) && Finished(p, n.world.clock) && p.deletedAt.Some?
    requires n.world.entry.Some? && n.world.entry.value.hash == hash && n.world.entry.value.backoff == b
    modifies n
    ensures n.Valid() && Managed(old(n.world), n.world) && n.world.nextUid == old(n.world).nextUid
    ensures n.world.entry.Some? && n.world.entry.value.hash == hash && b' == n.world.entry.value.backoff
    ensures n.world.entry.value.lastPod == old(n.world).entry.value.lastPod
    ensures !b'.gaveUp && !n.world.sec.value.told && Knows(n.world, Saw(p)) && n.world.hist.failures == old(n.world).hist.failures
    ensures n.world.sec.value.released == old(n.world).sec.value.released
    ensures old(n.world).pod.Some? && old(n.world).pod.value.inUse ==> n.world.pod.Some? && n.world.pod.value.inUse
    ensures old(n.script) == [] ==> n.script == [] && Unmoved(old(n.world), n.world) && (b.gaveUp ==> b' == B.ZERO)
  {
    b' := b;
    var finished := IsFinished(n, p);
    if finished {
      b' := TryAgain(n, hash, p);
    }
  }

  /** The end of ensureExisting, for a pod that is gone but for its object. */
  method ReleaseWhenDue(n: Plugin, hash: Hash, p: Pod, b: B.Backoff) returns (err: Error, released: bool)
    requires n.Valid() && Knows(n.world, Saw(p)) && Finished(p, n.world.clock)
    requires Paid(n.world, p)
    requires n.world.entry.Some? && n.world.entry.value.hash == hash && n.world.entry.value.backoff in {b, B.ZERO}
    requires n.world.sec.value.told == b.gaveUp
    modifies n
    ensures n.Valid() && Kept(old(n.world), n.world)
    ensures err == NoError || err == GaveUpError || (err == ApiError && n.world.hist.failures > old(n.world).hist.failures)
    ensures err != ApiError ==> n.world.hist.failures == old(n.world).hist.failures
    ensures n.world.sec.value.told <==> err == GaveUpError
    ensures released ==> err == NoError && n.world.pod.None? && Knows(n.world, SawAbsent) && n.world.entry.value.backoff.next <= n.world.clock
    ensures !released && err != ApiError ==>
              Knows(n.world, Saw(p)) && (old(n.world).pod.Some? && old(n.world).pod.value.inUse ==> n.world.pod.Some? && n.world.pod.value.inUse)
    ensures old(n.script) == [] ==> n.script == [] && err != ApiError && n.world.clock == old(n.world).clock
    ensures old(n.script) == [] ==> (released <==> !b.gaveUp && b.next <= n.world.clock) && (!released ==> Unmoved(old(n.world), n.world))
  {
    KeptItself(n.world);
    err, released := NoError, false;
    if b.gaveUp {
      return GaveUpError, false;
    }
    var due := IsDue(n, b);
    if due {
      released := Release(n, p);
      err := if released then NoError else ApiError;
    }
  }

  /** ensureExisting: the pod stays and says why, or it is released and a new one is due. */
  method EnsureExisting(n: Plugin, hash: Hash, p: Pod) returns (st: State, err: Error, released: bool)
    requires n.Valid() && B.PolicyOk(n.setup.policy) && Knows(n.world, Saw(p)) && n.world.pod == Some(p) && Countable(n.world)
    modifies n
    ensures n.Valid() && Managed(old(n.world), n.world) && n.world.nextUid == old(n.world).nextUid
    ensures err == NoError || err == GaveUpError || (err == ApiError && n.world.hist.failures > old(n.world).hist.failures)
    ensures err != ApiError ==> n.world.hist.failures == old(n.world).hist.failures
    ensures (n.world.sec.value.told <==> err == GaveUpError) && (GaveUp(n.world) ==> err == GaveUpError)
    ensures err == GaveUpError ==> Finished(p, n.world.clock) && p.deletedAt.None?
    ensures released ==> err == NoError && Finished(p, n.world.clock) && n.world.pod.None? && Knows(n.world, SawAbsent)
    ensures n.world.entry.Some? && n.world.entry.value.hash == hash
    ensures released ==> n.world.entry.value.backoff.next <= n.world.clock
    // The end of a pod of the config is counted.
    ensures p.ann.hash == hash && Finished(p, old(n.world).clock) ==> n.world.entry.value.lastPod == Some(p.uid)
    ensures !released ==> st == StateOf(p).(configChanged := p.ann.hash != hash, backoff := st.backoff)
    ensures !released && err != ApiError ==> Knows(n.world, Saw(p)) && (p.inUse ==> n.world.pod.Some? && n.world.pod.value.inUse)
    ensures !p.status.Ended? && p.deletedAt.None? ==> !released && (err == NoError && n.world.pod.Some? ==> Owned(n.world, p))
    ensures old(n.script) == [] ==> n.script == [] && err != ApiError && n.world.clock == old(n.world).clock
    // If nothing else happens, it is released exactly when a new one is due.
    ensures old(n.script) == [] ==>
              && (released <==> Due(old(n.world), hash)) && (!released ==> Unmoved(old(n.world), n.world))
              && (err == GaveUpError <==> GivesUp(old(n.world), hash) && !Due(old(n.world), hash))
  {
    var b := Assess(n, hash, p);
    st := StateOf(p).(configChanged := p.ann.hash != hash, backoff := b);
    err, released := ReplaceOrKeep(n, hash, p, b);
  }

  /** A pod being deleted is waited for; once finished it is as one that exited. */
  method ReleaseDeleted(n: Plugin, hash: Hash, p: Pod, b: B.Backoff) returns (err: Error, released: bool)
    requires n.Valid() && Knows(n.world, Saw(p)) && p.deletedAt.Some? && Paid(n.world, p)
    requires n.world.entry.Some? && n.world.entry.value.hash == hash && n.world.entry.value.backoff == b
    requires n.world.sec.value.told == b.gaveUp && !b.gaveUp
    modifies n
    ensures n.Valid() && Kept(old(n.world), n.world)
    ensures err == NoError || (err == ApiError && n.world.hist.failures > old(n.world).hist.failures)
    ensures err != ApiError ==> n.world.hist.failures == old(n.world).hist.failures
    ensures released ==>
              && err == NoError && Finished(p, n.world.clock) && n.world.pod.None? && Knows(n.world, SawAbsent)
              && n.world.entry.value.backoff.next <= n.world.clock
    ensures !released && err != ApiError ==>
              Knows(n.world, Saw(p)) && (old(n.world).pod.Some? && old(n.world).pod.value.inUse ==> n.world.pod.Some? && n.world.pod.value.inUse)
    ensures old(n.script) == [] ==> n.script == [] && err != ApiError && n.world.clock == old(n.world).clock
    ensures old(n.script) == [] ==>
              && (released <==> Finished(p, n.world.clock) && b.next <= n.world.clock)
              && (!released ==> Unmoved(old(n.world), n.world))
  {
    KeptItself(n.world);
    err, released := NoError, false;
    var finished := IsFinished(n, p);
    if finished {
      err, released := ReleaseWhenDue(n, hash, p, b);
    }
  }

  /** The second half of ensureExisting: by the pod's phase. */
  method ReplaceOrKeep(n: Plugin, hash: Hash, p: Pod, b: B.Backoff) returns (err: Error, released: bool)
    requires n.Valid() && Knows(n.world, Saw(p)) && n.world.entry.Some? && n.world.entry.value.hash == hash
    requires n.world.entry.value.backoff == b && n.world.sec.value.told == b.gaveUp && (p.deletedAt.Some? || p.status.Ended? ==> Paid(n.world, p))
    requires b.gaveUp ==> Finished(p, n.world.clock) && p.deletedAt.None?
    modifies n
    ensures n.Valid() && Kept(old(n.world), n.world)
    ensures err == NoError || err == GaveUpError || (err == ApiError && n.world.hist.failures > old(n.world).hist.failures)
    ensures err != ApiError ==> n.world.hist.failures == old(n.world).hist.failures
    ensures err == GaveUpError <==> b.gaveUp
    ensures released ==> err == NoError && Finished(p, n.world.clock) && n.world.pod.None? && Knows(n.world, SawAbsent)
    ensures released ==> n.world.entry.value.backoff.next <= n.world.clock
    ensures !released && err != ApiError ==>
              Knows(n.world, Saw(p)) && (old(n.world).pod.Some? && old(n.world).pod.value.inUse ==> n.world.pod.Some? && n.world.pod.value.inUse)
    ensures !p.status.Ended? && p.deletedAt.None? ==> !released && (err == NoError && n.world.pod.Some? ==> Owned(n.world, p))
    ensures old(n.script) == [] ==> n.script == [] && err != ApiError && n.world.clock == old(n.world).clock
    ensures old(n.script) == [] ==>
              && (released <==> Finished(p, n.world.clock) && !b.gaveUp && b.next <= n.world.clock)
              && (!released ==> Unmoved(old(n.world), n.world))
  {
    KeptItself(n.world);
    err, released := NoError, false;
    match PhaseOf(p)
    case Terminating =>
      err, released := ReleaseDeleted(n, hash, p, b);
    case Exited =>
      err, released := ReleaseWhenDue(n, hash, p, b);
    case _ =>
      var ok := OwnSecret(n, p);
      err := if ok then NoError else ApiError;
  }

  // ---------------------------------------------------------------- create

  /** The entry of the config says of the last pod what it said. */
  ghost predicate SameCount(u: World, w: World, hash: Hash) {
    u.entry.Some? && u.entry.value.hash == hash ==>
      w.entry.Some? && w.entry.value.hash == hash && w.entry.value.lastPod == u.entry.value.lastPod
  }

  ghost predicate ForThisVolume(setup: Setup, spec: Spec) {
    spec.volume == setup.volume && spec.node == setup.node && spec.cache == setup.cache
  }

  method PrepareFor(n: Plugin, staging: Path) returns (ok: bool)
    requires n.Valid() && Knows(n.world, SawAbsent)
    modifies n
    ensures n.Valid() && Kept(old(n.world), n.world) && n.world.sec.value.released == old(n.world).sec.value.released
    ensures ok ==> Knows(n.world, Prepared) && n.world.hist.failures == old(n.world).hist.failures
    ensures !ok ==> n.world.hist.failures > old(n.world).hist.failures
    ensures old(n.script) == [] ==> ok && n.script == []
  {
    Quiet(n.run, n.world);
    ghost var w0 := n.world;
    ok := n.PrepareHost(staging);
    KeptStep(w0, n.before, if ok then Prepare(staging) else FailCall);
  }

  method MakeSecret(n: Plugin, spec: Spec) returns (ok: bool, s: SecretId)
    requires n.Valid() && n.world.sec.Some? && Enabled(n.world, CreateSecret(spec))
    modifies n
    ensures n.Valid() && Kept(old(n.world), n.world) && n.world.sec.value.released == old(n.world).sec.value.released
    ensures ok ==> Knows(n.world, Holding(s, spec)) && n.world.hist.failures == old(n.world).hist.failures
    ensures !ok ==> n.world.hist.failures > old(n.world).hist.failures
    ensures old(n.script) == [] ==> ok && n.script == [] && OthersKeepSecrets(old(n.world).(secrets := old(n.world).secrets[s := Secret(BuildSecret(spec), None)]), n.world, s)
  {
    Quiet(n.run, n.world);
    ghost var w0 := n.world;
    ok, s := n.PostSecret(spec);
    KeptStep(w0, n.before, if ok then CreateSecret(spec) else FailCall);
  }

  lemma AbsentStays(r: Run, w: World)
    requires Reached(r, w) && KnowsAbsent(w)
    ensures w.pod.None?
  {
    ReachedInv(r, w);
  }

  lemma MayMeansTries(r: Run, w: World)
    requires Reached(r, w) && w.sec.Some? && w.sec.value.may.Some?
    ensures w.entry.Some? && w.sec.value.may == Some(w.entry.value.hash) && !GaveUp(w)
  {
    ReachedInv(r, w);
  }

  /** The state is that of a new pod of the spec, on its staging path, which owns its Secret. */
  ghost predicate IsNew(u: World, w: World, st: State, spec: Spec) {
    && st.phase.Pending? && st.pod.Some? && Knows(w, Saw(st.pod.value)) && w.pod.Some? && w.pod.value.inUse
    && st.pod.value.uid == u.nextUid && st.pod.value.ann.hash == SpecHash(w, spec) && st.phase == PhaseOf(st.pod.value)
    && st.staging == spec.staging == st.pod.value.ann.staging && !st.configChanged && Owned(w, st.pod.value)
  }

  predicate AllOwned(w: World) { forall s :: s in w.secrets ==> w.secrets[s].owner.Some? }

  /** What Ensure does when nothing else happens: a new pod is there exactly when one was due; otherwise the pod object is
      as it was, and the state says what it is; a give-up is told unless it starts over. */
  ghost predicate Ensured(u: World, w: World, spec: Spec, hash: Hash, st: State, err: Error) {
    && (err == NoError || err == GaveUpError)
    && (err == GaveUpError <==> GivesUp(u, hash) && !Due(u, hash))
    && (if Due(u, hash) then IsNew(u, w, st, spec) && w.pod == st.pod && w.nextUid == u.nextUid + 1 && AllOwned(w)
        else Unmoved(u, w) && w.nextUid == u.nextUid &&
             (err == NoError ==> st.pod == u.pod && st.phase == if u.pod.Some? then PhaseOf(u.pod.value) else Absent))
  }

  /** The pod is created: its annotations are the spec's, its UID is new. */
  method MakePod(n: Plugin, spec: Spec, s: SecretId) returns (c: Creation)
    requires n.Valid() && Knows(n.world, Holding(s, spec)) && n.world.sec.value.may == Some(HashOf(n.setup.cfg, spec))
    requires Free(n.world)
    modifies n
    ensures n.Valid() && Managed(old(n.world), n.world) && EntryKept(old(n.world), n.world)
    ensures !c.AlreadyExists? && !n.world.sec.value.told
    ensures n.world.sec.value.released == old(n.world).sec.value.released
    ensures c.CreationFailed? ==> Kept(old(n.world), n.world) && n.world.sec == old(n.world).sec
    ensures c.CreationFailed? ==> n.world.hist.failures > old(n.world).hist.failures
    ensures c.Created? ==>
              && Knows(n.world, Saw(c.pod)) && n.world.pod == Some(c.pod) && n.world.hist.failures == old(n.world).hist.failures
              && c.pod == Pod(old(n.world).nextUid, BuildPod(n.setup.cfg, spec, s), Waiting, None, true)
              && n.world.nextUid == old(n.world).nextUid + 1
    ensures old(n.script) == [] ==> c.Created? && n.script == [] && n.world.secrets == old(n.world).secrets
  {
    Quiet(n.run, n.world);
    AbsentStays(n.run, n.world);
    ghost var w0 := n.world;
    c := n.PostPod(spec, s);
    KeptMeanwhile(w0, n.before);
    if c.CreationFailed? {
      KeptStep(w0, n.before, FailCall);
    }
  }

  /** The pod made from the spec, once it owns its Secret. */
  lemma AdoptedIsNew(u: World, made: World, w: World, st: State, spec: Spec, s: SecretId, p: Pod)
    requires Managed(u, made) && Managed(made, w)
    requires p == Pod(u.nextUid, BuildPod(u.setup.cfg, spec, s), Waiting, None, true) && st == StateOf(p).(backoff := st.backoff)
    ensures Knows(w, Saw(p)) && w.pod.Some? && w.pod.value.inUse && Owned(w, p) ==> IsNew(u, w, st, spec)
    ensures OthersOwned(made, s) && OthersKeepSecrets(made, w, s) && Owned(w, p) ==> AllOwned(w)
  {}

  /** The end of create, once the Secret is there. */
  method CreateWith(n: Plugin, spec: Spec, s: SecretId, hash: Hash) returns (st: State, err: Error)
    requires n.Valid() && Knows(n.world, Holding(s, spec)) && hash == HashOf(n.setup.cfg, spec)
    requires n.world.sec.value.may == Some(hash) && Free(n.world)
    modifies n
    ensures n.Valid() && Managed(old(n.world), n.world) && n.world.nextUid <= old(n.world).nextUid + 1
    ensures !n.world.sec.value.told && !GaveUp(n.world)
    ensures SameCount(old(n.world), n.world, hash)
    ensures err == NoError || (err == ApiError && n.world.hist.failures > old(n.world).hist.failures)
    ensures err == NoError ==> IsNew(old(n.world), n.world, st, spec)
    ensures old(n.script) == [] ==> err == NoError && n.script == []
    ensures old(n.script) == [] ==>
              n.world.pod == st.pod && n.world.nextUid == old(n.world).nextUid + 1 && (OthersOwned(old(n.world), s) ==> AllOwned(n.world))
  {
    MayMeansTries(n.run, n.world);
    var c := MakePod(n, spec, s);
    if c.Created? {
      ghost var made := n.world;
      st, err := AdoptSecret(n, c.pod, hash);
      AdoptedIsNew(old(n.world), made, n.world, st, spec, s, c.pod);
    } else {
      st, err := Abandon(n, s, hash, c);
    }
  }

  /** The Secret of a pod that was not created goes. */
  method Abandon(n: Plugin, s: SecretId, hash: Hash, c: Creation) returns (st: State, err: Error)
    requires n.Valid() && KnowsAbsent(n.world) && !n.world.sec.value.told && !GaveUp(n.world) && !c.Created?
    modifies n
    ensures n.Valid() && Managed(old(n.world), n.world) && n.world.nextUid == old(n.world).nextUid
    ensures !n.world.sec.value.told && !GaveUp(n.world) && SameCount(old(n.world), n.world, hash)
    ensures st == NOTHING.(phase := if c.AlreadyExists? then Phase.Terminating else Absent)
    ensures err == if c.AlreadyExists? then NoError else ApiError
    ensures old(n.script) == [] ==> n.script == []
  {
    DropOneSecret(n, s);
    st := NOTHING.(phase := if c.AlreadyExists? then Phase.Terminating else Absent);
    err := if c.AlreadyExists? then NoError else ApiError;
  }

  /** The end of create: the state of the pod, which becomes the owner of its Secret. */
  method AdoptSecret(n: Plugin, p: Pod, hash: Hash) returns (st: State, err: Error)
    requires n.Valid() && Knows(n.world, Saw(p)) && n.world.pod == Some(p) && p.inUse && Free(n.world)
    requires n.world.entry.Some? && n.world.entry.value.hash == hash && !GaveUp(n.world)
    modifies n
    ensures n.Valid() && Managed(old(n.world), n.world) && n.world.nextUid == old(n.world).nextUid
    ensures !n.world.sec.value.told && !GaveUp(n.world) && SameCount(old(n.world), n.world, hash)
    ensures err == NoError || (err == ApiError && n.world.hist.failures > old(n.world).hist.failures)
    ensures st == StateOf(p).(backoff := st.backoff)
    ensures err == NoError ==> Knows(n.world, Saw(p)) && n.world.pod.Some? && n.world.pod.value.inUse && Owned(n.world, p)
    ensures old(n.script) == [] ==> err == NoError && n.script == [] && n.world.pod == old(n.world).pod && OthersKeepSecrets(old(n.world), n.world, p.ann.secret)
  {
    var b := ReadBackoff(n, hash);
    st := StateOf(p).(backoff := b);
    var ok := OwnSecret(n, p);
    err := if ok then NoError else ApiError;
  }

  /** No Secret is left over from a creation that failed midway, but for the one given. */
  predicate OthersOwned(w: World, s: SecretId) { forall x :: x in w.secrets ==> x == s || w.secrets[x].owner.Some? }

  /** Prepare, the Secrets left over, and the next pod's own. */
  method PrepareSecret(n: Plugin, spec: Spec) returns (ok: bool, s: SecretId)
    requires n.Valid() && Knows(n.world, SawAbsent) && SpecOk(n.setup.cfg, spec) && ForThisVolume(n.setup, spec) && Serves(n.world, spec)
    modifies n
    ensures n.Valid() && Kept(old(n.world), n.world) && n.world.sec.value.released == old(n.world).sec.value.released
    ensures ok ==> Knows(n.world, Holding(s, spec))
    ensures !ok ==> n.world.hist.failures > old(n.world).hist.failures
    ensures old(n.script) == [] ==> ok && n.script == [] && OthersOwned(n.world, s)
  {
    s := 0;
    ok := PrepareFor(n, spec.staging);
    if ok {
      ok := DeleteSecrets(n, true);
    }
    if ok {
      ok, s := MakeSecret(n, spec);
    }
  }

  /** create, once the pod is known to be absent. */
  method CreatePrepared(n: Plugin, spec: Spec, hash: Hash) returns (st: State, err: Error)
    requires n.Valid() && Knows(n.world, SawAbsent) && SpecOk(n.setup.cfg, spec) && hash == HashOf(n.setup.cfg, spec)
    requires ForThisVolume(n.setup, spec) && Serves(n.world, spec)
    requires n.world.sec.value.may == Some(hash) && Free(n.world) && !GaveUp(n.world)
    modifies n
    ensures n.Valid() && Managed(old(n.world), n.world) && n.world.nextUid <= old(n.world).nextUid + 1
    ensures !n.world.sec.value.told && !GaveUp(n.world)
    ensures SameCount(old(n.world), n.world, hash)
    ensures err == NoError || (err == ApiError && n.world.hist.failures > old(n.world).hist.failures)
    ensures err == NoError ==> IsNew(old(n.world), n.world, st, spec)
    ensures old(n.script) == [] ==> err == NoError && n.script == []
    ensures old(n.script) == [] ==> n.world.pod == st.pod && n.world.nextUid == old(n.world).nextUid + 1 && AllOwned(n.world)
  {
    var ok, s := PrepareSecret(n, spec);
    if !ok {
      return NOTHING, ApiError;
    }
    st, err := CreateWith(n, spec, s, hash);
  }

  /** create: Prepare, the Secret, then the pod that names it. */
  method Create(n: Plugin, spec: Spec, hash: Hash) returns (st: State, err: Error)
    requires n.Valid() && KnowsAbsent(n.world) && SpecOk(n.setup.cfg, spec) && hash == HashOf(n.setup.cfg, spec)
    requires ForThisVolume(n.setup, spec) && Serves(n.world, spec)
    requires n.world.sec.value.may == Some(hash) && Free(n.world)
    modifies n
    ensures n.Valid() && Managed(old(n.world), n.world) && n.world.nextUid <= old(n.world).nextUid + 1
    ensures !n.world.sec.value.told && !GaveUp(n.world)
    ensures SameCount(old(n.world), n.world, hash)
    ensures err == NoError || (err == ApiError && n.world.hist.failures > old(n.world).hist.failures)
    ensures err == NoError ==> IsNew(old(n.world), n.world, st, spec)
    ensures old(n.script) == [] ==> err == NoError && n.script == []
    ensures old(n.script) == [] ==> n.world.pod == st.pod && n.world.nextUid == old(n.world).nextUid + 1 && AllOwned(n.world)
  {
    MayMeansTries(n.run, n.world);
    var ok, found := FindPod(n);
    if !ok {
      return NOTHING, ApiError;
    }
    if found.Some? {
      st, err := StateOf(found.value).(configChanged := found.value.ann.hash != hash), NoError;
      assert false by { AbsentStays(old(n.run), old(n.world)); } // no pod can have shown up
      return;
    }
    st, err := CreatePrepared(n, spec, hash);
  }

  // ---------------------------------------------------------------- Ensure

  /** The end of Ensure, with no pod: the restart state decides. */
  method CreateWhenDue(n: Plugin, spec: Spec, hash: Hash) returns (st: State, err: Error)
    requires n.Valid() && Knows(n.world, SawAbsent) && SpecOk(n.setup.cfg, spec) && hash == HashOf(n.setup.cfg, spec)
    requires ForThisVolume(n.setup, spec) && Serves(n.world, spec) && Free(n.world) && !Owed(n.world)
    modifies n
    ensures n.Valid() && Managed(old(n.world), n.world) && n.world.nextUid <= old(n.world).nextUid + 1
    ensures SameCount(old(n.world), n.world, hash)
    ensures err == NoError || err == GaveUpError || (err == ApiError && n.world.hist.failures > old(n.world).hist.failures)
    ensures (n.world.sec.value.told <==> err == GaveUpError) && (GaveUp(n.world) ==> err == GaveUpError)
    ensures err == NoError ==> st.staging == spec.staging && !st.configChanged && (st.phase.Absent? || st.phase.Pending?)
    ensures err == GaveUpError ==> n.world.pod.None?
    // No pod is created before the restart time, nor after a give-up of this config.
    ensures st.phase.Absent? || err == GaveUpError ==> n.world.nextUid == old(n.world).nextUid || err == ApiError
    ensures err == NoError && st.phase.Absent? ==> st.pod.None?
    ensures err == NoError && st.phase.Pending? ==> IsNew(old(n.world), n.world, st, spec)
    // A pod that was due is created.
    ensures old(n.world).entry.Some? && old(n.world).entry.value.hash == hash && !GaveUp(old(n.world)) &&
            old(n.world).entry.value.backoff.next <= old(n.world).clock && err != ApiError ==>
              err == NoError && st.phase.Pending?
    ensures old(n.script) == [] && old(n.world).entry.None? ==> err == NoError && st.phase.Pending?
    ensures old(n.script) == [] ==> n.script == [] && Ensured(old(n.world), n.world, spec, hash, st, err)
  {
    AbsentStays(n.run, n.world);
    var b := ReadBackoff(n, hash);
    if b.gaveUp {
      return State(Absent, None, spec.staging, false, b), GaveUpError;
    }
    st, err := CreateIfDue(n, spec, hash, b);
  }

  /** A pod that has not given up is created once its time has come. */
  method CreateIfDue(n: Plugin, spec: Spec, hash: Hash, b: B.Backoff) returns (st: State, err: Error)
    requires n.Valid() && Knows(n.world, SawAbsent) && SpecOk(n.setup.cfg, spec) && hash == HashOf(n.setup.cfg, spec)
    requires ForThisVolume(n.setup, spec) && Serves(n.world, spec) && Free(n.world)
    requires n.world.entry.Some? && n.world.entry.value.hash == hash && n.world.entry.value.backoff == b && !b.gaveUp
    modifies n
    ensures n.Valid() && Managed(old(n.world), n.world) && n.world.nextUid <= old(n.world).nextUid + 1
    ensures !n.world.sec.value.told && !GaveUp(n.world) && SameCount(old(n.world), n.world, hash)
    ensures err == NoError || (err == ApiError && n.world.hist.failures > old(n.world).hist.failures)
    ensures err == NoError ==> st.staging == spec.staging && !st.configChanged && (st.phase.Absent? || st.phase.Pending?)
    ensures err == NoError && st.phase.Absent? ==> st.pod.None? && n.world.nextUid == old(n.world).nextUid
    ensures err == NoError && st.phase.Pending? ==> IsNew(old(n.world), n.world, st, spec)
    ensures err == NoError && b.next <= old(n.world).clock ==> st.phase.Pending?
    ensures old(n.script) == [] ==> n.script == [] && err == NoError
    ensures old(n.script) == [] ==>
              if b.next <= old(n.world).clock then st.phase.Pending? && n.world.pod == st.pod && n.world.nextUid == old(n.world).nextUid + 1 && AllOwned(n.world)
              else st.phase.Absent? && Unmoved(old(n.world), n.world)
  {
    var due := IsDue(n, b);
    if !due {
      return State(Absent, None, spec.staging, false, b), NoError;
    }
    st, err := CreateNow(n, spec, hash);
  }

  /** create, the restart state allowing it. */
  method CreateNow(n: Plugin, spec: Spec, hash: Hash) returns (st: State, err: Error)
    requires n.Valid() && Knows(n.world, SawAbsent) && SpecOk(n.setup.cfg, spec) && hash == HashOf(n.setup.cfg, spec)
    requires ForThisVolume(n.setup, spec) && Serves(n.world, spec) && Enabled(n.world, Permit(hash)) && Free(n.world)
    modifies n
    ensures n.Valid() && Managed(old(n.world), n.world) && n.world.nextUid <= old(n.world).nextUid + 1
    ensures !n.world.sec.value.told && !GaveUp(n.world)
    ensures SameCount(old(n.world), n.world, hash)
    ensures err == NoError || (err == ApiError && n.world.hist.failures > old(n.world).hist.failures)
    ensures err == NoError ==> IsNew(old(n.world), n.world, st, spec)
    ensures old(n.script) == [] ==> err == NoError && n.script == []
    ensures old(n.script) == [] ==> n.world.pod == st.pod && n.world.nextUid == old(n.world).nextUid + 1 && AllOwned(n.world)
  {
    ghost var w1 := n.world;
    n.Take(Permit(hash));
    assert Managed(w1, n.world) && EntryKept(w1, n.world);
    st, err := Create(n, spec, hash);
  }

  /** Ensure. */
  method Ensure(n: Plugin, spec: Spec) returns (st: State, err: Error)
    requires n.Valid() && B.PolicyOk(n.setup.policy) && n.world.sec.Some? && AtEase(n.world)
    requires ForThisVolume(n.setup, spec) && Serves(n.world, spec)
    modifies n
    ensures n.Valid() && Managed(old(n.world), n.world) && n.world.nextUid <= old(n.world).nextUid + 1
    ensures err == InvalidSpec <==> !SpecOk(n.setup.cfg, spec)
    ensures err == InvalidSpec ==> n.world == old(n.world)
    ensures err == ApiError ==> n.world.hist.failures > old(n.world).hist.failures
    ensures n.world.sec.value.told <==> err == GaveUpError
    ensures GaveUp(n.world) ==> err == GaveUpError || ((err == ApiError || err == InvalidSpec) && GaveUp(old(n.world)))
    // A give-up creates nothing, and leaves no unfinished pod.
    ensures err == GaveUpError ==> n.world.nextUid == old(n.world).nextUid && (n.world.pod.Some? ==> Finished(n.world.pod.value, n.world.clock))
    // The record of a staged volume is not dropped: while no call fails, a pod object remains.
    ensures n.world.hist.failures == old(n.world).hist.failures && old(n.world).pod.Some? && old(n.world).pod.value.inUse ==>
              n.world.pod.Some? && n.world.pod.value.inUse
    // The end of a pod of spec's config is counted, whatever becomes of the pod.
    ensures (err == NoError || err == GaveUpError) && old(n.world).pod.Some? && old(n.world).pod.value.inUse &&
            Finished(old(n.world).pod.value, old(n.world).clock) && old(n.world).pod.value.ann.hash == HashOf(n.setup.cfg, spec) ==>
              && n.world.entry.Some? && n.world.entry.value.hash == HashOf(n.setup.cfg, spec)
              && n.world.entry.value.lastPod == Some(old(n.world).pod.value.uid)
    // What is left is what the state says.
    ensures err == NoError && st.pod.None? ==> st.phase.Absent?
    ensures err == NoError && st.pod.Some? ==>
              && Knows(n.world, Saw(st.pod.value)) && st.phase == PhaseOf(st.pod.value) && st.staging == st.pod.value.ann.staging
              && st.configChanged == (st.pod.value.ann.hash != HashOf(n.setup.cfg, spec))
    // A pod created runs spec's config on spec's staging path.
    ensures err == NoError && n.world.nextUid > old(n.world).nextUid ==>
              && st.phase.Pending? && st.pod.value.uid == old(n.world).nextUid && !st.configChanged && st.staging == spec.staging
    ensures err == NoError && (st.phase.Pending? || st.phase.Running?) && n.world.pod.Some? ==> Owned(n.world, st.pod.value)
    // If nothing else happens: replaced, kept or given up, and when.
    ensures old(n.script) == [] ==>
              n.script == [] && (SpecOk(n.setup.cfg, spec) ==> Ensured(old(n.world), n.world, spec, HashOf(n.setup.cfg, spec), st, err))
  {
    if !Complete(spec) || !StagingOk(n.setup.cfg, spec.staging) {
      return NOTHING, InvalidSpec;
    }
    var hash := HashOf(n.setup.cfg, spec);
    ghost var w0 := n.world;
    var ok, found := LookUp(n);
    if !ok {
      return NOTHING, ApiError;
    }
    ghost var w1 := n.world;
    st, err := EnsureFound(n, spec, hash, found);
    if old(n.script) == [] {
      EnsuredSince(w0, w1, n.world, spec, hash, st, err);
    }
  }

  /** The pod found is the one that was there, and as finished. */
  method LookUp(n: Plugin) returns (ok: bool, found: Option<Pod>)
    requires n.Valid() && n.world.sec.Some? && AtEase(n.world)
    modifies n
    ensures n.Valid() && Managed(old(n.world), n.world) && n.world.nextUid == old(n.world).nextUid && !n.world.sec.value.told
    ensures GaveUp(n.world) ==> GaveUp(old(n.world))
    ensures ok ==>
              && Countable(n.world) && n.world.pod == found && n.world.hist.failures == old(n.world).hist.failures
              && Knows(n.world, if found.Some? then Saw(found.value) else SawAbsent)
    ensures !ok ==> n.world.hist.failures > old(n.world).hist.failures
    ensures old(n.world).pod.Some? && old(n.world).pod.value.inUse ==> n.world.pod.Some? && n.world.pod.value.inUse
    ensures ok && found.Some? ==>
              var p := old(n.world).pod;
              && p.Some? && found.value.uid == p.value.uid && found.value.ann == p.value.ann
              && (Finished(p.value, old(n.world).clock) ==> Finished(found.value, n.world.clock))
    ensures old(n.script) == [] ==> ok && n.script == [] && n.world == old(n.world).(sec := n.world.sec)
  {
    ghost var w0 := n.world;
    Quiet(n.run, w0);
    ok, found := FindPod(n);
    if ok {
      FoundIs(w0, n.world);
    }
  }

  lemma EnsuredSince(u: World, v: World, w: World, spec: Spec, hash: Hash, st: State, err: Error)
    requires v == u.(sec := v.sec) && Ensured(v, w, spec, hash, st, err)
    ensures Ensured(u, w, spec, hash, st, err)
  {}

  lemma FoundIs(u: World, w: World)
    requires Quiescent(u) && AtEase(u) && Kept(u, w) && (w.pod.Some? ==> u.pod.Some? && Evolves(u.pod.value, w.pod.value))
    requires Knows(w, if w.pod.Some? then Saw(w.pod.value) else SawAbsent)
    ensures Countable(w)
    ensures w.pod.Some? ==> w.pod.value.uid == u.pod.value.uid && w.pod.value.ann == u.pod.value.ann
    ensures w.pod.Some? && Finished(u.pod.value, u.clock) ==> Finished(w.pod.value, w.clock)
  {}

  /** Ensure, once the pod was looked up. */
  method EnsureFound(n: Plugin, spec: Spec, hash: Hash, found: Option<Pod>) returns (st: State, err: Error)
    requires n.Valid() && B.PolicyOk(n.setup.policy) && Countable(n.world) && n.world.pod == found
    requires Knows(n.world, if found.Some? then Saw(found.value) else SawAbsent)
    requires SpecOk(n.setup.cfg, spec) && ForThisVolume(n.setup, spec) && Serves(n.world, spec) && hash == HashOf(n.setup.cfg, spec)
    modifies n
    ensures n.Valid() && Managed(old(n.world), n.world) && n.world.nextUid <= old(n.world).nextUid + 1
    ensures err == NoError || err == GaveUpError || (err == ApiError && n.world.hist.failures > old(n.world).hist.failures)
    ensures (n.world.sec.value.told <==> err == GaveUpError) && (GaveUp(n.world) ==> err == GaveUpError)
    ensures err == GaveUpError ==> n.world.nextUid == old(n.world).nextUid && (n.world.pod.Some? ==> Finished(n.world.pod.value, n.world.clock))
    ensures n.world.hist.failures == old(n.world).hist.failures && found.Some? && found.value.inUse ==>
              n.world.pod.Some? && n.world.pod.value.inUse
    ensures found.Some? && found.value.ann.hash == hash && Finished(found.value, old(n.world).clock) ==>
              n.world.entry.Some? && n.world.entry.value.hash == hash && n.world.entry.value.lastPod == Some(found.value.uid)
    ensures err == NoError && st.pod.None? ==> st.phase.Absent?
    ensures err == NoError && st.pod.Some? ==>
              && Knows(n.world, Saw(st.pod.value)) && st.phase == PhaseOf(st.pod.value) && st.staging == st.pod.value.ann.staging
              && st.configChanged == (st.pod.value.ann.hash != hash)
    ensures err == NoError && n.world.nextUid > old(n.world).nextUid ==>
              && st.phase.Pending? && st.pod.value.uid == old(n.world).nextUid && !st.configChanged && st.staging == spec.staging
    ensures err == NoError && (st.phase.Pending? || st.phase.Running?) && n.world.pod.Some? ==> Owned(n.world, st.pod.value)
    ensures old(n.script) == [] ==> n.script == [] && Ensured(old(n.world), n.world, spec, hash, st, err)
  {
    if found.Some? {
      var released;
      st, err, released := EnsureExisting(n, hash, found.value);
      if !released {
        if err == GaveUpError && n.world.pod.Some? {
          SawEvolves(n.run, n.world, found.value);
        }
        return;
      }
    }
    st, err := CreateWhenDue(n, spec, hash);
  }
}
