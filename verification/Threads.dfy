/** Any number of threads of the node plugin on any number of volumes: the steps of keyLock, and between Lock and
    unlock the steps of a section on the volume of the key. A thread opens its section without looking whether
    another one is open: that there is none is what the lock is for. */
module Threads {
  import opened Base
  import K = KeyLock
  import M = Machine
  import S = Safety

  /** open: the threads in the middle of a section. last: who opened the section that is open on a volume. */
  datatype State = State(lock: K.State, volumes: map<VolumeId, M.World>, open: set<K.ThreadId>, last: map<VolumeId, K.ThreadId>)

  datatype Move =
    | Locking(c: K.Choice)                       // a step of Lock or unlock
    | Opening(t: K.ThreadId, kind: M.Kind)       // the section starts
    | Working(t: K.ThreadId, d: M.DriverAction)  // one of its steps; Leave ends it
    | Happening(v: VolumeId, e: M.EnvAction)     // the environment of a volume

  /** The volume that thread t has locked. */
  predicate Locked(s: State, t: K.ThreadId, v: VolumeId) {
    t in s.lock.threads && s.lock.threads[t].Inside? && s.lock.threads[t].key == v && v in s.volumes
  }

  function Volume(s: State, t: K.ThreadId): VolumeId
    requires t in s.lock.threads && s.lock.threads[t].Inside?
  {
    s.lock.threads[t].key
  }

  predicate CanMove(s: State, m: Move) {
    match m
    case Locking(c) => K.Enabled(s.lock, c) && c.t !in s.open
    case Opening(t, kind) =>
      t in s.lock.threads && s.lock.threads[t].Inside? && t !in s.open && Volume(s, t) in s.volumes &&
      M.Called(s.volumes[Volume(s, t)], kind)
    case Working(t, d) =>
      t in s.open && t in s.lock.threads && s.lock.threads[t].Inside? && Volume(s, t) in s.volumes &&
      !d.Enter? && M.Enabled(s.volumes[Volume(s, t)], d)
    case Happening(v, _) => v in s.volumes
  }

  function Next(s: State, m: Move): State
    requires CanMove(s, m)
  {
    match m
    case Locking(c) => s.(lock := K.Next(s.lock, c))
    case Opening(t, kind) =>
      var v := Volume(s, t);
      s.(volumes := s.volumes[v := M.Opened(s.volumes[v], kind)], open := s.open + {t}, last := s.last[v := t])
    case Working(t, d) =>
      var v := Volume(s, t);
      s.(volumes := s.volumes[v := M.DriverStep(s.volumes[v], d)], open := if d.Leave? then s.open - {t} else s.open,
         last := if d.Leave? then s.last - {v} else s.last)
    case Happening(v, e) => s.(volumes := s.volumes[v := M.EnvStep(s.volumes[v], e)])
  }

  datatype Run = Start(threads: set<K.ThreadId>, volumes: map<VolumeId, M.World>) | Then(prev: Run, m: Move)

  predicate Valid(r: Run)
    decreases r, 0
  {
    match r
    case Start(_, vs) => forall v :: v in vs ==> M.Initial(vs[v])
    case Then(p, m) => Valid(p) && CanMove(Last(p), m)
  }

  function Last(r: Run): State
    requires Valid(r)
    decreases r, 1
  {
    match r
    case Start(ts, vs) => State(K.Initial(ts), vs, {}, map[])
    case Then(p, m) => Next(Last(p), m)
  }

  // ---------------------------------------------------------------- one section per volume

  predicate SameInside(p: K.Pc, q: K.Pc) { p.Inside? && q.Inside? && p.key == q.key }

  /** The lock's mutual exclusion. */
  ghost predicate OneInside(lock: K.State) {
    forall t, u :: t in lock.threads && u in lock.threads && SameInside(lock.threads[t], lock.threads[u]) ==> t == u
  }

  lemma LockInv(lock: K.State)
    requires K.Inv(lock)
    ensures OneInside(lock)
  {
    forall t, u | t in lock.threads && u in lock.threads && SameInside(lock.threads[t], lock.threads[u]) ensures t == u
    {
      assert lock.heap[lock.threads[t].e].owner == Some(t);
    }
  }

  /** The lock moves one thread at a time. */
  lemma LockMoves(lock: K.State, c: K.Choice)
    requires K.Enabled(lock, c)
    ensures K.Next(lock, c).threads == lock.threads[c.t := K.Next(lock, c).threads[c.t]]
  {}

  /** A section is open on a volume exactly while the thread that opened it last is in the middle of it, inside. */
  ghost predicate Exclusive(s: State) {
    && s.last.Keys <= s.volumes.Keys
    && (forall v :: v in s.volumes ==> (s.volumes[v].sec.Some? <==> v in s.last))
    && (forall v :: v in s.last ==> s.last[v] in s.open && Locked(s, s.last[v], v))
    && (forall t :: t in s.open ==>
          t in s.lock.threads && s.lock.threads[t].Inside? && Volume(s, t) in s.last && s.last[Volume(s, t)] == t)
  }

  lemma LockingKeepsExclusive(s: State, c: K.Choice)
    requires Exclusive(s) && CanMove(s, Locking(c))
    ensures Exclusive(Next(s, Locking(c)))
  {
    LockMoves(s.lock, c);
  }

  /** Whenever a thread may open a section, none is open on its volume. */
  lemma NoneOpen(s: State, t: K.ThreadId, kind: M.Kind)
    requires Exclusive(s) && OneInside(s.lock) && CanMove(s, Opening(t, kind))
    ensures s.volumes[Volume(s, t)].sec.None? && Volume(s, t) !in s.last
  {
    var v := Volume(s, t);
    assert v in s.last ==> Locked(s, s.last[v], v) && SameInside(s.lock.threads[t], s.lock.threads[s.last[v]]);
  }

  lemma OpeningKeepsExclusive(s: State, t: K.ThreadId, kind: M.Kind)
    requires Exclusive(s) && OneInside(s.lock) && CanMove(s, Opening(t, kind))
    ensures Exclusive(Next(s, Opening(t, kind)))
  {
    NoneOpen(s, t, kind);
    var s', v := Next(s, Opening(t, kind)), Volume(s, t);
    assert Locked(s', t, v);
    forall x | x in s'.last && x != v ensures s'.last[x] in s'.open && Locked(s', s'.last[x], x) {
      assert Locked(s, s.last[x], x);
    }
  }

  lemma OnlyLeaveCloses(w: M.World, d: M.DriverAction)
    requires M.Enabled(w, d) && !d.Enter?
    ensures w.sec.Some? && (M.DriverStep(w, d).sec.None? <==> d.Leave?)
  {
    match d
    case UseConfig(_) =>
    case CountExit(_, _) =>
    case StartOver(_) =>
    case CreatePod =>
    case StopPod(_, _) =>
    case DeleteNow =>
    case _ =>
  }

  lemma WorkingKeepsExclusive(s: State, t: K.ThreadId, d: M.DriverAction)
    requires Exclusive(s) && CanMove(s, Working(t, d))
    ensures Exclusive(Next(s, Working(t, d)))
  {
    var s', v := Next(s, Working(t, d)), Volume(s, t);
    OnlyLeaveCloses(s.volumes[v], d);
    forall x | x in s'.last ensures s'.last[x] in s'.open && Locked(s', s'.last[x], x) {
      assert Locked(s, s.last[x], x);
    }
    forall u | u in s'.open
      ensures u in s'.lock.threads && s'.lock.threads[u].Inside? && Volume(s', u) in s'.last && s'.last[Volume(s', u)] == u
    {
      assert u in s.open && s.last[Volume(s, u)] == u;
    }
  }

  lemma HappeningKeepsExclusive(s: State, v: VolumeId, e: M.EnvAction)
    requires Exclusive(s) && CanMove(s, Happening(v, e))
    ensures Exclusive(Next(s, Happening(v, e)))
  {
    var s' := Next(s, Happening(v, e));
    S.EnvMeanwhile(s.volumes[v], e);
    assert s'.volumes[v].sec == s.volumes[v].sec;
    forall x | x in s'.last ensures s'.last[x] in s'.open && Locked(s', s'.last[x], x) {
      assert Locked(s, s.last[x], x);
    }
  }

  lemma {:induction false} LockRuns(r: Run)
    requires Valid(r)
    ensures K.Inv(Last(r).lock)
  {
    if r.Then? {
      LockRuns(r.prev);
      if r.m.Locking? {
        K.StepKeepsInv(Last(r.prev).lock, r.m.c);
      }
    }
  }

  lemma {:induction false} RunKeepsExclusive(r: Run)
    requires Valid(r)
    ensures Exclusive(Last(r))
  {
    match r
    case Start(_, _) =>
    case Then(p, m) =>
      RunKeepsExclusive(p);
      match m
      case Locking(c) => LockingKeepsExclusive(Last(p), c);
      case Opening(t, kind) =>
        assert OneInside(Last(p).lock) by { LockRuns(p); LockInv(Last(p).lock); }
        OpeningKeepsExclusive(Last(p), t, kind);
      case Working(t, d) => WorkingKeepsExclusive(Last(p), t, d);
      case Happening(v, e) => HappeningKeepsExclusive(Last(p), v, e);
  }

  /** Whenever a thread opens a section, none is open on its volume: the machine's step is possible. */
  lemma SectionsAreAlone(r: Run, t: K.ThreadId, kind: M.Kind)
    requires Valid(r) && CanMove(Last(r), Opening(t, kind))
    ensures M.Enabled(Last(r).volumes[Volume(Last(r), t)], M.Enter(kind))
  {
    RunKeepsExclusive(r);
    assert OneInside(Last(r).lock) by { LockRuns(r); LockInv(Last(r).lock); }
    NoneOpen(Last(r), t, kind);
  }

  // ---------------------------------------------------------------- each volume on its own

  /** What happens to one volume, however many threads and volumes there are, is a run of the machine: every theorem
      about its runs holds for each volume of the node. */
  lemma {:induction false} VolumeRuns(r: Run, v: VolumeId) returns (run: M.Run)
    requires Valid(r) && v in Last(r).volumes
    ensures M.Valid(run) && M.Last(run) == Last(r).volumes[v]
  {
    match r
    case Start(_, vs) => run := M.Begin(vs[v]);
    case Then(p, m) =>
      run := VolumeRuns(p, v);
      match m
      case Locking(_) =>
      case Opening(t, kind) =>
        SectionsAreAlone(p, t, kind);
        if Volume(Last(p), t) == v {
          run := M.Then(run, M.Driver(M.Enter(kind)));
        }
      case Working(t, d) =>
        if Volume(Last(p), t) == v {
          run := M.Then(run, M.Driver(d));
        }
      case Happening(x, e) =>
        if x == v {
          run := M.Then(run, M.Env(e));
        }
  }

  /** With any number of threads, one section at a time is open on a volume, Prepare never runs while a pod object of
      the volume exists, and a creation never meets one. */
  lemma OneCreationAtATime(r: Run, t: K.ThreadId, u: K.ThreadId, v: VolumeId, staging: Path)
    requires Valid(r) && t in Last(r).open && u in Last(r).open && Locked(Last(r), t, v) && Locked(Last(r), u, v)
    ensures t == u
    ensures M.Enabled(Last(r).volumes[v], M.Prepare(staging)) || M.Enabled(Last(r).volumes[v], M.CreatePod) ==>
              Last(r).volumes[v].pod.None?
  {
    assert t == u by { RunKeepsExclusive(r); }
    var run := VolumeRuns(r, v);
    assert S.Truthful(M.Last(run)) by { S.RunKeepsInv(run); }
  }
}
