/** The reference-counted lock map of the node plugin (internal/driver/keylock.go), as the
    small steps of any number of threads. One step is one action on shared memory: taking or
    leaving l.mu, the map lookup or insertion, refs++, refs--, the deletion, an entry's mutex. */
module KeyLock {
  import opened Base

  type ThreadId = nat
  type Key = string
  type EntryId = nat

  datatype Pc =
    | Idle
    | Entering(key: Key)              // in Lock, waits for l.mu
    | Looking(key: Key)               // holds l.mu, looks the key up
    | Counting(key: Key, e: EntryId)  // holds l.mu, about to do refs++
    | Counted(key: Key, e: EntryId)   // holds l.mu, about to leave it
    | Waiting(key: Key, e: EntryId)   // waits for the entry's mutex
    | Inside(key: Key, e: EntryId)    // Lock returned: the critical section
    | Returning(key: Key, e: EntryId) // left the entry's mutex, waits for l.mu
    | Dropping(key: Key, e: EntryId)  // holds l.mu, about to do refs--
    | Pruning(key: Key, e: EntryId)   // holds l.mu, deletes the key if refs is 0
    | Leaving(key: Key)               // holds l.mu, about to leave it

  datatype Entry = Entry(refs: int, owner: Option<ThreadId>)

  datatype State = State(
    threads: map<ThreadId, Pc>,
    mu: Option<ThreadId>,
    locks: map<Key, EntryId>,
    heap: map<EntryId, Entry>)

  /** What a step leaves open: the key an idle thread asks for, the address of a new entry. */
  datatype Choice = Choice(t: ThreadId, key: Key, unused: EntryId)

  predicate HoldsMu(pc: Pc) {
    pc.Looking? || pc.Counting? || pc.Counted? || pc.Dropping? || pc.Pruning? || pc.Leaving?
  }

  /** Between refs++ and refs--. */
  predicate CountedIn(pc: Pc, e: EntryId) {
    (pc.Counted? || pc.Waiting? || pc.Inside? || pc.Returning? || pc.Dropping?) && pc.e == e
  }

  predicate HasEntry(pc: Pc) {
    pc.Counting? || pc.Counted? || pc.Waiting? || pc.Inside? || pc.Returning? || pc.Dropping? || pc.Pruning?
  }

  /** Whether thread c.t can take its next step. */
  predicate Enabled(s: State, c: Choice) {
    c.t in s.threads &&
    match s.threads[c.t]
    case Entering(_) => s.mu.None?
    case Returning(_, _) => s.mu.None?
    case Looking(_) => c.unused !in s.heap
    case Counting(_, e) => e in s.heap
    case Waiting(_, e) => e in s.heap && s.heap[e].owner.None?
    case Inside(_, e) => e in s.heap
    case Dropping(_, e) => e in s.heap
    case Pruning(_, e) => e in s.heap
    case _ => true
  }

  function Goto(s: State, t: ThreadId, pc: Pc): State {
    s.(threads := s.threads[t := pc])
  }

  function Next(s: State, c: Choice): State
    requires Enabled(s, c)
  {
    var t := c.t;
    match s.threads[t]
    case Idle => Goto(s, t, Entering(c.key))
    case Entering(k) => Goto(s.(mu := Some(t)), t, Looking(k))
    case Looking(k) =>
      if k in s.locks then Goto(s, t, Counting(k, s.locks[k]))
      else Goto(s.(locks := s.locks[k := c.unused], heap := s.heap[c.unused := Entry(0, None)]), t, Counting(k, c.unused))
    case Counting(k, e) => Goto(s.(heap := s.heap[e := s.heap[e].(refs := s.heap[e].refs + 1)]), t, Counted(k, e))
    case Counted(k, e) => Goto(s.(mu := None), t, Waiting(k, e))
    case Waiting(k, e) => Goto(s.(heap := s.heap[e := s.heap[e].(owner := Some(t))]), t, Inside(k, e))
    case Inside(k, e) => Goto(s.(heap := s.heap[e := s.heap[e].(owner := None)]), t, Returning(k, e))
    case Returning(k, e) => Goto(s.(mu := Some(t)), t, Dropping(k, e))
    case Dropping(k, e) => Goto(s.(heap := s.heap[e := s.heap[e].(refs := s.heap[e].refs - 1)]), t, Pruning(k, e))
    case Pruning(k, e) => Goto(if s.heap[e].refs == 0 then s.(locks := s.locks - {k}) else s, t, Leaving(k))
    case Leaving(_) => Goto(s.(mu := None), t, Idle)
  }

  // ---------------------------------------------------------------- runs

  /** A run: the threads of the plugin, then one choice per step. */
  datatype Run = Start(threads: set<ThreadId>) | Then(prev: Run, c: Choice)

  function Initial(threads: set<ThreadId>): State {
    State(map t | t in threads :: Idle, None, map[], map[])
  }

  function Last(r: Run): State
    requires Valid(r)
    decreases r, 1
  {
    match r
    case Start(ts) => Initial(ts)
    case Then(p, c) => Next(Last(p), c)
  }

  predicate Valid(r: Run)
    decreases r, 0
  {
    match r
    case Start(_) => true
    case Then(p, c) => Valid(p) && Enabled(Last(p), c)
  }

  // ---------------------------------------------------------------- invariant

  /** The holders, the waiters and the threads still inside unlock for an entry. */
  ghost function Users(s: State, e: EntryId): set<ThreadId> {
    set t | t in s.threads && CountedIn(s.threads[t], e)
  }

  ghost predicate MuInv(s: State) {
    && (s.mu.Some? ==> s.mu.value in s.threads && HoldsMu(s.threads[s.mu.value]))
    && forall t :: t in s.threads && HoldsMu(s.threads[t]) ==> s.mu == Some(t)
  }

  ghost predicate EntryInv(s: State) {
    && (forall t :: t in s.threads && HasEntry(s.threads[t]) ==>
          s.threads[t].key in s.locks && s.locks[s.threads[t].key] == s.threads[t].e)
    && (forall k :: k in s.locks ==> s.locks[k] in s.heap)
    && (forall k, k' :: k in s.locks && k' in s.locks && s.locks[k] == s.locks[k'] ==> k == k')
  }

  ghost predicate RefsInv(s: State) {
    forall e :: e in s.heap ==> s.heap[e].refs == |Users(s, e)|
  }

  /** A key stays in the map with refs 0 only while the thread in l.mu inserts or removes it. */
  ghost predicate LiveInv(s: State) {
    forall k :: k in s.locks && s.locks[k] in s.heap && s.heap[s.locks[k]].refs == 0 ==>
      s.mu.Some? && s.mu.value in s.threads &&
      var pc := s.threads[s.mu.value]; (pc.Counting? || pc.Pruning?) && pc.key == k
  }

  ghost predicate OwnerInv(s: State) {
    && (forall e :: e in s.heap && s.heap[e].owner.Some? ==>
          var t := s.heap[e].owner.value; t in s.threads && s.threads[t].Inside? && s.threads[t].e == e)
    && (forall t :: t in s.threads && s.threads[t].Inside? ==>
          s.threads[t].e in s.heap && s.heap[s.threads[t].e].owner == Some(t))
  }

  ghost predicate Inv(s: State) {
    MuInv(s) && EntryInv(s) && RefsInv(s) && LiveInv(s) && OwnerInv(s)
  }

  /** The users of an entry after a thread moved: only its own membership can change. */
  lemma UsersAfter(s: State, s': State, t: ThreadId, e: EntryId)
    requires t in s.threads && t in s'.threads && s'.threads == s.threads[t := s'.threads[t]]
    ensures CountedIn(s.threads[t], e) == CountedIn(s'.threads[t], e) ==> Users(s', e) == Users(s, e)
    ensures !CountedIn(s.threads[t], e) && CountedIn(s'.threads[t], e) ==>
              Users(s', e) == Users(s, e) + {t} && |Users(s', e)| == |Users(s, e)| + 1
    ensures CountedIn(s.threads[t], e) && !CountedIn(s'.threads[t], e) ==>
              Users(s', e) == Users(s, e) - {t} && |Users(s', e)| == |Users(s, e)| - 1
  {
    var before, after := Users(s, e), Users(s', e);
    if CountedIn(s'.threads[t], e) {
      assert after == before + {t};
    } else {
      assert after == before - {t};
    }
  }

  lemma UnknownEntryUnused(s: State, e: EntryId)
    requires EntryInv(s) && e !in s.heap
    ensures Users(s, e) == {}
  {
    forall t | t in s.threads ensures !CountedIn(s.threads[t], e) {
      assert HasEntry(s.threads[t]) ==> s.threads[t].e in s.heap;
    }
  }

  lemma RefsAfter(s: State, c: Choice, e: EntryId)
    requires EntryInv(s) && Enabled(s, c)
    requires e in s.heap ==> s.heap[e].refs == |Users(s, e)|
    ensures e in Next(s, c).heap ==> Next(s, c).heap[e].refs == |Users(Next(s, c), e)|
  {
    var s' := Next(s, c);
    UsersAfter(s, s', c.t, e);
    if e !in s.heap {
      UnknownEntryUnused(s, e);
    }
    match s.threads[c.t]
    case Looking(_) => assert s'.threads[c.t].Counting?;
    case Counting(_, _) => assert s'.threads[c.t].Counted?;
    case Dropping(_, _) => assert s'.threads[c.t].Pruning?;
    case _ => RefsStay(s, c, e);
  }

  /** The other steps neither count nor uncount the thread. */
  lemma RefsStay(s: State, c: Choice, e: EntryId)
    requires Enabled(s, c) && !(s.threads[c.t].Looking? || s.threads[c.t].Counting? || s.threads[c.t].Dropping?)
    ensures CountedIn(Next(s, c).threads[c.t], e) == CountedIn(s.threads[c.t], e)
    ensures (e in Next(s, c).heap <==> e in s.heap) && (e in s.heap ==> Next(s, c).heap[e].refs == s.heap[e].refs)
  {}

  lemma StepKeepsRefs(s: State, c: Choice)
    requires EntryInv(s) && RefsInv(s) && Enabled(s, c)
    ensures RefsInv(Next(s, c))
  {
    forall e | e in Next(s, c).heap ensures Next(s, c).heap[e].refs == |Users(Next(s, c), e)| {
      RefsAfter(s, c, e);
    }
  }

  /** When refs is 0 under l.mu, no other thread has the entry. */
  lemma UnusedEntry(s: State, t: ThreadId, u: ThreadId)
    requires MuInv(s) && EntryInv(s) && RefsInv(s)
    requires t in s.threads && s.threads[t].Pruning? && s.threads[t].e in s.heap && s.heap[s.threads[t].e].refs == 0
    requires u in s.threads && u != t && HasEntry(s.threads[u])
    ensures s.threads[u].key != s.threads[t].key
  {
    var e := s.threads[t].e;
    assert Users(s, e) == {};
    assert u !in Users(s, e);
    assert s.mu == Some(t);
  }

  lemma StepKeepsMu(s: State, c: Choice)
    requires MuInv(s) && Enabled(s, c)
    ensures MuInv(Next(s, c))
  {}

  lemma StepKeepsEntries(s: State, c: Choice)
    requires MuInv(s) && EntryInv(s) && RefsInv(s) && Enabled(s, c)
    ensures EntryInv(Next(s, c))
  {
    match s.threads[c.t]
    case Looking(_) => LookingKeepsEntries(s, c);
    case Pruning(_, _) => PruningKeepsEntries(s, c);
    case _ =>
      assert Next(s, c).locks == s.locks && Next(s, c).heap.Keys == s.heap.Keys;
  }

  lemma LookingKeepsEntries(s: State, c: Choice)
    requires EntryInv(s) && Enabled(s, c) && s.threads[c.t].Looking?
    ensures EntryInv(Next(s, c))
  {}

  lemma PruningKeepsEntries(s: State, c: Choice)
    requires MuInv(s) && EntryInv(s) && RefsInv(s) && Enabled(s, c) && s.threads[c.t].Pruning?
    ensures EntryInv(Next(s, c))
  {
    var s' := Next(s, c);
    if s.heap[s.threads[c.t].e].refs == 0 {
      forall t | t in s'.threads && HasEntry(s'.threads[t]) ensures s'.threads[t].key in s'.locks {
        UnusedEntry(s, c.t, t);
      }
    }
  }

  lemma StepKeepsLive(s: State, c: Choice)
    requires MuInv(s) && EntryInv(s) && LiveInv(s) && RefsInv(s) && Enabled(s, c)
    ensures LiveInv(Next(s, c))
  {
    match s.threads[c.t]
    case Counting(k, e) => assert s.heap[e].refs == |Users(s, e)|;
    case _ =>
  }

  lemma StepKeepsOwners(s: State, c: Choice)
    requires MuInv(s) && EntryInv(s) && OwnerInv(s) && Enabled(s, c)
    ensures OwnerInv(Next(s, c))
  {
    if s.threads[c.t].Looking? {
      LookingKeepsOwners(s, c);
    }
  }

  lemma LookingKeepsOwners(s: State, c: Choice)
    requires EntryInv(s) && OwnerInv(s) && Enabled(s, c) && s.threads[c.t].Looking?
    ensures OwnerInv(Next(s, c))
  {}

  lemma StepKeepsInv(s: State, c: Choice)
    requires Inv(s) && Enabled(s, c)
    ensures Inv(Next(s, c))
  {
    StepKeepsMu(s, c);
    StepKeepsRefs(s, c);
    StepKeepsEntries(s, c);
    StepKeepsLive(s, c);
    StepKeepsOwners(s, c);
  }

  /** Every state of every run, whatever the interleaving. */
  lemma {:induction false} RunKeepsInv(r: Run)
    requires Valid(r)
    ensures Inv(Last(r))
  {
    match r
    case Start(_) =>
    case Then(p, c) =>
      RunKeepsInv(p);
      StepKeepsInv(Last(p), c);
  }

  // ---------------------------------------------------------------- theorems

  /** Mutual exclusion: two threads between Lock and unlock for one key are one thread. */
  lemma MutualExclusion(r: Run, t1: ThreadId, t2: ThreadId)
    requires Valid(r)
    requires t1 in Last(r).threads && t2 in Last(r).threads
    requires Last(r).threads[t1].Inside? && Last(r).threads[t2].Inside?
    requires Last(r).threads[t1].key == Last(r).threads[t2].key
    ensures t1 == t2
  {
    RunKeepsInv(r);
  }

  /** All the threads between refs++ and refs-- for a key hold one entry, the one in the map. */
  lemma OneEntryPerKey(r: Run, t1: ThreadId, t2: ThreadId, e1: EntryId, e2: EntryId)
    requires Valid(r)
    requires t1 in Last(r).threads && t2 in Last(r).threads
    requires CountedIn(Last(r).threads[t1], e1) && CountedIn(Last(r).threads[t2], e2)
    ensures Last(r).threads[t1].key in Last(r).locks && Last(r).locks[Last(r).threads[t1].key] == e1
    ensures Last(r).threads[t1].key == Last(r).threads[t2].key <==> e1 == e2
  {
    RunKeepsInv(r);
  }

  /** refs counts the holders, the waiters and the threads inside unlock; while nobody is in l.mu, a key
      is in the map exactly while some thread uses it. */
  lemma KeyExactlyWhileUsed(r: Run, k: Key)
    requires Valid(r)
    ensures k in Last(r).locks ==> Last(r).locks[k] in Last(r).heap &&
                                   Last(r).heap[Last(r).locks[k]].refs == |Users(Last(r), Last(r).locks[k])|
    ensures Last(r).mu.None? ==>
              (k in Last(r).locks <==>
               exists t :: t in Last(r).threads && HasEntry(Last(r).threads[t]) && Last(r).threads[t].key == k)
  {
    RunKeepsInv(r);
    var s := Last(r);
    if s.mu.None? && k in s.locks {
      assert |Users(s, s.locks[k])| != 0;
      var t :| t in Users(s, s.locks[k]);
      assert HasEntry(s.threads[t]) && s.locks[s.threads[t].key] == s.locks[k];
    }
  }

  /** Nothing leaks: once every thread is out, the map is empty. */
  lemma NothingLeaks(r: Run)
    requires Valid(r)
    requires forall t :: t in Last(r).threads ==> Last(r).threads[t].Idle?
    ensures Last(r).locks == map[]
  {
    RunKeepsInv(r);
    assert Last(r).mu.None?;
    forall k | k in Last(r).locks ensures false {
      KeyExactlyWhileUsed(r, k);
    }
  }

  /** The thread t, once somewhere in Lock or unlock, is held up only by a thread that can itself step:
      the one in l.mu, or the one inside the critical section of the key. */
  lemma NoDeadlock(r: Run, t: ThreadId) returns (c: Choice)
    requires Valid(r) && t in Last(r).threads
    ensures Enabled(Last(r), c)
    ensures c.t == t || Last(r).mu == Some(c.t) ||
            (Last(r).threads[t].Waiting? && Last(r).threads[c.t].Inside? &&
             Last(r).threads[c.t].key == Last(r).threads[t].key)
  {
    RunKeepsInv(r);
    var s := Last(r);
    var unused := FreshEntry(s.heap.Keys);
    var pc := s.threads[t];
    var u := t;
    if (pc.Entering? || pc.Returning?) && s.mu.Some? {
      u := s.mu.value;
    } else if pc.Waiting? && s.heap[pc.e].owner.Some? {
      u := s.heap[pc.e].owner.value;
      assert s.locks[s.threads[u].key] == pc.e == s.locks[pc.key];
    }
    c := Choice(u, "", unused);
  }

  ghost function FreshEntry(es: set<EntryId>): (f: EntryId)
    ensures f !in es
  {
    Above(es);
    var f :| f !in es; f
  }

  lemma Above(es: set<EntryId>)
    ensures exists f: EntryId :: f !in es
  {
    var bound: nat := 0;
    var rest := es;
    while rest != {}
      invariant rest <= es
      invariant forall e :: e in es && e !in rest ==> e < bound
    {
      var e :| e in rest;
      bound := if e < bound then bound else e + 1;
      rest := rest - {e};
    }
    assert bound !in es;
  }
}
