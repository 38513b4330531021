/** The restart state of one volume's mount pods (internal/mountpod/backoff.go): the entry of
    m.backoffs as a value, its updates, and what its counters say about the exits seen. */
module Backoff {
  import opened Base

  /** Config.RestartBackoff, MaxRestartBackoff, StableAfter (nanoseconds) and MaxFatalExits. */
  datatype Policy = Policy(base: nat, maxDelay: nat, stableAfter: nat, maxFatal: nat)

  /** The delays are positive, and at most 2^62: RestartDelay does not overflow. */
  predicate PolicyOk(p: Policy) {
    0 < p.base <= MAX_INT64 && 0 < p.maxDelay <= MAX_SAFE && 0 < p.maxFatal
  }

  const EXIT_FAILED := 1
  const EXIT_WRITES_LOST := 75
  const EXIT_AUTH_REQUIRED := 77
  const EXIT_CONFIG := 78

  predicate IsFatal(code: int) { code == EXIT_AUTH_REQUIRED || code == EXIT_CONFIG }

  // ---------------------------------------------------------------- the restart delay

  const MAX_INT64: int := 0x7fff_ffff_ffff_ffff

  /** 2^62. */
  const MAX_SAFE: int := 0x4000_0000_0000_0000

  /** The value an int64 variable holds after an assignment of v. */
  function Wrap64(v: int): int {
    var low := v % 0x1_0000_0000_0000_0000;
    if low <= MAX_INT64 then low else low - 0x1_0000_0000_0000_0000
  }

  function Pow2(n: nat): nat { if n == 0 then 1 else 2 * Pow2(n - 1) }

  /** base * 2^k. */
  function Doubled(base: nat, k: nat): nat { base * Pow2(k) }

  /** base * 2^(n-1) capped at maxDelay; base for n = 0. */
  function CappedDelay(base: nat, maxDelay: nat, n: nat): nat {
    Min(Doubled(base, if n == 0 then 0 else n - 1), maxDelay)
  }

  lemma Doubling(base: nat, k: nat)
    ensures Doubled(base, 0) == base && Doubled(base, k + 1) == 2 * Doubled(base, k)
  {
    assert base * (2 * Pow2(k)) == 2 * (base * Pow2(k));
  }

  lemma {:induction false} DoubledMonotone(base: nat, m: nat, n: nat)
    requires m <= n
    ensures Doubled(base, m) <= Doubled(base, n)
  {
    if m < n {
      DoubledMonotone(base, m, n - 1);
      Doubling(base, n - 1);
    }
  }

  /** The first doubling that leaves int64 before the cap is reached. */
  ghost predicate Overflows(base: nat, maxDelay: nat, n: nat) {
    exists k: nat :: k + 1 < n && OverflowsAt(base, maxDelay, k)
  }

  predicate OverflowsAt(base: nat, maxDelay: nat, k: nat) {
    Doubled(base, k) < maxDelay && Doubled(base, k + 1) > MAX_INT64
  }

  /** The loop of restartDelay from its i-th turn on, in int64. */
  function Wrapping(delay: int, maxDelay: int, i: nat, n: nat): int
    decreases n - i
  {
    if i < n && delay < maxDelay then Wrapping(Wrap64(delay * 2), maxDelay, i + 1, n) else Min(delay, maxDelay)
  }

  function WrappedDelay(base: int, maxDelay: int, n: nat): int { Wrapping(base, maxDelay, 1, n) }

  /** restartDelay, in int64. */
  method RestartDelay(base: int, maxDelay: int, consecutiveFailures: nat) returns (delay: int)
    requires 0 < base <= MAX_INT64 && 0 < maxDelay <= MAX_INT64
    ensures delay == WrappedDelay(base, maxDelay, consecutiveFailures)
    ensures !Overflows(base, maxDelay, consecutiveFailures) ==> delay == CappedDelay(base, maxDelay, consecutiveFailures)
    ensures maxDelay <= MAX_SAFE ==> delay == CappedDelay(base, maxDelay, consecutiveFailures)
  {
    delay := base;
    var i := 1;
    while i < consecutiveFailures && delay < maxDelay
      invariant 1 <= i
      invariant WrappedDelay(base, maxDelay, consecutiveFailures) == Wrapping(delay, maxDelay, i, consecutiveFailures)
      decreases consecutiveFailures - i
    {
      delay := Wrap64(delay * 2);
      i := i + 1;
    }
    delay := Min(delay, maxDelay);
    if maxDelay <= MAX_SAFE {
      NoOverflow(base, maxDelay, consecutiveFailures);
    }
    if !Overflows(base, maxDelay, consecutiveFailures) {
      WrappingCaps(base, maxDelay, 1, consecutiveFailures);
    }
  }

  /** As long as no doubling leaves int64, the loop computes the capped power. */
  lemma {:induction false} WrappingCaps(base: nat, maxDelay: nat, i: nat, n: nat)
    requires 1 <= i && (i == 1 || i <= n) && Doubled(base, i - 1) <= MAX_INT64 && !Overflows(base, maxDelay, n)
    ensures Wrapping(Doubled(base, i - 1), maxDelay, i, n) == CappedDelay(base, maxDelay, n)
    decreases n - i
  {
    Doubling(base, i - 1);
    if i < n {
      if Doubled(base, i - 1) < maxDelay {
        assert !OverflowsAt(base, maxDelay, i - 1);
        WrappingCaps(base, maxDelay, i + 1, n);
      } else {
        DoubledMonotone(base, i - 1, n - 1);
      }
    }
  }

  lemma NoOverflow(base: nat, maxDelay: nat, n: nat)
    requires maxDelay <= MAX_SAFE
    ensures !Overflows(base, maxDelay, n)
  {
    forall k: nat ensures !OverflowsAt(base, maxDelay, k) {
      Doubling(base, k);
    }
  }

  /** The delay is the capped power whatever the base and the number of failures exactly if the maximum is at most 2^62.
      Above it, a base of 2^62 wraps at the second failure: the delay is negative, and the restart immediate. */
  lemma SafeIff(maxDelay: int)
    requires 0 < maxDelay <= MAX_INT64
    ensures (forall base: nat, n: nat :: 0 < base <= MAX_INT64 ==> WrappedDelay(base, maxDelay, n) == CappedDelay(base, maxDelay, n)) <==>
            maxDelay <= MAX_SAFE
    ensures maxDelay > MAX_SAFE ==> WrappedDelay(MAX_SAFE, maxDelay, 2) < 0
  {
    if maxDelay <= MAX_SAFE {
      forall base: nat, n: nat | 0 < base <= MAX_INT64 ensures WrappedDelay(base, maxDelay, n) == CappedDelay(base, maxDelay, n) {
        NoOverflow(base, maxDelay, n);
        WrappingCaps(base, maxDelay, 1, n);
      }
    } else {
      assert WrappedDelay(MAX_SAFE, maxDelay, 2) == Wrapping(Wrap64(2 * MAX_SAFE), maxDelay, 2, 2);
      assert CappedDelay(MAX_SAFE, maxDelay, 2) >= 0;
    }
  }

  lemma DelayMonotone(base: nat, maxDelay: nat, m: nat, n: nat)
    requires m <= n
    ensures CappedDelay(base, maxDelay, m) <= CappedDelay(base, maxDelay, n) <= maxDelay
  {
    DoubledMonotone(base, if m == 0 then 0 else m - 1, if n == 0 then 0 else n - 1);
  }

  // ---------------------------------------------------------------- entries

  /** Backoff. next is NextRestart, 0 for the zero time. */
  datatype Backoff = Backoff(failures: nat, fatal: nat, lastCode: int, next: nat, gaveUp: bool)

  const ZERO := Backoff(0, 0, 0, 0, false)

  /** backoffEntry, for a config hash of type H. */
  datatype Entry<H> = Entry(hash: H, backoff: Backoff, lastPod: Option<Uid>, staging: Path)

  /** m.backoff: a fresh entry when there is none, or one for another config. */
  function For<H(==)>(e: Option<Entry<H>>, hash: H): Entry<H> {
    if e.Some? && e.value.hash == hash then e.value else Entry(hash, ZERO, None, "")
  }

  /** resetBackoff and startOver: the counters start again, the last pod stays counted. */
  function Reset<H>(e: Entry<H>): Entry<H> { e.(backoff := ZERO) }

  /** What recordExit makes of an entry, with the delay and jitter it draws. */
  function Record<H>(p: Policy, e: Entry<H>, uid: Uid, staging: Path, code: int, ran: nat, now: nat, jitter: nat): Entry<H> {
    if e.lastPod == Some(uid) then e
    else
      var failures := (if ran >= p.stableAfter then 0 else e.backoff.failures) + 1;
      var fatal := if IsFatal(code) then e.backoff.fatal + 1 else 0;
      var b := e.backoff.(failures := failures, fatal := fatal, lastCode := code);
      e.(lastPod := Some(uid), staging := staging,
         backoff := if fatal >= p.maxFatal then b.(gaveUp := true, next := 0)
                    else b.(next := now + CappedDelay(p.base, p.maxDelay, failures) + jitter))
  }

  /** rand.N(delay/10 + 1). */
  predicate JitterOk<H>(p: Policy, e: Entry<H>, ran: nat, jitter: nat) {
    jitter <= CappedDelay(p.base, p.maxDelay, (if ran >= p.stableAfter then 0 else e.backoff.failures) + 1) / 10
  }

  /** recordExit, on the entry of the pod's config; draw is the random number. */
  method RecordExit<H>(p: Policy, entry: Entry<H>, uid: Uid, staging: Path, code: int, ran: nat, now: nat, draw: nat)
    returns (e: Entry<H>, jitter: nat)
    requires PolicyOk(p)
    ensures e == Record(p, entry, uid, staging, code, ran, now, jitter) && JitterOk(p, entry, ran, jitter)
  {
    e, jitter := entry, 0;
    if entry.lastPod == Some(uid) {
      return;
    }
    var b := e.backoff;
    if ran >= p.stableAfter {
      b := b.(failures := 0);
    }
    b := b.(failures := b.failures + 1, lastCode := code);
    if IsFatal(code) {
      b := b.(fatal := b.fatal + 1);
    } else {
      b := b.(fatal := 0);
    }
    if b.fatal >= p.maxFatal {
      b := b.(gaveUp := true, next := 0);
    } else {
      var delay := RestartDelay(p.base, p.maxDelay, b.failures);
      jitter := draw % (delay / 10 + 1);
      b := b.(next := now + delay + jitter);
    }
    e := e.(lastPod := Some(uid), staging := staging, backoff := b);
  }

  // ---------------------------------------------------------------- the counters and the exit history

  /** What an entry went through since it was made: the pods counted, and the resets in between. */
  datatype Seen = Exit(uid: Uid, code: int, ran: nat) | Clear

  /** The exits after the last reset. */
  function SinceClear(h: seq<Seen>): seq<Seen> {
    if h == [] || h[|h| - 1].Clear? then [] else SinceClear(h[..|h| - 1]) + [h[|h| - 1]]
  }

  predicate Fatal(s: Seen) { s.Exit? && IsFatal(s.code) }

  /** The length of the trailing run of 77/78 exits. */
  function TrailingFatal(s: seq<Seen>): nat {
    if s == [] || !Fatal(s[|s| - 1]) then 0 else TrailingFatal(s[..|s| - 1]) + 1
  }

  predicate Stable(p: Policy, s: Seen) { s.Exit? && s.ran >= p.stableAfter }

  /** The number of exits from the latest stable one on, that one included; all of them without one. */
  function FromStable(p: Policy, s: seq<Seen>): nat {
    if s == [] then 0
    else if Stable(p, s[|s| - 1]) then 1
    else FromStable(p, s[..|s| - 1]) + 1
  }

  /** SinceClear is the longest suffix without a reset. */
  lemma {:induction false} SinceClearIs(h: seq<Seen>)
    ensures var s := SinceClear(h);
            |s| <= |h| && s == h[|h| - |s|..] && (forall i :: 0 <= i < |s| ==> s[i].Exit?) &&
            (|s| < |h| ==> h[|h| - |s| - 1].Clear?)
  {
    if h != [] && !h[|h| - 1].Clear? {
      SinceClearIs(h[..|h| - 1]);
      assert h == h[..|h| - 1] + [h[|h| - 1]];
    }
  }

  /** TrailingFatal is the longest suffix of 77/78 exits. */
  lemma {:induction false} TrailingFatalIs(s: seq<Seen>)
    ensures var n := TrailingFatal(s);
            n <= |s| && (forall i :: |s| - n <= i < |s| ==> Fatal(s[i])) && (n < |s| ==> !Fatal(s[|s| - n - 1]))
  {
    if s != [] {
      TrailingFatalIs(s[..|s| - 1]);
    }
  }

  /** FromStable starts at the latest stable exit. */
  lemma {:induction false} FromStableIs(p: Policy, s: seq<Seen>)
    ensures var n := FromStable(p, s);
            n <= |s| && (forall i :: |s| - n < i < |s| ==> !Stable(p, s[i])) &&
            (n < |s| ==> n > 0 && Stable(p, s[|s| - n]))
  {
    if s != [] {
      FromStableIs(p, s[..|s| - 1]);
    }
  }

  /** Some run of 77/78 exits since the last reset reached the limit. */
  predicate ReachedLimit(p: Policy, s: seq<Seen>) {
    s != [] && (TrailingFatal(s) >= p.maxFatal || ReachedLimit(p, s[..|s| - 1]))
  }

  predicate LastCounted(h: seq<Seen>, uid: Option<Uid>) {
    if h == [] then uid.None?
    else if h[|h| - 1].Exit? then uid == Some(h[|h| - 1].uid)
    else LastCounted(h[..|h| - 1], uid)
  }

  /** The entry says what the history says. */
  predicate Refines<H>(p: Policy, e: Entry<H>, h: seq<Seen>) {
    var s := SinceClear(h);
    && e.backoff.failures == FromStable(p, s)
    && e.backoff.fatal == TrailingFatal(s)
    && e.backoff.gaveUp == ReachedLimit(p, s)
    && LastCounted(h, e.lastPod)
  }

  /** Whatever config is asked for, the entry says what the history of that config says: nothing carries over from
      another one. */
  lemma ForRefines<H>(p: Policy, e: Option<Entry<H>>, h: seq<Seen>, hash: H)
    requires PolicyOk(p) && (e.Some? ==> Refines(p, e.value, h))
    ensures Refines(p, For(e, hash), if e.Some? && e.value.hash == hash then h else [])
    ensures !(e.Some? && e.value.hash == hash) ==> !For(e, hash).backoff.gaveUp && For(e, hash).backoff.next == 0
  {}

  lemma ResetRefines<H>(p: Policy, e: Entry<H>, h: seq<Seen>)
    requires Refines(p, e, h)
    ensures Refines(p, Reset(e), h + [Clear])
  {
    assert (h + [Clear])[..|h|] == h;
  }

  /** The exit of a pod not counted last is one more exit of the history. */
  lemma RecordRefines<H>(p: Policy, e: Entry<H>, h: seq<Seen>, uid: Uid, staging: Path, code: int, ran: nat, now: nat, jitter: nat)
    requires PolicyOk(p) && Refines(p, e, h) && e.lastPod != Some(uid)
    ensures Refines(p, Record(p, e, uid, staging, code, ran, now, jitter), h + [Exit(uid, code, ran)])
  {
    OneMoreExit(p, h, Exit(uid, code, ran));
  }

  lemma OneMoreExit(p: Policy, h: seq<Seen>, x: Seen)
    requires x.Exit?
    ensures SinceClear(h + [x]) == SinceClear(h) + [x]
    ensures TrailingFatal(SinceClear(h + [x])) == if Fatal(x) then TrailingFatal(SinceClear(h)) + 1 else 0
    ensures FromStable(p, SinceClear(h + [x])) == if Stable(p, x) then 1 else FromStable(p, SinceClear(h)) + 1
    ensures ReachedLimit(p, SinceClear(h + [x])) <==>
              TrailingFatal(SinceClear(h + [x])) >= p.maxFatal || ReachedLimit(p, SinceClear(h))
    ensures LastCounted(h + [x], Some(x.uid))
  {
    assert (h + [x])[..|h|] == h;
    assert SinceClear(h + [x]) == SinceClear(h) + [x];
    OneMore(p, SinceClear(h), x);
  }

  lemma OneMore(p: Policy, s: seq<Seen>, x: Seen)
    requires x.Exit?
    ensures TrailingFatal(s + [x]) == if Fatal(x) then TrailingFatal(s) + 1 else 0
    ensures FromStable(p, s + [x]) == if Stable(p, x) then 1 else FromStable(p, s) + 1
    ensures ReachedLimit(p, s + [x]) <==> TrailingFatal(s + [x]) >= p.maxFatal || ReachedLimit(p, s)
  {
    assert (s + [x])[..|s|] == s;
  }

  /** However often the last pod is seen again, nothing changes: it was counted once. */
  lemma CountedOnce<H>(p: Policy, e: Entry<H>, h: seq<Seen>, uid: Uid, staging: Path, code: int, ran: nat, now: nat, jitter: nat)
    requires Refines(p, e, h) && h != [] && h[|h| - 1].Exit? && h[|h| - 1].uid == uid
    ensures Record(p, e, uid, staging, code, ran, now, jitter) == e
  {}

  /** Restart spacing: a counted exit that does not give up sets NextRestart within 10% above the delay. */
  lemma NextRestartWindow<H>(p: Policy, e: Entry<H>, h: seq<Seen>, uid: Uid, staging: Path, code: int, ran: nat, now: nat, jitter: nat)
    requires PolicyOk(p) && Refines(p, e, h) && e.lastPod != Some(uid) && JitterOk(p, e, ran, jitter)
    ensures var r := Record(p, e, uid, staging, code, ran, now, jitter).backoff;
            var d := CappedDelay(p.base, p.maxDelay, FromStable(p, SinceClear(h + [Exit(uid, code, ran)])));
            if TrailingFatal(SinceClear(h + [Exit(uid, code, ran)])) >= p.maxFatal then r.gaveUp && r.next == 0
            else now + d <= r.next <= now + d + d / 10
  {
    RecordRefines(p, e, h, uid, staging, code, ran, now, jitter);
  }
}
