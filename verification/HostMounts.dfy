/** The loops that unmount, stack and repair mounts (internal/mount/bind.go, internal/driver/recovery.go).
    What the system calls answer is an input: one entry of a script per call. A drained script answers
    well. Files and directories are not modelled. */
module HostMounts {
  import opened Base
  import opened MountTable

  /** umount(8): it may refuse (busy, a dead mount it cannot stat), be wrong about the mount table, or
      find the layer unmounted by somebody else meanwhile. */
  datatype Umount = Removes | Refuses | WronglyNotMounted | GoneMeanwhile

  datatype Answer = Unmounted | NotMounted | OtherError

  const MAX_STACKED_MOUNTS := 32
  const MAX_MOUNT_LAYERS := 8
  const MAX_TARGET_LAYERS := 4

  /** The run of dead layers on top of a stack that unstack removes, in at most turns turns. */
  function Unstacked(s: seq<Mount>, live: set<int>, turns: nat): (r: seq<Mount>)
    ensures r <= s && |s| - turns <= |r|
    ensures s != [] ==> r != []
    ensures forall i :: |r| <= i < |s| ==> s[i].device !in live
    ensures |r| <= 1 || r[|r| - 1].device in live || |r| == |s| - turns
  {
    if turns == 0 || |s| <= 1 || s[|s| - 1].device in live then s
    else Unstacked(s[..|s| - 1], live, turns - 1)
  }

  /** A run of at most turns dead layers, stopped by a live one, the bottom one or the bound, is what goes. */
  lemma {:induction false} UnstackedIs(s: seq<Mount>, live: set<int>, turns: nat, gone: nat)
    requires gone <= turns && gone <= |s| && (gone > 0 ==> gone < |s|)
    requires forall i :: |s| - gone <= i < |s| ==> s[i].device !in live
    requires gone == turns || |s| - gone <= 1 || s[|s| - gone - 1].device in live
    ensures Unstacked(s, live, turns) == s[..|s| - gone]
  {
    if gone > 0 {
      var r := s[..|s| - 1];
      UnstackedIs(r, live, turns - 1, gone - 1);
      assert r[..|r| - (gone - 1)] == s[..|s| - gone];
    }
  }

  class Host {
    var mounts: Table
    /** The devices that answer: the FUSE devices with a daemon, and the host's own file systems (0). */
    var live: set<int>
    /** The answers of the next umount(8) calls. */
    var umounts: seq<Umount>
    /** Whether the next stat, detach, mount or remount fails. */
    var faults: seq<bool>

    /** Nobody else unmounts. */
    ghost predicate Alone()
      reads this
    {
      forall i :: 0 <= i < |umounts| ==> !umounts[i].GoneMeanwhile?
    }

    /** The next umount(8) does what it is asked. */
    predicate Obeys()
      reads this
    {
      umounts == [] || umounts[0].Removes?
    }

    /** Nobody else unmounts and no system call fails but umount(8). */
    ghost predicate Calm()
      reads this
    {
      Alone() && forall i :: 0 <= i < |faults| ==> !faults[i]
    }

    function Layers(p: Path): seq<Mount>
      reads this
    {
      Stack(mounts, p)
    }

    /** Only the layers of p change, by losing some on top. */
    twostate predicate OnlyPops(p: Path)
      reads this
    {
      && Layers(p) <= old(Layers(p))
      && SameElsewhere(old(mounts), mounts, p)
      && live == old(live)
    }

    method Fails() returns (fails: bool)
      modifies this`faults
      ensures old(Calm()) ==> Calm() && !fails
    {
      fails := false;
      if faults != [] {
        fails, faults := faults[0], faults[1..];
      }
    }

    /** mountState. */
    method State(p: Path) returns (ok: bool, mounted: bool, corrupted: bool)
      modifies this`faults
      ensures old(Calm()) ==> Calm() && ok
      ensures ok ==> mounted == (Layers(p) != [])
      ensures ok ==> corrupted == (Layers(p) != [] && Layers(p)[|Layers(p)| - 1].device !in live)
    {
      var fails := Fails();
      var top := TopOf(mounts, p);
      ok, mounted, corrupted := !fails, top.Some?, top.Some? && top.value.device !in live;
    }

    /** umount(8). */
    method CallUmount(p: Path) returns (a: Answer)
      modifies this`mounts, this`umounts
      ensures (old(Alone()) ==> Alone()) && (old(Calm()) ==> Calm())
      ensures OnlyPops(p) && |Layers(p)| >= |old(Layers(p))| - 1
      ensures a.Unmounted? ==> |Layers(p)| == |old(Layers(p))| - 1
      ensures old(Alone()) && !a.Unmounted? ==> Layers(p) == old(Layers(p))
      ensures a.Unmounted? <==> old(Layers(p)) != [] && old(Obeys())
    {
      RemoveTopStack(mounts, p);
      var outcome := Removes;
      if umounts != [] {
        outcome, umounts := umounts[0], umounts[1..];
      }
      if Layers(p) == [] || outcome.WronglyNotMounted? {
        a := NotMounted;
      } else if outcome.Refuses? {
        a := OtherError;
      } else {
        mounts := RemoveTop(mounts, p);
        a := if outcome.Removes? then Unmounted else NotMounted;
      }
    }

    /** Detach: MNT_DETACH, where "not a mount point" counts as done. */
    method Detach(p: Path) returns (ok: bool)
      modifies this`mounts, this`faults
      ensures old(Calm()) ==> Calm() && ok
      ensures OnlyPops(p)
      ensures Layers(p) == if ok && old(Layers(p)) != [] then old(Layers(p))[..|old(Layers(p))| - 1] else old(Layers(p))
    {
      RemoveTopStack(mounts, p);
      var fails := Fails();
      ok := !fails;
      if ok {
        mounts := RemoveTop(mounts, p);
      }
    }

    /** One turn of unmount: a layer that umount(8) refuses, or wrongly says is not mounted, is detached. */
    method UnmountLayer(target: Path) returns (ok: bool)
      modifies this`mounts, this`umounts, this`faults
      ensures OnlyPops(target)
      ensures old(Calm()) ==> Calm() && ok
      ensures old(Calm()) && old(Layers(target)) != [] ==> |Layers(target)| == |old(Layers(target))| - 1
    {
      ok := true;
      var answer := CallUmount(target);
      match answer
      case Unmounted =>
      case NotMounted =>
        var seen, still, _ := State(target);
        if seen && still {
          ok := Detach(target);
        }
      case OtherError =>
        ok := Detach(target);
    }

    /** mount.unmount, behind Unpublish: every layer of target, up to 32 turns. Undisturbed, each turn removes
        exactly one layer, and it succeeds exactly with at most 31 of them: with 32 the path is empty, and
        the error still returned. */
    method Unpublish(target: Path) returns (ok: bool)
      modifies this`mounts, this`umounts, this`faults
      ensures OnlyPops(target)
      ensures ok ==> Layers(target) == []
      ensures old(Calm()) ==> Calm() && (ok <==> |old(Layers(target))| < MAX_STACKED_MOUNTS)
      ensures old(Calm()) ==> |Layers(target)| == Max(0, |old(Layers(target))| - MAX_STACKED_MOUNTS)
    {
      for i := 0 to MAX_STACKED_MOUNTS
        invariant OnlyPops(target)
        invariant old(Calm()) ==> Calm() && |Layers(target)| == |old(Layers(target))| - i
      {
        var seen, mounted, _ := State(target);
        if !seen {
          return false;
        }
        if !mounted {
          return true;
        }
        var removed := UnmountLayer(target);
        if !removed {
          return false;
        }
      }
      ok := false;
    }

    /** One turn of unmountAll and unstack: a plain umount, then a detach whatever its error. */
    method UnmountOrDetach(p: Path) returns (ok: bool)
      modifies this`mounts, this`umounts, this`faults
      ensures OnlyPops(p)
      ensures old(Alone()) ==> Alone() && |Layers(p)| >= |old(Layers(p))| - 1
      ensures old(Calm()) ==> Calm() && ok
      ensures ok && old(Layers(p)) != [] ==> |Layers(p)| < |old(Layers(p))|
      ensures old(Calm()) && old(Layers(p)) != [] ==> |Layers(p)| == |old(Layers(p))| - 1
    {
      ok := true;
      var answer := CallUmount(p);
      if !answer.Unmounted? {
        ok := Detach(p);
      }
    }

    /** unmountAll, behind Prepare: succeeds exactly with at most 8 layers when undisturbed. */
    method UnmountAll(p: Path) returns (ok: bool)
      modifies this`mounts, this`umounts, this`faults
      ensures OnlyPops(p)
      ensures ok ==> Layers(p) == []
      ensures old(Calm()) ==> Calm() && (ok <==> |old(Layers(p))| <= MAX_MOUNT_LAYERS)
      ensures old(Calm()) ==> |Layers(p)| == Max(0, |old(Layers(p))| - MAX_MOUNT_LAYERS)
    {
      for i := 0 to MAX_MOUNT_LAYERS
        invariant OnlyPops(p)
        invariant old(Calm()) ==> Calm() && |Layers(p)| == |old(Layers(p))| - i
      {
        var seen, mounted, _ := State(p);
        if !seen {
          return false;
        }
        if !mounted {
          return true;
        }
        var removed := UnmountOrDetach(p);
        if !removed {
          return false;
        }
      }
      var seen, mounted, _ := State(p);
      ok := seen && !mounted;
    }

    /** unstack: the dead layers on top, down to a live one or to the bottom layer, in at most 8 turns. */
    method Unstack(p: Path) returns (ok: bool)
      modifies this`mounts, this`umounts, this`faults
      ensures OnlyPops(p)
      ensures old(Alone()) ==> Alone() && (old(Layers(p)) != [] ==> Layers(p) != [])
      ensures old(Calm()) ==> Calm() && ok && Layers(p) == Unstacked(old(Layers(p)), live, MAX_MOUNT_LAYERS)
      // Disturbed: success means that a dead top layer above the bottom one is gone, and no more than the bottom layer is
      // left of a short stack of dead ones.
      ensures ok ==> Freed(old(Layers(p)), Layers(p), live)
      ensures ok && AllDead(old(Layers(p)), live) && |old(Layers(p))| <= MAX_MOUNT_LAYERS ==> |Layers(p)| <= 1
    {
      ok := UnstackWithin(p, MAX_MOUNT_LAYERS);
    }

    method UnstackWithin(p: Path, turns: nat) returns (ok: bool)
      modifies this`mounts, this`umounts, this`faults
      ensures OnlyPops(p)
      ensures old(Alone()) ==> Alone() && (old(Layers(p)) != [] ==> Layers(p) != [])
      ensures old(Calm()) ==> Calm() && ok && Layers(p) == Unstacked(old(Layers(p)), live, turns)
      ensures ok && turns > 0 ==> Freed(old(Layers(p)), Layers(p), live)
      ensures ok && AllDead(old(Layers(p)), live) && |old(Layers(p))| <= turns ==> |Layers(p)| <= 1
    {
      ghost var calm, was := Calm(), Layers(p);
      for i := 0 to turns
        invariant OnlyPops(p) && Dwindled(was, Layers(p), live, i, calm)
        invariant (old(Alone()) ==> Alone() && (was != [] ==> Layers(p) != [])) && (calm ==> Calm())
      {
        ghost var now := Layers(p);
        var more;
        ok, more := UnstackTurn(p);
        if more {
          OneTurnMore(was, now, Layers(p), live, i, calm);
        } else {
          if calm {
            UnstackedIs(was, live, turns, i);
          }
          return;
        }
      }
      if calm {
        UnstackedIs(was, live, turns, turns);
      }
      ok := true;
    }

    /** One turn of unstack: a dead layer above the bottom one goes, and there may be more. */
    method UnstackTurn(p: Path) returns (ok: bool, more: bool)
      modifies this`mounts, this`umounts, this`faults
      ensures OnlyPops(p)
      ensures old(Alone()) ==> Alone() && (old(Layers(p)) != [] ==> Layers(p) != [])
      ensures more ==> ok && |old(Layers(p))| > 1 && IsTopDead(old(Layers(p)), live) && |Layers(p)| < |old(Layers(p))|
      ensures ok && !more ==> Layers(p) == old(Layers(p)) && (|Layers(p)| <= 1 || !IsTopDead(Layers(p), live))
      ensures old(Calm()) ==> Calm() && ok && (more ==> |Layers(p)| == |old(Layers(p))| - 1)
    {
      more := false;
      var unreadable := Fails();
      if unreadable {
        return false, false;
      }
      var seen, mounted, corrupted := State(p);
      var n := MountTable.Layers(mounts, p);
      if !seen || !mounted || !corrupted || n <= 1 {
        return seen, false;
      }
      ok := UnmountOrDetach(p);
      more := ok;
    }

    // -------------------------------------------------------------- stacking

    /** mount(2) with MS_BIND, then the read-only remount: target gains one layer. */
    method Bind(source: Path, target: Path, ro: bool) returns (ok: bool)
      modifies this`mounts, this`faults
      ensures old(Alone()) ==> Alone()
      ensures old(Calm()) ==> Calm() && ok
      ensures SameElsewhere(old(mounts), mounts, target) && live == old(live)
      ensures ok ==> Layers(target) == old(Layers(target)) + [BindLayer(old(mounts), source, target, ro)]
      ensures !ok ==> Layers(target) == old(Layers(target)) ||
                      (ro && Layers(target) == old(Layers(target)) + [BindLayer(old(mounts), source, target, false)])
    {
      var before := mounts;
      var layer := BindLayer(before, source, target, false);
      var fails := Fails();
      if fails {
        return false;
      }
      Push(before, layer);
      if !ro {
        return true;
      }
      fails := Fails();
      if fails {
        return false;
      }
      Push(before, layer.(ro := true));
      ok := true;
    }

    /** The table with one more layer. */
    method Push(before: Table, layer: Mount)
      modifies this`mounts
      ensures Layers(layer.point) == Stack(before, layer.point) + [layer] && SameElsewhere(before, mounts, layer.point)
    {
      PushStack(before, layer);
      mounts := before + [layer];
    }

    /** BindMount, behind NodePublishVolume. */
    method BindMount(source: Path, target: Path, ro: bool) returns (ok: bool)
      requires source != target
      modifies this`mounts, this`umounts, this`faults
      ensures SameElsewhere(old(mounts), mounts, target) && live == old(live)
      ensures ok ==> Layers(target) != []
      // Whatever fails, the target only loses layers on top, or has the new one, perhaps not yet read-only.
      ensures Layers(target) <= old(Layers(target)) ||
              Layers(target) == Published(old(Layers(target)), live, BindLayer(old(mounts), source, target, ro)) ||
              Layers(target) == Published(old(Layers(target)), live, BindLayer(old(mounts), source, target, false))
      // Undisturbed, it succeeds exactly unless there is a dead top layer that umount(8) does not take.
      ensures old(Calm()) ==> (ok <==> IsTopDead(old(Layers(target)), live) ==> old(Obeys()))
      ensures old(Calm()) && ok ==>
                Layers(target) == Published(old(Layers(target)), live, BindLayer(old(mounts), source, target, ro))
    {
      var cleared, mounted := ClearDead(target);
      if !cleared || mounted {
        return mounted;
      }
      var unmakeable := Fails();
      if unmakeable {
        return false;
      }
      ok := Bind(source, target, ro);
    }

    /** The first half of BindMount: a dead top layer goes; mounted: there is a live one. */
    method ClearDead(target: Path) returns (cleared: bool, mounted: bool)
      modifies this`mounts, this`umounts, this`faults
      ensures OnlyPops(target) && (old(Calm()) ==> Calm())
      ensures mounted ==> Layers(target) == old(Layers(target)) != [] && !IsTopDead(Layers(target), live)
      ensures cleared && !mounted ==>
                Layers(target) == if IsTopDead(old(Layers(target)), live) then old(Layers(target))[..|old(Layers(target))| - 1] else []
      ensures cleared && !mounted && !IsTopDead(old(Layers(target)), live) ==> old(Layers(target)) == []
      ensures old(Calm()) ==> (cleared <==> IsTopDead(old(Layers(target)), live) ==> old(Obeys()))
      ensures mounted ==> cleared
    {
      var seen, any, corrupted := State(target);
      if !seen {
        return false, false;
      }
      if !corrupted {
        return true, any;
      }
      var answer := CallUmount(target);
      cleared, mounted := answer.Unmounted?, false;
    }

    /** What rebind promises, for the mount table that was read before. */
    twostate predicate Rebinds(infos: Table, volume: VolumeId, staging: Path, pods: Path, ok: bool)
      reads this
    {
      && live == old(live)
      && (ok ==> Mounted(infos, volume, staging)) && (old(Calm()) && Mounted(infos, volume, staging) ==> ok)
      && (if !Mounted(infos, volume, staging) then mounts == old(mounts)
          else
            var fuse := Fuse(infos, staging);
            // what was not dead, the staging path and other volumes included, keeps its layers
            && (forall p :: !DeadAt(infos, volume, fuse.device, pods, p) ==> Layers(p) == old(Layers(p)))
            // what was dead loses layers on top and gets at most the one that the staging path holds now
            && (forall p :: DeadAt(infos, volume, fuse.device, pods, p) ==>
                  TurnedAt(infos, old(mounts), staging, p, Layers(p), live, ok, old(Alone()), old(Calm())))
            && (infos == old(mounts) ==> Repairs(infos, mounts, live, volume, fuse, pods, ok, old(Alone()), old(Calm()))))
    }

    /** rebind: a bind of the live mount is stacked on every target path whose top layer was dead when the table was read. */
    method Rebind(infos: Table, volume: VolumeId, staging: Path, pods: Path) returns (ok: bool)
      requires !IsTarget(pods, staging)
      modifies this`mounts, this`umounts, this`faults
      ensures Rebinds(infos, volume, staging, pods, ok)
    {
      var fuse := MountTable.TopMount(infos, staging);
      if fuse.None? || fuse.value.source != SourceOf(volume) {
        return false;
      }
      var targets := MountTable.DeadTargets(infos, volume, fuse.value.device, pods);
      forall j | 0 <= j < |targets| ensures targets[j].point != staging {
        assert DeadAt(infos, volume, fuse.value.device, pods, targets[j].point);
      }
      ok := RebindAll(infos, staging, targets);
      forall p | !DeadAt(infos, volume, fuse.value.device, pods, p) ensures Layers(p) == old(Layers(p)) {
        assert forall j :: 0 <= j < |targets| ==> targets[j].point != p;
      }
      if infos == old(mounts) {
        TurnsRepair(infos, mounts, live, volume, staging, fuse.value, pods, ok, old(Alone()), old(Calm()));
      }
    }

    /** The loop of rebind. */
    method RebindAll(infos: Table, staging: Path, targets: seq<Mount>) returns (ok: bool)
      requires forall i :: 0 <= i < |targets| ==> staging != targets[i].point && TopOf(infos, targets[i].point) == Some(targets[i])
      requires forall i, j :: 0 <= i < j < |targets| ==> targets[i].point != targets[j].point
      modifies this`mounts, this`umounts, this`faults
      ensures live == old(live) && (old(Calm()) ==> ok)
      ensures SameBut(old(mounts), mounts, targets, |targets|)
      ensures forall j :: 0 <= j < |targets| ==>
                TurnedAt(infos, old(mounts), staging, targets[j].point, Layers(targets[j].point), live, ok, old(Alone()), old(Calm()))
    {
      ghost var was, answers, alone, calm := mounts, live, Alone(), Calm();
      ok := true;
      for i := 0 to |targets|
        invariant live == answers && (alone ==> Alone()) && (calm ==> Calm() && ok)
        invariant SameBut(was, mounts, targets, i)
        invariant forall j :: 0 <= j < i ==> TurnedAt(infos, was, staging, targets[j].point, Layers(targets[j].point), answers, ok, alone, calm)
      {
        ghost var before := mounts;
        var done := RebindOne(infos, was, staging, targets[i], alone, calm);
        OneMoreChanged(was, before, mounts, targets, i);
        ok := ok && done;
      }
    }

    /** One turn of rebind, on a target as it was when the loop began. */
    method RebindOne(infos: Table, ghost was: Table, staging: Path, t: Mount, ghost alone: bool, ghost calm: bool) returns (ok: bool)
      requires staging != t.point && TopOf(infos, t.point) == Some(t)
      requires Layers(staging) == Stack(was, staging) && Layers(t.point) == Stack(was, t.point)
      requires (alone ==> Alone()) && (calm ==> Calm())
      modifies this`mounts, this`umounts, this`faults
      ensures live == old(live) && SameElsewhere(old(mounts), mounts, t.point)
      ensures (alone ==> Alone()) && (calm ==> Calm() && ok)
      ensures TurnedAt(infos, was, staging, t.point, Layers(t.point), live, ok, alone, calm)
    {
      ghost var before := Layers(t.point);
      var ready := MakeRoom(infos, t.point);
      if !ready {
        return false;
      }
      ghost var kept := |Layers(t.point)|;
      assert Layers(t.point) == before[..kept];
      ok := Bind(staging, t.point, t.ro);
      BoundOnRoom(|Stack(infos, t.point)|, before, Layers(t.point), kept, live, BindLayer(was, staging, t.point, t.ro), ok, alone, calm);
    }

    /** Past maxTargetLayers, as read, the dead layers on top go first. */
    method MakeRoom(infos: Table, p: Path) returns (ok: bool)
      modifies this`mounts, this`umounts, this`faults
      ensures OnlyPops(p)
      ensures old(Alone()) ==> Alone() && (old(Layers(p)) != [] ==> Layers(p) != [])
      ensures old(Calm()) ==> Calm() && ok
      ensures ok ==> Room(|Stack(infos, p)|, old(Layers(p)), Layers(p), live, old(Calm()))
    {
      var n := MountTable.Layers(infos, p);
      ok := true;
      if n >= MAX_TARGET_LAYERS {
        ok := Unstack(p);
      }
    }
  }

  /** What unstack leaves, if it is asked. */
  predicate Room(n: nat, before: seq<Mount>, after: seq<Mount>, live: set<int>, calm: bool) {
    if n < MAX_TARGET_LAYERS then after == before
    else
      && Freed(before, after, live)
      && (AllDead(before, live) && |before| <= MAX_MOUNT_LAYERS ==> |after| <= 1)
      && (calm ==> after == Unstacked(before, live, MAX_MOUNT_LAYERS))
  }

  /** The layer a bind of source adds on target: source's top mount, or its bare directory. */
  function BindLayer(t: Table, source: Path, target: Path, ro: bool): Mount {
    var top := TopOf(t, source);
    if top.Some? then top.value.(point := target, ro := ro) else Mount(target, "", 0, source, ro)
  }

  /** The volume's live mount, as rebind takes it. */
  predicate Mounted(t: Table, volume: VolumeId, staging: Path) {
    staging != "" && TopOf(t, staging).Some? && TopOf(t, staging).value.source == SourceOf(volume)
  }

  function Fuse(t: Table, staging: Path): Mount
    requires TopOf(t, staging).Some?
  {
    TopOf(t, staging).value
  }

  /** The n bottom layers are kept, and one layer on the live device is on top, as read-only as the old top. */
  ghost predicate OneMore(before: seq<Mount>, after: seq<Mount>, n: nat, fuse: Mount) {
    n <= |before| && before != [] &&
    after == before[..n] + [fuse.(point := before[|before| - 1].point, ro := before[|before| - 1].ro)]
  }

  /** After i turns of unstack: a dead top layer above the bottom one went, and all dead, one a turn, if calm. */
  predicate Dwindled(was: seq<Mount>, now: seq<Mount>, live: set<int>, i: nat, calm: bool) {
    && now <= was && |now| <= Max(0, |was| - i)
    && (if i == 0 then now == was else |was| > 1 && IsTopDead(was, live) && |now| < |was|)
    && (calm ==> |now| == |was| - i && (i > 0 ==> i < |was|) && AllDead(was[|now|..], live))
  }

  lemma OneTurnMore(was: seq<Mount>, now: seq<Mount>, next: seq<Mount>, live: set<int>, i: nat, calm: bool)
    requires Dwindled(was, now, live, i, calm) && |now| > 1 && IsTopDead(now, live)
    requires next <= now && |next| < |now| && (calm ==> |next| == |now| - 1)
    ensures Dwindled(was, next, live, i + 1, calm)
  {
    if calm {
      assert was[|next|..] == [now[|next|]] + was[|now|..];
    }
  }

  /** unstack: a dead top layer above the bottom one goes, with others perhaps; otherwise nothing does. */
  predicate Freed(before: seq<Mount>, after: seq<Mount>, live: set<int>) {
    if |before| > 1 && IsTopDead(before, live) then |after| < |before| else after == before
  }

  /** What a turn of rebind leaves of a target that had n layers when the table was read: the new layer is on those that
      were kept; if it failed, it may be writable still, or layers on top go and none comes. */
  ghost predicate Turned(n: nat, before: seq<Mount>, after: seq<Mount>, live: set<int>, layer: Mount, ok: bool, alone: bool, calm: bool) {
    (exists kept: nat :: StackedOn(n, before, after, kept, live, layer, alone, calm)) ||
    (!ok && !calm && (after <= before || exists kept: nat :: StackedOn(n, before, after, kept, live, layer.(ro := false), alone, calm)))
  }

  /** The kept layers are those that unstack leaves, if the table read asks for it. */
  predicate StackedOn(n: nat, before: seq<Mount>, after: seq<Mount>, kept: nat, live: set<int>, layer: Mount, alone: bool, calm: bool) {
    && kept <= |before| && after == before[..kept] + [layer]
    && Room(n, before, before[..kept], live, calm) && (alone && before != [] ==> kept > 0)
  }

  /** The same for the target p, given the table that was read and the one that was there: the layer is whatever the staging
      path holds, as read-only as the top layer read. */
  ghost predicate TurnedAt(infos: Table, was: Table, staging: Path, p: Path, after: seq<Mount>, live: set<int>, ok: bool, alone: bool,
                           calm: bool)
    requires TopOf(infos, p).Some?
  {
    Turned(|Stack(infos, p)|, Stack(was, p), after, live, BindLayer(was, staging, p, TopOf(infos, p).value.ro), ok, alone, calm)
  }

  /** Every path but the first i targets has the layers that it had. */
  ghost predicate SameBut(was: Table, now: Table, targets: seq<Mount>, i: nat)
    requires i <= |targets|
  {
    forall p :: (forall j :: 0 <= j < i ==> targets[j].point != p) ==> Stack(now, p) == Stack(was, p)
  }

  lemma OneMoreChanged(was: Table, now: Table, next: Table, targets: seq<Mount>, i: nat)
    requires i < |targets| && SameBut(was, now, targets, i) && SameElsewhere(now, next, targets[i].point)
    ensures SameBut(was, next, targets, i + 1)
  {
    forall p | forall j :: 0 <= j < i + 1 ==> targets[j].point != p ensures Stack(next, p) == Stack(was, p) {
      assert Stack(now, p) == Stack(was, p);
    }
  }

  lemma BoundOnRoom(n: nat, before: seq<Mount>, after: seq<Mount>, kept: nat, live: set<int>, layer: Mount, ok: bool, alone: bool, calm: bool)
    requires kept <= |before| && Room(n, before, before[..kept], live, calm) && (alone && before != [] ==> kept > 0) && (calm ==> ok)
    requires ok ==> after == before[..kept] + [layer]
    requires !ok ==> after == before[..kept] || (layer.ro && after == before[..kept] + [layer.(ro := false)])
    ensures Turned(n, before, after, live, layer, ok, alone, calm)
  {
    if ok {
      assert StackedOn(n, before, after, kept, live, layer, alone, calm);
    } else if after != before[..kept] {
      assert StackedOn(n, before, after, kept, live, layer.(ro := false), alone, calm);
    }
  }

  /** On the table that was read a turn of rebind repairs the target, or is an attempt. */
  lemma TurnedRepairs(before: seq<Mount>, after: seq<Mount>, live: set<int>, fuse: Mount, t: Mount, ok: bool, alone: bool, calm: bool)
    requires before != [] && before[|before| - 1] == t
    requires Turned(|before|, before, after, live, fuse.(point := t.point, ro := t.ro), ok, alone, calm)
    ensures TargetResult(before, after, live, fuse, t.point, ok, alone, calm)
  {
    var layer := fuse.(point := t.point, ro := t.ro);
    if kept: nat :| StackedOn(|before|, before, after, kept, live, layer, alone, calm) {
      assert Stacked(before, after, kept, live, layer);
      assert OneMore(before, after, kept, fuse);
    } else if !(after <= before) {
      var kept: nat :| StackedOn(|before|, before, after, kept, live, layer.(ro := false), alone, calm);
      assert Stacked(before, after, kept, live, layer.(ro := false));
    }
  }

  /** What rebind promises when the table has not changed since it was read. */
  ghost predicate Repairs(was: Table, now: Table, live: set<int>, volume: VolumeId, fuse: Mount, pods: Path, ok: bool, alone: bool,
                          calm: bool) {
    // whatever fails, a dead target only loses layers on top, or has the new one
    && (forall p :: DeadAt(was, volume, fuse.device, pods, p) ==> Attempted(Stack(was, p), Stack(now, p), live, fuse.(point := p)))
    && (ok ==> forall p :: !DeadAt(now, volume, fuse.device, pods, p))
    && (ok && alone ==> forall p :: DeadAt(was, volume, fuse.device, pods, p) ==> Repaired(Stack(was, p), Stack(now, p), fuse))
    && (calm ==> ok && forall p :: DeadAt(was, volume, fuse.device, pods, p) ==> Stack(now, p) == Rebound(Stack(was, p), live, fuse))
  }

  lemma TurnsRepair(was: Table, now: Table, live: set<int>, volume: VolumeId, staging: Path, fuse: Mount, pods: Path, ok: bool, alone: bool,
                    calm: bool)
    requires TopOf(was, staging) == Some(fuse) && (calm ==> ok)
    requires forall p :: !DeadAt(was, volume, fuse.device, pods, p) ==> Stack(now, p) == Stack(was, p)
    requires forall p :: DeadAt(was, volume, fuse.device, pods, p) ==> TurnedAt(was, was, staging, p, Stack(now, p), live, ok, alone, calm)
    ensures Repairs(was, now, live, volume, fuse, pods, ok, alone, calm)
  {
    forall p | DeadAt(was, volume, fuse.device, pods, p)
      ensures TargetResult(Stack(was, p), Stack(now, p), live, fuse, p, ok, alone, calm)
    {
      StackOfTop(was, p);
      TurnedRepairs(Stack(was, p), Stack(now, p), live, fuse, TopOf(was, p).value, ok, alone, calm);
    }
    forall p ensures ok ==> !DeadAt(now, volume, fuse.device, pods, p) {
      if ok && DeadAt(was, volume, fuse.device, pods, p) {
        var n :| OneMore(Stack(was, p), Stack(now, p), n, fuse);
      }
    }
  }

  lemma StackOfTop(t: Table, p: Path)
    requires TopOf(t, p).Some?
    ensures TopOf(t, p).value.point == p && Stack(t, p) != [] && Stack(t, p)[|Stack(t, p)| - 1] == TopOf(t, p).value
  {}

  predicate IsTopDead(s: seq<Mount>, live: set<int>) { s != [] && s[|s| - 1].device !in live }

  predicate AllDead(s: seq<Mount>, live: set<int>) { forall m :: m in s ==> m.device !in live }

  /** The new layer is on the kept bottom ones: all of them if there were fewer than four, at most the bottom one of a
      stack of dead ones otherwise. */
  predicate Stacked(before: seq<Mount>, after: seq<Mount>, kept: nat, live: set<int>, layer: Mount) {
    && kept <= |before| && after == before[..kept] + [layer]
    && (|before| < MAX_TARGET_LAYERS ==> kept == |before|)
    && (MAX_TARGET_LAYERS <= |before| <= MAX_MOUNT_LAYERS && AllDead(before, live) ==> kept <= 1)
  }

  /** What an attempt to rebind leaves, whether it succeeds or not. */
  ghost predicate Attempted(before: seq<Mount>, after: seq<Mount>, live: set<int>, fuse: Mount) {
    after <= before || exists kept: nat, ro :: Stacked(before, after, kept, live, fuse.(ro := ro))
  }

  /** A non-empty prefix of the old stack, bottom layer included, plus one layer on the live device. */
  ghost predicate Repaired(before: seq<Mount>, after: seq<Mount>, fuse: Mount) {
    exists n :: 0 < n && OneMore(before, after, n, fuse)
  }

  ghost predicate TargetResult(before: seq<Mount>, after: seq<Mount>, live: set<int>, fuse: Mount, point: Path, ok: bool, alone: bool,
                               calm: bool) {
    Attempted(before, after, live, fuse.(point := point)) && (ok ==> RebindResult(before, after, live, fuse, alone, calm))
  }

  ghost predicate RebindResult(before: seq<Mount>, after: seq<Mount>, live: set<int>, fuse: Mount, alone: bool, calm: bool) {
    && (exists n :: OneMore(before, after, n, fuse))
    && (alone ==> Repaired(before, after, fuse))
    && (calm ==> before != [] && after == Rebound(before, live, fuse))
  }

  /** What rebind leaves on a dead target, exactly. */
  function Rebound(s: seq<Mount>, live: set<int>, fuse: Mount): seq<Mount>
    requires s != []
  {
    (if |s| >= MAX_TARGET_LAYERS then Unstacked(s, live, MAX_MOUNT_LAYERS) else s) +
    [fuse.(point := s[|s| - 1].point, ro := s[|s| - 1].ro)]
  }

  /** What BindMount leaves on a target: a dead top layer is replaced, a live one kept. */
  function Published(s: seq<Mount>, live: set<int>, layer: Mount): seq<Mount> {
    if s == [] then [layer]
    else if s[|s| - 1].device in live then s
    else s[..|s| - 1] + [layer]
  }

  // ---------------------------------------------------------------- the layer bound

  /** NodePublishVolume on the target: it has seen a dead top layer, which is to go, or its bind comes next. */
  datatype Publishing = Idle | Clearing | Binding

  /** What unstack has found of a target with four or more layers: a dead layer on top, which went; the bottom layer alone,
      or none; a top layer that answers. */
  datatype Unstacking = NotYet | Removed | AtBottom | FoundAlive

  /** A rebind: the layers of the target in the table that was read, and whether a publish was about to bind then. */
  datatype Repair = Repair(read: nat, halfway: bool, unstack: Unstacking)

  /** A target path of a volume: its layers, the volume's mount on the staging path, the devices that answer, the calls on
      it under way. crossed: the rebinds so far that were crossed (see Crossed). */
  datatype Target = Target(layers: seq<Mount>, fuse: Mount, live: set<int>, publishing: Publishing, repair: Option<Repair>, crossed: nat)

  /** What happens to it, one system call at a time. Replace: daemons go, the mount pod is replaced by one with a device of
      its own. Publish, Clear, Bind, Fail: BindMount looks at the target, unmounts its top layer, binds whatever the staging
      path holds, or stops. ReadTable, Unstack, Rebind: the recovery reads the mount table, removes a dead layer, stacks a
      layer. Cut: layers on top go, by an unpublish or anybody. */
  datatype Event =
    | Replace(fuse: Mount, live: set<int>)
    | Publish
    | Clear
    | Bind(layer: Mount)
    | Fail
    | ReadTable
    | Unstack
    | Rebind(layer: Mount)
    | Cut(n: nat)

  /** A rebind that adds a layer to four or more: unstack found the top one alive, put there by a publish since the table was
      read, or by a former mount pod whose daemon is not gone; or there were three, and a publish about to bind the fourth. */
  predicate Crossed(r: Repair) { r.unstack.FoundAlive? || (r.read == MAX_TARGET_LAYERS - 1 && r.halfway) }

  /** An event that is not possible changes nothing. */
  function After(t: Target, e: Event): Target {
    match e
    case Replace(fuse, live) =>
      if {0} <= live <= t.live + {0, fuse.device} && (fuse.device == t.fuse.device || forall m :: m in t.layers ==> m.device != fuse.device)
      then t.(fuse := fuse, live := live) else t
    case Publish =>
      if !t.publishing.Idle? then t
      else if t.layers == [] then t.(publishing := Binding)
      else if IsTopDead(t.layers, t.live) then t.(publishing := Clearing)
      else t
    case Clear =>
      if t.publishing.Clearing? && t.layers != [] then t.(layers := t.layers[..|t.layers| - 1], publishing := Binding) else t
    case Bind(layer) => if t.publishing.Binding? then t.(layers := t.layers + [layer], publishing := Idle) else t
    case Fail => t.(publishing := Idle)
    case ReadTable =>
      t.(repair := if t.layers != [] && t.layers[|t.layers| - 1].device != t.fuse.device
                   then Some(Repair(|t.layers|, t.publishing.Binding?, NotYet)) else None)
    case Unstack => if t.repair.Some? && t.repair.value.read >= MAX_TARGET_LAYERS then UnstackOne(t, t.repair.value) else t
    case Rebind(layer) =>
      if t.repair.Some? && (t.repair.value.read < MAX_TARGET_LAYERS || !t.repair.value.unstack.NotYet?)
      then t.(layers := t.layers + [layer], repair := None, crossed := t.crossed + (if Crossed(t.repair.value) then 1 else 0))
      else t
    case Cut(n) => if n <= |t.layers| then t.(layers := t.layers[..n]) else t
  }

  /** A turn of unstack. */
  function UnstackOne(t: Target, r: Repair): Target {
    if r.unstack.AtBottom? || r.unstack.FoundAlive? then t
    else if |t.layers| > 1 && IsTopDead(t.layers, t.live)
    then t.(layers := t.layers[..|t.layers| - 1], repair := Some(r.(unstack := Removed)))
    else if r.unstack.Removed? then t
    else t.(repair := Some(r.(unstack := if |t.layers| <= 1 then AtBottom else FoundAlive)))
  }

  function Through(t: Target, events: seq<Event>): Target {
    if events == [] then t else After(Through(t, events[..|events| - 1]), events[|events| - 1])
  }

  /** The target before anything happened on it. */
  predicate Bare(t: Target) { t.layers == [] && t.publishing.Idle? && t.repair.None? && t.crossed == 0 }

  /** The layers there, and the one about to come. */
  function Load(t: Target): nat { |t.layers| + (if t.publishing.Binding? then 1 else 0) }

  function LoadRead(r: Repair): nat { r.read + (if r.halfway then 1 else 0) }

  /** At most four layers, and one more for each rebind that was crossed. Since the table was read a publish has not added
      to them: it removes a layer before it binds, or there was none. */
  predicate Bounded(t: Target) {
    && Load(t) <= MAX_TARGET_LAYERS + t.crossed
    && (t.repair.Some? ==>
          var r := t.repair.value;
          && 0 < r.read && LoadRead(r) <= MAX_TARGET_LAYERS + t.crossed
          && Load(t) <= Max(1, LoadRead(r) - (if r.unstack.Removed? then 1 else 0))
          && (r.unstack.AtBottom? ==> Load(t) <= 2)
          && (!r.unstack.NotYet? ==> r.read >= MAX_TARGET_LAYERS))
  }

  lemma EventKeepsBound(t: Target, e: Event)
    requires Bounded(t)
    ensures Bounded(After(t, e))
  {}

  /** Whatever happens in whatever order, replacements, publishes, repairs, failed ones included, a target path never holds
      more than maxTargetLayers layers and one for each rebind that was crossed, so that up to 27 of them leave
      Unpublish (see Host.Unpublish) turns to spare. */
  lemma {:induction false} LayerBound(t: Target, events: seq<Event>)
    requires Bare(t)
    ensures var t' := Through(t, events);
            && Bounded(t') && |t'.layers| <= MAX_TARGET_LAYERS + t'.crossed
            && (t'.crossed < MAX_STACKED_MOUNTS - MAX_TARGET_LAYERS ==> |t'.layers| < MAX_STACKED_MOUNTS)
  {
    if events != [] {
      LayerBound(t, events[..|events| - 1]);
      EventKeepsBound(Through(t, events[..|events| - 1]), events[|events| - 1]);
    }
  }

  // ---------------------------------------------------------------- what the code does is what happens

  function And(t: Target, events: seq<Event>, e: Event): (r: seq<Event>)
    ensures Through(t, r) == After(Through(t, events), e)
  {
    assert (events + [e])[..|events|] == events;
    events + [e]
  }

  /** The target with other layers. */
  predicate Left(t: Target, t': Target, after: seq<Mount>) {
    t'.layers == after && t'.fuse == t.fuse && t'.live == t.live && t'.publishing == t.publishing
  }

  /** A publish came between the reading of the table and now: what stands in for Crossed before unstack has looked. */
  predicate CrossedNow(t: Target)
    requires t.repair.Some?
  {
    var r := t.repair.value;
    if r.read >= MAX_TARGET_LAYERS then |t.layers| > 1 && !IsTopDead(t.layers, t.live)
    else r.read == MAX_TARGET_LAYERS - 1 && r.halfway
  }

  /** What Host.Rebind leaves on a target, disturbed or not and however old the table it was read in, is what happens in a
      rebind. It counts as crossed exactly if it stacks a layer on several, the top one alive, where four or more were read,
      or on three that were read when a publish was about to bind a fourth. */
  lemma RebindHappens(t: Target, after: seq<Mount>, layer: Mount, ok: bool, alone: bool, calm: bool) returns (events: seq<Event>)
    requires t.repair.Some? && t.repair.value.unstack.NotYet?
    requires Turned(t.repair.value.read, t.layers, after, t.live, layer, ok, alone, calm)
    ensures Left(t, Through(t, events), after)
    ensures Through(t, events).crossed == t.crossed + (if !(after <= t.layers) && CrossedNow(t) then 1 else 0)
  {
    if after <= t.layers {
      events := And(t, [], Cut(|after|));
    } else {
      var n := t.repair.value.read;
      var bound := if exists kept: nat :: StackedOn(n, t.layers, after, kept, t.live, layer, alone, calm) then layer else layer.(ro := false);
      var kept: nat :| StackedOn(n, t.layers, after, kept, t.live, bound, alone, calm);
      events := FreeHappens(t, kept);
      events := And(t, events, Rebind(bound));
    }
  }

  /** unstack's part of it. */
  lemma FreeHappens(t: Target, kept: nat) returns (events: seq<Event>)
    requires t.repair.Some? && t.repair.value.unstack.NotYet? && kept <= |t.layers|
    requires if t.repair.value.read >= MAX_TARGET_LAYERS then Freed(t.layers, t.layers[..kept], t.live) else kept == |t.layers|
    ensures var t', r := Through(t, events), t.repair.value;
            && Left(t, t', t.layers[..kept]) && t'.crossed == t.crossed && t'.repair.Some? && t'.repair.value.read == r.read
            && (r.read >= MAX_TARGET_LAYERS ==> !t'.repair.value.unstack.NotYet?) && (Crossed(t'.repair.value) <==> CrossedNow(t))
  {
    assert t.layers[..|t.layers|] == t.layers;
    if t.repair.value.read >= MAX_TARGET_LAYERS {
      events := And(t, [], Unstack);
      if kept < |t.layers| {
        events := CutTo(t, events, kept);
      }
    } else {
      events := [];
    }
  }

  lemma CutTo(t: Target, events: seq<Event>, kept: nat) returns (r: seq<Event>)
    requires kept < |t.layers| && Through(t, events).layers == t.layers[..|t.layers| - 1]
    ensures Through(t, r) == Through(t, events).(layers := t.layers[..kept])
  {
    r := And(t, events, Cut(kept));
    assert t.layers[..|t.layers| - 1][..kept] == t.layers[..kept];
  }

  /** A dead top layer is replaced. */
  lemma Republished(t: Target, events: seq<Event>, layer: Mount) returns (r: seq<Event>)
    requires var u := Through(t, events); u.publishing.Idle? && IsTopDead(u.layers, u.live)
    ensures var u := Through(t, events); Through(t, r) == u.(layers := u.layers[..|u.layers| - 1] + [layer])
  {
    r := And(t, events, Publish);
    r := And(t, r, Clear);
    r := And(t, r, Bind(layer));
  }

  /** What Host.BindMount leaves, disturbed or not and whatever its source holds, is what happens in a publish. */
  lemma BindMountHappens(t: Target, after: seq<Mount>, layer: Mount) returns (events: seq<Event>)
    requires t.publishing.Idle? && (after <= t.layers || after == Published(t.layers, t.live, layer))
    ensures Through(t, events) == t.(layers := after)
  {
    if after <= t.layers {
      events := And(t, [], Cut(|after|));
    } else if t.layers == [] {
      events := And(t, [], Publish);
      events := And(t, events, Bind(layer));
    } else {
      events := Republished(t, [], layer);
    }
  }

  // ---------------------------------------------------------------- the bound is met

  /** k layers, nothing under way, the mounts of the layers no newer than the volume's, which alone answers. */
  ghost predicate Standing(t: Target, k: nat, n: nat) {
    && |t.layers| == k && t.publishing.Idle? && t.repair.None? && t.crossed == n
    && 0 < t.fuse.device && t.live == {0, t.fuse.device} && forall m :: m in t.layers ==> 0 < m.device <= t.fuse.device
  }

  /** And all of them are dead. */
  ghost predicate Dead(t: Target, k: nat, n: nat) {
    Standing(t, k, n) && forall m :: m in t.layers ==> m.device < t.fuse.device
  }

  lemma PodReplaced(t: Target, events: seq<Event>, k: nat, n: nat) returns (r: seq<Event>)
    requires Standing(Through(t, events), k, n)
    ensures Dead(Through(t, r), k, n)
  {
    var u := Through(t, events);
    var fuse := u.fuse.(device := u.fuse.device + 1);
    r := And(t, events, Replace(fuse, {0, fuse.device}));
  }

  /** A first publish. */
  lemma OneLayer(t: Target) returns (r: seq<Event>)
    requires Bare(t)
    ensures Dead(Through(t, r), 1, 0)
  {
    var fuse := t.fuse.(device := 1);
    r := And(t, [], Replace(fuse, {0, 1}));
    r := And(t, r, Publish);
    r := And(t, r, Bind(fuse));
    assert Through(t, r).layers == [fuse];
    r := PodReplaced(t, r, 1, 0);
  }

  /** Rebound with fewer than four. */
  lemma OneMoreLayer(t: Target, events: seq<Event>, k: nat) returns (r: seq<Event>)
    requires 0 < k < MAX_TARGET_LAYERS && Dead(Through(t, events), k, 0)
    ensures Dead(Through(t, r), k + 1, 0)
  {
    var u := Through(t, events);
    r := And(t, events, ReadTable);
    r := And(t, r, Rebind(u.fuse));
    r := PodReplaced(t, r, k + 1, 0);
  }

  lemma {:induction false} LayersBelow(t: Target, k: nat) returns (r: seq<Event>)
    requires Bare(t) && 0 < k <= MAX_TARGET_LAYERS
    ensures Dead(Through(t, r), k, 0)
  {
    if k == 1 {
      r := OneLayer(t);
    } else {
      r := LayersBelow(t, k - 1);
      r := OneMoreLayer(t, r, k - 1);
    }
  }

  /** A publish replaces the dead top layer after the table was read: unstack finds a live one, and the rebind adds to
      them. */
  lemma PublishCrosses(t: Target, events: seq<Event>, k: nat, n: nat) returns (r: seq<Event>)
    requires k >= MAX_TARGET_LAYERS && Dead(Through(t, events), k, n)
    ensures Standing(Through(t, r), k + 1, n + 1)
  {
    var u := Through(t, events);
    r := And(t, events, ReadTable);
    r := Republished(t, r, u.fuse);
    r := And(t, r, Unstack);
    r := And(t, r, Rebind(u.fuse));
  }

  /** Over and over. */
  lemma {:induction false} BoundIsMet(t: Target, n: nat) returns (r: seq<Event>)
    requires Bare(t)
    ensures Dead(Through(t, r), MAX_TARGET_LAYERS + n, n)
  {
    if n == 0 {
      r := LayersBelow(t, MAX_TARGET_LAYERS);
    } else {
      r := BoundIsMet(t, n - 1);
      r := PublishCrosses(t, r, MAX_TARGET_LAYERS + n - 1, n - 1);
      r := PodReplaced(t, r, MAX_TARGET_LAYERS + n, n);
    }
  }

  /** The other way: the table is read when the publish has removed one layer of four, so that unstack has nothing to do,
      and the rebind stacks its layer before the publish does. */
  lemma HalfwayCrosses(t: Target) returns (r: seq<Event>)
    requires Bare(t)
    ensures Standing(Through(t, r), MAX_TARGET_LAYERS + 1, 1)
  {
    r := LayersBelow(t, MAX_TARGET_LAYERS);
    var u := Through(t, r);
    r := And(t, r, Publish);
    r := And(t, r, Clear);
    r := And(t, r, ReadTable);
    r := And(t, r, Rebind(u.fuse));
    r := And(t, r, Bind(u.fuse));
  }

  /** m layers are enough for every sequence of events with n crossed rebinds if and only if m is at least four and n: four
      are exactly if none was crossed. */
  lemma LayersIff(t: Target, n: nat, m: nat)
    requires Bare(t)
    ensures (forall events :: Through(t, events).crossed == n ==> |Through(t, events).layers| <= m) <==> MAX_TARGET_LAYERS + n <= m
  {
    forall events | Through(t, events).crossed == n ensures |Through(t, events).layers| <= MAX_TARGET_LAYERS + n {
      LayerBound(t, events);
    }
    var r := BoundIsMet(t, n);
    assert Through(t, r).crossed == n && |Through(t, r).layers| == MAX_TARGET_LAYERS + n;
  }
}
