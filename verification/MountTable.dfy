/** The mount table as mountinfo lists it: parents first, so that the last entry for a path is its top
    layer; and the readers of internal/driver/recovery.go over it. */
module MountTable {
  import opened Base

  datatype Mount = Mount(point: Path, source: string, device: int, root: string, ro: bool)

  type Table = seq<Mount>

  // ---------------------------------------------------------------- layers

  /** The layers on a path, bottom first. */
  function Stack(t: Table, p: Path): (s: seq<Mount>)
    ensures |s| <= |t|
    ensures forall m :: m in s ==> m.point == p
  {
    if t == [] then []
    else
      var s := Stack(t[..|t| - 1], p);
      if t[|t| - 1].point == p then s + [t[|t| - 1]] else s
  }

  /** The rest of the table. */
  function Elsewhere(t: Table, p: Path): Table {
    if t == [] then []
    else
      var s := Elsewhere(t[..|t| - 1], p);
      if t[|t| - 1].point != p then s + [t[|t| - 1]] else s
  }

  function TopOf(t: Table, p: Path): Option<Mount> {
    var s := Stack(t, p);
    if s == [] then None else Some(s[|s| - 1])
  }

  /** umount(2): the top layer of a path goes. */
  function RemoveTop(t: Table, p: Path): Table {
    if t == [] then []
    else if t[|t| - 1].point == p then t[..|t| - 1]
    else RemoveTop(t[..|t| - 1], p) + [t[|t| - 1]]
  }

  /** What unmounting, bind-mounting and remounting on p leave alone: every other path keeps its layers. */
  ghost predicate SameElsewhere(t: Table, t': Table, p: Path) {
    forall q :: q != p ==> Stack(t', q) == Stack(t, q)
  }

  lemma {:induction false} InStack(t: Table, i: nat)
    requires i < |t|
    ensures t[i] in Stack(t, t[i].point)
  {
    if i < |t| - 1 {
      InStack(t[..|t| - 1], i);
    }
  }

  lemma {:induction false} StackOfTable(t: Table, p: Path, m: Mount)
    requires m in Stack(t, p)
    ensures m in t && m.point == p
  {
    var r := t[..|t| - 1];
    if m in Stack(r, p) {
      StackOfTable(r, p, m);
    }
  }

  lemma {:induction false} RemoveTopStack(t: Table, p: Path)
    ensures Stack(RemoveTop(t, p), p) == if Stack(t, p) == [] then [] else Stack(t, p)[..|Stack(t, p)| - 1]
    ensures SameElsewhere(t, RemoveTop(t, p), p)
  {
    if t != [] && t[|t| - 1].point != p {
      var r, m := t[..|t| - 1], t[|t| - 1];
      RemoveTopStack(r, p);
      assert (RemoveTop(r, p) + [m])[..|RemoveTop(r, p)|] == RemoveTop(r, p);
      forall q | q != p ensures Stack(RemoveTop(t, p), q) == Stack(t, q) {
        assert Stack(RemoveTop(r, p), q) == Stack(r, q);
      }
    }
  }

  lemma PushStack(t: Table, m: Mount)
    ensures Stack(t + [m], m.point) == Stack(t, m.point) + [m]
    ensures SameElsewhere(t, t + [m], m.point)
  {
    assert (t + [m])[..|t|] == t;
  }

  // ---------------------------------------------------------------- readers

  function SourceOf(volume: VolumeId): string { "retyc://" + volume }

  /** isTarget: pods is <KubeletDir>/pods followed by a slash. */
  predicate IsTarget(pods: Path, p: Path) { pods <= p }

  /** topMount. */
  method TopMount(infos: Table, path: Path) returns (top: Option<Mount>)
    ensures top == if path == "" then None else TopOf(infos, path)
  {
    top := None;
    if path == "" {
      return;
    }
    for i := 0 to |infos|
      invariant top == TopOf(infos[..i], path)
    {
      assert infos[..i + 1][..i] == infos[..i];
      if infos[i].point == path {
        top := Some(infos[i]);
      }
    }
    assert infos[..|infos|] == infos;
  }

  /** layers. */
  method Layers(infos: Table, path: Path) returns (n: nat)
    ensures n == |Stack(infos, path)|
  {
    n := 0;
    for i := 0 to |infos|
      invariant n == |Stack(infos[..i], path)|
    {
      assert infos[..i + 1][..i] == infos[..i];
      if infos[i].point == path {
        n := n + 1;
      }
    }
    assert infos[..|infos|] == infos;
  }

  /** A pod target path with a layer of the volume, dead or alive. */
  ghost predicate BoundAt(t: Table, volume: VolumeId, pods: Path, p: Path) {
    IsTarget(pods, p) && exists m :: m in Stack(t, p) && m.source == SourceOf(volume)
  }

  ghost predicate Distinct<T>(s: seq<T>) {
    forall i, j :: 0 <= i < j < |s| ==> s[i] != s[j]
  }

  /** binds: exactly the target paths the volume is still published at, each once. */
  method Binds(infos: Table, volume: VolumeId, pods: Path) returns (out: seq<Path>)
    ensures Distinct(out)
    ensures forall p :: p in out <==> BoundAt(infos, volume, pods, p)
    ensures forall p :: p in out <==> pods <= p && exists j :: 0 <= j < |infos| && infos[j].point == p && infos[j].source == SourceOf(volume)
  {
    out := [];
    for i := 0 to |infos|
      invariant Distinct(out)
      invariant forall p :: p in out <==> exists j :: 0 <= j < i && Carries(infos[j], volume, pods, p)
    {
      if infos[i].source == SourceOf(volume) && IsTarget(pods, infos[i].point) && infos[i].point !in out {
        out := out + [infos[i].point];
        assert Carries(infos[i], volume, pods, infos[i].point);
      }
    }
    forall p ensures p in out <==> BoundAt(infos, volume, pods, p) {
      BoundIffListed(infos, volume, pods, p);
    }
  }

  predicate Carries(m: Mount, volume: VolumeId, pods: Path, p: Path) {
    m.point == p && IsTarget(pods, p) && m.source == SourceOf(volume)
  }

  lemma BoundIffListed(t: Table, volume: VolumeId, pods: Path, p: Path)
    ensures BoundAt(t, volume, pods, p) <==> exists j :: 0 <= j < |t| && Carries(t[j], volume, pods, p)
  {
    if BoundAt(t, volume, pods, p) {
      var m :| m in Stack(t, p) && m.source == SourceOf(volume);
      StackOfTable(t, p, m);
      var j :| 0 <= j < |t| && t[j] == m;
      assert Carries(t[j], volume, pods, p);
    }
    if j :| 0 <= j < |t| && Carries(t[j], volume, pods, p) {
      InStack(t, j);
    }
  }

  /** A target path whose top layer is the volume's root on another device than the live one. */
  predicate DeadAt(t: Table, volume: VolumeId, alive: int, pods: Path, p: Path) {
    IsTarget(pods, p) && TopOf(t, p).Some? && DeadMount(TopOf(t, p).value, volume, alive)
  }

  /** The single pass of deadTargets: the target paths in the order met, and the last entry of each. */
  method TopByTarget(infos: Table, pods: Path) returns (order: seq<Path>, top: map<Path, Mount>)
    ensures Distinct(order)
    ensures forall p :: p in order <==> p in top
    ensures forall p :: p in top <==> IsTarget(pods, p) && TopOf(infos, p).Some?
    ensures forall p :: p in top ==> TopOf(infos, p) == Some(top[p])
  {
    order, top := [], map[];
    for i := 0 to |infos|
      invariant Distinct(order)
      invariant forall p :: p in order <==> p in top
      invariant forall p :: p in top ==> IsTarget(pods, p)
      invariant forall p :: IsTarget(pods, p) ==> TopOf(infos[..i], p) == if p in top then Some(top[p]) else None
    {
      var info := infos[i];
      forall p ensures TopOf(infos[..i + 1], p) == if info.point == p then Some(info) else TopOf(infos[..i], p) {
        assert infos[..i + 1][..i] == infos[..i];
      }
      if IsTarget(pods, info.point) {
        if info.point !in top {
          order := order + [info.point];
        }
        top := top[info.point := info];
      }
    }
    assert infos[..|infos|] == infos;
  }

  predicate DeadMount(m: Mount, volume: VolumeId, alive: int) {
    m.device != alive && m.root == "/" && m.source == SourceOf(volume)
  }

  /** The second loop of deadTargets. */
  method SelectDead(order: seq<Path>, top: map<Path, Mount>, volume: VolumeId, alive: int) returns (targets: seq<Mount>)
    requires Distinct(order) && forall p :: p in order ==> p in top && top[p].point == p
    ensures forall i, j :: 0 <= i < j < |targets| ==> targets[i].point != targets[j].point
    ensures forall i :: 0 <= i < |targets| ==> targets[i].point in order && targets[i] == top[targets[i].point]
    ensures forall p :: p in order && DeadMount(top[p], volume, alive) <==> exists i :: 0 <= i < |targets| && targets[i].point == p
  {
    targets := [];
    for i := 0 to |order|
      invariant forall j, k :: 0 <= j < k < |targets| ==> targets[j].point != targets[k].point
      invariant forall j :: 0 <= j < |targets| ==>
                  targets[j].point in order[..i] && targets[j] == top[targets[j].point] && DeadMount(targets[j], volume, alive)
      invariant forall p :: p in order[..i] && DeadMount(top[p], volume, alive) ==> top[p] in targets
    {
      var info := top[order[i]];
      assert order[..i + 1] == order[..i] + [order[i]];
      assert order[i] !in order[..i];
      if info.device != alive && info.root == "/" && info.source == SourceOf(volume) {
        targets := targets + [info];
      }
    }
    assert order[..|order|] == order;
    forall p | p in order && DeadMount(top[p], volume, alive) ensures exists i :: 0 <= i < |targets| && targets[i].point == p {
      var i :| 0 <= i < |targets| && targets[i] == top[p];
    }
  }

  /** deadTargets: agrees with asking for the top layer path by path. */
  method DeadTargets(infos: Table, volume: VolumeId, alive: int, pods: Path) returns (targets: seq<Mount>)
    ensures forall i, j :: 0 <= i < j < |targets| ==> targets[i].point != targets[j].point
    ensures forall i :: 0 <= i < |targets| ==> TopOf(infos, targets[i].point) == Some(targets[i])
    ensures forall p :: DeadAt(infos, volume, alive, pods, p) <==> exists i :: 0 <= i < |targets| && targets[i].point == p
    ensures forall m :: m in targets <==>
      pods <= m.point && TopOf(infos, m.point) == Some(m) && m.device != alive && m.root == "/" && m.source == SourceOf(volume)
  {
    var order, top := TopByTarget(infos, pods);
    forall p | p in order ensures top[p].point == p {
      TopPoint(infos, p);
    }
    targets := SelectDead(order, top, volume, alive);
  }

  lemma TopPoint(t: Table, p: Path)
    ensures TopOf(t, p).Some? ==> TopOf(t, p).value.point == p
  {}
}
