/** What a mount pod is built from, and how its Spec is read back from it (internal/mountpod/pod.go,
    SpecOf in manager.go). JSON is a trusted pair of inverses, SHA-256 injective: the recorded
    spec and the config hash are the values encoded. */
module PodSpec {
  import opened Base

  datatype Credentials = Credentials(token: string, passphrase: string)

  datatype Cache = Cache(redisURL: string, highConfidentiality: bool)

  datatype Options = Options(cacheTTL: nat, backgroundDelete: bool, unsafeWrite: bool, readOnly: bool,
                             localFile: Option<seq<string>>)

  /** Resource name to quantity, in its smallest unit. */
  type ResourceList = map<string, nat>

  datatype Resources = Resources(requests: ResourceList, limits: ResourceList)

  datatype Spec = Spec(volume: VolumeId, node: string, pvcName: string, pvcNamespace: string, staging: Path,
                       credentials: Credentials, cache: Cache, uid: nat, gid: nat, options: Options,
                       resources: Resources)

  /** The part of Config the pods depend on; plugins is <KubeletDir>/plugins. */
  datatype NodeConfig = NodeConfig(image: string, cliVersion: string, resources: Resources, plugins: Path)

  datatype ConfigHash = ConfigHash(credentials: Credentials, cache: Cache, uid: nat, gid: nat, options: Options,
                                   resources: Resources, image: string)

  datatype StoredSpec = StoredSpec(uid: nat, gid: nat, options: Options, resources: Resources)

  /** The annotations of a mount pod. */
  datatype Annotations = Annotations(volume: VolumeId, node: string, pvcName: string, pvcNamespace: string,
                                     hash: ConfigHash, cliVersion: string, staging: Path, stored: StoredSpec,
                                     secret: SecretId)

  /** The data of a pod's own Secret. */
  datatype SecretData = SecretData(token: string, passphrase: string, redisURL: Option<string>)

  // ---------------------------------------------------------------- validation

  predicate IsPathComponent(v: string) {
    v != "" && v != "." && v != ".." && '/' !in v && '\0' !in v
  }

  /** Spec.validate. */
  predicate Complete(s: Spec) {
    s.node != "" && IsPathComponent(s.volume) && s.credentials.token != "" && s.credentials.passphrase != ""
  }

  function LastSlash(p: Path): (i: int)
    ensures -1 <= i < |p| && (i >= 0 ==> p[i] == '/') && forall j :: i < j < |p| ==> p[j] != '/'
  {
    if p == "" then -1 else if p[|p| - 1] == '/' then |p| - 1 else LastSlash(p[..|p| - 1])
  }

  /** A clean absolute path other than "/": path.IsAbs and path.Clean(p) == p. */
  predicate CleanAbs(p: Path) {
    var i := LastSlash(p);
    i >= 0 && p[i + 1..] != "" && p[i + 1..] != "." && p[i + 1..] != ".." && (i == 0 || CleanAbs(p[..i]))
  }

  /** checkStagingPath: a clean path at least two levels under <KubeletDir>/plugins. */
  predicate StagingOk(cfg: NodeConfig, p: Path) {
    CleanAbs(p) && cfg.plugins + "/" <= p[..LastSlash(p)]
  }

  predicate SpecOk(cfg: NodeConfig, s: Spec) { Complete(s) && StagingOk(cfg, s.staging) }

  // ---------------------------------------------------------------- resources and hash

  /** A request above its limit is lowered to it when the spec does not set it. */
  function Lowered(requests: ResourceList, limits: ResourceList, own: ResourceList, n: string): nat
    requires n in requests
  {
    if n in limits && n !in own && requests[n] > limits[n] then limits[n] else requests[n]
  }

  /** The merged resources: the spec's over the configured ones, a default request lowered to its limit. */
  function Merged(defaults: Resources, own: Resources): (r: Resources)
    ensures r.limits.Keys == defaults.limits.Keys + own.limits.Keys
    ensures r.requests.Keys == defaults.requests.Keys + own.requests.Keys
    ensures forall n :: n in own.requests ==> r.requests[n] == own.requests[n]
    ensures forall n :: n in r.requests && n in r.limits && n !in own.requests ==> r.requests[n] <= r.limits[n]
  {
    var requests, limits := defaults.requests + own.requests, defaults.limits + own.limits;
    Resources(map n | n in requests :: Lowered(requests, limits, own.requests, n), limits)
  }

  /** resources: the two merge loops, then the loop over the limits. */
  method MergeResources(defaults: Resources, own: Resources) returns (out: Resources)
    ensures out == Merged(defaults, own)
  {
    var requests := CopyInto(map[], defaults.requests);
    requests := CopyInto(requests, own.requests);
    var limits := CopyInto(map[], defaults.limits);
    limits := CopyInto(limits, own.limits);
    assert limits == defaults.limits + own.limits && requests == defaults.requests + own.requests;
    requests := LowerRequests(requests, limits, own.requests);
    out := Resources(requests, limits);
  }

  method LowerRequests(requests: ResourceList, limits: ResourceList, own: ResourceList) returns (out: ResourceList)
    ensures out == map n | n in requests :: Lowered(requests, limits, own, n)
  {
    out := requests;
    var rest := limits.Keys;
    while rest != {}
      invariant rest <= limits.Keys
      invariant out == map n | n in requests :: if n in rest then requests[n] else Lowered(requests, limits, own, n)
      decreases rest
    {
      var name :| name in rest;
      if name in out && name !in own && out[name] > limits[name] {
        out := out[name := limits[name]];
      }
      rest := rest - {name};
    }
  }

  method CopyInto(into: ResourceList, l: ResourceList) returns (out: ResourceList)
    ensures out == into + l
  {
    out := into;
    var rest := l.Keys;
    while rest != {}
      invariant rest <= l.Keys
      invariant out == into + (map n | n in l && n !in rest :: l[n])
      decreases rest
    {
      var name :| name in rest;
      out := out[name := l[name]];
      rest := rest - {name};
    }
    assert (map n | n in l && n !in rest :: l[n]) == l;
  }

  /** Manager.ConfigHash. */
  function HashOf(cfg: NodeConfig, s: Spec): ConfigHash {
    ConfigHash(s.credentials, s.cache, s.uid, s.gid, s.options, Merged(cfg.resources, s.resources), cfg.image)
  }

  // ---------------------------------------------------------------- build and read back

  function BuildSecret(s: Spec): SecretData {
    SecretData(s.credentials.token, s.credentials.passphrase,
               if s.cache.redisURL != "" then Some(s.cache.redisURL) else None)
  }

  function BuildPod(cfg: NodeConfig, s: Spec, secret: SecretId): Annotations {
    Annotations(s.volume, s.node, s.pvcName, s.pvcNamespace, HashOf(cfg, s), cfg.cliVersion, s.staging,
                StoredSpec(s.uid, s.gid, s.options, s.resources), secret)
  }

  /** SpecOf, for a pod that exists, from what reading its Secret found; None is its error. */
  function ReadBack(a: Annotations, secret: Option<SecretData>, cache: Cache): Option<Spec> {
    if a.staging == "" || secret.None? then None
    else
      Some(Spec(a.volume, a.node, a.pvcName, a.pvcNamespace, a.staging,
                Credentials(secret.value.token, secret.value.passphrase), cache,
                a.stored.uid, a.stored.gid, a.stored.options, a.stored.resources))
  }

  /** Recreation preserves the config: the Spec read back from a pod and its Secret is the one it was
      built from, with the cache settings of the node plugin in place of the spec's. */
  lemma ReadBackBuilt(cfg: NodeConfig, s: Spec, secret: SecretId, cache: Cache)
    requires s.staging != ""
    ensures ReadBack(BuildPod(cfg, s, secret), Some(BuildSecret(s)), cache) == Some(s.(cache := cache))
  {}

  /** The replacement runs the dead pod's config exactly when the node's image, cache and merged
      resources are still those the dead pod was built with. */
  lemma SameHashIff(cfg: NodeConfig, cfg': NodeConfig, s: Spec, secret: SecretId, cache: Cache)
    requires s.staging != ""
    ensures ReadBack(BuildPod(cfg, s, secret), Some(BuildSecret(s)), cache).Some?
    ensures HashOf(cfg', ReadBack(BuildPod(cfg, s, secret), Some(BuildSecret(s)), cache).value) == BuildPod(cfg, s, secret).hash <==>
            cache == s.cache && cfg'.image == cfg.image &&
            Merged(cfg'.resources, s.resources) == Merged(cfg.resources, s.resources)
  {}

  /** A volume's spec is taken from the API server only if it can be mounted: never on "" and never
      directly in kubelet's plugin directory. */
  lemma StagingUnderPlugins(cfg: NodeConfig, p: Path)
    requires StagingOk(cfg, p)
    ensures p != "" && |cfg.plugins| + 2 < |p| && cfg.plugins + "/" <= p
  {
    var i := LastSlash(p);
    assert p[..i] <= p;
    assert p == p[..i] + p[i..];
    assert i >= |cfg.plugins| + 1;
    assert p[..i][..|cfg.plugins| + 1] == p[..|cfg.plugins| + 1];
    if i == |cfg.plugins| + 1 {
      assert p[..i] == cfg.plugins + "/";
      assert LastSlash(p[..i]) == i - 1;
    }
  }

  /** A path component: no separator, and none that Clean drops or resolves. */
  predicate IsName(c: string) { c != "" && c != "." && c != ".." && '/' !in c }

  predicate AllNames(names: seq<string>) { forall i :: 0 <= i < |names| ==> IsName(names[i]) }

  function Below(base: Path, c: string): Path { base + "/" + c }

  /** A path below another. */
  function Joined(base: Path, names: seq<string>): Path {
    if names == [] then base else Below(Joined(base, names[..|names| - 1]), names[|names| - 1])
  }

  /** A staging path is accepted if and only if it is two or more names below the plugins directory. */
  lemma StagingIff(cfg: NodeConfig, p: Path)
    requires CleanAbs(cfg.plugins)
    ensures StagingOk(cfg, p) <==> exists names :: |names| >= 2 && AllNames(names) && p == Joined(cfg.plugins, names)
  {
    if StagingOk(cfg, p) {
      var c := LastName(p);
      var names := NamesBelow(cfg.plugins, p[..LastSlash(p)]);
      NameMore(cfg.plugins, names, c);
      assert |names + [c]| >= 2 && AllNames(names + [c]) && p == Joined(cfg.plugins, names + [c]);
    }
    if names :| |names| >= 2 && AllNames(names) && p == Joined(cfg.plugins, names) {
      var above := names[..|names| - 1];
      JoinedClean(cfg.plugins, above);
      CleanBelow(Joined(cfg.plugins, above), names[|names| - 1]);
    }
  }

  /** And a spec: its node named, its volume a name without NUL, its credentials complete. */
  lemma SpecOkIff(cfg: NodeConfig, s: Spec)
    requires CleanAbs(cfg.plugins)
    ensures SpecOk(cfg, s) <==>
      && s.node != "" && IsName(s.volume) && '\0' !in s.volume && s.credentials.token != "" && s.credentials.passphrase != ""
      && exists names :: |names| >= 2 && AllNames(names) && s.staging == Joined(cfg.plugins, names)
  {
    StagingIff(cfg, s.staging);
  }

  /** The last component of a clean path. */
  lemma LastName(p: Path) returns (c: string)
    requires CleanAbs(p)
    ensures LastSlash(p) >= 0 && IsName(c) && c == p[LastSlash(p) + 1..] && p == Below(p[..LastSlash(p)], c)
  {
    var i := LastSlash(p);
    c := p[i + 1..];
    forall j | 0 <= j < |c| ensures c[j] != '/' {
      assert c[j] == p[i + 1 + j];
    }
    AtSlash(p, i);
  }

  lemma AtSlash(p: Path, i: nat)
    requires i < |p| && p[i] == '/'
    ensures p == Below(p[..i], p[i + 1..])
  {}

  lemma NameMore(base: Path, names: seq<string>, c: string)
    requires AllNames(names) && IsName(c)
    ensures AllNames(names + [c]) && Joined(base, names + [c]) == Below(Joined(base, names), c)
  {
    assert (names + [c])[..|names|] == names;
  }

  lemma SlashBelow(base: Path, c: string)
    requires '/' !in c
    ensures LastSlash(Below(base, c)) == |base|
  {
    var p := Below(base, c);
    assert p[|base|] == '/';
    forall j | |base| < j < |p| ensures p[j] != '/' {
      assert p[j] == c[j - |base| - 1];
    }
  }

  lemma CleanBelow(base: Path, c: string)
    requires CleanAbs(base) && IsName(c)
    ensures LastSlash(Below(base, c)) == |base| && Below(base, c)[..|base|] == base && CleanAbs(Below(base, c))
  {
    SlashBelow(base, c);
    CutBelow(base, c);
  }

  lemma CutBelow(base: Path, c: string)
    ensures var p := Below(base, c); |p| == |base| + 1 + |c| && p[..|base|] == base && p[|base| + 1..] == c
  {}

  lemma {:induction false} JoinedClean(base: Path, names: seq<string>)
    requires CleanAbs(base) && AllNames(names)
    ensures CleanAbs(Joined(base, names)) && (names != [] ==> base + "/" <= Joined(base, names))
  {
    if names != [] {
      var above := names[..|names| - 1];
      JoinedClean(base, above);
      CleanBelow(Joined(base, above), names[|names| - 1]);
      if above != [] {
        assert base + "/" <= Joined(base, above) <= Joined(base, names);
      }
    }
  }

  lemma {:induction false} NamesBelow(base: Path, p: Path) returns (names: seq<string>)
    requires CleanAbs(base) && CleanAbs(p) && base + "/" <= p
    ensures |names| >= 1 && AllNames(names) && p == Joined(base, names)
    decreases |p|
  {
    var c := LastName(p);
    var i := LastSlash(p);
    assert p[|base|] == '/';
    var above := [];
    if i == |base| {
      assert p[..i] == base;
    } else {
      assert p[..i][..|base| + 1] == base + "/";
      above := NamesBelow(base, p[..i]);
    }
    NameMore(base, above, c);
    names := above + [c];
  }
}
