/**
 * How a node's machine configuration comes about: patches folded over a generated base, stage by
 * stage, with a list that explains where each of them came from.
 *
 * A configuration maps paths to values; the first element of a path names a document section. A
 * patch deletes everything under some paths and sets others, or is broken and cannot be loaded.
 */
module MachineConfig {
  import opened Types

  /** The parts of paths that the operator itself mentions; `Other` is every other name. */
  datatype Key =
    | MachineKey | TypeKey | KubeletKey | NetworkKey | HostnameKey | RegisterWithFQDNKey | NodeIPKey
    | NodeLabelsKey | NodeAnnotationsKey | NodeTaintsKey | LabelsKey | ClusterNameKey
    | ClusterKey | APIServerKey | ControllerManagerKey | SchedulerKey | ProxyKey | ImageKey | AutoKey
    | HostnameConfig | KubeletConfig | KubeAPIServerConfig | KubeControllerManagerConfig
    | KubeSchedulerConfig | KubeProxyConfig | KubeNodeConfig
    | CAKey | TokenKey | SecretKey | IDKey | AescbcKey | SecretboxKey | AggregatorCAKey | ServiceAccountKey | EtcdKey
    | DiscoveryIdentityConfig | KubeAPIServerCAConfig | KubeAggregatorCAConfig | KubeEtcdEncryptionConfig
    | KubeServiceAccountConfig | IssuerKey | PrivateKeyKey
    | Other(name: string)

  type Path = seq<Key>
  type Config = map<Path, string>

  datatype Patch = Broken | Edits(drops: set<Path>, sets: Config)

  predicate Drops(p: Patch, q: Path)
    requires p.Edits?
  {
    exists d :: d in p.drops && d <= q
  }

  predicate Touches(p: Patch, q: Path) { p.Edits? && (Drops(p, q) || q in p.sets) }

  function Apply(c: Config, p: Patch): Config
    requires p.Edits?
  {
    (map q | q in c && !Drops(p, q) :: c[q]) + p.sets
  }

  predicate Loadable(ps: seq<Patch>) { forall i :: 0 <= i < |ps| ==> ps[i].Edits? }

  /** The left fold of the patches. */
  function Fold(c: Config, ps: seq<Patch>): Config
    requires Loadable(ps)
  {
    if ps == [] then c else Apply(Fold(c, ps[..|ps| - 1]), ps[|ps| - 1])
  }

  lemma {:induction false} FoldJoins(c: Config, a: seq<Patch>, b: seq<Patch>)
    requires Loadable(a) && Loadable(b)
    ensures Loadable(a + b) && Fold(c, a + b) == Fold(Fold(c, a), b)
    decreases |b|
  {
    if b == [] {
      assert a + b == a;
    } else {
      assert (a + b)[..|a + b| - 1] == a + b[..|b| - 1];
      FoldJoins(c, a, b[..|b| - 1]);
    }
  }

  /** The last patch to touch a path decides it: later stages take priority over earlier ones. */
  lemma {:induction false} LastPatchWins(c: Config, ps: seq<Patch>, k: nat, q: Path)
    requires Loadable(ps) && k < |ps| && q in ps[k].sets
    requires forall j :: k < j < |ps| ==> !Touches(ps[j], q)
    ensures q in Fold(c, ps) && Fold(c, ps)[q] == ps[k].sets[q]
    decreases |ps|
  {
    if k < |ps| - 1 { LastPatchWins(c, ps[..|ps| - 1], k, q); }
  }

  // ---------------------------------------------------------------- what goes in

  datatype Ref = Ref(name: string, namespace: string, key: string)

  datatype Images = Images(apiserver: string, controllerManager: string, scheduler: string, kubelet: string)

  datatype Spec = Spec(
    role: Role,
    clusterName: string,
    fqdn: string,
    versions: Images,
    clusterRefs: seq<Ref>, clusterPatches: seq<Patch>,
    controlplaneRefs: seq<Ref>, controlplanePatches: seq<Patch>,
    workerRefs: seq<Ref>, workerPatches: seq<Patch>,
    nodeRefs: seq<Ref>, nodePatches: seq<Patch>,
    namespace: string,
    crossNamespace: bool,     // references may name another namespace
    labelled: bool,             // the cluster-name label is wanted
    stored: map<(string, string), map<string, Patch>>)   // ConfigMaps by namespace and name

  /** The lists that patches come from. */
  datatype Origin =
    | ClusterRefs | ClusterPatches | ControlplaneRefs | ControlplanePatches
    | WorkerRefs | WorkerPatches | NodeRefs | NodePatches

  /** An entry of the patch hierarchy. */
  datatype Source = BaseConfig | From(origin: Origin, i: nat) | RoleType | KubernetesVersions | ClusterLabel | Hostname

  function NamespaceOf(s: Spec, r: Ref): string { if r.namespace == "" then s.namespace else r.namespace }

  /** The reference names no namespace, unless it may, and leads to an entry of a ConfigMap. */
  predicate Reachable(s: Spec, r: Ref) {
    && (r.namespace == "" || s.crossNamespace)
    && (NamespaceOf(s, r), r.name) in s.stored
    && (if r.key == "" then "patch.yaml" else r.key) in s.stored[(NamespaceOf(s, r), r.name)]
  }

  /** The patch a reference stands for; None if it may not be used or leads nowhere. */
  function Fetched(s: Spec, r: Ref): Option<Patch> {
    var at := (if r.namespace != "" then r.namespace else s.namespace, r.name);
    var key := if r.key == "" then "patch.yaml" else r.key;
    if !s.crossNamespace && r.namespace != "" then None
    else if at !in s.stored || key !in s.stored[at] then None
    else Some(s.stored[at][key])
  }

  predicate AllFetched(s: Spec, refs: seq<Ref>) { forall i :: 0 <= i < |refs| ==> Fetched(s, refs[i]).Some? }

  function Fetches(s: Spec, refs: seq<Ref>): (r: seq<Patch>)
    requires AllFetched(s, refs)
    ensures |r| == |refs| && forall i :: 0 <= i < |r| ==> r[i] == Fetched(s, refs[i]).value
  {
    seq(|refs|, i requires 0 <= i < |refs| => Fetched(s, refs[i]).value)
  }

  method FetchRefs(s: Spec, refs: seq<Ref>) returns (r: Option<seq<Patch>>)
    ensures r == if AllFetched(s, refs) then Some(Fetches(s, refs)) else None
    ensures r.None? <==> exists i :: 0 <= i < |refs| && !Reachable(s, refs[i])
    ensures r.Some? ==> |r.value| == |refs|
    ensures r.Some? ==>
              forall i :: 0 <= i < |refs| && Reachable(s, refs[i]) ==>
                r.value[i] == s.stored[(NamespaceOf(s, refs[i]), refs[i].name)][if refs[i].key == "" then "patch.yaml" else refs[i].key]
  {
    var patches: seq<Patch> := [];
    for i := 0 to |refs|
      invariant AllFetched(s, refs[..i]) && patches == Fetches(s, refs[..i])
    {
      var ref := refs[i];
      assert refs[..i + 1] == refs[..i] + [ref];
      if !s.crossNamespace && ref.namespace != "" {
        assert Fetched(s, refs[i]).None?;
        return None;
      }
      var at := (if ref.namespace != "" then ref.namespace else s.namespace, ref.name);
      var key := if ref.key == "" then "patch.yaml" else ref.key;
      if at !in s.stored || key !in s.stored[at] {
        assert Fetched(s, refs[i]).None?;
        return None;
      }
      patches := patches + [s.stored[at][key]];
    }
    assert refs[..|refs|] == refs;
    r := Some(patches);
  }

  method AddPatches(c: Config, ps: seq<Patch>) returns (r: Option<Config>)
    ensures r == if Loadable(ps) then Some(Fold(c, ps)) else None
  {
    var cfg := c;
    for i := 0 to |ps|
      invariant Loadable(ps[..i]) && cfg == Fold(c, ps[..i])
    {
      if ps[i].Broken? { return None; }
      assert ps[..i + 1][..i] == ps[..i];
      cfg := Apply(cfg, ps[i]);
    }
    assert ps[..|ps|] == ps;
    r := Some(cfg);
  }

  // ---------------------------------------------------------------- the operator's own patches

  const TypePath: Path := [MachineKey, TypeKey]
  const LegacyHostname: Path := [MachineKey, NetworkKey, HostnameKey]
  const HostnameDocument: Path := [HostnameConfig, HostnameKey]
  const HostnameAuto: Path := [HostnameConfig, AutoKey]

  function RoleName(r: Role): string { if r.Controlplane? then "controlplane" else "worker" }

  predicate Has(c: Config, prefix: Path) { exists q :: q in c && prefix <= q }

  function RolePatch(s: Spec): Patch { Edits({}, map[TypePath := RoleName(s.role)]) }

  const KubeletSection: Path := [MachineKey, KubeletKey]
  const ApiserverSection: Path := [ClusterKey, APIServerKey]
  const ManagerSection: Path := [ClusterKey, ControllerManagerKey]
  const SchedulerSection: Path := [ClusterKey, SchedulerKey]
  const ProxySection: Path := [ClusterKey, ProxyKey]

  /** A Kubernetes image: its old-style section, its document, and what is recorded for the node. */
  datatype Image = Image(section: Path, document: Key, recorded: string)

  function OldPlace(i: Image): Path { i.section + [ImageKey] }
  function NewPlace(i: Image): Path { [i.document, ImageKey] }

  /** The images a node of this role runs. */
  function ImagesOf(s: Spec): seq<Image> {
    [Image(KubeletSection, KubeletConfig, "ghcr.io/siderolabs/kubelet:" + s.versions.kubelet)] +
    if s.role.Worker? then [] else
      [Image(ApiserverSection, KubeAPIServerConfig, "registry.k8s.io/kube-apiserver:" + s.versions.apiserver),
       Image(ManagerSection, KubeControllerManagerConfig, "registry.k8s.io/kube-controller-manager:" + s.versions.controllerManager),
       Image(SchedulerSection, KubeSchedulerConfig, "registry.k8s.io/kube-scheduler:" + s.versions.scheduler),
       Image(ProxySection, KubeProxyConfig, "registry.k8s.io/kube-proxy:" + s.versions.kubelet)]
  }

  /** The old-style section if the configuration has it, a document of its own otherwise. */
  function PlaceFor(c: Config, i: Image): Path { if Has(c, i.section) then OldPlace(i) else NewPlace(i) }

  function ImageSets(c: Config, images: seq<Image>): Config {
    if images == [] then map[]
    else
      var last := images[|images| - 1];
      ImageSets(c, images[..|images| - 1])[PlaceFor(c, last) := last.recorded]
  }

  /** Kubernetes images as recorded for the node; `c` is the configuration before the patch. */
  function KubernetesPatch(s: Spec, c: Config): Patch { Edits({}, ImageSets(c, ImagesOf(s))) }

  /** Old-style node settings are in use. */
  predicate OldNodeStyle(c: Config) {
    || Has(c, [MachineKey, NodeLabelsKey]) || Has(c, [MachineKey, NodeAnnotationsKey]) || Has(c, [MachineKey, NodeTaintsKey])
    || Has(c, KubeletSection + [RegisterWithFQDNKey]) || Has(c, KubeletSection + [NodeIPKey])
  }

  function LabelPatch(s: Spec, c: Config): Patch {
    var at := if OldNodeStyle(c) then [MachineKey, NodeLabelsKey, ClusterNameKey] else [KubeNodeConfig, LabelsKey, ClusterNameKey];
    Edits({}, map[at := s.clusterName])
  }

  predicate UsesLegacyHostname(c: Config) { LegacyHostname in c && c[LegacyHostname] != "" }

  function HostnamePatch(s: Spec, c: Config): Patch {
    if UsesLegacyHostname(c) then Edits({}, map[LegacyHostname := s.fqdn])
    else Edits({}, map[HostnameAuto := "off", HostnameDocument := s.fqdn])
  }

  // ---------------------------------------------------------------- what comes out

  function Refs(s: Spec): seq<Ref> { if s.role.Controlplane? then s.controlplaneRefs else s.workerRefs }
  function Inlines(s: Spec): seq<Patch> { if s.role.Controlplane? then s.controlplanePatches else s.workerPatches }

  function RoleRefs(s: Spec): Origin { if s.role.Controlplane? then ControlplaneRefs else WorkerRefs }
  function RolePatches(s: Spec): Origin { if s.role.Controlplane? then ControlplanePatches else WorkerPatches }

  predicate Resolvable(s: Spec) { AllFetched(s, s.clusterRefs) && AllFetched(s, Refs(s)) && AllFetched(s, s.nodeRefs) }

  /** All user patches, in stage order: cluster before role before node, references before inlines. */
  function UserPatches(s: Spec): seq<Patch>
    requires Resolvable(s)
  {
    Fetches(s, s.clusterRefs) + s.clusterPatches + Fetches(s, Refs(s)) + Inlines(s) + Fetches(s, s.nodeRefs) + s.nodePatches
  }

  /** The configuration that the operator's own patches look at. */
  function Before(s: Spec, base: Config): Config
    requires Resolvable(s) && Loadable(UserPatches(s))
  {
    Fold(base, UserPatches(s) + [RolePatch(s)])
  }

  function OwnPatches(s: Spec, c: Config): seq<Patch> {
    [RolePatch(s), KubernetesPatch(s, c)] + (if s.labelled then [LabelPatch(s, c)] else []) + [HostnamePatch(s, c)]
  }

  /** Every patch there is, in the order of application. */
  function AllPatches(s: Spec, base: Config): seq<Patch>
    requires Resolvable(s) && Loadable(UserPatches(s))
  {
    UserPatches(s) + OwnPatches(s, Before(s, base))
  }

  function Numbered(origin: Origin, n: nat): (r: seq<Source>)
    ensures |r| == n && forall i :: 0 <= i < n ==> r[i] == From(origin, i)
  {
    seq(n, i requires 0 <= i < n => From(origin, i))
  }

  /** The entries of the hierarchy for the user patches. */
  function UserSources(s: Spec): seq<Source> {
    Numbered(ClusterRefs, |s.clusterRefs|) + Numbered(ClusterPatches, |s.clusterPatches|) +
    Numbered(RoleRefs(s), |Refs(s)|) + Numbered(RolePatches(s), |Inlines(s)|) +
    Numbered(NodeRefs, |s.nodeRefs|) + Numbered(NodePatches, |s.nodePatches|)
  }

  function OwnSources(s: Spec): seq<Source> {
    [RoleType, KubernetesVersions] + (if s.labelled then [ClusterLabel] else []) + [Hostname]
  }

  datatype Output = Failure | Output(config: Config, hierarchy: seq<Source>)

  /** One stage: list its sources, then apply its patches. */
  method AddStage(c: Config, hierarchy: seq<Source>, ps: seq<Patch>, origin: Origin) returns (r: Option<Config>, h: seq<Source>)
    ensures r == if Loadable(ps) then Some(Fold(c, ps)) else None
    ensures h == hierarchy + Numbered(origin, |ps|)
  {
    h := hierarchy;
    for i := 0 to |ps|
      invariant h == hierarchy + Numbered(origin, |ps|)[..i]
    {
      h := h + [From(origin, i)];
    }
    r := AddPatches(c, ps);
  }

  /** The references of a level, then its inline patches. */
  method AddLevel(s: Spec, c: Config, hierarchy: seq<Source>, refs: seq<Ref>, inlines: seq<Patch>, ofRefs: Origin, ofInlines: Origin)
    returns (r: Option<Config>, h: seq<Source>)
    ensures r == if AllFetched(s, refs) && Loadable(Fetches(s, refs) + inlines) then Some(Fold(c, Fetches(s, refs) + inlines)) else None
    ensures r.Some? ==> h == hierarchy + Numbered(ofRefs, |refs|) + Numbered(ofInlines, |inlines|)
  {
    h := hierarchy;
    var fetched := FetchRefs(s, refs);
    if fetched.None? { return None, h; }
    var ps := fetched.value;
    LoadableJoins(ps, inlines);
    r, h := AddStage(c, h, ps, ofRefs);
    if r.None? { return; }
    if Loadable(inlines) { FoldJoins(c, ps, inlines); }
    r, h := AddStage(r.value, h, inlines, ofInlines);
  }

  lemma LoadableJoins(a: seq<Patch>, b: seq<Patch>)
    ensures Loadable(a + b) <==> Loadable(a) && Loadable(b)
  {
    if Loadable(a + b) {
      assert forall i :: 0 <= i < |a| ==> a[i] == (a + b)[i];
      assert forall i :: 0 <= i < |b| ==> b[i] == (a + b)[|a| + i];
    }
  }

  /** The three levels of user patches. */
  method AddUserPatches(s: Spec, base: Config) returns (r: Option<Config>, h: seq<Source>)
    ensures r == if Resolvable(s) && Loadable(UserPatches(s)) then Some(Fold(base, UserPatches(s))) else None
    ensures r.Some? ==> h == [BaseConfig] + UserSources(s)
  {
    if Resolvable(s) { LevelsJoin(s, base); }
    hide Fold, Loadable, AllFetched, Fetches, Fetched, Numbered, UserPatches, Refs, Inlines;
    r, h := AddLevel(s, base, [BaseConfig], s.clusterRefs, s.clusterPatches, ClusterRefs, ClusterPatches);
    if r.None? { return; }
    r, h := AddLevel(s, r.value, h, Refs(s), Inlines(s), RoleRefs(s), RolePatches(s));
    if r.None? { return; }
    r, h := AddLevel(s, r.value, h, s.nodeRefs, s.nodePatches, NodeRefs, NodePatches);
  }

  /** Folding level by level is folding all at once. */
  lemma LevelsJoin(s: Spec, base: Config)
    requires Resolvable(s)
    ensures var a, b, c := Fetches(s, s.clusterRefs) + s.clusterPatches, Fetches(s, Refs(s)) + Inlines(s), Fetches(s, s.nodeRefs) + s.nodePatches;
            && (Loadable(UserPatches(s)) <==> Loadable(a) && Loadable(b) && Loadable(c))
            && (Loadable(UserPatches(s)) ==> Fold(base, UserPatches(s)) == Fold(Fold(Fold(base, a), b), c))
  {
    var a, b, c := Fetches(s, s.clusterRefs) + s.clusterPatches, Fetches(s, Refs(s)) + Inlines(s), Fetches(s, s.nodeRefs) + s.nodePatches;
    assert UserPatches(s) == a + b + c;
    LoadableJoins(a, b);
    LoadableJoins(a + b, c);
    if Loadable(UserPatches(s)) {
      FoldJoins(base, a, b);
      FoldJoins(base, a + b, c);
    }
  }

  /**
   * The generated configuration is the left fold of all patches in stage order, and the hierarchy
   * lists the base and those patches, one for one, in the order of application.
   */
  method Generate(s: Spec, base: Config) returns (r: Output)
    ensures r.Output? <==> Resolvable(s) && Loadable(UserPatches(s))
    ensures r.Output? ==> Loadable(AllPatches(s, base)) && r.config == Fold(base, AllPatches(s, base)) == Final(s, base)
    ensures r.Output? ==> r.hierarchy == [BaseConfig] + UserSources(s) + OwnSources(s)
  {
    var cfg, h := AddUserPatches(s, base);
    if cfg.None? { return Failure; }
    FoldNext(base, UserPatches(s), RolePatch(s));
    OwnPatchesFold(s, base, Before(s, base));
    hide UserPatches, Resolvable, UserSources, OwnSources, Fold, Apply, AllPatches, Loadable, WithOwnPatches;
    var d;
    d, h := AddOwnPatches(s, cfg.value, h);
    r := Output(d, h);
  }

  /** The operator's own patches; those behind the machine type all look at the same configuration. */
  method AddOwnPatches(s: Spec, before: Config, hierarchy: seq<Source>) returns (d: Config, h: seq<Source>)
    ensures d == WithOwnPatches(s, Apply(before, RolePatch(s)))
    ensures h == hierarchy + OwnSources(s)
  {
    hide Apply, Has, OldNodeStyle, ImageSets;
    h := hierarchy + [RoleType];
    var c := Apply(before, RolePatch(s));
    h := h + [KubernetesVersions];
    d := Apply(c, KubernetesPatch(s, c));
    if s.labelled {
      h := h + [ClusterLabel];
      d := Apply(d, LabelPatch(s, c));
    }
    h := h + [Hostname];
    d := Apply(d, HostnamePatch(s, c));
  }

  function WithOwnPatches(s: Spec, c: Config): Config {
    var k := Apply(c, KubernetesPatch(s, c));
    Apply(if s.labelled then Apply(k, LabelPatch(s, c)) else k, HostnamePatch(s, c))
  }

  lemma FoldNext(c: Config, ps: seq<Patch>, p: Patch)
    requires Loadable(ps) && p.Edits?
    ensures Loadable(ps + [p]) && Fold(c, ps + [p]) == Apply(Fold(c, ps), p)
  {
    assert (ps + [p])[..|ps|] == ps;
  }

  lemma OwnPatchesFold(s: Spec, base: Config, c: Config)
    requires Resolvable(s) && Loadable(UserPatches(s)) && c == Before(s, base)
    ensures Loadable(AllPatches(s, base))
    ensures Fold(base, AllPatches(s, base)) == WithOwnPatches(s, c)
  {
    hide UserPatches, Resolvable, Apply;
    var ps := UserPatches(s) + [RolePatch(s)];
    FoldNext(base, UserPatches(s), RolePatch(s));
    FoldNext(base, ps, KubernetesPatch(s, c));
    ps := ps + [KubernetesPatch(s, c)];
    if s.labelled {
      FoldNext(base, ps, LabelPatch(s, c));
      ps := ps + [LabelPatch(s, c)];
    }
    FoldNext(base, ps, HostnamePatch(s, c));
    assert AllPatches(s, base) == ps + [HostnamePatch(s, c)];
  }

  // ---------------------------------------------------------------- the hierarchy tells the truth

  function At<T>(list: seq<T>, i: nat): Option<T> { if i < |list| then Some(list[i]) else None }

  function FetchedAt(s: Spec, refs: seq<Ref>, i: nat): Option<Patch> { if i < |refs| then Fetched(s, refs[i]) else None }

  /** The i-th patch of a list. */
  function UserPatch(s: Spec, origin: Origin, i: nat): Option<Patch> {
    match origin
    case ClusterRefs => FetchedAt(s, s.clusterRefs, i)
    case ClusterPatches => At(s.clusterPatches, i)
    case ControlplaneRefs => FetchedAt(s, s.controlplaneRefs, i)
    case ControlplanePatches => At(s.controlplanePatches, i)
    case WorkerRefs => FetchedAt(s, s.workerRefs, i)
    case WorkerPatches => At(s.workerPatches, i)
    case NodeRefs => FetchedAt(s, s.nodeRefs, i)
    case NodePatches => At(s.nodePatches, i)
  }

  /** The patch that an entry of the hierarchy names. */
  function Named(s: Spec, c: Config, source: Source): Option<Patch> {
    match source
    case BaseConfig => None
    case From(origin, i) => UserPatch(s, origin, i)
    case RoleType => Some(RolePatch(s))
    case KubernetesVersions => Some(KubernetesPatch(s, c))
    case ClusterLabel => Some(LabelPatch(s, c))
    case Hostname => Some(HostnamePatch(s, c))
  }

  /** Entry by entry, the sources name the patches. */
  predicate Explains(s: Spec, c: Config, sources: seq<Source>, ps: seq<Patch>) {
    |sources| == |ps| && forall k :: 0 <= k < |ps| ==> Named(s, c, sources[k]) == Some(ps[k])
  }

  lemma ExplainsJoins(s: Spec, c: Config, a: seq<Source>, p: seq<Patch>, b: seq<Source>, q: seq<Patch>)
    requires Explains(s, c, a, p) && Explains(s, c, b, q)
    ensures Explains(s, c, a + b, p + q)
  {
  }

  /** Behind the base, the hierarchy names exactly the patches applied, one for one and in order. */
  lemma HierarchyExplains(s: Spec, base: Config)
    requires Resolvable(s) && Loadable(UserPatches(s))
    ensures Explains(s, Before(s, base), UserSources(s) + OwnSources(s), AllPatches(s, base))
  {
    var c := Before(s, base);
    var a, b, d := Numbered(ClusterRefs, |s.clusterRefs|), Numbered(ClusterPatches, |s.clusterPatches|), Numbered(RoleRefs(s), |Refs(s)|);
    var e, f, g := Numbered(RolePatches(s), |Inlines(s)|), Numbered(NodeRefs, |s.nodeRefs|), Numbered(NodePatches, |s.nodePatches|);
    var p, q, r := Fetches(s, s.clusterRefs), s.clusterPatches, Fetches(s, Refs(s));
    var t, u, v := Inlines(s), Fetches(s, s.nodeRefs), s.nodePatches;
    assert Explains(s, c, a, p) && Explains(s, c, b, q) && Explains(s, c, d, r);
    assert Explains(s, c, e, t) && Explains(s, c, f, u) && Explains(s, c, g, v);
    assert Explains(s, c, OwnSources(s), OwnPatches(s, c));
    hide Explains, Fold, Numbered, Fetches, OwnPatches;
    ExplainsJoins(s, c, a, p, b, q);
    ExplainsJoins(s, c, a + b, p + q, d, r);
    ExplainsJoins(s, c, a + b + d, p + q + r, e, t);
    ExplainsJoins(s, c, a + b + d + e, p + q + r + t, f, u);
    ExplainsJoins(s, c, a + b + d + e + f, p + q + r + t + u, g, v);
    ExplainsJoins(s, c, UserSources(s), UserPatches(s), OwnSources(s), OwnPatches(s, c));
  }

  // ---------------------------------------------------------------- the operator has the last word

  predicate IsImage(q: Path) { |q| > 0 && q[|q| - 1] == ImageKey }

  lemma {:induction false} ImageSetsAreImages(c: Config, images: seq<Image>, q: Path)
    requires q in ImageSets(c, images)
    ensures IsImage(q)
    decreases |images|
  {
    hide Has;
    if q in ImageSets(c, images[..|images| - 1]) { ImageSetsAreImages(c, images[..|images| - 1], q); }
  }

  lemma KubernetesPatchIsNarrow(s: Spec, c: Config, q: Path)
    requires !IsImage(q)
    ensures !Touches(KubernetesPatch(s, c), q)
  {
    if q in ImageSets(c, ImagesOf(s)) { ImageSetsAreImages(c, ImagesOf(s), q); }
  }

  /** The operator's later patches stay away from the machine type and from hostnames they do not choose. */
  lemma OwnPatchesAreNarrow(s: Spec, c: Config)
    ensures !Touches(KubernetesPatch(s, c), TypePath) && !Touches(LabelPatch(s, c), TypePath) && !Touches(HostnamePatch(s, c), TypePath)
    ensures !Touches(KubernetesPatch(s, c), LegacyHostname) && !Touches(LabelPatch(s, c), LegacyHostname)
    ensures !Touches(KubernetesPatch(s, c), HostnameDocument) && !Touches(LabelPatch(s, c), HostnameDocument)
  {
    hide Has, OldNodeStyle, KubernetesPatch;
    assert LegacyHostname[1] == NetworkKey && LegacyHostname[2] == HostnameKey;
    KubernetesPatchIsNarrow(s, c, TypePath);
    KubernetesPatchIsNarrow(s, c, LegacyHostname);
    KubernetesPatchIsNarrow(s, c, HostnameDocument);
  }

  lemma Untouched(c: Config, p: Patch, q: Path)
    requires p.Edits? && !Touches(p, q)
    ensures q in Apply(c, p) <==> q in c
    ensures q in c ==> Apply(c, p)[q] == c[q]
  {
  }

  /** What the own patches leave alone they leave as it was. */
  lemma OwnPatchesKeep(s: Spec, c: Config, q: Path)
    requires !Touches(KubernetesPatch(s, c), q) && !Touches(LabelPatch(s, c), q)
    ensures var k := Apply(c, KubernetesPatch(s, c));
            var l := if s.labelled then Apply(k, LabelPatch(s, c)) else k;
            (q in l <==> q in c) && (q in c ==> l[q] == c[q])
  {
    hide Has, OldNodeStyle, Apply;
    Untouched(c, KubernetesPatch(s, c), q);
    Untouched(Apply(c, KubernetesPatch(s, c)), LabelPatch(s, c), q);
  }

  function Final(s: Spec, base: Config): Config
    requires Resolvable(s) && Loadable(UserPatches(s))
  {
    WithOwnPatches(s, Before(s, base))
  }

  /** The value at a path. */
  predicate Stands(c: Config, q: Path, v: string) { q in c && c[q] == v }

  /** Whatever users patch, the machine type is the node's role. */
  lemma TypeIsTheRole(s: Spec, base: Config)
    requires Resolvable(s) && Loadable(UserPatches(s))
    ensures Stands(Final(s, base), [MachineKey, TypeKey], if s.role.Controlplane? then "controlplane" else "worker")
  {
    var c := Before(s, base);
    FoldNext(base, UserPatches(s), RolePatch(s));
    assert TypePath in c && c[TypePath] == RoleName(s.role);
    hide UserPatches, Resolvable, Before, Fold, HostnamePatch, KubernetesPatch, LabelPatch, Apply;
    OwnPatchesAreNarrow(s, c);
    OwnPatchesKeep(s, c, TypePath);
    var k := Apply(c, KubernetesPatch(s, c));
    Untouched(if s.labelled then Apply(k, LabelPatch(s, c)) else k, HostnamePatch(s, c), TypePath);
  }

  /** Nothing in the configuration names another host. */
  predicate OnlyHostname(c: Config, name: string) {
    && (UsesLegacyHostname(c) ==> c[LegacyHostname] == name)
    && (HostnameDocument in c ==> c[HostnameDocument] == name)
  }

  /**
   * The place the operator picks carries the node's own name; and no other hostname is left exactly
   * when users did not fill in both places, the document with a foreign name.
   */
  lemma HostnameIsTheNodes(s: Spec, base: Config)
    requires Resolvable(s) && Loadable(UserPatches(s))
    ensures var c, d := Before(s, base), Final(s, base);
            && (if [MachineKey, NetworkKey, HostnameKey] in c && c[[MachineKey, NetworkKey, HostnameKey]] != "" then
                  Stands(d, [MachineKey, NetworkKey, HostnameKey], s.fqdn)
                else
                  Stands(d, [HostnameConfig, HostnameKey], s.fqdn) && Stands(d, [HostnameConfig, AutoKey], "off"))
            && (OnlyHostname(d, s.fqdn) <==>
                !(UsesLegacyHostname(c) && HostnameDocument in c && c[HostnameDocument] != s.fqdn))
  {
    var c := Before(s, base);
    hide UserPatches, Resolvable, Before, Fold, KubernetesPatch, LabelPatch, HostnamePatch, Apply, OnlyHostname, Touches;
    OwnPatchesAreNarrow(s, c);
    OwnPatchesKeep(s, c, LegacyHostname);
    OwnPatchesKeep(s, c, HostnameDocument);
    var k := Apply(c, KubernetesPatch(s, c));
    HostnameApplied(s, c, if s.labelled then Apply(k, LabelPatch(s, c)) else k);
  }

  lemma HostnameApplied(s: Spec, c: Config, l: Config)
    requires forall q :: q == LegacyHostname || q == HostnameDocument ==> (q in l <==> q in c) && (q in c ==> l[q] == c[q])
    ensures var d := Apply(l, HostnamePatch(s, c));
            && (if UsesLegacyHostname(c) then Stands(d, LegacyHostname, s.fqdn)
                else Stands(d, HostnameDocument, s.fqdn) && Stands(d, HostnameAuto, "off"))
            && (OnlyHostname(d, s.fqdn) <==>
                !(UsesLegacyHostname(c) && HostnameDocument in c && c[HostnameDocument] != s.fqdn))
  {
    assert |LegacyHostname| == 3 && |HostnameDocument| == 2 && |HostnameAuto| == 2;
  }

  lemma LaterPatchesKeepImages(s: Spec, c: Config, q: Path)
    requires IsImage(q)
    ensures !Touches(LabelPatch(s, c), q) && !Touches(HostnamePatch(s, c), q)
  {
    hide OldNodeStyle;
    assert LegacyHostname[2] == HostnameKey;
  }

  /** Neither place names another image. */
  predicate OnlyRecorded(c: Config, i: Image) {
    && (OldPlace(i) in c ==> c[OldPlace(i)] == i.recorded)
    && (NewPlace(i) in c ==> c[NewPlace(i)] == i.recorded)
  }

  /** Users filled in the old section, and a document with an image of their own. */
  predicate FilledTwice(c: Config, i: Image) {
    Has(c, i.section) && NewPlace(i) in c && c[NewPlace(i)] != i.recorded
  }

  /** No two of the images share a place. */
  predicate Apart(images: seq<Image>) {
    && (forall j :: 0 <= j < |images| ==> |images[j].section| == 2)
    && (forall j, k :: 0 <= j < k < |images| ==> images[j].section[1] != images[k].section[1] && images[j].document != images[k].document)
  }

  lemma PlacesDiffer(i: Image, j: Image)
    requires |i.section| == 2 && |j.section| == 2 && i.section[1] != j.section[1] && i.document != j.document
    ensures OldPlace(i) != OldPlace(j) && NewPlace(i) != NewPlace(j) && OldPlace(i) != NewPlace(j) && NewPlace(i) != OldPlace(j)
  {
    assert OldPlace(i)[1] == i.section[1] && OldPlace(j)[1] == j.section[1];
    assert NewPlace(i)[0] == i.document && NewPlace(j)[0] == j.document;
  }

  lemma NodeImagesAreApart(s: Spec)
    ensures Apart(ImagesOf(s))
  {
  }

  /** The operator writes one of the two places of each image, the old one exactly if there is an old section. */
  lemma {:induction false} PlaceWritten(c: Config, images: seq<Image>, k: nat)
    requires Apart(images) && k < |images|
    ensures var i, sets := images[k], ImageSets(c, images);
            && PlaceFor(c, i) in sets && sets[PlaceFor(c, i)] == i.recorded
            && (if Has(c, i.section) then NewPlace(i) !in sets else OldPlace(i) !in sets)
    decreases |images|
  {
    hide Has;
    var rest, last := images[..|images| - 1], images[|images| - 1];
    if k < |rest| {
      PlaceWritten(c, rest, k);
      PlacesDiffer(images[k], last);
    } else {
      NotWritten(c, rest, last);
    }
  }

  lemma {:induction false} NotWritten(c: Config, images: seq<Image>, i: Image)
    requires |i.section| == 2 && forall j :: 0 <= j < |images| ==> |images[j].section| == 2 && images[j].section[1] != i.section[1] && images[j].document != i.document
    ensures OldPlace(i) !in ImageSets(c, images) && NewPlace(i) !in ImageSets(c, images)
    decreases |images|
  {
    hide Has;
    if images != [] {
      NotWritten(c, images[..|images| - 1], i);
      PlacesDiffer(images[|images| - 1], i);
    }
  }

  /** What the later patches make of an image: nothing. */
  lemma ImageStays(s: Spec, c: Config, q: Path)
    requires IsImage(q)
    ensures var k := Apply(c, KubernetesPatch(s, c)); var d := WithOwnPatches(s, c);
            (q in d <==> q in k) && (q in k ==> d[q] == k[q])
  {
    LaterPatchesKeepImages(s, c, q);
    var k := Apply(c, KubernetesPatch(s, c));
    hide KubernetesPatch, LabelPatch, HostnamePatch, Apply, Touches;
    Untouched(k, LabelPatch(s, c), q);
    Untouched(if s.labelled then Apply(k, LabelPatch(s, c)) else k, HostnamePatch(s, c), q);
  }

  /** A section without entries has no image. */
  lemma NoSectionNoImage(c: Config, i: Image)
    requires !Has(c, i.section)
    ensures OldPlace(i) !in c
  {
    assert i.section <= OldPlace(i);
  }

  /**
   * Whatever users patch, the place the operator picks for a component carries the image on record;
   * and only that image is left of it exactly when users did not fill in both places, the document
   * with an image of their own.
   */
  lemma ImagesAsRecorded(s: Spec, base: Config, k: nat)
    requires Resolvable(s) && Loadable(UserPatches(s)) && k < |ImagesOf(s)|
    ensures var place := PlaceFor(Before(s, base), ImagesOf(s)[k]);
            place in Final(s, base) && Final(s, base)[place] == ImagesOf(s)[k].recorded
    ensures OnlyRecorded(Final(s, base), ImagesOf(s)[k]) <==> !FilledTwice(Before(s, base), ImagesOf(s)[k])
  {
    var c, i := Before(s, base), ImagesOf(s)[k];
    NodeImagesAreApart(s);
    PlaceWritten(c, ImagesOf(s), k);
    ImageStays(s, c, OldPlace(i));
    ImageStays(s, c, NewPlace(i));
    if !Has(c, i.section) { NoSectionNoImage(c, i); }
    hide UserPatches, Resolvable, Before, Fold, Has, ImageSets, LabelPatch, HostnamePatch, ImagesOf, WithOwnPatches, Apart;
  }

  /** The image at one of the two places of a component, the old one exactly if `c` has the old section. */
  predicate ImageStands(c: Config, d: Config, section: Path, document: Key, image: string) {
    Stands(d, if Has(c, section) then section + [ImageKey] else [document, ImageKey], image)
  }

  /** What runs on a node, spelled out: each component in the version on record for it, the proxy in that of the kubelet. */
  lemma ImagesAreTheVersions(s: Spec, base: Config)
    requires Resolvable(s) && Loadable(UserPatches(s))
    ensures var c, d, v := Before(s, base), Final(s, base), s.versions;
            && ImageStands(c, d, [MachineKey, KubeletKey], KubeletConfig, "ghcr.io/siderolabs/kubelet:" + v.kubelet)
            && (s.role.Controlplane? ==>
                  && ImageStands(c, d, [ClusterKey, APIServerKey], KubeAPIServerConfig, "registry.k8s.io/kube-apiserver:" + v.apiserver)
                  && ImageStands(c, d, [ClusterKey, ControllerManagerKey], KubeControllerManagerConfig,
                                 "registry.k8s.io/kube-controller-manager:" + v.controllerManager)
                  && ImageStands(c, d, [ClusterKey, SchedulerKey], KubeSchedulerConfig, "registry.k8s.io/kube-scheduler:" + v.scheduler)
                  && ImageStands(c, d, [ClusterKey, ProxyKey], KubeProxyConfig, "registry.k8s.io/kube-proxy:" + v.kubelet))
  {
    hide UserPatches, Resolvable, Before, Fold, Has, ImageSets, WithOwnPatches, Final;
    ImagesAsRecorded(s, base, 0);
    if s.role.Controlplane? {
      ImagesAsRecorded(s, base, 1);
      ImagesAsRecorded(s, base, 2);
      ImagesAsRecorded(s, base, 3);
      ImagesAsRecorded(s, base, 4);
    }
  }

  /** The images whose place this may be: the old section's or the document's. */
  predicate PlaceOf(q: Path, section: Path, document: Key) { q == section + [ImageKey] || q == [document, ImageKey] }

  /** A change of these versions accounts for another image here. */
  predicate Accounts(v: Images, w: Images, q: Path) {
    || (v.kubelet != w.kubelet && (PlaceOf(q, [MachineKey, KubeletKey], KubeletConfig) || PlaceOf(q, [ClusterKey, ProxyKey], KubeProxyConfig)))
    || (v.apiserver != w.apiserver && PlaceOf(q, [ClusterKey, APIServerKey], KubeAPIServerConfig))
    || (v.controllerManager != w.controllerManager && PlaceOf(q, [ClusterKey, ControllerManagerKey], KubeControllerManagerConfig))
    || (v.scheduler != w.scheduler && PlaceOf(q, [ClusterKey, SchedulerKey], KubeSchedulerConfig))
  }

  lemma {:induction false} OtherImages(c: Config, a: seq<Image>, b: seq<Image>, q: Path)
    requires |a| == |b| && forall k :: 0 <= k < |a| ==> a[k].section == b[k].section && a[k].document == b[k].document
    ensures var d, e := ImageSets(c, a), ImageSets(c, b);
            && (q in d <==> q in e)
            && (q in d && d[q] != e[q] ==>
                  exists k :: 0 <= k < |a| && PlaceOf(q, a[k].section, a[k].document) && a[k].recorded != b[k].recorded)
    decreases |a|
  {
    hide Has;
    if a != [] { OtherImages(c, a[..|a| - 1], b[..|b| - 1], q); }
  }

  lemma VersionsAside(s: Spec, v: Images, base: Config)
    requires Resolvable(s) && Loadable(UserPatches(s))
    ensures var t := s.(versions := v);
            && Resolvable(t) && UserPatches(t) == UserPatches(s) && Before(t, base) == Before(s, base)
            && RolePatch(t) == RolePatch(s) && forall c :: LabelPatch(t, c) == LabelPatch(s, c) && HostnamePatch(t, c) == HostnamePatch(s, c)
  {
    var t := s.(versions := v);
    hide Fold, OldNodeStyle, UsesLegacyHostname;
    forall r: Ref ensures Fetched(t, r) == Fetched(s, r) {}
    hide Fetched;
    assert Fetches(t, t.clusterRefs) == Fetches(s, s.clusterRefs);
    assert Fetches(t, Refs(t)) == Fetches(s, Refs(s));
    assert Fetches(t, t.nodeRefs) == Fetches(s, s.nodeRefs);
  }

  lemma ImagesAccounted(s: Spec, v: Images, c: Config, q: Path)
    ensures Near(ImageSets(c, ImagesOf(s)), ImageSets(c, ImagesOf(s.(versions := v))), q, Accounts(s.versions, v, q))
  {
    hide ImageSets, Accounts;
    var a, b := ImagesOf(s), ImagesOf(s.(versions := v));
    var d, e := ImageSets(c, a), ImageSets(c, b);
    OtherImages(c, a, b, q);
    if q in d && d[q] != e[q] {
      var k :| 0 <= k < |a| && PlaceOf(q, a[k].section, a[k].document) && a[k].recorded != b[k].recorded;
      ImageAccounted(s, v, q, k);
    }
  }

  lemma ImageAccounted(s: Spec, v: Images, q: Path, k: nat)
    requires var a, b := ImagesOf(s), ImagesOf(s.(versions := v));
             k < |a| && PlaceOf(q, a[k].section, a[k].document) && a[k].recorded != b[k].recorded
    ensures Accounts(s.versions, v, q)
  {
    hide PlaceOf;
  }

  /** At `q` the two hold the same, or else there is leave for another value. */
  predicate Near(d: Config, e: Config, q: Path, leave: bool) {
    (q in d <==> q in e) && (q in d && d[q] != e[q] ==> leave)
  }

  lemma ApplyKeepsNear(d: Config, e: Config, p: Patch, r: Patch, q: Path, leave: bool)
    requires p.Edits? && r.Edits? && p.drops == r.drops && Near(d, e, q, leave) && Near(p.sets, r.sets, q, leave)
    ensures Near(Apply(d, p), Apply(e, r), q, leave)
  {
    assert Drops(p, q) <==> Drops(r, q);
  }

  /**
   * Recording other versions changes the images of those components, and nothing else: the kubelet's is
   * that of the kubelet and of the proxy.
   */
  lemma VersionsAreSeparate(s: Spec, v: Images, base: Config, q: Path)
    requires Resolvable(s) && Loadable(UserPatches(s))
    ensures var t := s.(versions := v);
            && Resolvable(t) && Loadable(UserPatches(t))
            && var d, e := Final(s, base), Final(t, base);
               (q in d <==> q in e) && (q in d && d[q] != e[q] ==> Accounts(s.versions, v, q))
  {
    var t, c := s.(versions := v), Before(s, base);
    VersionsAside(s, v, base);
    ImagesAccounted(s, v, c, q);
    hide UserPatches, Resolvable, Before, Fold, ImageSets, ImagesOf, Accounts, LabelPatch, HostnamePatch, Apply;
    var leave := Accounts(s.versions, v, q);
    ApplyKeepsNear(c, c, KubernetesPatch(s, c), KubernetesPatch(t, c), q, leave);
    var k, l := Apply(c, KubernetesPatch(s, c)), Apply(c, KubernetesPatch(t, c));
    ApplyKeepsNear(k, l, LabelPatch(s, c), LabelPatch(s, c), q, leave);
    if s.labelled { k, l := Apply(k, LabelPatch(s, c)), Apply(l, LabelPatch(s, c)); }
    ApplyKeepsNear(k, l, HostnamePatch(s, c), HostnamePatch(s, c), q, leave);
  }

  lemma HostnameIsNoLabel(s: Spec, c: Config)
    ensures !Touches(HostnamePatch(s, c), [MachineKey, NodeLabelsKey, ClusterNameKey])
    ensures !Touches(HostnamePatch(s, c), [KubeNodeConfig, LabelsKey, ClusterNameKey])
  {
    assert LegacyHostname[1] == NetworkKey;
  }

  /** With the label wanted, its place carries the name of the cluster; otherwise the operator stays away from it. */
  lemma LabelIsTheCluster(s: Spec, base: Config)
    requires Resolvable(s) && Loadable(UserPatches(s))
    ensures var c, d := Before(s, base), Final(s, base);
            var older, newer := [MachineKey, NodeLabelsKey, ClusterNameKey], [KubeNodeConfig, LabelsKey, ClusterNameKey];
            if s.labelled then Stands(d, if OldNodeStyle(c) then older else newer, s.clusterName)
            else forall q :: q == older || q == newer ==> (q in d <==> q in c) && (q in d ==> d[q] == c[q])
  {
    var c := Before(s, base);
    var older, newer: Path := [MachineKey, NodeLabelsKey, ClusterNameKey], [KubeNodeConfig, LabelsKey, ClusterNameKey];
    hide UserPatches, Resolvable, Before, Fold, OldNodeStyle, ImageSets;
    KubernetesPatchIsNarrow(s, c, older);
    KubernetesPatchIsNarrow(s, c, newer);
    HostnameIsNoLabel(s, c);
    hide KubernetesPatch, HostnamePatch, Touches;
    var k := Apply(c, KubernetesPatch(s, c));
    forall q | q == older || q == newer ensures (q in k <==> q in c) && (q in c ==> k[q] == c[q]) { Untouched(c, KubernetesPatch(s, c), q); }
    var l := if s.labelled then Apply(k, LabelPatch(s, c)) else k;
    Untouched(l, HostnamePatch(s, c), older);
    Untouched(l, HostnamePatch(s, c), newer);
  }

  // ---------------------------------------------------------------- who wins

  /** The order of the lists: cluster, role, node; and references before inline patches. */
  function Rank(origin: Origin): nat {
    match origin
    case ClusterRefs => 0
    case ClusterPatches => 1
    case ControlplaneRefs => 2
    case WorkerRefs => 2
    case ControlplanePatches => 3
    case WorkerPatches => 3
    case NodeRefs => 4
    case NodePatches => 5
  }

  predicate Later(a: Source, b: Source) {
    a.From? && b.From? && (Rank(a.origin) > Rank(b.origin) || (a.origin == b.origin && a.i > b.i))
  }

  /** The list is for nodes of this role. */
  predicate Concerns(role: Role, origin: Origin) {
    && (origin.ControlplaneRefs? || origin.ControlplanePatches? ==> role.Controlplane?)
    && (origin.WorkerRefs? || origin.WorkerPatches? ==> role.Worker?)
  }

  predicate InOrder(list: seq<Source>) { forall j, k :: 0 <= j < k < |list| ==> Later(list[k], list[j]) }

  predicate Ranked(list: seq<Source>, low: nat, high: nat) {
    forall j :: 0 <= j < |list| ==> list[j].From? && low <= Rank(list[j].origin) <= high
  }

  lemma InOrderJoins(a: seq<Source>, b: seq<Source>, low: nat, mid: nat, high: nat)
    requires InOrder(a) && InOrder(b) && Ranked(a, low, mid) && Ranked(b, mid + 1, high) && low <= mid < high
    ensures InOrder(a + b) && Ranked(a + b, low, high)
  {
  }

  /** The sources of the user patches come in this order. */
  lemma SourcesInOrder(s: Spec)
    ensures InOrder(UserSources(s)) && Ranked(UserSources(s), 0, 5)
  {
    var a, b, d := Numbered(ClusterRefs, |s.clusterRefs|), Numbered(ClusterPatches, |s.clusterPatches|), Numbered(RoleRefs(s), |Refs(s)|);
    var e, f, g := Numbered(RolePatches(s), |Inlines(s)|), Numbered(NodeRefs, |s.nodeRefs|), Numbered(NodePatches, |s.nodePatches|);
    assert InOrder(a) && InOrder(b) && InOrder(d) && InOrder(e) && InOrder(f) && InOrder(g);
    assert Ranked(a, 0, 0) && Ranked(b, 1, 1) && Ranked(d, 2, 2) && Ranked(e, 3, 3) && Ranked(f, 4, 4) && Ranked(g, 5, 5);
    hide InOrder, Ranked, Numbered;
    InOrderJoins(a, b, 0, 0, 1);
    InOrderJoins(a + b, d, 0, 1, 2);
    InOrderJoins(a + b + d, e, 0, 2, 3);
    InOrderJoins(a + b + d + e, f, 0, 3, 4);
    InOrderJoins(a + b + d + e + f, g, 0, 4, 5);
  }

  /** And none is missing. */
  lemma EverySource(s: Spec, origin: Origin, i: nat)
    requires Concerns(s.role, origin) && UserPatch(s, origin, i).Some?
    ensures From(origin, i) in UserSources(s)
  {
    var n := match origin
      case ClusterRefs => |s.clusterRefs|
      case ClusterPatches => |s.clusterPatches|
      case ControlplaneRefs => |s.controlplaneRefs|
      case ControlplanePatches => |s.controlplanePatches|
      case WorkerRefs => |s.workerRefs|
      case WorkerPatches => |s.workerPatches|
      case NodeRefs => |s.nodeRefs|
      case NodePatches => |s.nodePatches|;
    assert Numbered(origin, n)[i] == From(origin, i);
    assert From(origin, i) in Numbered(origin, n);
    hide Numbered;
  }

  /** All that the operator writes itself. */
  predicate OperatorsOwn(q: Path) {
    || IsImage(q)
    || q == [MachineKey, TypeKey] || q == [MachineKey, NetworkKey, HostnameKey]
    || q == [HostnameConfig, HostnameKey] || q == [HostnameConfig, AutoKey]
    || q == [MachineKey, NodeLabelsKey, ClusterNameKey] || q == [KubeNodeConfig, LabelsKey, ClusterNameKey]
  }

  lemma OwnPatchesInBounds(s: Spec, c: Config, q: Path, p: Patch)
    requires !OperatorsOwn(q) && p in OwnPatches(s, c)
    ensures !Touches(p, q)
  {
    hide Has, OldNodeStyle, UsesLegacyHostname, KubernetesPatch;
    KubernetesPatchIsNarrow(s, c, q);
  }

  /**
   * A patch decides a path in the result if no later patch for this node touches it: node over role over
   * cluster, inline patches over references, and within a list the later over the earlier. The operator
   * overrides that only on paths of its own.
   */
  lemma LaterStageWins(s: Spec, base: Config, origin: Origin, i: nat, q: Path)
    requires Resolvable(s) && Loadable(UserPatches(s)) && Concerns(s.role, origin) && !OperatorsOwn(q)
    requires var p := UserPatch(s, origin, i); p.Some? && p.value.Edits? && q in p.value.sets
    requires forall o, j :: Concerns(s.role, o) && Later(From(o, j), From(origin, i)) && UserPatch(s, o, j).Some? ==>
               !Touches(UserPatch(s, o, j).value, q)
    ensures Stands(Final(s, base), q, UserPatch(s, origin, i).value.sets[q])
  {
    var c, sources, ps := Before(s, base), UserSources(s), AllPatches(s, base);
    EverySource(s, origin, i);
    SourcesInOrder(s);
    HierarchyExplains(s, base);
    OwnPatchesFold(s, base, c);
    var k :| 0 <= k < |sources| && sources[k] == From(origin, i);
    forall j | k < j < |ps| ensures !Touches(ps[j], q) {
      var source := (sources + OwnSources(s))[j];
      assert Named(s, c, source) == Some(ps[j]);
      if j < |sources| {
        SourceConcerns(s, j);
        assert Later(source, sources[k]);
      } else {
        assert ps[j] in OwnPatches(s, c) by { OwnPart(s, base, j); }
        OwnPatchesInBounds(s, c, q, ps[j]);
      }
    }
    hide UserPatches, Resolvable, Before, AllPatches, UserSources, OwnSources, Later, InOrder, Ranked, Touches;
    assert Named(s, c, (sources + OwnSources(s))[k]) == Some(ps[k]);
    LastPatchWins(base, ps, k, q);
  }

  lemma SourceConcerns(s: Spec, j: nat)
    requires j < |UserSources(s)|
    ensures UserSources(s)[j].From? && Concerns(s.role, UserSources(s)[j].origin)
  {
  }

  lemma OwnPart(s: Spec, base: Config, j: nat)
    requires Resolvable(s) && Loadable(UserPatches(s)) && |UserSources(s)| <= j < |AllPatches(s, base)|
    ensures AllPatches(s, base)[j] in OwnPatches(s, Before(s, base))
  {
    assert |UserSources(s)| == |UserPatches(s)|;
    hide OwnPatches, UserPatches, UserSources;
  }

  // ---------------------------------------------------------------- the configuration shown to users

  /** Whatever is taken for a secret: the same everywhere else. */
  ghost predicate Agree(secret: iset<Path>, c: Config, d: Config) {
    forall q :: q !in secret ==> (q in c <==> q in d) && (q in c && q in d ==> c[q] == d[q])
  }

  /** The sections whose presence decides where the operator writes. */
  const Sections: seq<Path> := [
    KubeletSection, ApiserverSection, ManagerSection, SchedulerSection, ProxySection,
    [MachineKey, NodeLabelsKey], [MachineKey, NodeAnnotationsKey], [MachineKey, NodeTaintsKey]]

  predicate Under(prefix: Path, q: Path) { prefix <= q }

  /** The operator looks at this path. */
  predicate Looked(q: Path) { q == LegacyHostname || exists i :: 0 <= i < |Sections| && Under(Sections[i], q) }

  ghost predicate Unread(secret: iset<Path>) { forall q :: q in secret ==> !Looked(q) }

  lemma ApplyAgrees(secret: iset<Path>, c: Config, d: Config, p: Patch)
    requires p.Edits? && Agree(secret, c, d)
    ensures Agree(secret, Apply(c, p), Apply(d, p))
  {
  }

  lemma {:induction false} FoldAgrees(secret: iset<Path>, c: Config, d: Config, ps: seq<Patch>)
    requires Loadable(ps) && Agree(secret, c, d)
    ensures Agree(secret, Fold(c, ps), Fold(d, ps))
    decreases |ps|
  {
    hide Agree, Apply;
    if ps != [] {
      FoldAgrees(secret, c, d, ps[..|ps| - 1]);
      ApplyAgrees(secret, Fold(c, ps[..|ps| - 1]), Fold(d, ps[..|ps| - 1]), ps[|ps| - 1]);
    }
  }

  lemma HasAgrees(secret: iset<Path>, c: Config, d: Config, prefix: Path)
    requires Agree(secret, c, d) && forall q :: Under(prefix, q) ==> q !in secret
    ensures Has(c, prefix) <==> Has(d, prefix)
  {
    assert forall q :: prefix <= q ==> Under(prefix, q);
  }

  /** A section, or a part of one, has the same presence in both. */
  lemma SectionAgrees(secret: iset<Path>, c: Config, d: Config, i: nat, prefix: Path)
    requires Agree(secret, c, d) && Unread(secret) && i < |Sections| && Sections[i] <= prefix
    ensures Has(c, prefix) <==> Has(d, prefix)
  {
    forall q | Under(prefix, q) ensures q !in secret {
      assert Under(Sections[i], q);
      assert Looked(q);
    }
    hide Looked, Has;
    HasAgrees(secret, c, d, prefix);
  }

  lemma {:induction false} SameImageSets(c: Config, d: Config, images: seq<Image>)
    requires forall j :: 0 <= j < |images| ==> Has(c, images[j].section) == Has(d, images[j].section)
    ensures ImageSets(c, images) == ImageSets(d, images)
    decreases |images|
  {
    hide Has;
    if images != [] { SameImageSets(c, d, images[..|images| - 1]); }
  }

  lemma SameImages(secret: iset<Path>, s: Spec, c: Config, d: Config)
    requires Agree(secret, c, d) && Unread(secret)
    ensures KubernetesPatch(s, c) == KubernetesPatch(s, d)
  {
    hide Has, Agree, Unread;
    var images := ImagesOf(s);
    forall j | 0 <= j < |images| ensures Has(c, images[j].section) == Has(d, images[j].section) {
      assert images[j].section == Sections[j];
      SectionAgrees(secret, c, d, j, images[j].section);
    }
    hide ImagesOf;
    SameImageSets(c, d, images);
  }

  lemma SameNodeStyle(secret: iset<Path>, c: Config, d: Config)
    requires Agree(secret, c, d) && Unread(secret)
    ensures OldNodeStyle(c) <==> OldNodeStyle(d)
  {
    hide Has, Agree, Unread;
    SectionAgrees(secret, c, d, 5, [MachineKey, NodeLabelsKey]);
    SectionAgrees(secret, c, d, 6, [MachineKey, NodeAnnotationsKey]);
    SectionAgrees(secret, c, d, 7, [MachineKey, NodeTaintsKey]);
    SectionAgrees(secret, c, d, 0, KubeletSection + [RegisterWithFQDNKey]);
    SectionAgrees(secret, c, d, 0, KubeletSection + [NodeIPKey]);
  }

  /** Every heuristic takes the same branch with and without what is secret. */
  lemma SameBranches(secret: iset<Path>, s: Spec, c: Config, d: Config)
    requires Agree(secret, c, d) && Unread(secret)
    ensures OwnPatches(s, c) == OwnPatches(s, d)
  {
    SameImages(secret, s, c, d);
    SameNodeStyle(secret, c, d);
    assert LegacyHostname !in secret by { assert Looked(LegacyHostname); }
    hide Has, OldNodeStyle, KubernetesPatch, Unread;
  }

  /**
   * Non-interference, for any notion of a secret that the operator does not look at: generated over
   * two bases that differ only in secrets, the configurations go through the same patches and differ
   * only in secrets, for all patches of all users.
   */
  lemma ShownConfigAgrees(secret: iset<Path>, s: Spec, genuine: Config, demo: Config)
    requires Resolvable(s) && Loadable(UserPatches(s)) && Agree(secret, genuine, demo) && Unread(secret)
    ensures AllPatches(s, genuine) == AllPatches(s, demo)
    ensures Agree(secret, Final(s, genuine), Final(s, demo))
  {
    var ps := UserPatches(s) + [RolePatch(s)];
    FoldAgrees(secret, genuine, demo, ps);
    var c, d := Before(s, genuine), Before(s, demo);
    SameBranches(secret, s, c, d);
    OwnPatchesFold(s, genuine, c);
    OwnPatchesFold(s, demo, d);
    hide UserPatches, Resolvable, Agree, Before, KubernetesPatch, LabelPatch, HostnamePatch, Apply, Fold;
    FoldAgrees(secret, genuine, demo, AllPatches(s, genuine));
  }

  /** Where a generated base holds what comes from the secrets bundle, in old sections and in documents. */
  predicate SecretPath(q: Path) {
    && |q| >= 2
    && (|| q[0] == DiscoveryIdentityConfig || q[0] == KubeAPIServerCAConfig || q[0] == KubeAggregatorCAConfig
        || q[0] == KubeEtcdEncryptionConfig
        || (q[0] == KubeServiceAccountConfig && |q| >= 3 && q[1] == IssuerKey && q[2] == PrivateKeyKey)
        || (q[0] == MachineKey && (q[1] == CAKey || q[1] == TokenKey))
        || (q[0] == ClusterKey &&
            (|| q[1] == IDKey || q[1] == SecretKey || q[1] == TokenKey || q[1] == CAKey || q[1] == AescbcKey || q[1] == SecretboxKey
             || q[1] == AggregatorCAKey || q[1] == ServiceAccountKey || (q[1] == EtcdKey && |q| >= 3 && q[2] == CAKey))))
  }

  ghost function BundlePaths(): iset<Path> { iset q: Path | SecretPath(q) }

  lemma KeysOfPrefix(prefix: Path, q: Path)
    requires |prefix| == 2
    ensures Under(prefix, q) <==> |q| >= 2 && q[0] == prefix[0] && q[1] == prefix[1]
  {
    if |q| >= 2 && q[0] == prefix[0] && q[1] == prefix[1] { assert q[..2] == prefix; }
  }

  /** The operator looks at none of them. */
  lemma BundleIsUnread()
    ensures Unread(BundlePaths())
  {
    forall q | q in BundlePaths() ensures !Looked(q) {
      forall i | 0 <= i < |Sections| ensures !Under(Sections[i], q) { KeysOfPrefix(Sections[i], q); }
    }
  }

  /** So what is shown differs from what is applied only in what comes from the secrets bundle. */
  lemma ShownConfigHidesBundle(s: Spec, genuine: Config, demo: Config)
    requires Resolvable(s) && Loadable(UserPatches(s)) && Agree(BundlePaths(), genuine, demo)
    ensures AllPatches(s, genuine) == AllPatches(s, demo) && Agree(BundlePaths(), Final(s, genuine), Final(s, demo))
  {
    BundleIsUnread();
    hide Agree, Unread, UserPatches, Resolvable;
    ShownConfigAgrees(BundlePaths(), s, genuine, demo);
  }

  // ---------------------------------------------------------------- why nothing the operator looks at may be secret

  const Unpatched := Spec(Controlplane, "c", "c.d", Images("1", "1", "1", "1"), [], [], [], [], [], [], [], [], "n", true, true, map[])

  /** What the operator's patches look at, for a node without patches. */
  lemma UnpatchedBefore(base: Config)
    ensures Resolvable(Unpatched) && UserPatches(Unpatched) == [] && Before(Unpatched, base) == base[TypePath := "controlplane"]
    ensures AllPatches(Unpatched, base) == OwnPatches(Unpatched, Before(Unpatched, base))
  {
    var ps := UserPatches(Unpatched);
    assert ps == [];
    FoldNext(base, ps, RolePatch(Unpatched));
  }

  lemma PresenceShows(q: Path, i: nat)
    requires i < |Sections| && Under(Sections[i], q)
    ensures Has(map[q := "x"][TypePath := "controlplane"], Sections[i]) && !Has(map[TypePath := "controlplane"], Sections[i])
  {
    KeysOfPrefix(Sections[i], TypePath);
    var c: Config := map[q := "x"][TypePath := "controlplane"];
    assert q in c && Sections[i] <= q;
  }

  lemma DifferentOwnPatches(q: Path)
    requires Looked(q)
    ensures OwnPatches(Unpatched, map[q := "x"][TypePath := "controlplane"]) != OwnPatches(Unpatched, map[TypePath := "controlplane"])
  {
    var c, d: Config := map[q := "x"][TypePath := "controlplane"], map[TypePath := "controlplane"];
    if q == LegacyHostname {
      hide KubernetesPatch, OldNodeStyle, Has;
      assert LegacyHostname != TypePath by { assert |LegacyHostname| == 3; }
      assert OwnPatches(Unpatched, c)[3] != OwnPatches(Unpatched, d)[3] by { DifferentHostnames(c, d); }
    } else {
      var i :| 0 <= i < |Sections| && Under(Sections[i], q);
      PresenceShows(q, i);
      if i < 5 {
        DifferentImages(c, d, i);
        assert OwnPatches(Unpatched, c)[1] != OwnPatches(Unpatched, d)[1];
      } else {
        DifferentLabels(c, d, i);
        assert OwnPatches(Unpatched, c)[2] != OwnPatches(Unpatched, d)[2];
      }
    }
  }

  lemma DifferentHostnames(c: Config, d: Config)
    requires UsesLegacyHostname(c) && !UsesLegacyHostname(d)
    ensures HostnamePatch(Unpatched, c) != HostnamePatch(Unpatched, d)
  {
    assert LegacyHostname in HostnamePatch(Unpatched, c).sets;
    assert |LegacyHostname| == 3 && |HostnameDocument| == 2 && |HostnameAuto| == 2;
    assert LegacyHostname !in HostnamePatch(Unpatched, d).sets;
  }

  lemma DifferentImages(c: Config, d: Config, i: nat)
    requires i < 5 && Has(c, Sections[i]) && !Has(d, Sections[i])
    ensures KubernetesPatch(Unpatched, c) != KubernetesPatch(Unpatched, d)
  {
    NodeImagesAreApart(Unpatched);
    var images := ImagesOf(Unpatched);
    assert images[i].section == Sections[i];
    hide Has, Apart;
    PlaceWritten(c, images, i);
    PlaceWritten(d, images, i);
    hide ImageSets;
    assert OldPlace(images[i]) in KubernetesPatch(Unpatched, c).sets && OldPlace(images[i]) !in KubernetesPatch(Unpatched, d).sets;
  }

  lemma TypeAloneIsNoStyle(d: Config)
    requires d == map[TypePath := "controlplane"]
    ensures !OldNodeStyle(d)
  {
    assert TypePath[1] == TypeKey;
    assert (KubeletSection + [RegisterWithFQDNKey])[1] == KubeletKey && (KubeletSection + [NodeIPKey])[1] == KubeletKey;
  }

  lemma DifferentLabels(c: Config, d: Config, i: nat)
    requires 5 <= i < 8 && Has(c, Sections[i]) && d == map[TypePath := "controlplane"]
    ensures LabelPatch(Unpatched, c) != LabelPatch(Unpatched, d)
  {
    assert OldNodeStyle(c);
    TypeAloneIsNoStyle(d);
    hide OldNodeStyle, Has;
    assert [MachineKey, NodeLabelsKey, ClusterNameKey][0] != [KubeNodeConfig, LabelsKey, ClusterNameKey][0];
    assert [MachineKey, NodeLabelsKey, ClusterNameKey] in LabelPatch(Unpatched, c).sets;
    assert [MachineKey, NodeLabelsKey, ClusterNameKey] !in LabelPatch(Unpatched, d).sets;
  }

  /** With a secret at a path that the operator looks at, there are bases that differ in that secret only, and take different branches. */
  lemma ReadSecretInterferes(secret: iset<Path>, q: Path) returns (s: Spec, genuine: Config, demo: Config)
    requires q in secret && Looked(q)
    ensures Resolvable(s) && Loadable(UserPatches(s)) && Agree(secret, genuine, demo)
    ensures AllPatches(s, genuine) != AllPatches(s, demo)
  {
    s, genuine, demo := Unpatched, map[q := "x"], map[];
    UnpatchedBefore(genuine);
    UnpatchedBefore(demo);
    DifferentOwnPatches(q);
    assert demo[TypePath := "controlplane"] == map[TypePath := "controlplane"];
  }
}
