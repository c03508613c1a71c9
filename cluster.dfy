/**
 * The provider's `CreateKubeEdge`: fold the create options into fresh
 * cluster options, rewrite the node list so that kind can create it (an edge
 * node always exists, and the first `edge-node` entry becomes a labelled
 * worker), have kind create the cluster, then run the KubeEdge action.
 */
module Cluster {
  import opened Errors
  import opened Exec
  import opened Kind
  import opened KubeEdge
  import opened InternalCreate

  // ---- create options ----

  /**
   * A create option. The two configuration options carry what kind's loader
   * (`encoding.Load` of the path, `encoding.Parse` of the bytes) returned: a
   * configuration, or an error with no configuration.
   */
  datatype CreateOption =
    | CreateWithKubeconfigPath(explicitPath: string)
    | CreateWithNodeImage(nodeImage: string)
    | CreateWithWaitForReady(waitTime: int)
    | CreateWithConfigFile(path: string, decoded: Result<ClusterConfig>)
    | CreateWithRawConfig(raw: seq<bv8>, decoded: Result<ClusterConfig>)
    | CreateWithAdvertiseAddress(address: string)
    | CreateWithContainerMode(containerMode: bool)

  predicate SetsConfig(opt: CreateOption)
  {
    opt.CreateWithConfigFile? || opt.CreateWithRawConfig?
  }

  /** The option's loader failed. */
  predicate LoadFails(opt: CreateOption)
  {
    SetsConfig(opt) && opt.decoded.Failure?
  }

  /** The configuration a loader result leaves in the options: `nil` with an error. */
  function ConfigOf(r: Result<ClusterConfig>): ClusterConfig?
  {
    if r.Success? then r.value else null
  }

  /** The field of the options each option writes. */
  datatype OptionField = KubeconfigPathField | NodeImageField | WaitForReadyField | ConfigField
                       | AdvertiseAddressField | ContainerModeField

  function FieldOf(opt: CreateOption): OptionField
  {
    match opt
    case CreateWithKubeconfigPath(_) => KubeconfigPathField
    case CreateWithNodeImage(_) => NodeImageField
    case CreateWithWaitForReady(_) => WaitForReadyField
    case CreateWithConfigFile(_, _) => ConfigField
    case CreateWithRawConfig(_, _) => ConfigField
    case CreateWithAdvertiseAddress(_) => AdvertiseAddressField
    case CreateWithContainerMode(_) => ContainerModeField
  }

  /** `a` and `b` agree on every field except `f`. */
  predicate AgreeExcept(f: OptionField, a: Options, b: Options)
  {
    && a.nameOverride == b.nameOverride
    && a.retain == b.retain
    && (f != KubeconfigPathField ==> a.kubeconfigPath == b.kubeconfigPath)
    && (f != NodeImageField ==> a.nodeImage == b.nodeImage)
    && (f != WaitForReadyField ==> a.waitForReady == b.waitForReady)
    && (f != ConfigField ==> a.config == b.config)
    && (f != AdvertiseAddressField ==> a.advertiseAddress == b.advertiseAddress)
    && (f != ContainerModeField ==> a.containerMode == b.containerMode)
  }

  /** `v` holds the value the option writes, in the option's field. */
  predicate Holds(opt: CreateOption, v: Options)
  {
    match opt
    case CreateWithKubeconfigPath(p) => v.kubeconfigPath == p
    case CreateWithNodeImage(image) => v.nodeImage == image
    case CreateWithWaitForReady(w) => v.waitForReady == w
    case CreateWithConfigFile(_, d) => v.config == ConfigOf(d)
    case CreateWithRawConfig(_, d) => v.config == ConfigOf(d)
    case CreateWithAdvertiseAddress(a) => v.advertiseAddress == a
    case CreateWithContainerMode(m) => v.containerMode == m
  }

  /** The options after one option, and what its `apply` returned. */
  datatype Applied = Applied(options: Options, status: Status)

  function ApplySpec(opt: CreateOption, v: Options): Applied
  {
    match opt
    case CreateWithKubeconfigPath(p) => Applied(v.(kubeconfigPath := p), Ok)
    case CreateWithNodeImage(image) => Applied(v.(nodeImage := image), Ok)
    case CreateWithWaitForReady(w) => Applied(v.(waitForReady := w), Ok)
    case CreateWithConfigFile(_, d) =>
      Applied(v.(config := ConfigOf(d)), if d.Success? then Ok else Fail(d.error))
    case CreateWithRawConfig(_, d) =>
      Applied(v.(config := ConfigOf(d)), if d.Success? then Ok else Fail(d.error))
    case CreateWithAdvertiseAddress(a) => Applied(v.(advertiseAddress := a), Ok)
    case CreateWithContainerMode(m) => Applied(v.(containerMode := m), Ok)
  }

  /**
   * An option writes its own field, even when its loader fails, and no other;
   * it returns an error iff its loader failed, and that error unchanged.
   */
  lemma ApplyWritesOnlyItsField(opt: CreateOption, v: Options)
    ensures var r := ApplySpec(opt, v);
      && Holds(opt, r.options)
      && AgreeExcept(FieldOf(opt), v, r.options)
      && (r.status.Fail? <==> LoadFails(opt))
      && (r.status.Fail? ==> r.status.error == opt.decoded.error)
  {
  }

  /** Applying an option a second time changes nothing. */
  lemma ApplyIdempotent(opt: CreateOption, v: Options)
    ensures var r := ApplySpec(opt, v);
      ApplySpec(opt, r.options) == r
  {
  }

  /** Of two options writing the same field, the later one decides it. */
  lemma LaterOptionWins(a: CreateOption, b: CreateOption, v: Options)
    requires FieldOf(a) == FieldOf(b)
    ensures ApplySpec(b, ApplySpec(a, v).options).options == ApplySpec(b, v).options
  {
  }

  /** Options writing different fields can be given in either order. */
  lemma OptionsOnDifferentFieldsCommute(a: CreateOption, b: CreateOption, v: Options)
    requires FieldOf(a) != FieldOf(b)
    ensures ApplySpec(b, ApplySpec(a, v).options).options == ApplySpec(a, ApplySpec(b, v).options).options
  {
  }

  /** `apply`: write the option's field of `o`. */
  method Apply(opt: CreateOption, o: ClusterOptions) returns (err: Status)
    modifies o
    ensures Applied(o.Value(), err) == ApplySpec(opt, old(o.Value()))
  {
    match opt
    case CreateWithKubeconfigPath(p) =>
      o.kubeconfigPath := p;
      return Ok;
    case CreateWithNodeImage(image) =>
      o.nodeImage := image;
      return Ok;
    case CreateWithWaitForReady(w) =>
      o.waitForReady := w;
      return Ok;
    case CreateWithConfigFile(_, d) =>
      o.config := ConfigOf(d);
      return if d.Success? then Ok else Fail(d.error);
    case CreateWithRawConfig(_, d) =>
      o.config := ConfigOf(d);
      return if d.Success? then Ok else Fail(d.error);
    case CreateWithAdvertiseAddress(a) =>
      o.advertiseAddress := a;
      return Ok;
    case CreateWithContainerMode(m) =>
      o.containerMode := m;
      return Ok;
  }

  /** The options in order from index `k`, stopping at the first that returns an error. */
  function ApplyFrom(options: seq<CreateOption>, k: nat, v: Options): Applied
    requires k <= |options|
    decreases |options| - k
  {
    if k == |options| then Applied(v, Ok)
    else
      var a := ApplySpec(options[k], v);
      if a.status.Fail? then a else ApplyFrom(options, k + 1, a.options)
  }

  /** What `CreateKubeEdge` starts from: only the name override set. */
  function InitialOptions(name: string): Options
  {
    Options(null, name, "", false, 0, "", "", false)
  }

  /** The configurations the options loaded successfully. */
  function LoadedConfigs(options: seq<CreateOption>): set<ClusterConfig>
  {
    set i | 0 <= i < |options| && SetsConfig(options[i]) && options[i].decoded.Success? :: options[i].decoded.value
  }

  /**
   * The fold returns an error iff some option's loader failed, and then the
   * first such error; the options before it were all applied.
   */
  lemma {:induction false} ApplyFromFirstError(options: seq<CreateOption>, k: nat, v: Options)
    requires k <= |options|
    ensures var r := ApplyFrom(options, k, v);
      && (r.status.Fail? <==> exists i :: k <= i < |options| && LoadFails(options[i]))
      && (r.status.Fail? ==> exists i :: k <= i < |options| && LoadFails(options[i])
                                && r.status == Fail(options[i].decoded.error)
                                && forall j :: k <= j < i ==> !LoadFails(options[j]))
    decreases |options| - k
  {
    if k < |options| {
      ApplyFromFirstError(options, k + 1, ApplySpec(options[k], v).options);
    }
  }

  /**
   * No option sets `retain` or the name override; after a successful fold the configuration is the
   * starting one or one the options loaded, and is set when some option sets it.
   */
  lemma {:induction false} ApplyFromConfig(options: seq<CreateOption>, k: nat, v: Options)
    requires k <= |options|
    ensures var r := ApplyFrom(options, k, v);
      && r.options.retain == v.retain
      && r.options.nameOverride == v.nameOverride
      && (r.status.Ok? ==> r.options.config == v.config || r.options.config in LoadedConfigs(options))
      && (r.status.Ok? && (exists i :: k <= i < |options| && SetsConfig(options[i])) ==> r.options.config != null)
    decreases |options| - k
  {
    if k < |options| {
      var a := ApplySpec(options[k], v);
      ApplyFromConfig(options, k + 1, a.options);
      if SetsConfig(options[k]) && a.status.Ok? {
        assert a.options.config in LoadedConfigs(options);
      }
    }
  }

  // ---- the node list ----

  const EdgeNodeRole: string := "edge-node"
  /** The label that marks a KubeEdge edge node; its key and value are defined in kind's docker provider. */
  const EdgeNodeLabelKey: string
  const EdgeNodeLabelValue: string

  /** The index of the first `edge-node` entry at or after `k`. */
  function FindEdgeNode(nodes: seq<NodeConfig>, k: nat): (r: Option<nat>)
    requires k <= |nodes|
    ensures r.Some? ==> k <= r.value < |nodes| && nodes[r.value].role == EdgeNodeRole
    ensures r.Some? ==> forall j :: k <= j < r.value ==> nodes[j].role != EdgeNodeRole
    ensures r.None? ==> forall j :: k <= j < |nodes| ==> nodes[j].role != EdgeNodeRole
    decreases |nodes| - k
  {
    if k == |nodes| then None
    else if nodes[k].role == EdgeNodeRole then Some(k)
    else FindEdgeNode(nodes, k + 1)
  }

  /** The worker appended when no entry is an edge node: only a role and the edge label. */
  function NewEdgeNode(): NodeConfig
  {
    NodeConfig(WorkerRole, map[EdgeNodeLabelKey := EdgeNodeLabelValue], "")
  }

  /** An `edge-node` entry as kind can create it: a worker with the edge label added. */
  function AsEdgeWorker(n: NodeConfig): NodeConfig
  {
    n.(role := WorkerRole, labels := n.labels[EdgeNodeLabelKey := EdgeNodeLabelValue])
  }

  predicate EdgeLabelled(n: NodeConfig)
  {
    EdgeNodeLabelKey in n.labels && n.labels[EdgeNodeLabelKey] == EdgeNodeLabelValue
  }

  /** The node list `PreProcessClusterOptions` leaves. */
  function PreProcessedNodes(nodes: seq<NodeConfig>): seq<NodeConfig>
  {
    match FindEdgeNode(nodes, 0)
    case None => nodes + [NewEdgeNode()]
    case Some(i) => nodes[i := AsEdgeWorker(nodes[i])]
  }

  /** With no `edge-node` entry, exactly one labelled worker is appended and nothing else changes. */
  lemma AppendsEdgeWorkerIffNoEdgeNode(nodes: seq<NodeConfig>)
    ensures var r := PreProcessedNodes(nodes);
      && ((forall j :: 0 <= j < |nodes| ==> nodes[j].role != EdgeNodeRole) <==> |r| == |nodes| + 1)
      && (|r| == |nodes| + 1 ==> r == nodes + [NodeConfig(WorkerRole, map[EdgeNodeLabelKey := EdgeNodeLabelValue], "")])
  {
  }

  /**
   * With an `edge-node` entry, the first one becomes a worker that keeps its
   * labels and gains the edge label; every other entry, later `edge-node`
   * entries included, stays as it was, and the list keeps its length.
   */
  lemma ConvertsOnlyFirstEdgeNode(nodes: seq<NodeConfig>, i: nat)
    requires i < |nodes| && nodes[i].role == EdgeNodeRole
    requires forall j :: 0 <= j < i ==> nodes[j].role != EdgeNodeRole
    ensures var r := PreProcessedNodes(nodes);
      && |r| == |nodes|
      && r[i].role == WorkerRole
      && r[i].image == nodes[i].image
      && EdgeLabelled(r[i])
      && (forall k :: k in nodes[i].labels && k != EdgeNodeLabelKey ==> k in r[i].labels && r[i].labels[k] == nodes[i].labels[k])
      && r[i].labels.Keys == nodes[i].labels.Keys + {EdgeNodeLabelKey}
      && (forall j :: 0 <= j < |nodes| && j != i ==> r[j] == nodes[j])
  {
  }

  /**
   * Afterwards some worker carries the edge label, the list grew by at most
   * one, and every entry not converted is kept in its place.
   */
  lemma PreProcessLabelsAnEdgeNode(nodes: seq<NodeConfig>)
    ensures var r := PreProcessedNodes(nodes);
      && |nodes| <= |r| <= |nodes| + 1
      && (exists j :: 0 <= j < |r| && r[j].role == WorkerRole && EdgeLabelled(r[j]))
      && (forall j :: 0 <= j < |nodes| && nodes[j].role != EdgeNodeRole ==> r[j] == nodes[j])
  {
    var r := PreProcessedNodes(nodes);
    match FindEdgeNode(nodes, 0)
    case None =>
      assert r[|nodes|] == NewEdgeNode();
      assert EdgeLabelled(r[|nodes|]);
    case Some(i) =>
      assert r[i] == AsEdgeWorker(nodes[i]);
      assert EdgeLabelled(r[i]);
  }

  /**
   * Make sure an edge node exists (append a labelled worker when no entry has
   * the `edge-node` role), then convert the first `edge-node` entry into a
   * worker carrying the edge label. Rewrites the configuration in place.
   */
  method PreProcessClusterOptions(opts: ClusterOptions)
    requires opts.config != null
    modifies opts.config
    ensures opts.config.nodes == PreProcessedNodes(old(opts.config.nodes))
    ensures opts.config.name == old(opts.config.name)
  {
    var config := opts.config;
    ghost var nodes := config.nodes;
    var edgeNodeExist := false;
    for i := 0 to |config.nodes|
      invariant config.nodes == nodes
      invariant !edgeNodeExist ==> forall j :: 0 <= j < i ==> nodes[j].role != EdgeNodeRole
    {
      if config.nodes[i].role == EdgeNodeRole {
        edgeNodeExist := true;
        break;
      }
    }
    if !edgeNodeExist {
      config.nodes := config.nodes + [NodeConfig(WorkerRole, map[EdgeNodeLabelKey := EdgeNodeLabelValue], "")];
    }

    ghost var listed := config.nodes;
    assert FindEdgeNode(listed, 0) == FindEdgeNode(nodes, 0);
    for index := 0 to |config.nodes|
      invariant config.nodes == listed
      invariant forall j :: 0 <= j < index ==> listed[j].role != EdgeNodeRole
    {
      if config.nodes[index].role == EdgeNodeRole {
        var node := config.nodes[index];
        var labels := node.labels;
        if |labels| == 0 {
          labels := map[];
        }
        config.nodes := config.nodes[index := node.(role := WorkerRole, labels := labels[EdgeNodeLabelKey := EdgeNodeLabelValue])];
        assert FindEdgeNode(listed, 0) == Some(index) by {
          FirstEdgeNodeUnique(listed, index);
        }
        return;
      }
    }
  }

  /** An `edge-node` entry preceded by none is the one `FindEdgeNode` finds. */
  lemma FirstEdgeNodeUnique(nodes: seq<NodeConfig>, i: nat)
    requires i < |nodes| && nodes[i].role == EdgeNodeRole
    requires forall j :: 0 <= j < i ==> nodes[j].role != EdgeNodeRole
    ensures FindEdgeNode(nodes, 0) == Some(i)
  {
  }

  // ---- the provider ----

  /**
   * What kind is asked to create: the shared part of the options, with the
   * configuration's name and node list as they are when the request is made.
   */
  function CreateRequest(name: string, o: Options): ProviderRequest
    requires o.config != null
    reads o.config
  {
    CreateCluster(name, o.config.name, o.config.nodes, o.nodeImage, o.retain, o.waitForReady, o.kubeconfigPath)
  }

  /**
   * `CreateKubeEdge`: apply the options in order, returning the first error;
   * rewrite the node list; have kind create the cluster, wrapping its error;
   * then run the KubeEdge action over `ctx`, the context kind presents for the
   * created cluster. The options must include a configuration option: the
   * node list is read through the configuration.
   */
  method CreateKubeEdge(provider: Provider, name: string, options: seq<CreateOption>, ctx: Context, exec: Executor)
    returns (st: Status)
    requires exists i :: 0 <= i < |options| && SetsConfig(options[i])
    modifies provider, exec, LoadedConfigs(options)
    ensures var f := ApplyFrom(options, 0, InitialOptions(name));
      f.status.Fail? ==> st == f.status && provider.requests == old(provider.requests) && exec.trace == old(exec.trace)
    ensures var f := ApplyFrom(options, 0, InitialOptions(name));
      f.status.Ok? ==>
        && f.options.config != null
        && f.options.config.nodes == PreProcessedNodes(old(f.options.config.nodes))
        && |old(provider.requests)| < |provider.requests|
        && provider.requests[|old(provider.requests)|] == CreateRequest(name, f.options)
    ensures var f := ApplyFrom(options, 0, InitialOptions(name));
      f.status.Ok? && f.options.config != null ==>
        var created := provider.reply(old(provider.requests), CreateRequest(name, f.options));
        && (created.Fail? ==>
              && st == Fail(Wrap(created.error, "failed to create k8s cluster"))
              && provider.requests == old(provider.requests) + [CreateRequest(name, f.options)]
              && exec.trace == old(exec.trace))
        && (created.Ok? ==>
              var r := ClusterSpec(exec.oracle, ctx, f.options.advertiseAddress, f.options.containerMode, false,
                                   f.options.config.name, f.options.kubeconfigPath, old(exec.trace));
              && exec.trace == r.trace && st == r.status
              && provider.requests == old(provider.requests) + [CreateRequest(name, f.options)]
                                      + (if r.deletion.Some? then [r.deletion.value] else []))
  {
    var opts := new ClusterOptions(name);
    ghost var f := ApplyFrom(options, 0, InitialOptions(name));
    ApplyFromConfig(options, 0, InitialOptions(name));
    for i := 0 to |options|
      modifies opts
      invariant ApplyFrom(options, i, opts.Value()) == f
    {
      var err := Apply(options[i], opts);
      if err.Fail? {
        return err;
      }
    }
    assert opts.Value() == f.options;

    PreProcessClusterOptions(opts);

    var created := provider.Request(CreateCluster(opts.nameOverride, opts.config.name, opts.config.nodes,
                                                  opts.nodeImage, opts.retain, opts.waitForReady, opts.kubeconfigPath));
    if created.Fail? {
      return Fail(Wrap(created.error, "failed to create k8s cluster"));
    }

    st := Cluster(opts, provider, ctx, exec);
  }
}
