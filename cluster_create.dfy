/**
 * Creating the KubeEdge part of a cluster: the options object the create
 * options fill in, and `Cluster`, which runs the KubeEdge action and, when it
 * fails, asks the provider to delete the cluster unless told to retain it.
 */
module InternalCreate {
  import opened Errors
  import opened Exec
  import opened Kind
  import opened KubeEdge

  /** The option values, as the specification functions see them. */
  datatype Options = Options(
    config: ClusterConfig?,
    nameOverride: string,
    nodeImage: string,
    retain: bool,
    waitForReady: int,      // a `time.Duration`, in nanoseconds
    kubeconfigPath: string,
    advertiseAddress: string,
    containerMode: bool)

  /** kind's cluster options with the two KubeEdge fields; `config` is `nil` until an option loads one. */
  class ClusterOptions {
    var config: ClusterConfig?
    var nameOverride: string
    var nodeImage: string
    var retain: bool
    var waitForReady: int
    var kubeconfigPath: string
    var advertiseAddress: string
    var containerMode: bool

    /** The options `CreateKubeEdge` starts from: only the name override set. */
    constructor (nameOverride: string)
      ensures Value() == Options(null, nameOverride, "", false, 0, "", "", false)
    {
      config := null;
      this.nameOverride := nameOverride;
      nodeImage := "";
      retain := false;
      waitForReady := 0;
      kubeconfigPath := "";
      advertiseAddress := "";
      containerMode := false;
    }

    function Value(): Options
      reads this
    {
      Options(config, nameOverride, nodeImage, retain, waitForReady, kubeconfigPath, advertiseAddress, containerMode)
    }
  }

  /** What a run of `Cluster` leaves behind: the trace, the result, the deletion it asked for. */
  datatype ClusterRun = ClusterRun(trace: seq<Issued>, status: Status, deletion: Option<ProviderRequest>)

  /**
   * `Cluster`: the only action is the KubeEdge one, built from the advertise
   * address and the container mode, starting with both package variables
   * empty; a failure asks for the deletion of the cluster named in the
   * configuration unless `retain`.
   */
  function ClusterSpec(o: Oracle, ctx: Context, advertiseAddress: string, containerMode: bool, retain: bool,
                       configName: string, kubeconfigPath: string, h: seq<Issued>): ClusterRun
  {
    var e := ExecuteSpec(o, ctx, advertiseAddress, containerMode, h, Globals("", ""));
    ClusterRun(e.trace, e.status,
      if e.status.Fail? && !retain then Some(DeleteCluster(configName, kubeconfigPath)) else None)
  }

  /**
   * Deletion is asked for iff the action failed and the cluster is not to be
   * retained; the result is the action's own, and success asks for nothing.
   */
  lemma TeardownUnlessRetained(o: Oracle, ctx: Context, advertiseAddress: string, containerMode: bool, retain: bool,
                               configName: string, kubeconfigPath: string, h: seq<Issued>)
    ensures var r := ClusterSpec(o, ctx, advertiseAddress, containerMode, retain, configName, kubeconfigPath, h);
      var e := ExecuteSpec(o, ctx, advertiseAddress, containerMode, h, Globals("", ""));
      && r.status == e.status
      && r.trace == e.trace
      && (r.deletion.Some? <==> e.status.Fail? && !retain)
      && (r.deletion.Some? ==> r.deletion.value == DeleteCluster(configName, kubeconfigPath))
  {
  }

  /**
   * Run the actions in order; the first that fails ends the run, after the
   * deletion request unless `retain`, whose own result is discarded.
   */
  method Cluster(opts: ClusterOptions, provider: Provider, ctx: Context, exec: Executor) returns (st: Status)
    requires opts.config != null
    modifies provider, exec
    ensures var r := ClusterSpec(exec.oracle, ctx, opts.advertiseAddress, opts.containerMode, opts.retain,
                                 opts.config.name, opts.kubeconfigPath, old(exec.trace));
      && exec.trace == r.trace && st == r.status
      && provider.requests == old(provider.requests) + (if r.deletion.Some? then [r.deletion.value] else [])
  {
    ghost var e := ExecuteSpec(exec.oracle, ctx, opts.advertiseAddress, opts.containerMode, exec.trace, Globals("", ""));
    var action := new Action(opts.advertiseAddress, opts.containerMode, exec);
    var actionsToRun := [action];
    for i := 0 to |actionsToRun|
      invariant i == 0 ==> exec.trace == old(exec.trace) && action.Current() == Globals("", "")
      invariant i == 1 ==> exec.trace == e.trace && e.status.Ok?
      invariant provider.requests == old(provider.requests)
    {
      var err := actionsToRun[i].Execute(ctx);
      if err.Fail? {
        if !opts.retain {
          var ignored := provider.Request(DeleteCluster(opts.config.name, opts.kubeconfigPath));
        }
        return err;
      }
    }
    return Ok;
  }
}
