/**
 * The parts of the kind library the modelled code touches, reduced to what
 * it reads and writes: a node entry of the cluster configuration, the
 * configuration object, the node provider (cluster creation and deletion,
 * whose effects an oracle decides) and the logger.
 */
module Kind {
  import opened Errors

  const ControlPlaneRole: string := "control-plane"
  const WorkerRole: string := "worker"

  /** One `nodes:` entry of a kind cluster configuration: its role, its labels, its image. */
  datatype NodeConfig = NodeConfig(role: string, labels: map<string, string>, image: string)

  /** A kind cluster configuration (`*config.Cluster`): shared by reference and edited in place. */
  class ClusterConfig {
    var name: string
    var nodes: seq<NodeConfig>

    constructor (name: string, nodes: seq<NodeConfig>)
      ensures this.name == name && this.nodes == nodes
    {
      this.name := name;
      this.nodes := nodes;
    }
  }

  /** A request made to the node provider. */
  datatype ProviderRequest =
    | CreateCluster(nameOverride: string, configName: string, nodes: seq<NodeConfig>, nodeImage: string,
                    retain: bool, waitForReady: int, kubeconfigPath: string)  // `sharedcreate.Cluster`
    | DeleteCluster(name: string, kubeconfig: string)                         // `delete.Cluster`

  /** The node provider: what it is asked to do is recorded; an oracle decides whether each request fails. */
  class Provider {
    const reply: (seq<ProviderRequest>, ProviderRequest) -> Status
    var requests: seq<ProviderRequest>

    constructor (reply: (seq<ProviderRequest>, ProviderRequest) -> Status)
      ensures this.reply == reply && requests == []
    {
      this.reply := reply;
      requests := [];
    }

    method Request(r: ProviderRequest) returns (st: Status)
      modifies this
      ensures requests == old(requests) + [r]
      ensures st == reply(old(requests), r)
    {
      st := reply(requests, r);
      requests := requests + [r];
    }
  }

  /**
   * A logger: the warnings written to it and, when it supports them, its
   * verbosity and whether its output is discarded.
   */
  class Logger {
    const canSetVerbosity: bool
    const canSetWriter: bool
    const colorEnabled: bool
    var verbosity: int
    var discarding: bool
    var warnings: seq<string>

    constructor (canSetVerbosity: bool, canSetWriter: bool, colorEnabled: bool)
      ensures this.canSetVerbosity == canSetVerbosity && this.canSetWriter == canSetWriter
      ensures this.colorEnabled == colorEnabled
      ensures verbosity == 0 && !discarding && warnings == []
    {
      this.canSetVerbosity := canSetVerbosity;
      this.canSetWriter := canSetWriter;
      this.colorEnabled := colorEnabled;
      verbosity := 0;
      discarding := false;
      warnings := [];
    }

    method Warn(message: string)
      modifies this
      ensures warnings == old(warnings) + [message]
      ensures verbosity == old(verbosity) && discarding == old(discarding)
    {
      warnings := warnings + [message];
    }

    /** `SetVerbosity`, for a logger that has it. */
    method SetVerbosity(level: int)
      requires canSetVerbosity
      modifies this
      ensures verbosity == level
      ensures warnings == old(warnings) && discarding == old(discarding)
    {
      verbosity := level;
    }

    /** `SetWriter(ioutil.Discard)`, for a logger that has `SetWriter`. */
    method DiscardOutput()
      requires canSetWriter
      modifies this
      ensures discarding
      ensures warnings == old(warnings) && verbosity == old(verbosity)
    {
      discarding := true;
    }
  }
}
