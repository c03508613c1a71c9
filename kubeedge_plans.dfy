/**
 * The command sequences the KubeEdge bootstrap action issues, step by step:
 * which command runs on which node, in which order.
 */
module KubeEdgePlans {
  import opened Strings
  import opened Commands
  import opened Errors
  import opened Exec

  /** A cluster node as the action sees it: its name (`node.String()`) and the address `node.IP()` gave. */
  datatype Node = Node(name: string, ip: string)

  /** `c` run on `node`, with no label around its own. */
  function On(node: Node, c: Command): Step
  {
    Step(node.name, c, [])
  }

  /** `preProcess`: wait for `node/<cluster>-control-plane`, then keep kube-proxy off the edge nodes. */
  function PreProcessPlan(cp: Node, clusterName: string): seq<Step>
  {
    [On(cp, WaitControlPlane(clusterName)), On(cp, PatchKubeProxy)]
  }

  /** The CRD manifests `startCloudcore` creates, in this order, from the directory the image ships them in. */
  const Crds: seq<string> := [
    "devices_v1beta1_device.yaml",
    "devices_v1beta1_devicemodel.yaml",
    "cluster_objectsync_v1alpha1.yaml",
    "objectsync_v1alpha1.yaml",
    "router_v1_rule.yaml",
    "router_v1_ruleEndpoint.yaml"
  ]

  function CreateCrdSteps(cp: Node, crds: seq<string>): (r: seq<Step>)
    ensures |r| == |crds|
  {
    if crds == [] then [] else [On(cp, CreateCrd(crds[0]))] + CreateCrdSteps(cp, crds[1..])
  }

  /** The namespace, then one create per CRD manifest in list order. */
  function CloudcoreObjectsPlan(cp: Node): seq<Step>
  {
    [On(cp, CreateNamespace)] + CreateCrdSteps(cp, Crds)
  }

  /** Generate cloudcore's configuration, point it at the admin kubeconfig, turn the iptables manager off, start it. */
  function CloudcoreConfigPlan(cp: Node): seq<Step>
  {
    [On(cp, CloudcoreDefaultConfig), On(cp, SetKubeConfig), On(cp, DisableIptablesManager), On(cp, StartCloudcoreService)]
  }

  /** The steps `startCloudcore` runs before it fetches the token. */
  function CloudcorePlan(cp: Node): seq<Step>
  {
    CloudcoreObjectsPlan(cp) + CloudcoreConfigPlan(cp)
  }

  /** The steps `startCloudcoreWithKeadm` runs before it fetches the token. */
  function KeadmCloudcorePlan(cp: Node, advertiseAddress: string): seq<Step>
  {
    [On(cp, KeadmInit(advertiseAddress))]
  }

  /** `stopKubelet`: stop the kubelet on the edge node, then delete its node object from the control plane. */
  function StopKubeletPlan(cp: Node, node: Node): seq<Step>
  {
    [On(node, StopKubeletService), On(cp, DeleteNode(node.name))]
  }

  /** `waitNodeReady(nodeName)`: wait until the node is listed, then until it is Ready. */
  function WaitNodeReadyPlan(cp: Node, nodeName: string): seq<Step>
  {
    [On(cp, WaitNodeListed(nodeName)), On(cp, WaitReady(nodeName))]
  }

  /**
   * The first half of `runStartEdgecore`'s configuration: generate the default
   * configuration, write the token, switch the runtime to containerd.
   */
  function EdgecoreRuntimePlan(node: Node, token: string): seq<Step>
  {
    [ On(node, EdgecoreDefaultConfig),
      On(node, EdgecoreSet(Token, token)),
      On(node, EdgecoreSet(RemoteImageEndpoint, ContainerdSocket)),
      On(node, EdgecoreSet(RemoteRuntimeEndpoint, ContainerdSocket)),
      On(node, EdgecoreSet(ContainerRuntime, "remote")) ]
  }

  /**
   * The second half: point edgeHub's web socket and its server at `ip`, set the
   * MQTT mode, fix the resolv.conf path, start the service.
   */
  function EdgecoreHubPlan(node: Node, ip: string): seq<Step>
  {
    [ On(node, EdgecoreSet(HttpServer, HttpServerAddress(ip))),
      On(node, EdgecoreSet(Server, ServerAddress(ip))),
      On(node, SetMqttMode),
      On(node, FixResolv),
      On(node, StartEdgecoreService) ]
  }

  /** The configure-and-start steps of `runStartEdgecore`, between stopKubelet and waitNodeReady. */
  function EdgecorePlan(node: Node, ip: string, token: string): seq<Step>
  {
    EdgecoreRuntimePlan(node, token) + EdgecoreHubPlan(node, ip)
  }

  /** The cleanup-and-join steps of `runStartEdgecoreWithKeadm`, between stopKubelet and waitNodeReady. */
  function KeadmEdgecorePlan(node: Node, ip: string, token: string): seq<Step>
  {
    [On(node, RemoveKubeEdgeDir), On(node, KeadmJoin(ip, token))]
  }

  /** The middle of a node's bootstrap: the keadm variant iff `keadm`. */
  function ConfigurePlan(node: Node, ip: string, token: string, keadm: bool): seq<Step>
  {
    if keadm then KeadmEdgecorePlan(node, ip, token) else EdgecorePlan(node, ip, token)
  }

  /**
   * The whole bootstrap of one edge node: stopKubelet (its errors labelled
   * once more by the caller), the configuration of the chosen variant,
   * waitNodeReady.
   */
  function NodeBootstrapPlan(cp: Node, node: Node, ip: string, token: string, keadm: bool): seq<Step>
  {
    Wrapped(StopKubeletPlan(cp, node), "failed to stop kubelet")
      + ConfigurePlan(node, ip, token, keadm)
      + WaitNodeReadyPlan(cp, node.name)
  }

  // ---- properties of the plans ----

  lemma {:induction false} CreateCrdStepsAt(cp: Node, crds: seq<string>)
    ensures forall i :: 0 <= i < |crds| ==> CreateCrdSteps(cp, crds)[i] == On(cp, CreateCrd(crds[i]))
    decreases |crds|
  {
    if crds != [] {
      CreateCrdStepsAt(cp, crds[1..]);
    }
  }

  /**
   * The direct cloudcore path issues, in order: the namespace, one create per
   * listed CRD in list order, the default configuration, the two edits and the
   * service start.
   */
  lemma CloudcorePlanOrder(cp: Node)
    ensures var p := CloudcorePlan(cp);
      && |p| == 1 + |Crds| + 4
      && p[0] == On(cp, CreateNamespace)
      && (forall i :: 0 <= i < |Crds| ==> p[1 + i] == On(cp, CreateCrd(Crds[i])))
      && p[1 + |Crds|..] == [On(cp, CloudcoreDefaultConfig), On(cp, SetKubeConfig),
                             On(cp, DisableIptablesManager), On(cp, StartCloudcoreService)]
  {
    CreateCrdStepsAt(cp, Crds);
  }

  /**
   * Every per-node bootstrap starts with stopping the kubelet on that node and
   * deleting its node object, and ends with the two waits for that node on the
   * control plane; the keadm variant is the one in between iff `keadm`.
   */
  lemma NodeBootstrapShape(cp: Node, node: Node, ip: string, token: string, keadm: bool)
    ensures var p := NodeBootstrapPlan(cp, node, ip, token, keadm);
      var middle := ConfigurePlan(node, ip, token, keadm);
      && |p| == 4 + |middle|
      && Cmd(p[0]) == Issued(node.name, StopKubeletService)
      && Cmd(p[1]) == Issued(cp.name, DeleteNode(node.name))
      && p[2..2 + |middle|] == middle
      && p[|p| - 2..] == WaitNodeReadyPlan(cp, node.name)
  {
    var p := NodeBootstrapPlan(cp, node, ip, token, keadm);
    var w := Wrapped(StopKubeletPlan(cp, node), "failed to stop kubelet");
    var middle := ConfigurePlan(node, ip, token, keadm);
    assert p == w + middle + WaitNodeReadyPlan(cp, node.name);
    assert p[2..2 + |middle|] == middle;
  }

  /**
   * The direct edge configuration writes the token it is given, the web
   * socket address `https://<ip>:10002` and the server address `<ip>:10000`
   * into edgecore's configuration; the command lines carry them.
   */
  lemma EdgecorePlanEmbeds(node: Node, ip: string, token: string)
    ensures Contains(Text(EdgecoreRuntimePlan(node, token)[1].command), token)
    ensures var hub := EdgecoreHubPlan(node, ip);
      && Contains(Text(hub[0].command), "https://" + ip + ":10002")
      && Contains(Text(hub[1].command), ip + ":10000")
  {
    EdgecoreSettingsEmbed(ip, token);
  }

  /** The keadm join carries `<ip>:30000`, the certificate port 30002 and the token. */
  lemma KeadmEdgecorePlanEmbeds(node: Node, ip: string, token: string)
    ensures var c := Text(KeadmEdgecorePlan(node, ip, token)[1].command);
      && Contains(c, ip + ":30000")
      && Contains(c, "--certport 30002")
      && Contains(c, token)
  {
    KeadmJoinEmbedsAddress(ip, token);
    KeadmJoinEmbedsCertPort(ip, token);
    KeadmJoinEmbedsToken(ip, token);
  }
}
