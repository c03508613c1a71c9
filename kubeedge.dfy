/**
 * The KubeEdge bootstrap action: wait for the control plane and keep
 * kube-proxy off the edge nodes, bring up cloudcore and fetch its token,
 * then turn every edge node into a KubeEdge edge node. The spec functions
 * say what a run issues and returns; the class `Action` does it step by step
 * through the executor and is proved to agree with them.
 */
module KubeEdge {
  import opened Commands
  import opened Errors
  import opened Exec
  import opened KubeEdgePlans

  /**
   * What the action context gives the action: the cluster name, the control
   * plane (None when `ctx.Nodes()` or `nodeutils.BootstrapControlPlaneNode`
   * fails) and the nodes labelled as edge nodes (None when
   * `docker.ListEdgeNodesByLabel` fails).
   */
  datatype Context = Context(clusterName: string, controlPlane: Option<Node>, edgeNodes: Option<seq<Node>>)

  const ControlPlaneLookupError: Error := Error([], Collaborator("nodeutils.BootstrapControlPlaneNode"))
  const EdgeNodeListError: Error := Error([], Collaborator("docker.ListEdgeNodesByLabel"))

  /** The two package-level variables the action writes: the address edgecore registers to and the token. */
  datatype Globals = Globals(controlPlaneIP: string, token: string)

  /** The trace after a phase, the package variables after it and what it returned. */
  datatype Effect = Effect(trace: seq<Issued>, globals: Globals, status: Status)

  // ---- specification ----

  /** `preProcess`: look up the control plane, wait for it, then patch kube-proxy. */
  function PreProcessSpec(o: Oracle, ctx: Context, h: seq<Issued>): Outcome
  {
    match ctx.controlPlane
    case None => Outcome(h, Fail(ControlPlaneLookupError))
    case Some(cp) => RunPlan(o, h, PreProcessPlan(cp, ctx.clusterName))
  }

  /**
   * `getToken`: read the token secret on the control plane; an error when the
   * read fails or prints nothing, otherwise the token becomes what it printed.
   */
  function GetTokenSpec(o: Oracle, h: seq<Issued>, cp: Node, g: Globals): Effect
  {
    var step := On(cp, ReadToken);
    var reply := o(h, Cmd(step));
    var t := h + [Cmd(step)];
    if !reply.ok then Effect(t, g, Fail(StepError(step, reply.output)))
    else if reply.output == "" then Effect(t, g, Fail(Message("tokensecret cannot be empty")))
    else Effect(t, g.(token := reply.output), Ok)
  }

  /** The cloudcore steps the action runs before the token: `keadm init` in container mode, the direct ones otherwise. */
  function CloudPlan(cp: Node, advertiseAddress: string, containerMode: bool): seq<Step>
  {
    if containerMode then KeadmCloudcorePlan(cp, advertiseAddress) else CloudcorePlan(cp)
  }

  /** `startCloudcore` / `startCloudcoreWithKeadm`: the plan, then `getToken` if the plan succeeded. */
  function StartCloudcoreSpec(o: Oracle, h: seq<Issued>, cp: Node, plan: seq<Step>, g: Globals): Effect
  {
    var r := RunPlan(o, h, plan);
    if r.status.Fail? then Effect(r.trace, g, r.status)
    else GetTokenSpec(o, r.trace, cp, g)
  }

  function CloudPrefix(containerMode: bool): string
  {
    if containerMode then "failed to start cloudcore with keadm" else "failed to start cloudcore"
  }

  /** `BootstrapCloudCore`: exactly one of the two cloudcore paths, its error labelled with the path. */
  function CloudCoreSpec(o: Oracle, ctx: Context, advertiseAddress: string, containerMode: bool,
                         h: seq<Issued>, g: Globals): Effect
  {
    match ctx.controlPlane
    case None => Effect(h, g, Fail(ControlPlaneLookupError))
    case Some(cp) =>
      var r := StartCloudcoreSpec(o, h, cp, CloudPlan(cp, advertiseAddress, containerMode), g);
      r.(status := WrapStatus(r.status, CloudPrefix(containerMode)))
  }

  /** The address edgecore registers to: the advertise address when given, the control plane's IP otherwise. */
  function ChosenIP(advertiseAddress: string, cp: Node): string
  {
    if advertiseAddress != "" then advertiseAddress else cp.ip
  }

  /**
   * `joinEdgeNodes`: one bootstrap per edge node, each from where the previous
   * one left the trace; every node is attempted, and the first error in node
   * order is returned.
   */
  function JoinSpec(o: Oracle, h: seq<Issued>, cp: Node, nodes: seq<Node>, ip: string, token: string,
                    containerMode: bool): Outcome
    decreases |nodes|
  {
    if nodes == [] then Outcome(h, Ok)
    else
      var r := RunPlan(o, h, NodeBootstrapPlan(cp, nodes[0], ip, token, containerMode));
      var rest := JoinSpec(o, r.trace, cp, nodes[1..], ip, token, containerMode);
      Outcome(rest.trace, if r.status.Fail? then r.status else rest.status)
  }

  /**
   * `BootstrapEdgecore`: set the control-plane address, list the edge nodes
   * and, when there are any, join them.
   */
  function EdgecoreSpec(o: Oracle, ctx: Context, advertiseAddress: string, containerMode: bool,
                        h: seq<Issued>, g: Globals): Effect
  {
    match ctx.controlPlane
    case None => Effect(h, g, Fail(ControlPlaneLookupError))
    case Some(cp) =>
      var g' := g.(controlPlaneIP := ChosenIP(advertiseAddress, cp));
      match ctx.edgeNodes
      case None => Effect(h, g', Fail(EdgeNodeListError))
      case Some(nodes) =>
        if |nodes| == 0 then Effect(h, g', Ok)
        else
          var j := JoinSpec(o, h, cp, nodes, g'.controlPlaneIP, g'.token, containerMode);
          Effect(j.trace, g', j.status)
  }

  /** `Execute`: the three phases in order, stopping at the first that fails. */
  function ExecuteSpec(o: Oracle, ctx: Context, advertiseAddress: string, containerMode: bool,
                       h: seq<Issued>, g: Globals): Effect
  {
    var p := PreProcessSpec(o, ctx, h);
    if p.status.Fail? then Effect(p.trace, g, WrapStatus(p.status, "failed do pre process"))
    else
      var c := CloudCoreSpec(o, ctx, advertiseAddress, containerMode, p.trace, g);
      if c.status.Fail? then c
      else EdgecoreSpec(o, ctx, advertiseAddress, containerMode, c.trace, c.globals)
  }

  // ---- the action, step by step ----

  /**
   * The action with its settings; `controlPlaneIP` and `kubeEdgeToken` stand
   * for the two package-level variables the Go code assigns.
   */
  class Action {
    const advertiseAddress: string
    const containerMode: bool
    const exec: Executor
    var controlPlaneIP: string
    var kubeEdgeToken: string

    constructor (advertiseAddress: string, containerMode: bool, exec: Executor)
      ensures this.advertiseAddress == advertiseAddress && this.containerMode == containerMode
      ensures this.exec == exec && controlPlaneIP == "" && kubeEdgeToken == ""
    {
      this.advertiseAddress := advertiseAddress;
      this.containerMode := containerMode;
      this.exec := exec;
      controlPlaneIP := "";
      kubeEdgeToken := "";
    }

    function Current(): Globals
      reads this
    {
      Globals(controlPlaneIP, kubeEdgeToken)
    }

    method Execute(ctx: Context) returns (st: Status)
      modifies this, exec
      ensures Effect(exec.trace, Current(), st)
        == ExecuteSpec(exec.oracle, ctx, advertiseAddress, containerMode, old(exec.trace), old(Current()))
    {
      st := PreProcess(ctx);
      if st.Fail? {
        return WrapStatus(st, "failed do pre process");
      }
      st := BootstrapCloudCore(ctx);
      if st.Fail? {
        return;
      }
      st := BootstrapEdgecore(ctx);
    }

    method PreProcess(ctx: Context) returns (st: Status)
      modifies exec
      ensures Outcome(exec.trace, st) == PreProcessSpec(exec.oracle, ctx, old(exec.trace))
    {
      if ctx.controlPlane.None? {
        return Fail(ControlPlaneLookupError);
      }
      var cp := ctx.controlPlane.value;
      ghost var plan := PreProcessPlan(cp, ctx.clusterName);
      RunPlanFromStart(exec.oracle, exec.trace, plan);
      st := exec.RunStep(On(cp, WaitControlPlane(ctx.clusterName)), plan, 0);
      if st.Fail? {
        return;
      }
      st := exec.RunStep(On(cp, PatchKubeProxy), plan, 1);
    }

    method BootstrapCloudCore(ctx: Context) returns (st: Status)
      modifies this, exec
      ensures controlPlaneIP == old(controlPlaneIP)
      ensures Effect(exec.trace, Current(), st)
        == CloudCoreSpec(exec.oracle, ctx, advertiseAddress, containerMode, old(exec.trace), old(Current()))
    {
      if ctx.controlPlane.None? {
        return Fail(ControlPlaneLookupError);
      }
      var cp := ctx.controlPlane.value;
      if containerMode {
        st := StartCloudcoreWithKeadm(cp);
        if st.Fail? {
          return WrapStatus(st, "failed to start cloudcore with keadm");
        }
      } else {
        st := StartCloudcore(cp);
        if st.Fail? {
          return WrapStatus(st, "failed to start cloudcore");
        }
      }
    }

    method StartCloudcoreWithKeadm(cp: Node) returns (st: Status)
      modifies this, exec
      ensures controlPlaneIP == old(controlPlaneIP)
      ensures Effect(exec.trace, Current(), st)
        == StartCloudcoreSpec(exec.oracle, old(exec.trace), cp, KeadmCloudcorePlan(cp, advertiseAddress), old(Current()))
    {
      ghost var plan := KeadmCloudcorePlan(cp, advertiseAddress);
      RunPlanFromStart(exec.oracle, exec.trace, plan);
      st := exec.RunStep(On(cp, KeadmInit(advertiseAddress)), plan, 0);
      if st.Fail? {
        return;
      }
      st := GetToken(cp);
    }

    method StartCloudcore(cp: Node) returns (st: Status)
      modifies this, exec
      ensures controlPlaneIP == old(controlPlaneIP)
      ensures Effect(exec.trace, Current(), st)
        == StartCloudcoreSpec(exec.oracle, old(exec.trace), cp, CloudcorePlan(cp), old(Current()))
    {
      ghost var h0 := exec.trace;
      ghost var objects := CloudcoreObjectsPlan(cp);
      CreateCrdStepsAt(cp, Crds);
      RunPlanAppend(exec.oracle, h0, objects, CloudcoreConfigPlan(cp));
      RunPlanFromStart(exec.oracle, h0, objects);
      st := exec.RunStep(On(cp, CreateNamespace), objects, 0);
      if st.Fail? {
        return;
      }
      for i := 0 to |Crds|
        modifies exec
        invariant RunPlan(exec.oracle, h0, objects) == RunFrom(exec.oracle, exec.trace, objects, 1 + i)
      {
        st := exec.RunStep(On(cp, CreateCrd(Crds[i])), objects, 1 + i);
        if st.Fail? {
          return;
        }
      }
      st := ConfigureCloudcore(cp);
      if st.Fail? {
        return;
      }
      st := GetToken(cp);
    }

    /** The steps of `startCloudcore` after the CRDs. */
    method ConfigureCloudcore(cp: Node) returns (st: Status)
      modifies exec
      ensures Outcome(exec.trace, st) == RunPlan(exec.oracle, old(exec.trace), CloudcoreConfigPlan(cp))
    {
      var plan := CloudcoreConfigPlan(cp);
      RunPlanFromStart(exec.oracle, exec.trace, plan);
      st := exec.RunStep(On(cp, CloudcoreDefaultConfig), plan, 0);
      if st.Fail? {
        return;
      }
      st := exec.RunStep(On(cp, SetKubeConfig), plan, 1);
      if st.Fail? {
        return;
      }
      st := exec.RunStep(On(cp, DisableIptablesManager), plan, 2);
      if st.Fail? {
        return;
      }
      st := exec.RunStep(On(cp, StartCloudcoreService), plan, 3);
    }

    method GetToken(cp: Node) returns (st: Status)
      modifies this, exec
      ensures controlPlaneIP == old(controlPlaneIP)
      ensures Effect(exec.trace, Current(), st) == GetTokenSpec(exec.oracle, old(exec.trace), cp, old(Current()))
    {
      var r := exec.Run(cp.name, ReadToken);
      if !r.ok {
        return Fail(StepError(On(cp, ReadToken), r.output));
      }
      if r.output == "" {
        return Fail(Message("tokensecret cannot be empty"));
      }
      kubeEdgeToken := r.output;
      return Ok;
    }

    method BootstrapEdgecore(ctx: Context) returns (st: Status)
      modifies this, exec
      ensures Effect(exec.trace, Current(), st)
        == EdgecoreSpec(exec.oracle, ctx, advertiseAddress, containerMode, old(exec.trace), old(Current()))
    {
      if ctx.controlPlane.None? {
        return Fail(ControlPlaneLookupError);
      }
      var cp := ctx.controlPlane.value;
      controlPlaneIP := cp.ip;
      if advertiseAddress != "" {
        controlPlaneIP := advertiseAddress;
      }
      if ctx.edgeNodes.None? {
        return Fail(EdgeNodeListError);
      }
      var edgeNodes := ctx.edgeNodes.value;
      if |edgeNodes| > 0 {
        st := JoinEdgeNodes(cp, edgeNodes);
        if st.Fail? {
          return;
        }
      }
      return Ok;
    }

    /** Bootstrap every edge node in turn; keep the first error and carry on with the others. */
    method JoinEdgeNodes(cp: Node, edgeNodes: seq<Node>) returns (st: Status)
      modifies exec
      ensures Outcome(exec.trace, st)
        == JoinSpec(exec.oracle, old(exec.trace), cp, edgeNodes, controlPlaneIP, kubeEdgeToken, containerMode)
    {
      ghost var h0 := exec.trace;
      st := Ok;
      assert edgeNodes[0..] == edgeNodes;
      for i := 0 to |edgeNodes|
        invariant JoinSpec(exec.oracle, h0, cp, edgeNodes, controlPlaneIP, kubeEdgeToken, containerMode)
          == var r := JoinSpec(exec.oracle, exec.trace, cp, edgeNodes[i..], controlPlaneIP, kubeEdgeToken, containerMode);
             Outcome(r.trace, if st.Fail? then st else r.status)
      {
        assert edgeNodes[i..][1..] == edgeNodes[i + 1..];
        var nodeStatus;
        if containerMode {
          nodeStatus := RunStartEdgecoreWithKeadm(cp, edgeNodes[i]);
        } else {
          nodeStatus := RunStartEdgecore(cp, edgeNodes[i]);
        }
        if st.Ok? {
          st := nodeStatus;
        }
      }
      assert edgeNodes[|edgeNodes|..] == [];
    }

    method RunStartEdgecore(cp: Node, node: Node) returns (st: Status)
      modifies exec
      ensures Outcome(exec.trace, st)
        == RunPlan(exec.oracle, old(exec.trace), NodeBootstrapPlan(cp, node, controlPlaneIP, kubeEdgeToken, false))
    {
      ghost var h0 := exec.trace;
      ghost var stop := Wrapped(StopKubeletPlan(cp, node), "failed to stop kubelet");
      ghost var plan := EdgecorePlan(node, controlPlaneIP, kubeEdgeToken);
      ghost var wait := WaitNodeReadyPlan(cp, node.name);
      RunPlanAppend(exec.oracle, h0, stop + plan, wait);
      RunPlanAppend(exec.oracle, h0, stop, plan);
      RunPlanWrapped(exec.oracle, h0, StopKubeletPlan(cp, node), "failed to stop kubelet");
      st := StopKubelet(cp, node);
      if st.Fail? {
        return WrapStatus(st, "failed to stop kubelet");
      }
      RunPlanAppend(exec.oracle, exec.trace, plan, wait);
      st := ConfigureEdgecore(node);
      if st.Fail? {
        return;
      }
      st := WaitNodeReady(cp, node.name);
    }

    /** The steps of `runStartEdgecore` between stopping the kubelet and waiting for the node. */
    method ConfigureEdgecore(node: Node) returns (st: Status)
      modifies exec
      ensures Outcome(exec.trace, st)
        == RunPlan(exec.oracle, old(exec.trace), EdgecorePlan(node, controlPlaneIP, kubeEdgeToken))
    {
      RunPlanAppend(exec.oracle, exec.trace, EdgecoreRuntimePlan(node, kubeEdgeToken), EdgecoreHubPlan(node, controlPlaneIP));
      st := ConfigureEdgecoreRuntime(node);
      if st.Fail? {
        return;
      }
      st := ConfigureEdgecoreHub(node);
    }

    method ConfigureEdgecoreRuntime(node: Node) returns (st: Status)
      modifies exec
      ensures Outcome(exec.trace, st)
        == RunPlan(exec.oracle, old(exec.trace), EdgecoreRuntimePlan(node, kubeEdgeToken))
    {
      var token := kubeEdgeToken;
      var plan := EdgecoreRuntimePlan(node, token);
      RunPlanFromStart(exec.oracle, exec.trace, plan);
      st := exec.RunStep(On(node, EdgecoreDefaultConfig), plan, 0);
      if st.Fail? {
        return;
      }
      st := exec.RunStep(On(node, EdgecoreSet(Token, token)), plan, 1);
      if st.Fail? {
        return;
      }
      st := exec.RunStep(On(node, EdgecoreSet(RemoteImageEndpoint, ContainerdSocket)), plan, 2);
      if st.Fail? {
        return;
      }
      st := exec.RunStep(On(node, EdgecoreSet(RemoteRuntimeEndpoint, ContainerdSocket)), plan, 3);
      if st.Fail? {
        return;
      }
      st := exec.RunStep(On(node, EdgecoreSet(ContainerRuntime, "remote")), plan, 4);
    }

    method ConfigureEdgecoreHub(node: Node) returns (st: Status)
      modifies exec
      ensures Outcome(exec.trace, st)
        == RunPlan(exec.oracle, old(exec.trace), EdgecoreHubPlan(node, controlPlaneIP))
    {
      var ip := controlPlaneIP;
      var plan := EdgecoreHubPlan(node, ip);
      RunPlanFromStart(exec.oracle, exec.trace, plan);
      st := exec.RunStep(On(node, EdgecoreSet(HttpServer, HttpServerAddress(ip))), plan, 0);
      if st.Fail? {
        return;
      }
      st := exec.RunStep(On(node, EdgecoreSet(Server, ServerAddress(ip))), plan, 1);
      if st.Fail? {
        return;
      }
      st := exec.RunStep(On(node, SetMqttMode), plan, 2);
      if st.Fail? {
        return;
      }
      st := exec.RunStep(On(node, FixResolv), plan, 3);
      if st.Fail? {
        return;
      }
      st := exec.RunStep(On(node, StartEdgecoreService), plan, 4);
    }

    method RunStartEdgecoreWithKeadm(cp: Node, node: Node) returns (st: Status)
      modifies exec
      ensures Outcome(exec.trace, st)
        == RunPlan(exec.oracle, old(exec.trace), NodeBootstrapPlan(cp, node, controlPlaneIP, kubeEdgeToken, true))
    {
      ghost var h0 := exec.trace;
      ghost var stop := Wrapped(StopKubeletPlan(cp, node), "failed to stop kubelet");
      var plan := KeadmEdgecorePlan(node, controlPlaneIP, kubeEdgeToken);
      ghost var wait := WaitNodeReadyPlan(cp, node.name);
      RunPlanAppend(exec.oracle, h0, stop + plan, wait);
      RunPlanAppend(exec.oracle, h0, stop, plan);
      RunPlanWrapped(exec.oracle, h0, StopKubeletPlan(cp, node), "failed to stop kubelet");
      st := StopKubelet(cp, node);
      if st.Fail? {
        return WrapStatus(st, "failed to stop kubelet");
      }
      ghost var h1 := exec.trace;
      RunPlanAppend(exec.oracle, h1, plan, wait);
      RunPlanFromStart(exec.oracle, exec.trace, plan);
      st := exec.RunStep(plan[0], plan, 0);
      if st.Fail? {
        return;
      }
      st := exec.RunStep(On(node, KeadmJoin(controlPlaneIP, kubeEdgeToken)), plan, 1);
      if st.Fail? {
        return;
      }
      st := WaitNodeReady(cp, node.name);
    }

    method StopKubelet(cp: Node, node: Node) returns (st: Status)
      modifies exec
      ensures Outcome(exec.trace, st) == RunPlan(exec.oracle, old(exec.trace), StopKubeletPlan(cp, node))
    {
      var plan := StopKubeletPlan(cp, node);
      RunPlanFromStart(exec.oracle, exec.trace, plan);
      st := exec.RunStep(plan[0], plan, 0);
      if st.Fail? {
        return;
      }
      st := exec.RunStep(plan[1], plan, 1);
    }

    method WaitNodeReady(cp: Node, nodeName: string) returns (st: Status)
      modifies exec
      ensures Outcome(exec.trace, st) == RunPlan(exec.oracle, old(exec.trace), WaitNodeReadyPlan(cp, nodeName))
    {
      var plan := WaitNodeReadyPlan(cp, nodeName);
      RunPlanFromStart(exec.oracle, exec.trace, plan);
      st := exec.RunStep(plan[0], plan, 0);
      if st.Fail? {
        return;
      }
      st := exec.RunStep(plan[1], plan, 1);
    }
  }
}
