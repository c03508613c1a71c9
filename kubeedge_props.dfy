/**
 * What the KubeEdge bootstrap action promises, stated over the specification
 * functions of module KubeEdge (which the class `Action` is proved to follow):
 * phase order and early abort, which commands each phase may issue, token
 * validation, the address choice and the per-node bootstraps.
 */
module KubeEdgeProperties {
  import opened Commands
  import opened Errors
  import opened Exec
  import opened KubeEdgePlans
  import opened KubeEdge

  // ---- helpers about runs ----

  /** The first command a run issues is the plan's first one. */
  lemma RunPlanFirst(o: Oracle, h: seq<Issued>, plan: seq<Step>)
    requires plan != []
    ensures var t := RunPlan(o, h, plan).trace;
      |t| > |h| && t[..|h|] == h && t[|h|] == Cmd(plan[0])
  {
    RunPlanExtends(o, h, plan);
  }

  /** `x` issued after position `k` of `t` is also issued after any earlier position. */
  lemma IssuedAfter(t: seq<Issued>, k: nat, j: nat, x: Issued)
    requires j <= k <= |t| && x in t[k..]
    ensures x in t[j..]
  {
    var i :| k <= i < |t| && t[i] == x;
    assert t[j..][i - j] == x;
  }

  // ---- preProcess ----

  /**
   * Without a control plane nothing is issued; with one, the wait for
   * `node/<cluster>-control-plane` comes first, the kube-proxy patch is issued
   * iff that wait succeeded, and the phase succeeds iff both commands do.
   */
  lemma PreProcessPatchOnlyAfterWait(o: Oracle, ctx: Context, h: seq<Issued>)
    ensures ctx.controlPlane.None? ==> PreProcessSpec(o, ctx, h) == Outcome(h, Fail(ControlPlaneLookupError))
    ensures ctx.controlPlane.Some? ==>
      var cp := ctx.controlPlane.value;
      var wait := Issued(cp.name, WaitControlPlane(ctx.clusterName));
      var patch := Issued(cp.name, PatchKubeProxy);
      var r := PreProcessSpec(o, ctx, h);
      && r.trace == (if o(h, wait).ok then h + [wait, patch] else h + [wait])
      && (r.status.Ok? <==> o(h, wait).ok && o(h + [wait], patch).ok)
  {
    if ctx.controlPlane.Some? {
      var cp := ctx.controlPlane.value;
      var plan := PreProcessPlan(cp, ctx.clusterName);
      var wait, patch := Cmd(plan[0]), Cmd(plan[1]);
      assert plan[1..] == [plan[1]] && plan[1..][1..] == [];
      assert RunPlan(o, h + [wait], plan[1..]) ==
        if o(h + [wait], patch).ok then Outcome(h + [wait] + [patch], Ok)
        else Outcome(h + [wait] + [patch], Fail(StepError(plan[1], o(h + [wait], patch).output)));
      assert h + [wait] + [patch] == h + [wait, patch];
    }
  }

  // ---- cloudcore ----

  /**
   * `getToken` issues exactly the secret read; it succeeds iff the read exits
   * zero and prints something, and then the token is exactly what it printed;
   * otherwise neither package variable changes. The address never changes.
   */
  lemma GetTokenValidates(o: Oracle, h: seq<Issued>, cp: Node, g: Globals)
    ensures var read := Issued(cp.name, ReadToken);
      var reply := o(h, read);
      var r := GetTokenSpec(o, h, cp, g);
      && r.trace == h + [read]
      && (r.status.Ok? <==> reply.ok && reply.output != "")
      && (r.status.Ok? ==> r.globals == g.(token := reply.output))
      && (r.status.Fail? ==> r.globals == g)
      && (reply.ok && reply.output == "" ==> r.status == Fail(Message("tokensecret cannot be empty")))
  {
  }

  /** The commands of the chosen cloudcore path followed by the token read. */
  function CloudCommands(cp: Node, advertiseAddress: string, containerMode: bool): seq<Issued>
  {
    CommandsOf(CloudPlan(cp, advertiseAddress, containerMode)) + [Issued(cp.name, ReadToken)]
  }

  /**
   * Exactly one cloudcore path runs: the new part of the trace is a non-empty
   * prefix of the selected path's commands followed by the token read, all of
   * them on success; the address is never touched.
   */
  lemma CloudCoreRunsOnePath(o: Oracle, ctx: Context, advertiseAddress: string, containerMode: bool,
                             h: seq<Issued>, g: Globals)
    requires ctx.controlPlane.Some?
    ensures var cmds := CloudCommands(ctx.controlPlane.value, advertiseAddress, containerMode);
      var r := CloudCoreSpec(o, ctx, advertiseAddress, containerMode, h, g);
      && |h| < |r.trace| <= |h| + |cmds|
      && r.trace == h + cmds[..|r.trace| - |h|]
      && (r.status.Ok? ==> r.trace == h + cmds)
      && r.globals.controlPlaneIP == g.controlPlaneIP
  {
    var cp := ctx.controlPlane.value;
    var plan := CloudPlan(cp, advertiseAddress, containerMode);
    var cmds := CloudCommands(cp, advertiseAddress, containerMode);
    var p := RunPlan(o, h, plan);
    RunPlanExtends(o, h, plan);
    var n := |p.trace| - |h|;
    assert cmds[..n] == CommandsOf(plan)[..n];
    if p.status.Ok? {
      RunPlanOk(o, h, plan);
      assert cmds[..|plan| + 1] == cmds;
    }
  }

  /**
   * The cloudcore phase succeeds iff its path and the token read succeed and
   * the read printed something; the token is then exactly that output, so it
   * is non-empty whenever the edge phase gets to run.
   */
  lemma CloudCoreOkSetsToken(o: Oracle, ctx: Context, advertiseAddress: string, containerMode: bool,
                             h: seq<Issued>, g: Globals)
    requires ctx.controlPlane.Some?
    ensures var cp := ctx.controlPlane.value;
      var p := RunPlan(o, h, CloudPlan(cp, advertiseAddress, containerMode));
      var reply := o(p.trace, Issued(cp.name, ReadToken));
      var r := CloudCoreSpec(o, ctx, advertiseAddress, containerMode, h, g);
      && (r.status.Ok? <==> p.status.Ok? && reply.ok && reply.output != "")
      && (r.status.Ok? ==> r.globals.token == reply.output && r.globals.token != "")
      && (r.status.Fail? ==> r.globals == g)
  {
    var cp := ctx.controlPlane.value;
    var p := RunPlan(o, h, CloudPlan(cp, advertiseAddress, containerMode));
    if p.status.Ok? {
      GetTokenValidates(o, p.trace, cp, g);
    }
  }

  // ---- edge nodes ----

  /** The commands of all node bootstraps, node after node. */
  function JoinCommands(cp: Node, nodes: seq<Node>, ip: string, token: string, containerMode: bool): seq<Issued>
    decreases |nodes|
  {
    if nodes == [] then [] else
      CommandsOf(NodeBootstrapPlan(cp, nodes[0], ip, token, containerMode))
        + JoinCommands(cp, nodes[1..], ip, token, containerMode)
  }

  /** Joining only extends the history. */
  lemma {:induction false} JoinExtends(o: Oracle, h: seq<Issued>, cp: Node, nodes: seq<Node>, ip: string,
                                       token: string, containerMode: bool)
    ensures var t := JoinSpec(o, h, cp, nodes, ip, token, containerMode).trace;
      |h| <= |t| && t[..|h|] == h
    decreases |nodes|
  {
    if nodes != [] {
      var plan := NodeBootstrapPlan(cp, nodes[0], ip, token, containerMode);
      var r := RunPlan(o, h, plan);
      RunPlanExtends(o, h, plan);
      JoinExtends(o, r.trace, cp, nodes[1..], ip, token, containerMode);
      var t := JoinSpec(o, h, cp, nodes, ip, token, containerMode).trace;
      assert t[..|r.trace|] == r.trace;
      assert t[..|h|] == t[..|r.trace|][..|h|];
    }
  }

  /**
   * Every edge node is attempted, whatever happened to the nodes before it:
   * the kubelet stop on each of them is issued after the history.
   */
  lemma {:induction false} JoinAttemptsEveryNode(o: Oracle, h: seq<Issued>, cp: Node, nodes: seq<Node>,
                                                 ip: string, token: string, containerMode: bool)
    ensures var t := JoinSpec(o, h, cp, nodes, ip, token, containerMode).trace;
      |h| <= |t| && forall i :: 0 <= i < |nodes| ==> Issued(nodes[i].name, StopKubeletService) in t[|h|..]
    decreases |nodes|
  {
    JoinExtends(o, h, cp, nodes, ip, token, containerMode);
    if nodes != [] {
      var plan := NodeBootstrapPlan(cp, nodes[0], ip, token, containerMode);
      var r := RunPlan(o, h, plan);
      var t := JoinSpec(o, h, cp, nodes, ip, token, containerMode).trace;
      NodeBootstrapShape(cp, nodes[0], ip, token, containerMode);
      RunPlanFirst(o, h, plan);
      JoinExtends(o, r.trace, cp, nodes[1..], ip, token, containerMode);
      JoinAttemptsEveryNode(o, r.trace, cp, nodes[1..], ip, token, containerMode);
      assert t[..|r.trace|] == r.trace;
      assert t[|h|..][0] == Issued(nodes[0].name, StopKubeletService);
      forall i | 0 < i < |nodes|
        ensures Issued(nodes[i].name, StopKubeletService) in t[|h|..]
      {
        assert nodes[1..][i - 1] == nodes[i];
        IssuedAfter(t, |r.trace|, |h|, Issued(nodes[i].name, StopKubeletService));
      }
    }
  }

  /**
   * When the join succeeds, exactly one bootstrap ran per edge node, in list
   * order, each issuing its whole plan (the keadm variant iff container mode).
   */
  lemma {:induction false} JoinOk(o: Oracle, h: seq<Issued>, cp: Node, nodes: seq<Node>, ip: string,
                                  token: string, containerMode: bool)
    requires JoinSpec(o, h, cp, nodes, ip, token, containerMode).status.Ok?
    ensures JoinSpec(o, h, cp, nodes, ip, token, containerMode).trace
      == h + JoinCommands(cp, nodes, ip, token, containerMode)
    decreases |nodes|
  {
    if nodes != [] {
      var plan := NodeBootstrapPlan(cp, nodes[0], ip, token, containerMode);
      var r := RunPlan(o, h, plan);
      var rest := JoinSpec(o, r.trace, cp, nodes[1..], ip, token, containerMode);
      assert r.status.Ok? && rest.status.Ok?;
      JoinOk(o, r.trace, cp, nodes[1..], ip, token, containerMode);
      PlanThenRest(o, h, plan, rest.trace, JoinCommands(cp, nodes[1..], ip, token, containerMode));
    }
  }

  /**
   * Node `k`'s bootstrap within the join: its plan run from the trace the
   * join of the nodes before it left.
   */
  function NodeRun(o: Oracle, h: seq<Issued>, cp: Node, nodes: seq<Node>, ip: string, token: string,
                   containerMode: bool, k: nat): Outcome
    requires k < |nodes|
  {
    RunPlan(o, JoinSpec(o, h, cp, nodes[..k], ip, token, containerMode).trace,
            NodeBootstrapPlan(cp, nodes[k], ip, token, containerMode))
  }

  /** Joining one more node runs its bootstrap after the others; the first failure stays the result. */
  lemma {:induction false} JoinOneMore(o: Oracle, h: seq<Issued>, cp: Node, nodes: seq<Node>, node: Node,
                                       ip: string, token: string, containerMode: bool)
    ensures var j := JoinSpec(o, h, cp, nodes, ip, token, containerMode);
      var r := RunPlan(o, j.trace, NodeBootstrapPlan(cp, node, ip, token, containerMode));
      JoinSpec(o, h, cp, nodes + [node], ip, token, containerMode)
        == Outcome(r.trace, if j.status.Fail? then j.status else r.status)
    decreases |nodes|
  {
    var all := nodes + [node];
    if nodes == [] {
      assert all[1..] == [];
    } else {
      assert all[0] == nodes[0] && all[1..] == nodes[1..] + [node];
      var first := RunPlan(o, h, NodeBootstrapPlan(cp, nodes[0], ip, token, containerMode));
      JoinOneMore(o, first.trace, cp, nodes[1..], node, ip, token, containerMode);
    }
  }

  /** The join of the first `k + 1` nodes ends where node `k`'s run ends, with the first failure so far. */
  lemma JoinPrefixStep(o: Oracle, h: seq<Issued>, cp: Node, nodes: seq<Node>, ip: string, token: string,
                       containerMode: bool, k: nat)
    requires k < |nodes|
    ensures var j := JoinSpec(o, h, cp, nodes[..k], ip, token, containerMode);
      var r := NodeRun(o, h, cp, nodes, ip, token, containerMode, k);
      JoinSpec(o, h, cp, nodes[..k + 1], ip, token, containerMode)
        == Outcome(r.trace, if j.status.Fail? then j.status else r.status)
  {
    assert nodes[..k + 1] == nodes[..k] + [nodes[k]];
    JoinOneMore(o, h, cp, nodes[..k], nodes[k], ip, token, containerMode);
  }

  /**
   * The join of the first `n` nodes fails iff some node among them fails its
   * bootstrap, and then with the error of the first such node.
   */
  lemma {:induction false} JoinPrefixFailure(o: Oracle, h: seq<Issued>, cp: Node, nodes: seq<Node>, ip: string,
                                             token: string, containerMode: bool, n: nat)
    requires n <= |nodes|
    ensures var st := JoinSpec(o, h, cp, nodes[..n], ip, token, containerMode).status;
      && (st.Fail? <==> exists k :: 0 <= k < n && NodeRun(o, h, cp, nodes, ip, token, containerMode, k).status.Fail?)
      && (st.Fail? ==> exists k :: (0 <= k < n && st == NodeRun(o, h, cp, nodes, ip, token, containerMode, k).status
            && forall i :: 0 <= i < k ==> NodeRun(o, h, cp, nodes, ip, token, containerMode, i).status.Ok?))
    decreases n
  {
    if n == 0 {
      assert nodes[..0] == [];
    } else {
      var k := n - 1;
      JoinPrefixFailure(o, h, cp, nodes, ip, token, containerMode, k);
      JoinPrefixStep(o, h, cp, nodes, ip, token, containerMode, k);
    }
  }

  /**
   * The join fails iff some edge node's bootstrap fails, and it returns the
   * error of the first failing node in list order; each node ran its whole
   * bootstrap up to its own first failure.
   */
  lemma JoinFailsAtFirstFailedNode(o: Oracle, h: seq<Issued>, cp: Node, nodes: seq<Node>, ip: string,
                                   token: string, containerMode: bool)
    ensures var st := JoinSpec(o, h, cp, nodes, ip, token, containerMode).status;
      && (st.Fail? <==> exists k :: 0 <= k < |nodes| && NodeRun(o, h, cp, nodes, ip, token, containerMode, k).status.Fail?)
      && (st.Fail? ==> exists k :: (0 <= k < |nodes| && st == NodeRun(o, h, cp, nodes, ip, token, containerMode, k).status
            && forall i :: 0 <= i < k ==> NodeRun(o, h, cp, nodes, ip, token, containerMode, i).status.Ok?))
  {
    assert nodes[..|nodes|] == nodes;
    JoinPrefixFailure(o, h, cp, nodes, ip, token, containerMode, |nodes|);
  }

  /**
   * The join's trace is the node runs one after the other: the first starts
   * from the history, each next one from where the one before ended, and the
   * join ends where the last one ends.
   */
  lemma JoinTraceIsEveryNodeRun(o: Oracle, h: seq<Issued>, cp: Node, nodes: seq<Node>, ip: string,
                                token: string, containerMode: bool)
    ensures nodes == [] ==> JoinSpec(o, h, cp, nodes, ip, token, containerMode).trace == h
    ensures nodes != [] ==> NodeRun(o, h, cp, nodes, ip, token, containerMode, 0)
                            == RunPlan(o, h, NodeBootstrapPlan(cp, nodes[0], ip, token, containerMode))
    ensures forall k :: 0 < k < |nodes| ==>
      NodeRun(o, h, cp, nodes, ip, token, containerMode, k)
        == RunPlan(o, NodeRun(o, h, cp, nodes, ip, token, containerMode, k - 1).trace,
                   NodeBootstrapPlan(cp, nodes[k], ip, token, containerMode))
    ensures nodes != [] ==> JoinSpec(o, h, cp, nodes, ip, token, containerMode).trace
                            == NodeRun(o, h, cp, nodes, ip, token, containerMode, |nodes| - 1).trace
  {
    assert nodes[..0] == [];
    forall k | 0 < k < |nodes|
      ensures NodeRun(o, h, cp, nodes, ip, token, containerMode, k)
        == RunPlan(o, NodeRun(o, h, cp, nodes, ip, token, containerMode, k - 1).trace,
                   NodeBootstrapPlan(cp, nodes[k], ip, token, containerMode))
    {
      JoinPrefixStep(o, h, cp, nodes, ip, token, containerMode, k - 1);
    }
    if nodes != [] {
      JoinPrefixStep(o, h, cp, nodes, ip, token, containerMode, |nodes| - 1);
      assert nodes[..|nodes|] == nodes;
    }
  }

  /** A plan that succeeds, followed by whatever came after it. */
  lemma PlanThenRest(o: Oracle, h: seq<Issued>, plan: seq<Step>, t: seq<Issued>, after: seq<Issued>)
    requires RunPlan(o, h, plan).status.Ok? && t == RunPlan(o, h, plan).trace + after
    ensures t == h + (CommandsOf(plan) + after)
  {
    RunPlanOk(o, h, plan);
  }

  /**
   * A failure to stop the kubelet ends the node's bootstrap before any
   * configuration or join command: only the two stop commands can have been
   * issued, and the error is labelled "failed to stop kubelet".
   */
  lemma StopKubeletFailureAborts(o: Oracle, h: seq<Issued>, cp: Node, node: Node, ip: string, token: string,
                                 containerMode: bool)
    requires RunPlan(o, h, StopKubeletPlan(cp, node)).status.Fail?
    ensures var s := RunPlan(o, h, StopKubeletPlan(cp, node));
      var r := RunPlan(o, h, NodeBootstrapPlan(cp, node, ip, token, containerMode));
      && r.trace == s.trace
      && |h| < |r.trace| <= |h| + 2
      && r.trace == h + [Issued(node.name, StopKubeletService), Issued(cp.name, DeleteNode(node.name))][..|r.trace| - |h|]
      && r.status == WrapStatus(s.status, "failed to stop kubelet")
  {
    var stop := StopKubeletPlan(cp, node);
    var w := Wrapped(stop, "failed to stop kubelet");
    var middle := ConfigurePlan(node, ip, token, containerMode);
    var wait := WaitNodeReadyPlan(cp, node.name);
    RunPlanAppend(o, h, w + middle, wait);
    RunPlanAppend(o, h, w, middle);
    RunPlanWrapped(o, h, stop, "failed to stop kubelet");
    RunPlanExtends(o, h, stop);
    assert CommandsOf(stop) == [Issued(node.name, StopKubeletService), Issued(cp.name, DeleteNode(node.name))];
  }

  /**
   * A node bootstrap that succeeds issued its whole plan: the kubelet stop on
   * the node first, the wait for the node to be Ready on the control plane
   * last.
   */
  lemma NodeBootstrapOk(o: Oracle, h: seq<Issued>, cp: Node, node: Node, ip: string, token: string,
                        containerMode: bool)
    requires RunPlan(o, h, NodeBootstrapPlan(cp, node, ip, token, containerMode)).status.Ok?
    ensures var t := RunPlan(o, h, NodeBootstrapPlan(cp, node, ip, token, containerMode)).trace;
      && |t| >= |h| + 4
      && t[|h|] == Issued(node.name, StopKubeletService)
      && t[|t| - 1] == Issued(cp.name, WaitReady(node.name))
  {
    var plan := NodeBootstrapPlan(cp, node, ip, token, containerMode);
    NodeBootstrapShape(cp, node, ip, token, containerMode);
    RunPlanOk(o, h, plan);
    assert plan[|plan| - 1] == WaitNodeReadyPlan(cp, node.name)[1];
  }

  /**
   * `BootstrapEdgecore` sets the address to the advertise address when one
   * is given and to the control plane's IP otherwise, before it lists the
   * nodes; with no edge node it succeeds without issuing anything.
   */
  lemma EdgecoreAddressAndNoNodes(o: Oracle, ctx: Context, advertiseAddress: string, containerMode: bool,
                                  h: seq<Issued>, g: Globals)
    requires ctx.controlPlane.Some?
    ensures var r := EdgecoreSpec(o, ctx, advertiseAddress, containerMode, h, g);
      && r.globals.controlPlaneIP == (if advertiseAddress != "" then advertiseAddress else ctx.controlPlane.value.ip)
      && r.globals.token == g.token
      && (ctx.edgeNodes == Some([]) ==> r.status == Ok && r.trace == h)
  {
  }

  // ---- Execute ----

  /**
   * The three phases run in order and the first that fails ends the run: a
   * failed pre-processing issues nothing of the later phases and is reported
   * as "failed do pre process", a failed cloudcore phase issues nothing of
   * the edge phase; the run succeeds iff every phase does.
   */
  lemma ExecuteStopsAtFirstFailedPhase(o: Oracle, ctx: Context, advertiseAddress: string, containerMode: bool,
                                       h: seq<Issued>, g: Globals)
    ensures var p := PreProcessSpec(o, ctx, h);
      var c := CloudCoreSpec(o, ctx, advertiseAddress, containerMode, p.trace, g);
      var e := EdgecoreSpec(o, ctx, advertiseAddress, containerMode, c.trace, c.globals);
      var r := ExecuteSpec(o, ctx, advertiseAddress, containerMode, h, g);
      && (p.status.Fail? ==>
            r.trace == p.trace && r.globals == g && r.status.Fail? && r.status.error.context[0] == "failed do pre process")
      && (p.status.Ok? && c.status.Fail? ==> r.trace == c.trace && r.status == c.status)
      && (r.status.Ok? <==> p.status.Ok? && c.status.Ok? && e.status.Ok?)
  {
  }

  /**
   * A run that succeeds issued, after the history: the control-plane wait
   * and kube-proxy patch, the selected cloudcore path, the token read, and
   * one whole bootstrap per edge node in list order; the address is the
   * chosen one and the token is the non-empty output of the read.
   */
  lemma ExecuteOk(o: Oracle, ctx: Context, advertiseAddress: string, containerMode: bool,
                  h: seq<Issued>, g: Globals)
    requires ExecuteSpec(o, ctx, advertiseAddress, containerMode, h, g).status.Ok?
    ensures ctx.controlPlane.Some? && ctx.edgeNodes.Some?
    ensures var cp, nodes := ctx.controlPlane.value, ctx.edgeNodes.value;
      var r := ExecuteSpec(o, ctx, advertiseAddress, containerMode, h, g);
      && r.globals.controlPlaneIP == ChosenIP(advertiseAddress, cp)
      && r.globals.token != ""
      && r.trace == h + CommandsOf(PreProcessPlan(cp, ctx.clusterName))
                      + CloudCommands(cp, advertiseAddress, containerMode)
                      + JoinCommands(cp, nodes, r.globals.controlPlaneIP, r.globals.token, containerMode)
  {
    var cp := ctx.controlPlane.value;
    var p := PreProcessSpec(o, ctx, h);
    RunPlanOk(o, h, PreProcessPlan(cp, ctx.clusterName));
    var c := CloudCoreSpec(o, ctx, advertiseAddress, containerMode, p.trace, g);
    CloudCoreRunsOnePath(o, ctx, advertiseAddress, containerMode, p.trace, g);
    CloudCoreOkSetsToken(o, ctx, advertiseAddress, containerMode, p.trace, g);
    var nodes := ctx.edgeNodes.value;
    var ip := ChosenIP(advertiseAddress, cp);
    if |nodes| > 0 {
      JoinOk(o, c.trace, cp, nodes, ip, c.globals.token, containerMode);
    }
  }

  /**
   * Once the pre-processing and cloudcore phases succeeded, the action fails
   * iff some edge node's bootstrap fails, with the first failing node's
   * error, and its trace ends where the last node's bootstrap ends.
   */
  lemma ExecuteFailsAtFirstFailedNode(o: Oracle, ctx: Context, advertiseAddress: string, containerMode: bool,
                                      h: seq<Issued>, g: Globals)
    requires ctx.controlPlane.Some? && ctx.edgeNodes.Some?
    ensures var cp, nodes := ctx.controlPlane.value, ctx.edgeNodes.value;
      var p := PreProcessSpec(o, ctx, h);
      var c := CloudCoreSpec(o, ctx, advertiseAddress, containerMode, p.trace, g);
      var ip := ChosenIP(advertiseAddress, cp);
      var r := ExecuteSpec(o, ctx, advertiseAddress, containerMode, h, g);
      p.status.Ok? && c.status.Ok? ==>
        && (r.status.Fail? <==> exists k :: (0 <= k < |nodes|
              && NodeRun(o, c.trace, cp, nodes, ip, c.globals.token, containerMode, k).status.Fail?))
        && (r.status.Fail? ==> exists k :: (0 <= k < |nodes|
              && r.status == NodeRun(o, c.trace, cp, nodes, ip, c.globals.token, containerMode, k).status
              && forall i :: 0 <= i < k ==> NodeRun(o, c.trace, cp, nodes, ip, c.globals.token, containerMode, i).status.Ok?))
        && (nodes != [] ==> r.trace == NodeRun(o, c.trace, cp, nodes, ip, c.globals.token, containerMode, |nodes| - 1).trace)
  {
    var cp, nodes := ctx.controlPlane.value, ctx.edgeNodes.value;
    var p := PreProcessSpec(o, ctx, h);
    var c := CloudCoreSpec(o, ctx, advertiseAddress, containerMode, p.trace, g);
    var ip := ChosenIP(advertiseAddress, cp);
    JoinFailsAtFirstFailedNode(o, c.trace, cp, nodes, ip, c.globals.token, containerMode);
    JoinTraceIsEveryNodeRun(o, c.trace, cp, nodes, ip, c.globals.token, containerMode);
  }
}
