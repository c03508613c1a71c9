/**
 * The remote command executor the bootstrap code drives (`node.Command(...)`
 * run through `exec.CombinedOutputLines` or `exec.Output`). What a command
 * does on the node is not modelled: an oracle decides, from everything issued
 * so far, whether the command succeeds and what it prints. The executor keeps
 * the trace of issued commands.
 */
module Exec {
  import opened Commands
  import opened Errors

  /** Exit status zero or not, and the captured output. */
  datatype Reply = Reply(ok: bool, output: string)

  /** The reply to a command, given the commands issued before it. */
  type Oracle = (seq<Issued>, Issued) -> Reply

  /**
   * One step of a straight-line sequence: where it runs, what it runs, and
   * the labels callers put around its failure, outermost first (the command's
   * own `Label` is innermost).
   */
  datatype Step = Step(node: string, command: Command, context: seq<string>)

  function Cmd(s: Step): Issued
  {
    Issued(s.node, s.command)
  }

  /** The commands of a plan, in plan order. */
  function CommandsOf(plan: seq<Step>): (r: seq<Issued>)
    ensures |r| == |plan|
  {
    seq(|plan|, i requires 0 <= i < |plan| => Cmd(plan[i]))
  }

  /** The error reported when step `s` fails after printing `output`. */
  function StepError(s: Step, output: string): Error
  {
    Error(s.context, CommandFailed(Cmd(s), output))
  }

  /** A plan whose failures are reported with `prefix` put around them. */
  function Wrapped(plan: seq<Step>, prefix: string): (r: seq<Step>)
    ensures |r| == |plan|
  {
    seq(|plan|, i requires 0 <= i < |plan| => plan[i].(context := [prefix] + plan[i].context))
  }

  /** The trace after a run and what the run returned. */
  datatype Outcome = Outcome(trace: seq<Issued>, status: Status)

  /**
   * Run the steps in order from history `h`, the way each Go step does
   * `if err != nil { return ... }`: the first failing command is the last one
   * issued, and its error is the result.
   */
  function RunPlan(o: Oracle, h: seq<Issued>, plan: seq<Step>): Outcome
    decreases |plan|
  {
    if plan == [] then Outcome(h, Ok)
    else
      var reply := o(h, Cmd(plan[0]));
      if !reply.ok then Outcome(h + [Cmd(plan[0])], Fail(StepError(plan[0], reply.output)))
    else RunPlan(o, h + [Cmd(plan[0])], plan[1..])
  }

  /**
   * Reference definition: how many of `cmds` succeed in a row when issued one
   * after another from history `h` (|cmds| when all of them do).
   */
  function FirstFailure(o: Oracle, h: seq<Issued>, cmds: seq<Issued>): (n: nat)
    ensures n <= |cmds|
    decreases |cmds|
  {
    if cmds == [] || !o(h, cmds[0]).ok then 0
    else 1 + FirstFailure(o, h + [cmds[0]], cmds[1..])
  }

  /** `FirstFailure` counts exactly the leading run of successes. */
  lemma {:induction false} FirstFailureSpec(o: Oracle, h: seq<Issued>, cmds: seq<Issued>)
    ensures var n := FirstFailure(o, h, cmds);
      && (forall i :: 0 <= i < n ==> o(h + cmds[..i], cmds[i]).ok)
      && (n < |cmds| ==> !o(h + cmds[..n], cmds[n]).ok)
    decreases |cmds|
  {
    var n := FirstFailure(o, h, cmds);
    if cmds != [] && o(h, cmds[0]).ok {
      var h', rest := h + [cmds[0]], cmds[1..];
      FirstFailureSpec(o, h', rest);
      forall i | 0 <= i < n
        ensures o(h + cmds[..i], cmds[i]).ok
      {
        if i > 0 {
          assert h + cmds[..i] == h' + rest[..i - 1];
        } else {
          assert h + cmds[..0] == h;
        }
      }
      if n < |cmds| {
        assert h + cmds[..n] == h' + rest[..n - 1];
      }
    } else if cmds != [] {
      assert h + cmds[..0] == h;
    }
  }

  /** Moving the head of a sequence onto the history keeps the prefix. */
  lemma ConsPrefix<T>(h: seq<T>, c: T, rest: seq<T>, k: nat)
    requires k <= |rest|
    ensures (h + [c]) + rest[..k] == h + ([c] + rest)[..k + 1]
  {
    assert ([c] + rest)[..k + 1] == [c] + rest[..k];
  }

  /** When every command succeeds, the run issues the whole plan and succeeds. */
  lemma {:induction false} RunPlanAllSucceed(o: Oracle, h: seq<Issued>, plan: seq<Step>)
    requires FirstFailure(o, h, CommandsOf(plan)) == |plan|
    ensures RunPlan(o, h, plan) == Outcome(h + CommandsOf(plan), Ok)
    decreases |plan|
  {
    if plan != [] {
      var cmds := CommandsOf(plan);
      var c := Cmd(plan[0]);
      var tail := plan[1..];
      assert cmds[0] == c;
      assert cmds[1..] == CommandsOf(tail);
      RunPlanAllSucceed(o, h + [c], tail);
      assert (h + [c]) + CommandsOf(tail) == h + cmds;
    }
  }

  /**
   * When the n-th command is the first to fail, the run issues the commands
   * up to and including it, no later one, and reports that step's error.
   */
  lemma {:induction false} RunPlanStopsAtFailure(o: Oracle, h: seq<Issued>, plan: seq<Step>)
    requires FirstFailure(o, h, CommandsOf(plan)) < |plan|
    ensures var n := FirstFailure(o, h, CommandsOf(plan));
      RunPlan(o, h, plan) == Outcome(h + CommandsOf(plan)[..n + 1],
        Fail(StepError(plan[n], o(h + CommandsOf(plan)[..n], Cmd(plan[n])).output)))
    decreases |plan|
  {
    var cmds := CommandsOf(plan);
    var c := Cmd(plan[0]);
    var tail := plan[1..];
    assert cmds == [c] + CommandsOf(tail);
    if o(h, c).ok {
      var m := FirstFailure(o, h + [c], CommandsOf(tail));
      RunPlanStopsAtFailure(o, h + [c], tail);
      assert tail[m] == plan[m + 1];
      ConsPrefix(h, c, CommandsOf(tail), m);
      ConsPrefix(h, c, CommandsOf(tail), m + 1);
    } else {
      assert cmds[..1] == [c];
      assert h + cmds[..0] == h;
    }
  }

  /**
   * Abort on first failure: a run issues the commands of the plan up to and
   * including the first one that fails, no later one, and reports that step's
   * error; when none fails it issues them all and succeeds.
   */
  lemma RunPlanAbortsAtFirstFailure(o: Oracle, h: seq<Issued>, plan: seq<Step>)
    ensures var n := FirstFailure(o, h, CommandsOf(plan));
      RunPlan(o, h, plan) ==
        if n == |plan| then Outcome(h + CommandsOf(plan), Ok)
        else Outcome(h + CommandsOf(plan)[..n + 1],
          Fail(StepError(plan[n], o(h + CommandsOf(plan)[..n], Cmd(plan[n])).output)))
  {
    if FirstFailure(o, h, CommandsOf(plan)) == |plan| {
      RunPlanAllSucceed(o, h, plan);
    } else {
      RunPlanStopsAtFailure(o, h, plan);
    }
  }

  /** A successful run issued every command of the plan and nothing else. */
  lemma RunPlanOk(o: Oracle, h: seq<Issued>, plan: seq<Step>)
    requires RunPlan(o, h, plan).status.Ok?
    ensures RunPlan(o, h, plan).trace == h + CommandsOf(plan)
  {
    RunPlanAbortsAtFirstFailure(o, h, plan);
  }

  /**
   * A run only extends the history, by a prefix of the plan's commands, and
   * issues at least one command of a non-empty plan.
   */
  lemma RunPlanExtends(o: Oracle, h: seq<Issued>, plan: seq<Step>)
    ensures var t := RunPlan(o, h, plan).trace;
      && |h| <= |t| <= |h| + |plan|
      && t == h + CommandsOf(plan)[..|t| - |h|]
      && (plan != [] ==> |t| > |h|)
  {
    RunPlanAbortsAtFirstFailure(o, h, plan);
    var n := FirstFailure(o, h, CommandsOf(plan));
    if n == |plan| {
      assert CommandsOf(plan)[..|plan|] == CommandsOf(plan);
    }
  }

  /** Running `p + q` is running `p` and, only if it succeeded, then `q`. */
  lemma {:induction false} RunPlanAppend(o: Oracle, h: seq<Issued>, p: seq<Step>, q: seq<Step>)
    ensures RunPlan(o, h, p + q) ==
      var r := RunPlan(o, h, p);
      if r.status.Fail? then r else RunPlan(o, r.trace, q)
    decreases |p|
  {
    if p != [] {
      assert (p + q)[0] == p[0] && (p + q)[1..] == p[1..] + q;
      if o(h, Cmd(p[0])).ok {
        RunPlanAppend(o, h + [Cmd(p[0])], p[1..], q);
      }
    } else {
      assert p + q == q;
    }
  }

  /** A wrapped plan issues the same commands and reports the wrapped error. */
  lemma {:induction false} RunPlanWrapped(o: Oracle, h: seq<Issued>, plan: seq<Step>, prefix: string)
    ensures RunPlan(o, h, Wrapped(plan, prefix)) ==
      var r := RunPlan(o, h, plan);
      Outcome(r.trace, WrapStatus(r.status, prefix))
    decreases |plan|
  {
    var w := Wrapped(plan, prefix);
    if plan != [] {
      assert Wrapped(plan, prefix)[1..] == Wrapped(plan[1..], prefix);
      RunPlanWrapped(o, h + [Cmd(plan[0])], plan[1..], prefix);
    }
  }

  /**
   * `RunPlan` on the steps of `plan` from index `k` on, in the form the
   * step-by-step methods follow: one step is one unfolding.
   */
  function RunFrom(o: Oracle, h: seq<Issued>, plan: seq<Step>, k: nat): Outcome
    decreases |plan| - k
  {
    if k >= |plan| then Outcome(h, Ok)
    else
      var reply := o(h, Cmd(plan[k]));
      if !reply.ok then Outcome(h + [Cmd(plan[k])], Fail(StepError(plan[k], reply.output)))
      else RunFrom(o, h + [Cmd(plan[k])], plan, k + 1)
  }

  lemma {:induction false} RunFromIsRunPlan(o: Oracle, h: seq<Issued>, plan: seq<Step>, k: nat)
    requires k <= |plan|
    ensures RunFrom(o, h, plan, k) == RunPlan(o, h, plan[k..])
    decreases |plan| - k
  {
    if k < |plan| {
      assert plan[k..][0] == plan[k];
      assert plan[k..][1..] == plan[k + 1..];
      RunFromIsRunPlan(o, h + [Cmd(plan[k])], plan, k + 1);
    }
  }

  /** Running a whole plan is running it from its first step. */
  lemma RunPlanFromStart(o: Oracle, h: seq<Issued>, plan: seq<Step>)
    ensures RunPlan(o, h, plan) == RunFrom(o, h, plan, 0)
  {
    assert plan[0..] == plan;
    RunFromIsRunPlan(o, h, plan, 0);
  }

  /** The executor: runs one command at a time and keeps the trace. */
  class Executor {
    const oracle: Oracle
    var trace: seq<Issued>

    constructor (oracle: Oracle)
      ensures this.oracle == oracle && trace == []
    {
      this.oracle := oracle;
      trace := [];
    }

    /** Run `command` on `node`: the command joins the trace, the oracle gives the reply. */
    method Run(node: string, command: Command) returns (r: Reply)
      modifies this
      ensures trace == old(trace) + [Issued(node, command)]
      ensures r == oracle(old(trace), Issued(node, command))
    {
      r := oracle(trace, Issued(node, command));
      trace := trace + [Issued(node, command)];
    }

    /**
     * One Go step: run the command, and on a non-zero exit return the error
     * labelled as the step says. `s` is step `k` of the caller's `plan`; the
     * ensures says what is left of the plan to run.
     */
    method RunStep(s: Step, ghost plan: seq<Step>, ghost k: nat) returns (st: Status)
      requires k < |plan| && plan[k] == s
      modifies this
      ensures st.Ok? ==> RunFrom(oracle, old(trace), plan, k) == RunFrom(oracle, trace, plan, k + 1)
      ensures st.Fail? ==> RunFrom(oracle, old(trace), plan, k) == Outcome(trace, st)
    {
      var r := Run(s.node, s.command);
      if !r.ok {
        return Fail(StepError(s, r.output));
      }
      return Ok;
    }
  }
}
