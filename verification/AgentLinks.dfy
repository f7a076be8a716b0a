/**
 The executors meet what the agent's step machine takes an execution to return.
 */
module AgentLinks {
  import opened Types
  import opened Chains
  import opened ChainLaws
  import Agent
  import Continuous
  import Rpc
  import SelfUpgrade
  import Shell
  import SidecarPoll

  /** A token that stays set, and shell executions that are runs of the shell executor under it. */
  ghost predicate ShellHost<S(!new)>(env: Env<S>) {
    && (forall t: nat, t': nat :: t <= t' && env.cancelled(t) ==> env.cancelled(t'))
    && (forall t: nat, task, creds, s ::
          ShellRun(env.run(t, ShellCall(task, creds), s).0, task.timeoutMs, env.cancelled(t + 1)))
  }

  ghost predicate ShellRun(report: Report, timeoutMs: nat, token: bool) {
    exists run, durationMs: nat, clock: nat, texts ::
      && Shell.Possible(run, token, durationMs, timeoutMs)
      && report == Shell.ReportOf(run, timeoutMs, durationMs, clock, texts)
  }

  /** The chain laws' assumption on the token is what the shell executor guarantees. */
  lemma ShellHostIsHonest<S(!new)>(env: Env<S>)
    requires ShellHost(env)
    ensures TokenIsHonest(env)
  {
    forall t: nat, task, creds, s | env.run(t, ShellCall(task, creds), s).0.status == Cancelled
      ensures env.cancelled(t + 1)
    {
      assert ShellRun(env.run(t, ShellCall(task, creds), s).0, task.timeoutMs, env.cancelled(t + 1));
    }
  }

  lemma {:induction false} UndoAdvances<S>(env: Env<S>, chain: TaskChain, targets: seq<nat>, w: World<S>)
    requires forall j | 0 <= j < |targets| :: targets[j] < |chain.steps|
    ensures UndoSteps(env, chain, targets, w).now >= w.now
  {
    if targets != [] {
      UndoAdvances(env, chain, targets[1..], UndoStep(env, chain, targets[0], w));
    }
  }

  lemma CancelledStep<S(!new)>(env: Env<S>, chain: TaskChain, k: nat, w: World<S>)
    requires k < |chain.steps| && TokenIsHonest(env) && chain.steps[k].task.executor == Shell
    requires DoStep(env, chain, k, w).0.Status() == Cancelled
    ensures env.cancelled(Rollback(env, chain, k, DoStep(env, chain, k, w).1).now)
  {
    var w1 := DoStep(env, chain, k, w).1;
    UndoAdvances(env, chain, Targets(chain.onFailure, k),
                 Record(w1, RollbackStarted(chain.id, chain.onFailure, k)));
    CancelledStepSetsToken(env, chain, k, w);
  }

  /** Whatever the host does, a chain returns what the agent admits for it, under its own token. */
  lemma ChainReturnsAdmissible<S(!new)>(env: Env<S>, chain: TaskChain, w: World<S>)
    requires ShellHost(env)
    ensures var o := RunChain(env, chain, w);
            Agent.Admissible(Agent.Chained(chain), env.cancelled(o.world.now), o.results)
  {
    hide TokenIsHonest, UndoTrace, ShellHost;
    ShellHostIsHonest(env);
    ExactTrace(env, chain, w);
    var o := RunChain(env, chain, w);
    if Broke(o.results) {
      var begun := Record(w, Started(chain.id, |chain.steps|));
      var k := BreakPoint(env, chain, 0, [], begun);
      var entry := Entry(env, chain, 0, k, begun);
      if chain.steps[k].task.executor == Shell && o.results[k].Status() == Cancelled {
        CancelledStep(env, chain, k, entry);
      }
    }
  }

  /** So does a continuous task: each tick runs under a child of its token. */
  lemma ContinuousReturnsAdmissible(task: ExecTask, ticks: seq<Continuous.Tick>, exit: Continuous.Exit,
                                    begun: nat, ended: nat, token: bool)
    requires exit == Continuous.OnCancel ==> token
    requires forall i | 0 <= i < |ticks| && ticks[i].Ran? ::
               task.executor == Shell ==> ShellRun(ticks[i].report, task.timeoutMs, token)
    ensures Agent.Admissible(Agent.Exec(task), token,
                             [Continuous.FinalResult(task.id, ticks, exit, begun, ended)])
  {
    if exit == Continuous.OnShutdown && ticks != [] {
      var last := ticks[|ticks| - 1];
      assert last.Ran? && task.executor == Shell ==> ShellRun(last.report, task.timeoutMs, token);
    }
  }

  /** How one execution of a task goes, by either executor. */
  datatype Execution = Execution(
    creds: Result<Creds, string>,
    run: Shell.Run, texts: Shell.Texts,
    sidecar: SidecarPoll.Env, payload: Rpc.Json, deferred: Rpc.Json,
    submitReply: Result<Rpc.Response, string>, submitMs: nat,
    badText: Rpc.Json -> string, show: Rpc.Json -> string,
    durationMs: nat, clock: nat)

  /** The result is what the submit's reply decides, or else the poll loop's outcome. */
  ghost predicate Answered(task: ExecTask, e: Execution, target: string, result: TaskResult, calls: seq<SidecarPoll.Call>) {
    match SidecarPoll.SubmitOutcome(e.sidecar, target, e.submitReply, e.badText, e.show, e.submitMs)
    case Finished(report) => calls == [] && result == MakeResult(task.id, report)
    case Accepted(taskId) =>
      exists n: nat, cause ::
        && SidecarPoll.StopsAt(e.sidecar, task.timeoutMs, e.submitMs, n, cause)
        && (cause == SidecarPoll.Replied ==> SidecarPoll.Decides(e.sidecar, n))
        && result == MakeResult(task.id, SidecarPoll.ReportFor(e.sidecar, task.timeoutMs, e.submitMs, n, cause))
        && calls == SidecarPoll.Calls(target, taskId, n, cause)
  }

  /** A one-shot task returns what the agent admits for it, by either executor or none. */
  method ExecuteOneshot(task: ExecTask, e: Execution, ghost token: bool)
    returns (result: TaskResult, calls: seq<SidecarPoll.Call>)
    requires Shell.Possible(e.run, token, e.durationMs, task.timeoutMs)
    ensures Agent.Admissible(Agent.Exec(task), token, [result])
    ensures e.creds.Err? ==>
              && result.Status() == Failed && result.report.error == Some(e.creds.error)
              && result.report.stderr == e.creds.error && calls == []
    ensures e.creds.Ok? && task.executor == Shell ==> Shell.Decided(e.run, result.report) && calls == []
    ensures e.creds.Ok? && task.executor == Sidecar ==>
              && calls != [] && calls[0].SubmitCall?
              && (task.target == Some(calls[0].target) || (task.target == None && calls[0].target == "unknown"))
              && (task.rpcMethod == Some(calls[0].rpcMethod) || (task.rpcMethod == None && calls[0].rpcMethod == "submit"))
              && calls[0].params == SidecarPoll.WithCredentials(e.payload, e.creds.value, e.deferred)
              && Answered(task, e, calls[0].target, result, calls[1..])
  {
    calls := [];
    if e.creds.Err? {
      var text := e.creds.error;
      result := MakeResult(task.id, Report(Failed, None, "", text, e.durationMs, e.clock, Some(text)));
      return;
    }
    match task.executor {
      case Shell =>
        result := Shell.Execute(task, e.run, token, e.durationMs, e.clock, e.texts);
      case Sidecar =>
        var target := if task.target.Some? then task.target.value else "unknown";
        var rpcMethod := if task.rpcMethod.Some? then task.rpcMethod.value else "submit";
        result, calls := SidecarPoll.Execute(e.sidecar, task.id, target, rpcMethod, e.payload, e.creds.value, e.deferred,
                                             task.timeoutMs, e.submitReply, e.submitMs, e.badText, e.show);
    }
  }

  /** The tasks that take no permit. */
  datatype RoutedTask =
    | Install(unitName: string)
    | Upgrade(unitName: string, targetVersion: string)
    | Remove(unitName: string)
    | SelfUpgrade(job: SelfUpgrade.Job)

  /**
   A routed task returns what the agent admits for it. A self-upgrade succeeds
   just when the binary was replaced; the others report success and touch nothing.
   */
  method RouteTask(id: Id, task: RoutedTask, disk: SelfUpgrade.Disk, format: SelfUpgrade.Format,
                   faults: SelfUpgrade.Faults, durationMs: nat, clock: nat) returns (result: TaskResult)
    modifies disk
    ensures forall token :: Agent.Admissible(Agent.Routed(id), token, [result])
    ensures task.SelfUpgrade? ==>
              (disk.files, result.Status() == Success) == SelfUpgrade.Upgrade(old(disk.files), task.job, format, faults)
    ensures !task.SelfUpgrade? ==> result.Status() == Success && disk.files == old(disk.files)
    ensures result.taskId == id && result.report.durationMs == durationMs && result.report.timestamp == clock
    ensures match task
            case Install(unitName) => result.report.stdout == "installed unit " + unitName
            case Upgrade(unitName, version) => result.report.stdout == "upgraded unit " + unitName + " to " + version
            case Remove(unitName) => result.report.stdout == "removed unit " + unitName
            case SelfUpgrade(_) => result.Status() == Failed <==> result.report.error.Some?
  {
    var text := "";
    match task {
      case Install(unitName) => text := "installed unit " + unitName;
      case Upgrade(unitName, version) => text := "upgraded unit " + unitName + " to " + version;
      case Remove(unitName) => text := "removed unit " + unitName;
      case SelfUpgrade(job) =>
        var r := disk.Execute(job, format, faults);
        if r.Err? {
          return MakeResult(id, Report(Failed, None, "", r.error, durationMs, clock, Some(r.error)));
        }
        text := "self-upgrade to " + job.targetVersion + " prepared \U{2014} restart required";
    }
    result := MakeResult(id, Report(Success, None, text, "", durationMs, clock, None));
  }
}
