/**
 The task-chain executor: steps run in order, the first one that does not
 succeed stops the chain and triggers the rollbacks, last step first.
 */
module Chains {
  import opened Types

  type Creds = map<string, string>

  /** What is handed to an executor for one task. */
  datatype Call =
    | ShellCall(task: ExecTask, creds: Creds)
    | SidecarCall(id: Id, target: string, rpcMethod: string, payload: string,
                  credentials: seq<string>, creds: Creds, timeoutMs: nat)

  function CallFor(task: ExecTask, creds: Creds): Call {
    match task.executor
    case Shell => ShellCall(task, creds)
    case Sidecar =>
      SidecarCall(
        task.id,
        if task.target.Some? then task.target.value else "unknown",
        if task.rpcMethod.Some? then task.rpcMethod.value else "submit",
        task.payload, task.credentials, creds, task.timeoutMs)
  }

  /**
   The host as an oracle over a logical clock, so that equal questions may get
   different answers: credential resolution, the effect of an execution on the
   host state, the chain's cancellation token and the wall clock.
   */
  datatype Env<!S> = Env(
    resolve: (nat, ExecTask) -> Result<Creds, string>,
    run: (nat, Call, S) -> (Report, S),
    cancelled: nat -> bool,
    clock: nat -> nat)

  /** An execution, with the time it was started at. */
  datatype Attempt = Attempt(at: nat, call: Call, report: Report)

  /** An attempt is absent when the task's credentials did not resolve. */
  datatype Event =
    | Started(chainId: Id, steps: nat)
    | Did(step: nat, attempt: Option<Attempt>)
    | RollbackStarted(chainId: Id, strategy: RollbackStrategy, failedStep: nat)
    | Undid(step: nat, attempt: Option<Attempt>)
    | Completed(chainId: Id, stepsCompleted: nat)

  datatype World<S> = World(now: nat, state: S, log: seq<Event>)

  datatype Outcome<S> = Outcome(results: seq<TaskResult>, world: World<S>)

  // ---------------------------------------------------------------- Specification

  function Record<S>(w: World<S>, e: Event): World<S> {
    w.(log := w.log + [e])
  }

  /** Resolve credentials, then run; the report is absent when resolution fails. */
  function Perform<S>(env: Env<S>, task: ExecTask, w: World<S>)
    : (Result<Attempt, string>, World<S>)
  {
    match env.resolve(w.now, task)
    case Err(e) => (Err(e), w.(now := w.now + 1))
    case Ok(creds) =>
      var call := CallFor(task, creds);
      var (report, state) := env.run(w.now + 1, call, w.state);
      (Ok(Attempt(w.now + 1, call, report)), w.(now := w.now + 2, state := state))
  }

  function AttemptOf(r: Result<Attempt, string>): Option<Attempt> {
    if r.Ok? then Some(r.value) else None
  }

  function ResultFor(chain: TaskChain, i: nat, r: Result<Attempt, string>, timestamp: nat): TaskResult
    requires i < |chain.steps|
  {
    TaskResult(chain.steps[i].task.id, Some(chain.id), Some(U32(i)),
               if r.Ok? then r.value.report else FailureReport(r.error, timestamp))
  }

  function DoStep<S>(env: Env<S>, chain: TaskChain, i: nat, w: World<S>): (TaskResult, World<S>)
    requires i < |chain.steps|
  {
    var (r, w1) := Perform(env, chain.steps[i].task, w);
    (ResultFor(chain, i, r, env.clock(w1.now)), Record(w1, Did(i, AttemptOf(r))))
  }

  function UndoStep<S>(env: Env<S>, chain: TaskChain, i: nat, w: World<S>): World<S>
    requires i < |chain.steps|
  {
    match chain.steps[i].rollback
    case None => w
    case Some(task) =>
      var (r, w1) := Perform(env, task, w);
      Record(w1, Undid(i, AttemptOf(r)))
  }

  function UndoSteps<S>(env: Env<S>, chain: TaskChain, targets: seq<nat>, w: World<S>): World<S>
    requires forall j | 0 <= j < |targets| :: targets[j] < |chain.steps|
  {
    if targets == [] then w
    else UndoSteps(env, chain, targets[1..], UndoStep(env, chain, targets[0], w))
  }

  function Targets(strategy: RollbackStrategy, failed: nat): seq<nat> {
    match strategy
    case RollbackFailed => [failed]
    case RollbackAll => seq(failed + 1, j requires 0 <= j <= failed => failed - j)
  }

  function Rollback<S>(env: Env<S>, chain: TaskChain, failed: nat, w: World<S>): World<S>
    requires failed < |chain.steps|
  {
    UndoSteps(env, chain, Targets(chain.onFailure, failed),
              Record(w, RollbackStarted(chain.id, chain.onFailure, failed)))
  }

  function RunFrom<S>(env: Env<S>, chain: TaskChain, i: nat, results: seq<TaskResult>, w: World<S>): Outcome<S>
    requires i <= |chain.steps|
    decreases |chain.steps| - i
  {
    if i == |chain.steps| then
      Outcome(results, Record(w, Completed(chain.id, |results|)))
    else
      var w0 := w.(now := w.now + 1);
      if env.cancelled(w.now) then
        Outcome(results, Record(w0, Completed(chain.id, |results|)))
      else
        var (r, w1) := DoStep(env, chain, i, w0);
        if r.Status() != Success then
          Outcome(results + [r], Rollback(env, chain, i, w1))
        else
          RunFrom(env, chain, i + 1, results + [r], w1)
  }

  function RunChain<S>(env: Env<S>, chain: TaskChain, w: World<S>): Outcome<S> {
    RunFrom(env, chain, 0, [], Record(w, Started(chain.id, |chain.steps|)))
  }

  /** One turn of the chain, seen from its specification. */
  lemma Turn<S>(env: Env<S>, chain: TaskChain, i: nat, results: seq<TaskResult>, w: World<S>)
    requires i <= |chain.steps|
    ensures var o := RunFrom(env, chain, i, results, w);
            var w0 := w.(now := w.now + 1);
            if i == |chain.steps| then o == Outcome(results, Record(w, Completed(chain.id, |results|)))
            else if env.cancelled(w.now) then o == Outcome(results, Record(w0, Completed(chain.id, |results|)))
            else
              var (r, w1) := DoStep(env, chain, i, w0);
              o == if r.Status() != Success then Outcome(results + [r], Rollback(env, chain, i, w1))
                   else RunFrom(env, chain, i + 1, results + [r], w1)
  {
  }

  // ---------------------------------------------------------------- Executor

  /** The host a chain runs on, changed step by step. */
  class Host<S> {
    const env: Env<S>
    var now: nat
    var state: S
    var log: seq<Event>

    ghost function View(): World<S>
      reads this
    {
      World(now, state, log)
    }

    constructor (env: Env<S>, state: S)
      ensures this.env == env && View() == World(0, state, [])
    {
      this.env := env;
      this.now := 0;
      this.state := state;
      this.log := [];
    }

    method RecordEvent(e: Event)
      modifies this`log
      ensures View() == Record(old(View()), e)
    {
      log := log + [e];
    }

    method IsCancelled() returns (b: bool)
      modifies this`now
      ensures b == env.cancelled(old(now))
      ensures View() == old(View()).(now := old(now) + 1)
    {
      b := env.cancelled(now);
      now := now + 1;
    }

    method ResolveAndRun(task: ExecTask) returns (r: Result<Attempt, string>)
      modifies this`now, this`state
      ensures (r, View()) == Perform(env, task, old(View()))
    {
      var creds := env.resolve(now, task);
      now := now + 1;
      if creds.Err? {
        return Err(creds.error);
      }
      var call := CallFor(task, creds.value);
      var (report, next) := env.run(now, call, state);
      r := Ok(Attempt(now, call, report));
      now := now + 1;
      state := next;
    }

    method RunRollbacks(chain: TaskChain, failedStep: nat)
      requires failedStep < |chain.steps|
      modifies this
      ensures View() == Rollback(env, chain, failedStep, old(View()))
    {
      hide CallFor;
      RecordEvent(RollbackStarted(chain.id, chain.onFailure, failedStep));
      var range: seq<nat>;
      match chain.onFailure {
        case RollbackFailed => range := [failedStep];
        case RollbackAll => range := seq(failedStep + 1, j requires 0 <= j <= failedStep => failedStep - j);
      }
      ghost var begin := View();
      var n := 0;
      while n < |range|
        invariant n <= |range|
        invariant forall j | 0 <= j < |range| :: range[j] < |chain.steps|
        invariant UndoSteps(env, chain, range[n..], View()) == UndoSteps(env, chain, range, begin)
      {
        var i := range[n];
        if chain.steps[i].rollback.Some? {
          var r := ResolveAndRun(chain.steps[i].rollback.value);
          RecordEvent(Undid(i, AttemptOf(r)));
        }
        n := n + 1;
      }
    }

    method Execute(chain: TaskChain) returns (results: seq<TaskResult>)
      modifies this
      ensures Outcome(results, View()) == RunChain(env, chain, old(View()))
    {
      hide CallFor, Rollback, RunFrom;
      results := [];
      RecordEvent(Started(chain.id, |chain.steps|));
      ghost var begin := View();
      var i := 0;
      while i < |chain.steps|
        invariant i <= |chain.steps|
        invariant RunFrom(env, chain, i, results, View()) == RunFrom(env, chain, 0, [], begin)
      {
        Turn(env, chain, i, results, View());
        var stop := IsCancelled();
        if stop {
          break;
        }
        var r := ResolveAndRun(chain.steps[i].task);
        RecordEvent(Did(i, AttemptOf(r)));
        var result := ResultFor(chain, i, r, env.clock(now));
        results := results + [result];
        if result.Status() != Success {
          RunRollbacks(chain, i);
          return;
        }
        i := i + 1;
      }
      if i == |chain.steps| {
        Turn(env, chain, i, results, View());
      }
      RecordEvent(Completed(chain.id, |results|));
    }
  }
}
