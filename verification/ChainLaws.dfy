/**
 What every run of a task chain leaves behind: the exact order of steps and
 rollbacks, and when the rollbacks put the host back to where it was.
 */
module ChainLaws {
  import opened Types
  import opened Chains
  import Seqs

  // ---------------------------------------------------------------- Trace

  /**
   The executor was given this task, with the credentials resolved for it just
   before, and the report is what it answered. A sidecar without a name is
   "unknown", a method without one is "submit".
   */
  ghost predicate Faithful<S(!new)>(env: Env<S>, task: ExecTask, a: Attempt) {
    && a.at >= 1 && env.resolve(a.at - 1, task) == Ok(a.call.creds)
    && (exists s :: a.report == env.run(a.at, a.call, s).0)
    && match a.call
       case ShellCall(given, _) => task.executor == Shell && given == task
       case SidecarCall(id, target, rpcMethod, payload, credentials, _, timeoutMs) =>
         && task.executor == Sidecar && id == task.id && payload == task.payload
         && credentials == task.credentials && timeoutMs == task.timeoutMs
         && (task.target == Some(target) || (task.target == None && target == "unknown"))
         && (task.rpcMethod == Some(rpcMethod) || (task.rpcMethod == None && rpcMethod == "submit"))
  }

  /** No executor was run, and the report passes on why the credentials did not resolve. */
  ghost predicate Unresolved<S>(env: Env<S>, task: ExecTask, report: Report) {
    exists t: nat ::
      && t >= 1 && !env.cancelled(t - 1) && env.resolve(t, task).Err?
      && report.status == Failed && report.exitCode == None && report.stdout == "" && report.durationMs == 0
      && report.stderr == env.resolve(t, task).error && report.error == Some(env.resolve(t, task).error)
  }

  lemma PerformIsFaithful<S(!new)>(env: Env<S>, task: ExecTask, w: World<S>)
    ensures var r := Perform(env, task, w).0;
            if r.Ok? then Faithful(env, task, r.value) && r.value.at == w.now + 1
            else env.resolve(w.now, task) == Err(r.error)
  {
  }

  predicate ResultsShape(chain: TaskChain, results: seq<TaskResult>) {
    && |results| <= |chain.steps|
    && forall i | 0 <= i < |results| ::
         && results[i].taskId == chain.steps[i].task.id
         && results[i].chainId == Some(chain.id)
         && results[i].stepIndex == Some(U32(i))
         && (i < |results| - 1 ==> results[i].Status() == Success)
  }

  /** A step ran, and the token was not set when it was looked at just before. */
  ghost predicate ForwardEvent<S(!new)>(env: Env<S>, chain: TaskChain, i: nat, r: TaskResult, e: Event)
    requires i < |chain.steps|
  {
    && e.Did? && e.step == i
    && match e.attempt
       case None => Unresolved(env, chain.steps[i].task, r.report)
       case Some(a) =>
         && Faithful(env, chain.steps[i].task, a) && r.report == a.report
         && a.at >= 2 && !env.cancelled(a.at - 2)
  }

  /** Step `i` has something to undo and the strategy asks for it once step `failed` failed. */
  predicate MustUndo(chain: TaskChain, failed: nat, i: nat) {
    && i <= failed < |chain.steps|
    && chain.steps[i].rollback.Some?
    && (chain.onFailure == RollbackFailed ==> i == failed)
  }

  /**
   Every step in `from..=last` that must be undone is attempted exactly once,
   highest step first, and nothing else is.
   */
  ghost predicate UndoTrace<S(!new)>(env: Env<S>, chain: TaskChain, failed: nat, from: nat, last: nat, events: seq<Event>) {
    && (forall j | 0 <= j < |events| ::
          && events[j].Undid? && from <= events[j].step <= last
          && MustUndo(chain, failed, events[j].step)
          && (events[j].attempt.Some? ==>
                Faithful(env, chain.steps[events[j].step].rollback.value, events[j].attempt.value))
          && (events[j].attempt.None? ==>
                exists t: nat :: env.resolve(t, chain.steps[events[j].step].rollback.value).Err?))
    && (forall j, j' | 0 <= j < j' < |events| :: events[j].step > events[j'].step)
    && (forall i: nat | from <= i <= last && MustUndo(chain, failed, i) ::
          exists j :: 0 <= j < |events| && events[j].step == i)
  }

  predicate Broke(results: seq<TaskResult>) {
    results != [] && results[|results| - 1].Status() != Success
  }

  ghost predicate Trace<S(!new)>(env: Env<S>, chain: TaskChain, results: seq<TaskResult>, events: seq<Event>) {
    var n := |results|;
    && ResultsShape(chain, results)
    && n + 2 <= |events|
    && events[0] == Started(chain.id, |chain.steps|)
    && (forall i | 0 <= i < n :: ForwardEvent(env, chain, i, results[i], events[i + 1]))
    && if Broke(results) then
         && events[n + 1] == RollbackStarted(chain.id, chain.onFailure, n - 1)
         && UndoTrace(env, chain, n - 1, 0, n - 1, events[n + 2..])
       else
         events[n + 1..] == [Completed(chain.id, n)]
  }

  lemma UndoUnfolds<S>(env: Env<S>, chain: TaskChain, lo: nat, w: World<S>)
    requires lo < |chain.steps|
    ensures var w1 := UndoStep(env, chain, lo, w);
            UndoSteps(env, chain, Targets(chain.onFailure, lo), w)
            == if chain.onFailure == RollbackFailed || lo == 0 then w1
               else UndoSteps(env, chain, Targets(chain.onFailure, lo - 1), w1)
  {
    var targets := Targets(chain.onFailure, lo);
    if chain.onFailure == RollbackFailed || lo == 0 {
      assert targets[1..] == [];
    } else {
      assert targets[1..] == Targets(chain.onFailure, lo - 1);
    }
  }

  lemma UndoTraceJoins<S(!new)>(env: Env<S>, chain: TaskChain, failed: nat, lo: nat, head: seq<Event>, rest: seq<Event>)
    requires 0 < lo
    requires UndoTrace(env, chain, failed, lo, lo, head) && UndoTrace(env, chain, failed, 0, lo - 1, rest)
    ensures UndoTrace(env, chain, failed, 0, lo, head + rest)
  {
    var events := head + rest;
    forall i: nat | i <= lo && MustUndo(chain, failed, i)
      ensures exists j :: 0 <= j < |events| && events[j].step == i
    {
      if i == lo {
        var j :| 0 <= j < |head| && head[j].step == i;
        assert events[j].step == i;
      } else {
        var j :| 0 <= j < |rest| && rest[j].step == i;
        assert events[|head| + j].step == i;
      }
    }
  }

  lemma UndoStepAppends<S(!new)>(env: Env<S>, chain: TaskChain, failed: nat, lo: nat, w: World<S>)
    returns (head: seq<Event>)
    requires lo <= failed < |chain.steps|
    requires chain.onFailure == RollbackFailed ==> lo == failed
    ensures UndoStep(env, chain, lo, w).log == w.log + head
    ensures UndoTrace(env, chain, failed, lo, lo, head)
  {
    hide Faithful;
    var w1 := UndoStep(env, chain, lo, w);
    head := w1.log[|w.log|..];
    if chain.steps[lo].rollback.Some? {
      PerformIsFaithful(env, chain.steps[lo].rollback.value, w);
      assert head[0].step == lo;
    }
  }

  lemma {:induction false} UndoAppends<S(!new)>(env: Env<S>, chain: TaskChain, failed: nat, lo: nat, w: World<S>)
    returns (events: seq<Event>)
    requires lo <= failed < |chain.steps|
    requires chain.onFailure == RollbackFailed ==> lo == failed
    ensures UndoSteps(env, chain, Targets(chain.onFailure, lo), w).log == w.log + events
    ensures UndoTrace(env, chain, failed, 0, lo, events)
    decreases lo
  {
    UndoUnfolds(env, chain, lo, w);
    events := UndoStepAppends(env, chain, failed, lo, w);
    if chain.onFailure == RollbackAll && lo > 0 {
      var rest := UndoAppends(env, chain, failed, lo - 1, UndoStep(env, chain, lo, w));
      UndoTraceJoins(env, chain, failed, lo, events, rest);
      Seqs.Assoc(w.log, events, rest);
      events := events + rest;
    }
  }

  /** Reached the check before step `i` with every earlier step successful. */
  ghost predicate Underway<S(!new)>(env: Env<S>, chain: TaskChain, i: nat, results: seq<TaskResult>, events: seq<Event>) {
    && |results| == i
    && ResultsShape(chain, results)
    && !Broke(results)
    && |events| == i + 1
    && events[0] == Started(chain.id, |chain.steps|)
    && forall j | 0 <= j < i :: ForwardEvent(env, chain, j, results[j], events[j + 1])
  }

  /** A step adds its result and its event, and the shape of both is kept. */
  lemma StepAppends<S(!new)>(env: Env<S>, chain: TaskChain, i: nat, results: seq<TaskResult>,
                       w: World<S>, events: seq<Event>) returns (e: Event)
    requires i < |chain.steps| && Underway(env, chain, i, results, events)
    requires w.now >= 1 && !env.cancelled(w.now - 1)
    ensures var (r, w1) := DoStep(env, chain, i, w);
            && w1.log == w.log + [e]
            && ForwardEvent(env, chain, i, r, e)
            && ResultsShape(chain, results + [r])
            && (r.Status() == Success ==> Underway(env, chain, i + 1, results + [r], events + [e]))
  {
    hide Faithful;
    var (r, w1) := DoStep(env, chain, i, w);
    PerformIsFaithful(env, chain.steps[i].task, w);
    e := w1.log[|w.log|];
  }

  lemma BrokenTrace<S(!new)>(env: Env<S>, chain: TaskChain, i: nat, results: seq<TaskResult>, r: TaskResult,
                    events: seq<Event>, e: Event, undo: seq<Event>)
    requires i < |chain.steps| && Underway(env, chain, i, results, events)
    requires ForwardEvent(env, chain, i, r, e) && ResultsShape(chain, results + [r]) && r.Status() != Success
    requires UndoTrace(env, chain, i, 0, i, undo)
    ensures Trace(env, chain, results + [r],
                  events + [e] + [RollbackStarted(chain.id, chain.onFailure, i)] + undo)
  {
    var all := events + [e] + [RollbackStarted(chain.id, chain.onFailure, i)] + undo;
    assert all[i + 3..] == undo;
  }

  lemma CompletedTrace<S(!new)>(env: Env<S>, chain: TaskChain, i: nat, results: seq<TaskResult>, events: seq<Event>)
    requires Underway(env, chain, i, results, events)
    ensures Trace(env, chain, results, events + [Completed(chain.id, i)])
  {
    assert (events + [Completed(chain.id, i)])[i + 1..] == [Completed(chain.id, i)];
  }

  /** Where a chain that stopped early without a failed step was stopped. */
  ghost predicate CancelledLast<S>(env: Env<S>, chain: TaskChain, from: nat, o: Outcome<S>) {
    !Broke(o.results) && |o.results| < |chain.steps| ==>
      o.world.now > from && env.cancelled(o.world.now - 1)
  }

  lemma StepAdvances<S>(env: Env<S>, chain: TaskChain, i: nat, w: World<S>)
    requires i < |chain.steps|
    ensures var w1 := DoStep(env, chain, i, w).1;
            w1.now >= w.now && w.log <= w1.log
  {
    hide CallFor;
  }

  lemma {:induction false} StopsAtCancel<S>(env: Env<S>, chain: TaskChain, i: nat,
                                            results: seq<TaskResult>, w: World<S>)
    requires i <= |chain.steps| && |results| == i
    ensures CancelledLast(env, chain, w.now, RunFrom(env, chain, i, results, w))
    decreases |chain.steps| - i
  {
    hide DoStep, Rollback;
    if i < |chain.steps| && !env.cancelled(w.now) {
      var (r, w1) := DoStep(env, chain, i, w.(now := w.now + 1));
      StepAdvances(env, chain, i, w.(now := w.now + 1));
      if r.Status() == Success {
        StopsAtCancel(env, chain, i + 1, results + [r], w1);
      }
    }
  }

  /** The trace of a run whose next step fails. */
  lemma FailingStepTrace<S(!new)>(env: Env<S>, chain: TaskChain, i: nat, results: seq<TaskResult>,
                            w: World<S>, base: seq<Event>, events: seq<Event>)
    returns (final: seq<Event>)
    requires i < |chain.steps|
    requires w.log == base + events && Underway(env, chain, i, results, events)
    requires w.now >= 1 && !env.cancelled(w.now - 1)
    requires DoStep(env, chain, i, w).0.Status() != Success
    ensures var (r, w1) := DoStep(env, chain, i, w);
            Rollback(env, chain, i, w1).log == base + final && Trace(env, chain, results + [r], final)
  {
    var (r, w1) := DoStep(env, chain, i, w);
    var e := StepAppends(env, chain, i, results, w, events);
    var mark := RollbackStarted(chain.id, chain.onFailure, i);
    var undo := UndoAppends(env, chain, i, i, Record(w1, mark));
    BrokenTrace(env, chain, i, results, r, events, e, undo);
    final := events + [e] + [mark] + undo;
    Seqs.Assoc(base, events, [e]);
    Seqs.Assoc(base, events + [e], [mark]);
    Seqs.Assoc(base, events + [e] + [mark], undo);
  }

  lemma {:induction false} RunFromTrace<S(!new)>(env: Env<S>, chain: TaskChain, i: nat, results: seq<TaskResult>,
                                           w: World<S>, base: seq<Event>, events: seq<Event>)
    returns (final: seq<Event>)
    requires i <= |chain.steps|
    requires w.log == base + events && Underway(env, chain, i, results, events)
    ensures RunFrom(env, chain, i, results, w).world.log == base + final
    ensures Trace(env, chain, RunFrom(env, chain, i, results, w).results, final)
    decreases |chain.steps| - i
  {
    hide Trace, RunFrom, DoStep, Rollback, ResultsShape;
    Turn(env, chain, i, results, w);
    if i == |chain.steps| || env.cancelled(w.now) {
      final := events + [Completed(chain.id, i)];
      Seqs.Assoc(base, events, [Completed(chain.id, i)]);
      CompletedTrace(env, chain, i, results, events);
    } else {
      var w0 := w.(now := w.now + 1);
      var (r, w1) := DoStep(env, chain, i, w0);
      if r.Status() == Success {
        var e := StepAppends(env, chain, i, results, w0, events);
        Seqs.Assoc(base, events, [e]);
        final := RunFromTrace(env, chain, i + 1, results + [r], w1, base, events + [e]);
      } else {
        final := FailingStepTrace(env, chain, i, results, w0, base, events);
      }
    }
  }

  /**
   The exact trace of a chain: the steps run are a prefix, in order, each given
   its own task; all but the last succeed; then either the rollbacks the strategy
   asks for, highest step first and each once whatever their outcome, or the
   completion record. A chain that stops early without a failed step was
   cancelled at its last check, and nothing is undone.
   */
  lemma ExactTrace<S(!new)>(env: Env<S>, chain: TaskChain, w: World<S>)
    ensures var o := RunChain(env, chain, w);
            && w.log <= o.world.log
            && Trace(env, chain, o.results, o.world.log[|w.log|..])
            && CancelledLast(env, chain, w.now, o)
  {
    var begun := Record(w, Started(chain.id, |chain.steps|));
    var events := RunFromTrace(env, chain, 0, [], begun, w.log, [Started(chain.id, |chain.steps|)]);
    assert RunChain(env, chain, w).world.log[|w.log|..] == events;
    StopsAtCancel(env, chain, 0, [], begun);
  }

  // ---------------------------------------------------------------- Restoration

  /**
   What a chain's steps may do to the host. `begins(i, s)`: step `i` may be
   started in `s`. `reach(i, s, s')`: started there it may leave the host in `s'`,
   having run fully, partly or not at all.
   */
  datatype Effects<!S> = Effects(begins: (nat, S) -> bool, reach: (nat, S, S) -> bool)

  /**
   These are the effects of this chain on this host: a step that succeeds leads
   to where the next one may start, and a rollback that reports success brings
   every state its step may have left back to the one that step was started in.
   */
  ghost predicate Compensates<S(!new)>(env: Env<S>, chain: TaskChain, fx: Effects<S>) {
    && (forall i: nat, s :: i < |chain.steps| && fx.begins(i, s) ==> fx.reach(i, s, s))
    && (forall i: nat, t: nat, creds, s :: i < |chain.steps| && fx.begins(i, s) ==>
          var (report, s') := env.run(t, CallFor(chain.steps[i].task, creds), s);
          fx.reach(i, s, s') && (report.status == Success ==> fx.begins(i + 1, s')))
    && (forall i: nat, t: nat, creds, s, s' ::
          i < |chain.steps| && chain.steps[i].rollback.Some? && fx.begins(i, s) && fx.reach(i, s, s')
          && env.run(t, CallFor(chain.steps[i].rollback.value, creds), s').0.status == Success ==>
            env.run(t, CallFor(chain.steps[i].rollback.value, creds), s').1 == s)
  }

  /** `s` is reached from `s0` by the steps before `i`, each started where it may be. */
  ghost predicate Path<S(!new)>(fx: Effects<S>, i: nat, s0: S, s: S) {
    if i == 0 then s == s0
    else exists m {:trigger Path(fx, i - 1, s0, m)} ::
           Path(fx, i - 1, s0, m) && fx.begins(i - 1, m) && fx.reach(i - 1, m, s)
  }

  lemma PathExtends<S(!new)>(fx: Effects<S>, i: nat, s0: S, m: S, s: S)
    requires Path(fx, i, s0, m) && fx.begins(i, m) && fx.reach(i, m, s)
    ensures Path(fx, i + 1, s0, s)
  {
    assert Path(fx, (i + 1) - 1, s0, m);
  }

  /** Every rollback recorded since `from` ran and succeeded. */
  predicate UndoneCleanly(log: seq<Event>, from: nat) {
    forall j | from <= j < |log| && log[j].Undid? ::
      log[j].attempt.Some? && log[j].attempt.value.report.status == Success
  }

  function Truncate(chain: TaskChain, k: nat): TaskChain
    requires k <= |chain.steps|
  {
    chain.(steps := chain.steps[..k])
  }

  /** Steps `i..k` are reached and succeed when the check before step `i` happens in `w`. */
  predicate Clean<S>(env: Env<S>, chain: TaskChain, i: nat, k: nat, w: World<S>)
    requires i <= k <= |chain.steps|
    decreases k - i
  {
    i == k ||
    var (r, w1) := DoStep(env, chain, i, w.(now := w.now + 1));
    !env.cancelled(w.now) && r.Status() == Success && Clean(env, chain, i + 1, k, w1)
  }

  /** The world in which step `k` starts. */
  function Entry<S>(env: Env<S>, chain: TaskChain, i: nat, k: nat, w: World<S>): World<S>
    requires i <= k <= |chain.steps|
    decreases k - i
  {
    var w0 := w.(now := w.now + 1);
    if i == k then w0 else Entry(env, chain, i + 1, k, DoStep(env, chain, i, w0).1)
  }

  lemma {:induction false} EntryExtends<S>(env: Env<S>, chain: TaskChain, i: nat, k: nat, w: World<S>)
    requires i <= k <= |chain.steps|
    ensures w.log <= Entry(env, chain, i, k, w).log
    decreases k - i
  {
    hide DoStep;
    if i < k {
      StepAdvances(env, chain, i, w.(now := w.now + 1));
      EntryExtends(env, chain, i + 1, k, DoStep(env, chain, i, w.(now := w.now + 1)).1);
    }
  }

  /** A broken run is a clean run of the steps before the last one, that step, and the rollbacks. */
  lemma {:induction false} BreakPoint<S>(env: Env<S>, chain: TaskChain, i: nat,
                                         results: seq<TaskResult>, w: World<S>) returns (k: nat)
    requires i <= |chain.steps| && |results| == i && !Broke(results)
    requires Broke(RunFrom(env, chain, i, results, w).results)
    ensures i <= k < |chain.steps| && Clean(env, chain, i, k, w)
    ensures |RunFrom(env, chain, i, results, w).results| == k + 1
    ensures RunFrom(env, chain, i, results, w).results[k] == DoStep(env, chain, k, Entry(env, chain, i, k, w)).0
    ensures RunFrom(env, chain, i, results, w).world
            == Rollback(env, chain, k, DoStep(env, chain, k, Entry(env, chain, i, k, w)).1)
    decreases |chain.steps| - i
  {
    hide DoStep, Rollback;
    var (r, w1) := DoStep(env, chain, i, w.(now := w.now + 1));
    if r.Status() != Success {
      k := i;
    } else {
      k := BreakPoint(env, chain, i + 1, results + [r], w1);
    }
  }

  /** An unbroken run is clean up to where it stopped. */
  lemma {:induction false} CleanStop<S>(env: Env<S>, chain: TaskChain, i: nat,
                                        results: seq<TaskResult>, w: World<S>) returns (k: nat)
    requires i <= |chain.steps| && |results| == i
    requires !Broke(RunFrom(env, chain, i, results, w).results)
    ensures i <= k <= |chain.steps| && Clean(env, chain, i, k, w)
    ensures |RunFrom(env, chain, i, results, w).results| == k
    ensures RunFrom(env, chain, i, results, w).world.state == Entry(env, chain, i, k, w).state
    decreases |chain.steps| - i
  {
    hide DoStep, Rollback;
    k := i;
    if i < |chain.steps| && !env.cancelled(w.now) {
      var (r, w1) := DoStep(env, chain, i, w.(now := w.now + 1));
      k := CleanStop(env, chain, i + 1, results + [r], w1);
    }
  }

  lemma StepOfTruncated<S>(env: Env<S>, chain: TaskChain, i: nat, k: nat, w: World<S>, w': World<S>)
    requires i < k <= |chain.steps| && w'.now == w.now && w'.state == w.state
    ensures var (r, w1) := DoStep(env, chain, i, w);
            var (r', w1') := DoStep(env, Truncate(chain, k), i, w');
            r' == r && w1'.now == w1.now && w1'.state == w1.state
  {
    hide CallFor;
    assert Truncate(chain, k).steps[i] == chain.steps[i];
  }

  /** Cutting a chain after its clean steps leaves the state the next step would start from. */
  lemma {:induction false} TruncatedRun<S>(env: Env<S>, chain: TaskChain, i: nat, k: nat, w: World<S>,
                                           results': seq<TaskResult>, w': World<S>)
    requires i <= k <= |chain.steps| && Clean(env, chain, i, k, w)
    requires w'.now == w.now && w'.state == w.state
    ensures RunFrom(env, Truncate(chain, k), i, results', w').world.state == Entry(env, chain, i, k, w).state
    decreases k - i
  {
    hide DoStep, Rollback;
    if i < k {
      var cut := Truncate(chain, k);
      StepOfTruncated(env, chain, i, k, w.(now := w.now + 1), w'.(now := w'.now + 1));
      var w1 := DoStep(env, chain, i, w.(now := w.now + 1)).1;
      var (r', w1') := DoStep(env, cut, i, w'.(now := w'.now + 1));
      TruncatedRun(env, chain, i + 1, k, w1, results' + [r'], w1');
    }
  }

  lemma {:induction false} EntryPath<S(!new)>(env: Env<S>, chain: TaskChain, i: nat, k: nat, w: World<S>,
                                              fx: Effects<S>, s0: S)
    requires i <= k <= |chain.steps|
    requires Compensates(env, chain, fx) && Clean(env, chain, i, k, w)
    requires Path(fx, i, s0, w.state) && fx.begins(i, w.state)
    ensures Path(fx, k, s0, Entry(env, chain, i, k, w).state) && fx.begins(k, Entry(env, chain, i, k, w).state)
    decreases k - i
  {
    hide Compensates, DoStep, Path;
    if i < k {
      var w1 := DoStep(env, chain, i, w.(now := w.now + 1)).1;
      StepReaches(env, chain, i, w.(now := w.now + 1), fx);
      PathExtends(fx, i, s0, w.state, w1.state);
      EntryPath(env, chain, i + 1, k, w1, fx, s0);
    }
  }

  lemma StepReaches<S(!new)>(env: Env<S>, chain: TaskChain, i: nat, w: World<S>, fx: Effects<S>)
    requires i < |chain.steps| && Compensates(env, chain, fx)
    requires fx.begins(i, w.state)
    ensures var (r, w1) := DoStep(env, chain, i, w);
            fx.reach(i, w.state, w1.state) && (r.Status() == Success ==> fx.begins(i + 1, w1.state))
  {
  }

  /** One clean rollback of step `i` returns to the state the step started from. */
  lemma StepRestores<S(!new)>(env: Env<S>, chain: TaskChain, i: nat, w: World<S>,
                              fx: Effects<S>, m: S, from: nat)
    requires i < |chain.steps| && Compensates(env, chain, fx)
    requires chain.steps[i].rollback.Some? && fx.begins(i, m) && fx.reach(i, m, w.state)
    requires from <= |w.log| && UndoneCleanly(UndoStep(env, chain, i, w).log, from)
    ensures UndoStep(env, chain, i, w).state == m
  {
    var w1 := UndoStep(env, chain, i, w);
    assert w1.log[|w1.log| - 1].Undid?;
  }

  lemma {:induction false} UndoExtends<S>(env: Env<S>, chain: TaskChain, targets: seq<nat>, w: World<S>)
    requires forall j | 0 <= j < |targets| :: targets[j] < |chain.steps|
    ensures w.log <= UndoSteps(env, chain, targets, w).log
  {
    if targets != [] {
      UndoExtends(env, chain, targets[1..], UndoStep(env, chain, targets[0], w));
    }
  }

  lemma {:induction false} UndoRestores<S(!new)>(env: Env<S>, chain: TaskChain, k: nat, w: World<S>,
                                                 fx: Effects<S>, s0: S, from: nat)
    requires k < |chain.steps| && chain.onFailure == RollbackAll && Compensates(env, chain, fx)
    requires forall i | 0 <= i <= k :: chain.steps[i].rollback.Some?
    requires Path(fx, k + 1, s0, w.state)
    requires from <= |w.log| && UndoneCleanly(UndoSteps(env, chain, Targets(RollbackAll, k), w).log, from)
    ensures UndoSteps(env, chain, Targets(RollbackAll, k), w).state == s0
  {
    var m :| Path(fx, k, s0, m) && fx.begins(k, m) && fx.reach(k, m, w.state);
    var w1 := UndoStep(env, chain, k, w);
    UndoUnfolds(env, chain, k, w);
    if k > 0 {
      UndoExtends(env, chain, Targets(RollbackAll, k - 1), w1);
    }
    StepRestores(env, chain, k, w, fx, m, from);
    if k > 0 {
      UndoRestores(env, chain, k - 1, w1, fx, s0, from);
    }
  }

  /**
   Saga restoration. Under `RollbackAll`, if the chain broke at step `k`, every
   step up to `k` has a rollback, and every rollback of the run succeeded, the
   host is back in its initial state, even if step `k` only ran in part.
   */
  lemma RollbackAllRestores<S(!new)>(env: Env<S>, chain: TaskChain, w: World<S>, fx: Effects<S>)
    requires chain.onFailure == RollbackAll && Compensates(env, chain, fx) && fx.begins(0, w.state)
    requires var o := RunChain(env, chain, w);
             && Broke(o.results)
             && (forall i | 0 <= i < |o.results| && i < |chain.steps| :: chain.steps[i].rollback.Some?)
             && UndoneCleanly(o.world.log, |w.log|)
    ensures RunChain(env, chain, w).world.state == w.state
  {
    var begun := Record(w, Started(chain.id, |chain.steps|));
    var k := BreakPoint(env, chain, 0, [], begun);
    var entry := Entry(env, chain, 0, k, begun);
    EntryPath(env, chain, 0, k, begun, fx, w.state);
    StepReaches(env, chain, k, entry, fx);
    var failed := DoStep(env, chain, k, entry).1;
    PathExtends(fx, k, w.state, entry.state, failed.state);
    EntryExtends(env, chain, 0, k, begun);
    UndoRestores(env, chain, k, Record(failed, RollbackStarted(chain.id, chain.onFailure, k)),
                 fx, w.state, |w.log|);
  }

  /**
   Under `RollbackFailed` a broken chain whose rollback succeeded leaves exactly
   the state its successful steps alone would have left.
   */
  lemma RollbackFailedKeepsPrefix<S(!new)>(env: Env<S>, chain: TaskChain, w: World<S>, fx: Effects<S>)
    requires chain.onFailure == RollbackFailed && Compensates(env, chain, fx) && fx.begins(0, w.state)
    requires var o := RunChain(env, chain, w);
             && Broke(o.results)
             && |o.results| <= |chain.steps|
             && chain.steps[|o.results| - 1].rollback.Some?
             && UndoneCleanly(o.world.log, |w.log|)
    ensures var o := RunChain(env, chain, w);
            o.world.state == RunChain(env, Truncate(chain, |o.results| - 1), w).world.state
  {
    var begun := Record(w, Started(chain.id, |chain.steps|));
    var k := BreakPoint(env, chain, 0, [], begun);
    var entry := Entry(env, chain, 0, k, begun);
    TruncatedRun(env, chain, 0, k, begun, [], Record(w, Started(chain.id, k)));
    EntryPath(env, chain, 0, k, begun, fx, w.state);
    StepReaches(env, chain, k, entry, fx);
    var marked := Record(DoStep(env, chain, k, entry).1, RollbackStarted(chain.id, chain.onFailure, k));
    UndoUnfolds(env, chain, k, marked);
    EntryExtends(env, chain, 0, k, begun);
    StepRestores(env, chain, k, marked, fx, entry.state, |w.log|);
  }

  // A host that is a counter. Step 0 adds one and succeeds, step 1 adds one and
  // fails; the rollback of step `i` sets the counter back to `n + i`.

  function CounterTask(id: Id): ExecTask {
    ExecTask(id, Oneshot, Shell, None, None, "", None, 1, [])
  }

  function CounterChain(strategy: RollbackStrategy): TaskChain {
    TaskChain(9, [ChainStep(CounterTask(0), Some(CounterTask(2))), ChainStep(CounterTask(1), Some(CounterTask(3)))],
              strategy)
  }

  function CounterRun(n: int, call: Call, s: int): (Report, int) {
    if !call.ShellCall? then (FailureReport("", 0), s)
    else
      match call.task.id
      case 0 => (Report(Success, None, "", "", 0, 0, None), s + 1)
      case 1 => (FailureReport("", 0), s + 1)
      case 2 => (Report(Success, None, "", "", 0, 0, None), n)
      case 3 => (Report(Success, None, "", "", 0, 0, None), n + 1)
      case _ => (FailureReport("", 0), s)
  }

  function CounterEnv(n: int): Env<int> {
    Env((t, task) => Ok(map[]), (t, call, s) => CounterRun(n, call, s), t => false, t => 0)
  }

  function CounterEffects(n: int): Effects<int> {
    Effects((i, s) => s == n + i, (i, s, s') => s' == s || s' == s + 1)
  }

  /** The hypothesis on effects is met by a chain whose steps do change the host. */
  lemma CounterCompensates(n: int, strategy: RollbackStrategy)
    ensures Compensates(CounterEnv(n), CounterChain(strategy), CounterEffects(n)) && CounterEffects(n).begins(0, n)
  {
  }

  /**
   On it the steps take the counter from `n` to `n + 2` before the rollbacks start;
   `RollbackAll` brings it back to `n`, `RollbackFailed` to `n + 1`.
   */
  lemma CounterIsRestored(n: int, strategy: RollbackStrategy)
    ensures var env, chain, w := CounterEnv(n), CounterChain(strategy), World(0, n, []);
            var o := RunChain(env, chain, w);
            && |o.results| == 2 && Broke(o.results) && UndoneCleanly(o.world.log, 0)
            && DoStep(env, chain, 1, Entry(env, chain, 0, 1, Record(w, Started(9, 2)))).1.state == n + 2
            && o.world.state == if strategy == RollbackAll then n else n + 1
  {
    var env, chain, w := CounterEnv(n), CounterChain(strategy), World(0, n, []);
    var begun := Record(w, Started(9, 2));
    Turn(env, chain, 0, [], begun);
    var (r0, w0) := DoStep(env, chain, 0, begun.(now := 1));
    Turn(env, chain, 1, [r0], w0);
    var (r1, w1) := DoStep(env, chain, 1, w0.(now := w0.now + 1));
    assert w1.state == n + 2;
    var marked := Record(w1, RollbackStarted(9, strategy, 1));
    UndoUnfolds(env, chain, 1, marked);
    UndoUnfolds(env, chain, 0, UndoStep(env, chain, 1, marked));
  }

  /**
   A cancel between steps is not a failure: whatever the strategy, the state is
   the one the steps already run left, nothing is undone, and the trace ends in
   a completion record.
   */
  lemma CancelKeepsPrefix<S>(env: Env<S>, chain: TaskChain, w: World<S>)
    requires !Broke(RunChain(env, chain, w).results)
    ensures var o := RunChain(env, chain, w);
            && |o.results| <= |chain.steps|
            && o.world.state == RunChain(env, Truncate(chain, |o.results|), w).world.state
  {
    var begun := Record(w, Started(chain.id, |chain.steps|));
    var k := CleanStop(env, chain, 0, [], begun);
    TruncatedRun(env, chain, 0, k, begun, [], Record(w, Started(chain.id, k)));
  }

  // ---------------------------------------------------------------- Cancellation and rollback

  /** A token stays set, and a shell execution reports `Cancelled` only once it is. */
  ghost predicate TokenIsHonest<S(!new)>(env: Env<S>) {
    && (forall t: nat, t': nat :: t <= t' && env.cancelled(t) ==> env.cancelled(t'))
    && (forall t: nat, task, creds, s :: env.run(t, ShellCall(task, creds), s).0.status == Cancelled ==>
          env.cancelled(t + 1))
  }

  lemma CancelledStepSetsToken<S(!new)>(env: Env<S>, chain: TaskChain, i: nat, w: World<S>)
    requires i < |chain.steps| && TokenIsHonest(env) && chain.steps[i].task.executor == Shell
    requires DoStep(env, chain, i, w).0.Status() == Cancelled
    ensures env.cancelled(DoStep(env, chain, i, w).1.now)
  {
    assert env.resolve(w.now, chain.steps[i].task).Ok?;
  }

  /** Every rollback recorded since `from` was started under a set token. */
  ghost predicate UndoneUnderToken<S>(env: Env<S>, log: seq<Event>, from: nat) {
    forall j | from <= j < |log| && log[j].Undid? && log[j].attempt.Some? :: env.cancelled(log[j].attempt.value.at)
  }

  lemma {:induction false} EntryUndoesNothing<S>(env: Env<S>, chain: TaskChain, i: nat, k: nat, w: World<S>, from: nat)
    requires i <= k <= |chain.steps| && UndoneUnderToken(env, w.log, from)
    ensures UndoneUnderToken(env, Entry(env, chain, i, k, w).log, from)
    decreases k - i
  {
    if i < k {
      EntryUndoesNothing(env, chain, i + 1, k, DoStep(env, chain, i, w.(now := w.now + 1)).1, from);
    }
  }

  lemma {:induction false} UndoUnderToken<S(!new)>(env: Env<S>, chain: TaskChain, targets: seq<nat>, w: World<S>, from: nat)
    requires forall j | 0 <= j < |targets| :: targets[j] < |chain.steps|
    requires TokenIsHonest(env) && env.cancelled(w.now) && UndoneUnderToken(env, w.log, from)
    ensures UndoneUnderToken(env, UndoSteps(env, chain, targets, w).log, from)
  {
    if targets != [] {
      var w1 := UndoStep(env, chain, targets[0], w);
      assert w.now <= w.now + 1 && w.now <= w1.now;
      assert env.cancelled(w.now + 1);
      UndoUnderToken(env, chain, targets[1..], w1, from);
    }
  }

  /** The last step run came from the shell and was cancelled while it ran. */
  predicate CancelledInStep(chain: TaskChain, results: seq<TaskResult>) {
    && 0 < |results| <= |chain.steps|
    && chain.steps[|results| - 1].task.executor == Shell
    && results[|results| - 1].Status() == Cancelled
  }

  /**
   A cancel that stops a shell step reaches the rollbacks: every one of them, by
   whichever executor, is started under the token that is set already.
   */
  lemma CancelReachesRollbacks<S(!new)>(env: Env<S>, chain: TaskChain, w: World<S>)
    requires TokenIsHonest(env) && CancelledInStep(chain, RunChain(env, chain, w).results)
    ensures UndoneUnderToken(env, RunChain(env, chain, w).world.log, |w.log|)
  {
    hide TokenIsHonest, RunFrom, UndoSteps, Entry, Clean;
    var begun := Record(w, Started(chain.id, |chain.steps|));
    var k := BreakPoint(env, chain, 0, [], begun);
    var entry := Entry(env, chain, 0, k, begun);
    EntryUndoesNothing(env, chain, 0, k, begun, |w.log|);
    CancelledStepSetsToken(env, chain, k, entry);
    var w1 := DoStep(env, chain, k, entry).1;
    UndoUnderToken(env, chain, Targets(chain.onFailure, k),
                   Record(w1, RollbackStarted(chain.id, chain.onFailure, k)), |w.log|);
  }

  /** Rollbacks of this chain that are started under a set token are stopped before they have any effect. */
  ghost predicate Inert<S(!new)>(env: Env<S>, chain: TaskChain) {
    forall i: nat, t: nat, creds, s ::
      i < |chain.steps| && chain.steps[i].rollback.Some? && env.cancelled(t) ==>
        env.run(t, CallFor(chain.steps[i].rollback.value, creds), s).1 == s
  }

  /** The same chain with nothing to undo. */
  function WithoutRollbacks(chain: TaskChain): TaskChain {
    chain.(steps := seq(|chain.steps|, i requires 0 <= i < |chain.steps| => ChainStep(chain.steps[i].task, None)))
  }

  lemma {:induction false} UndoIdle<S(!new)>(env: Env<S>, chain: TaskChain, targets: seq<nat>, w: World<S>)
    requires forall j | 0 <= j < |targets| :: targets[j] < |chain.steps|
    requires TokenIsHonest(env) && Inert(env, chain) && env.cancelled(w.now)
    ensures UndoSteps(env, chain, targets, w).state == w.state
  {
    if targets != [] {
      var w1 := UndoStep(env, chain, targets[0], w);
      assert w.now <= w.now + 1 && w.now <= w1.now;
      UndoIdle(env, chain, targets[1..], w1);
    }
  }

  lemma {:induction false} UndoNothing<S>(env: Env<S>, chain: TaskChain, targets: seq<nat>, w: World<S>)
    requires forall j | 0 <= j < |targets| :: targets[j] < |chain.steps|
    requires forall i | 0 <= i < |chain.steps| :: chain.steps[i].rollback == None
    ensures UndoSteps(env, chain, targets, w) == w
  {
    if targets != [] {
      UndoNothing(env, chain, targets[1..], w);
    }
  }

  /** A step reports the same thing and changes the host in the same way in both chains. */
  lemma SameStep<S>(env: Env<S>, chain: TaskChain, i: nat, w: World<S>, w': World<S>)
    requires i < |chain.steps| && w'.now == w.now && w'.state == w.state
    ensures var (r, w1) := DoStep(env, chain, i, w);
            var (r', w1') := DoStep(env, WithoutRollbacks(chain), i, w');
            r == r' && w1'.now == w1.now && w1'.state == w1.state
  {
  }

  lemma RollbackIdle<S(!new)>(env: Env<S>, chain: TaskChain, i: nat, w: World<S>, w': World<S>)
    requires i < |chain.steps| && w'.state == w.state
    requires TokenIsHonest(env) && Inert(env, chain) && env.cancelled(w.now)
    ensures Rollback(env, chain, i, w).state == Rollback(env, WithoutRollbacks(chain), i, w').state
  {
    var mark := RollbackStarted(chain.id, chain.onFailure, i);
    UndoIdle(env, chain, Targets(chain.onFailure, i), Record(w, mark));
    UndoNothing(env, WithoutRollbacks(chain), Targets(chain.onFailure, i), Record(w', mark));
  }

  lemma {:induction false} RunsAlike<S(!new)>(env: Env<S>, chain: TaskChain, i: nat,
                                              results: seq<TaskResult>, w: World<S>, w': World<S>)
    requires i <= |chain.steps| && |results| == i && !Broke(results)
    requires TokenIsHonest(env) && Inert(env, chain)
    requires w'.now == w.now && w'.state == w.state
    requires CancelledInStep(chain, RunFrom(env, chain, i, results, w).results)
    ensures RunFrom(env, chain, i, results, w).world.state
            == RunFrom(env, WithoutRollbacks(chain), i, results, w').world.state
    decreases |chain.steps| - i
  {
    hide TokenIsHonest, Inert, DoStep, Rollback;
    var bare := WithoutRollbacks(chain);
    var (r, w1) := DoStep(env, chain, i, w.(now := w.now + 1));
    var (r', w1') := DoStep(env, bare, i, w'.(now := w'.now + 1));
    SameStep(env, chain, i, w.(now := w.now + 1), w'.(now := w'.now + 1));
    if r.Status() == Success {
      RunsAlike(env, chain, i + 1, results + [r], w1, w1');
    } else {
      CancelledStepSetsToken(env, chain, i, w.(now := w.now + 1));
      RollbackIdle(env, chain, i, w1, w1');
    }
  }

  /** Where such rollbacks are stopped before they do anything, the host ends as if the chain had none. */
  lemma CancelDefeatsRollback<S(!new)>(env: Env<S>, chain: TaskChain, w: World<S>)
    requires TokenIsHonest(env) && Inert(env, chain)
    requires CancelledInStep(chain, RunChain(env, chain, w).results)
    ensures RunChain(env, chain, w).world.state == RunChain(env, WithoutRollbacks(chain), w).world.state
  {
    var begun := Record(w, Started(chain.id, |chain.steps|));
    RunsAlike(env, chain, 0, [], begun, begun);
  }

  // The counter again, cancelled while step 0 runs: commands started later are killed at once.

  function CancelledCounterEnv(): Env<int> {
    Env((t, task) => Ok(map[]),
        (t, call, s) => (Report(if t >= 2 then Cancelled else Success, None, "", "", 0, 0, None), if t >= 3 then s else s + 1),
        t => t >= 3, t => 0)
  }

  /** The premises can be met, and then a step's change stays although its rollback was attempted. */
  lemma CancelLeavesStepInPlace(n: int)
    ensures var env, chain, w := CancelledCounterEnv(), CounterChain(RollbackAll), World(0, n, []);
            var o := RunChain(env, chain, w);
            && TokenIsHonest(env) && Inert(env, chain) && CancelledInStep(chain, o.results)
            && (exists j :: 0 <= j < |o.world.log| && o.world.log[j].Undid? && o.world.log[j].step == 0)
            && o.world.state == n + 1
  {
    var env, chain, w := CancelledCounterEnv(), CounterChain(RollbackAll), World(0, n, []);
    var begun := Record(w, Started(9, 2));
    Turn(env, chain, 0, [], begun);
    var (r, w1) := DoStep(env, chain, 0, begun.(now := 1));
    assert w1.state == n + 1 && w1.now == 3;
    var marked := Record(w1, RollbackStarted(9, RollbackAll, 0));
    UndoUnfolds(env, chain, 0, marked);
    var w2 := UndoStep(env, chain, 0, marked);
    assert w2.log[|w2.log| - 1].Undid? && w2.state == n + 1;
  }
}
