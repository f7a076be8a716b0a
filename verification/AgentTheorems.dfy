/** The agent's guarantees over whole runs. */
module AgentTheorems {
  import opened Types
  import opened ChainLaws
  import opened Agent
  import opened AgentLaws

  lemma RunStep(permits: nat, states: seq<State>, labels: seq<Label>, i: nat)
    requires IsRun(permits, states, labels) && i + 1 < |states|
    ensures i < |labels|
    ensures Enabled(states[i], labels[i]) && states[i + 1] == Next(states[i], labels[i])
  {
  }

  // ---------------------------------------------------------------- Permits

  /** The gated tasks that are executing, as opposed to reporting or winding down. */
  function Executing(procs: seq<Proc>): set<nat> {
    set p: nat | p < |procs| && (procs[p].work.Exec? || procs[p].work.Chained?) && procs[p].pc == Running
  }

  /**
   Permit conservation: in every reachable state the free permits and the exec
   tasks and chains past their acquire add up to the size the semaphore was
   created with, so no more than that many ever execute at once.
   */
  lemma PermitsConserved(permits: nat, states: seq<State>, labels: seq<Label>, n: nat)
    requires IsRun(permits, states, labels) && n < |states|
    ensures states[n].free + |Holders(states[n].procs)| == permits
    ensures |Executing(states[n].procs)| <= permits
  {
    Reachable(permits, states, labels, n);
    Subset(Executing(states[n].procs), Holders(states[n].procs));
  }

  lemma {:induction false} Subset(a: set<nat>, b: set<nat>)
    requires a <= b
    ensures |a| <= |b|
  {
    if a != {} {
      var x :| x in a;
      Subset(a - {x}, b - {x});
    }
  }

  // ---------------------------------------------------------------- Delivery

  /**
   Over every interleaving: at most 256 results are queued; the transport is
   given results in channel order; each one was journaled before; and the
   results of one task are given at most once each, in order.
   */
  lemma ResultsDelivered(permits: nat, states: seq<State>, labels: seq<Label>, n: nat)
    requires IsRun(permits, states, labels) && n < |states|
    ensures |states[n].channel| <= 256
    ensures states[n].handed + states[n].channel == states[n].sent
    ensures forall a | 0 <= a < |states[n].handed| ::
              var m := states[n].handed[a];
              && m.origin < |states[n].procs|
              && m.index < |states[n].procs[m.origin].results|
              && m.result == states[n].procs[m.origin].results[m.index]
              && ResultRow(m.origin, m.index, ToJournalRow(m.result)) in states[n].journal
    ensures MsgsOrdered(states[n].handed)
  {
    Reachable(permits, states, labels, n);
    hide ToJournalRow;
    var s := states[n];
    forall a | 0 <= a < |s.handed|
      ensures IsMsgOf(s.procs, s.handed[a])
      ensures ResultRow(s.handed[a].origin, s.handed[a].index, ToJournalRow(s.handed[a].result)) in s.journal
    {
      assert s.handed[a] == s.sent[a];
      var proc := s.procs[s.sent[a].origin];
      assert PcOk(proc) && Sent(proc) <= Journaled(proc) <= |proc.results|;
    }
    forall a, b | 0 <= a < b < |s.handed| && s.handed[a].origin == s.handed[b].origin
      ensures s.handed[a].index < s.handed[b].index
    {
      assert s.handed[a] == s.sent[a] && s.handed[b] == s.sent[b];
    }
  }

  /**
   The journal holds the results of the tasks, each at most once and in a task's
   own order, the ticks of continuous tasks under their own id, and nothing else.
   */
  lemma JournalHoldsOnly(permits: nat, states: seq<State>, labels: seq<Label>, n: nat)
    requires IsRun(permits, states, labels) && n < |states|
    ensures var s := states[n];
            && (forall a | 0 <= a < |s.journal| ::
                  && s.journal[a].origin < |s.procs|
                  && var proc := s.procs[s.journal[a].origin];
                     match s.journal[a]
                     case ResultRow(_, i, row) => i < |proc.results| && row == ToJournalRow(proc.results[i])
                     case TickRow(_, row) =>
                       proc.work.Exec? && proc.work.task.kind == Continuous && row.taskId == proc.work.task.id)
            && RowsOrdered(s.journal)
  {
    Reachable(permits, states, labels, n);
    var s := states[n];
    hide ToJournalRow;
    forall a | 0 <= a < |s.journal| ensures IsRowOf(s.procs, s.journal[a]) {}
  }

  /** The transport sees a chain's results under the chain's id, in increasing step order. */
  lemma ChainResultsInOrder(permits: nat, states: seq<State>, labels: seq<Label>, n: nat, a: nat, b: nat)
    requires IsRun(permits, states, labels) && n < |states|
    requires a < b < |states[n].handed| && states[n].handed[a].origin == states[n].handed[b].origin < |states[n].procs|
    requires var work := states[n].procs[states[n].handed[a].origin].work;
             work.Chained? && |work.chain.steps| <= TWO_32
    ensures var chain := states[n].procs[states[n].handed[a].origin].work.chain;
            var ra, rb := states[n].handed[a].result, states[n].handed[b].result;
            && ra.chainId == rb.chainId == Some(chain.id)
            && ra.stepIndex.Some? && rb.stepIndex.Some?
            && ra.stepIndex.value < rb.stepIndex.value < |chain.steps|
            && rb.taskId == chain.steps[rb.stepIndex.value].task.id
            && ra.Status() == Success
  {
    hide IsRun, Inv, ToJournalRow, ResultsShape;
    ResultsDelivered(permits, states, labels, n);
    Reachable(permits, states, labels, n);
    var ma, mb := states[n].handed[a], states[n].handed[b];
    var proc := states[n].procs[ma.origin];
    ShapeOfReturns(permits, states[n], ma.origin);
    StepsNumbered(proc.work.chain, proc.results, ma.index, mb.index);
  }

  lemma StepsNumbered(chain: TaskChain, results: seq<TaskResult>, i: nat, j: nat)
    requires ResultsShape(chain, results) && i < j < |results| && |chain.steps| <= TWO_32
    ensures results[i].chainId == results[j].chainId == Some(chain.id)
    ensures results[i].stepIndex == Some(i) && results[j].stepIndex == Some(j) && j < |chain.steps|
    ensures results[j].taskId == chain.steps[j].task.id && results[i].Status() == Success
  {
  }

  lemma ShapeOfReturns(permits: nat, s: State, p: nat)
    requires Inv(permits, s) && p < |s.procs| && s.procs[p].work.Chained?
    ensures ResultsShape(s.procs[p].work.chain, s.procs[p].results)
  {
  }

  predicate PastDrain(main: MainPc) { main == Drained || main == Closed }

  lemma DrainEnds(s: State)
    requires Enabled(s, Main(EndDrain))
    ensures PastDrain(Next(s, Main(EndDrain)).main) && Next(s, Main(EndDrain)).handed == s.handed
  {
  }

  lemma DrainIsFinal(s: State, l: Label)
    requires Enabled(s, l) && PastDrain(s.main)
    ensures PastDrain(Next(s, l).main) && Next(s, l).handed == s.handed
  {
    hide Tally, ToJournalRow, Admissible;
  }

  lemma {:induction false} HandedAfterDrain(permits: nat, states: seq<State>, labels: seq<Label>, j: nat, n: nat)
    requires IsRun(permits, states, labels) && j < n < |states|
    requires labels[j] == Main(EndDrain)
    ensures PastDrain(states[n].main) && states[n].handed == states[j].handed
  {
    hide IsRun, Next, Enabled, PastDrain;
    RunStep(permits, states, labels, n - 1);
    if n == j + 1 {
      DrainEnds(states[j]);
    } else {
      HandedAfterDrain(permits, states, labels, j, n - 1);
      DrainIsFinal(states[n - 1], labels[n - 1]);
    }
  }

  /**
   The shutdown drain is the cut: when it ends at step `j`, everything sent so
   far has been handed over, including every result of a task that got past its
   sends; whatever is sent later stays in the journal and is never handed over.
   */
  lemma DrainHandsOverWhatWasSent(permits: nat, states: seq<State>, labels: seq<Label>, j: nat, n: nat)
    requires IsRun(permits, states, labels) && j < n < |states|
    requires labels[j] == Main(EndDrain)
    ensures states[n].handed == states[j].sent
    ensures forall p, i | 0 <= p < |states[j].procs| && 0 <= i < Sent(states[j].procs[p]) && i < |states[j].procs[p].results| ::
              Msg(p, i, states[j].procs[p].results[i]) in states[n].handed
  {
    Reachable(permits, states, labels, j);
    HandedAfterDrain(permits, states, labels, j, n);
    var s := states[j];
    RunStep(permits, states, labels, j);
    assert s.channel == [] && s.main == Draining && s.handed == s.sent;
    forall p, i | 0 <= p < |s.procs| && 0 <= i < Sent(s.procs[p]) && i < |s.procs[p].results|
      ensures Msg(p, i, s.procs[p].results[i]) in s.sent
    {
      assert PcOk(s.procs[p]) && Sent(s.procs[p]) <= |s.procs[p].results|;
    }
  }

  /** The main loop stops receiving, drains and closes the channel only after a shutdown was signalled. */
  lemma {:induction false} DrainNeedsShutdown(permits: nat, states: seq<State>, labels: seq<Label>, n: nat)
    requires IsRun(permits, states, labels) && n < |states|
    requires states[n].main.Draining? || states[n].main.Drained? || states[n].main.Closed?
    ensures exists j: nat :: j < n && j < |labels| && labels[j] == Main(SignalShutdown)
  {
    var j := ShutdownWasSignalled(permits, states, labels, n);
  }

  lemma {:induction false} ShutdownWasSignalled(permits: nat, states: seq<State>, labels: seq<Label>, n: nat) returns (j: nat)
    requires IsRun(permits, states, labels) && n < |states|
    requires states[n].shutdown || states[n].main.Draining? || states[n].main.Drained? || states[n].main.Closed?
    ensures j < n && j < |labels| && labels[j] == Main(SignalShutdown)
  {
    RunStep(permits, states, labels, n - 1);
    hide IsRun;
    if labels[n - 1] == Main(SignalShutdown) {
      j := n - 1;
    } else {
      ShutdownBefore(states[n - 1], labels[n - 1]);
      j := ShutdownWasSignalled(permits, states, labels, n - 1);
    }
  }

  lemma ShutdownBefore(s: State, l: Label)
    requires Enabled(s, l) && l != Main(SignalShutdown)
    requires var s' := Next(s, l); s'.shutdown || s'.main.Draining? || s'.main.Drained? || s'.main.Closed?
    ensures s.shutdown || s.main.Draining? || s.main.Drained? || s.main.Closed?
  {
    match l {
      case Main(_) => hide Tally;
      case Task(p, t) => TaskLeavesMain(s, p, t);
    }
  }

  lemma TaskLeavesMain(s: State, p: nat, t: TaskStep)
    requires TaskEnabled(s, p, t)
    ensures TaskNext(s, p, t).main == s.main && TaskNext(s, p, t).shutdown == s.shutdown
  {
    hide Tally, ToJournalRow, Admissible, EndOf;
  }

  // ---------------------------------------------------------------- Audit

  /** The audit log's name for an outcome. */
  predicate TypeOf(eventType: string, status: Status) {
    && (status == Success <==> eventType == "task.completed")
    && (status == Cancelled <==> eventType == "task.cancelled")
    && (status == Timeout <==> eventType == "task.timeout")
    && (status in {Failed, RolledBack} <==> eventType == "task.failed")
  }

  /**
   The audit log tells every exec task's outcome, and nothing else of that kind:
   each end in it is that of one exec process, under its id, with the status of
   its one result and the event type for it; every exec process past its audit
   step has its end there; and none is there twice.
   */
  lemma AuditTellsOutcomes(permits: nat, states: seq<State>, labels: seq<Label>, n: nat)
    requires IsRun(permits, states, labels) && n < |states|
    ensures var s := states[n];
            && (forall a | 0 <= a < |s.audit| && s.audit[a].Ended? ::
                  var e := s.audit[a];
                  && e.origin < |s.procs| && s.procs[e.origin].work.Exec? && e.id == s.procs[e.origin].work.task.id
                  && |s.procs[e.origin].results| == 1 && e.status == s.procs[e.origin].results[0].Status()
                  && TypeOf(e.eventType, e.status))
            && (forall p | 0 <= p < |s.procs| && s.procs[p].work.Exec? && |s.procs[p].results| == 1
                           && !s.procs[p].pc.Journaling? && !s.procs[p].pc.Auditing? ::
                  exists a :: 0 <= a < |s.audit| && s.audit[a].Ended? && s.audit[a].origin == p)
            && (forall a, b | 0 <= a < b < |s.audit| && s.audit[a].Ended? && s.audit[b].Ended? ::
                  s.audit[a].origin != s.audit[b].origin)
  {
    Reachable(permits, states, labels, n);
    var s := states[n];
    OneResult(permits, s);
    forall a | 0 <= a < |s.audit| && s.audit[a].Ended?
      ensures s.audit[a].origin < |s.procs| && s.audit[a].index == 0 && TypeOf(s.audit[a].eventType, s.audit[a].status)
    {
      assert IsEndOf(s.procs, s.audit[a]);
    }
    forall p | 0 <= p < |s.procs| && s.procs[p].work.Exec? && |s.procs[p].results| == 1
               && !s.procs[p].pc.Journaling? && !s.procs[p].pc.Auditing?
      ensures exists a :: 0 <= a < |s.audit| && s.audit[a].Ended? && s.audit[a].origin == p
    {
      assert EndOf(p, 0, s.procs[p]) in s.audit;
    }
  }

  lemma OneResult(permits: nat, s: State)
    requires Inv(permits, s)
    ensures forall p: nat | p < |s.procs| && s.procs[p].work.Exec? && s.procs[p].results != [] :: |s.procs[p].results| == 1
  {
  }

  // ---------------------------------------------------------------- Cancellation

  /** Step `j` handled a cancel naming process `p`'s task while that process's entry was in the map. */
  ghost predicate CancelHandled(states: seq<State>, labels: seq<Label>, j: nat, p: nat, id: Id) {
    && j < |labels| && j < |states|
    && labels[j] == Main(HandleItem)
    && states[j].main.Handling?
    && states[j].main.item.Cancel? && states[j].main.item.target == id
    && id in states[j].active && states[j].active[id].token == p
  }

  /** A step sets no token but that of the entry a handled cancel names. */
  lemma TokenChange(s: State, l: Label, p: nat)
    requires Enabled(s, l) && p in Next(s, l).tokens && p !in s.tokens
    ensures l == Main(HandleItem) && s.main.Handling?
    ensures s.main.item.Cancel? && s.main.item.target in s.active
    ensures s.active[s.main.item.target].token == p
  {
    hide Tally, ToJournalRow, Admissible;
  }

  lemma {:induction false} TokenHistory(permits: nat, states: seq<State>, labels: seq<Label>, n: nat, p: nat) returns (j: nat, id: Id)
    requires IsRun(permits, states, labels) && n < |states| && p in states[n].tokens
    ensures j < n && CancelHandled(states, labels, j, p, id)
    ensures p < |states[j].procs| && WorkId(states[j].procs[p].work) == id
  {
    var m := n - 1;
    RunStep(permits, states, labels, m);
    hide IsRun, Next, Enabled;
    if p in states[m].tokens {
      j, id := TokenHistory(permits, states, labels, m, p);
    } else {
      TokenChange(states[m], labels[m], p);
      j, id := m, states[m].main.item.target;
      Reachable(permits, states, labels, m);
    }
  }

  lemma WorkKept(permits: nat, s: State, l: Label, p: nat)
    requires Inv(permits, s) && Enabled(s, l) && p < |s.procs|
    ensures p < |Next(s, l).procs| && Next(s, l).procs[p].work == s.procs[p].work
  {
    hide MainNext, TaskNext, MainEnabled, TaskEnabled;
    match l {
      case Main(m) => GrowsMain(s, m);
      case Task(q, t) => GrowsTask(s, q, t);
    }
    assert Grows(s.procs[p], Next(s, l).procs[p]);
  }

  /** A process keeps its work for good. */
  lemma {:induction false} WorkStays(permits: nat, states: seq<State>, labels: seq<Label>, j: nat, n: nat, p: nat)
    requires IsRun(permits, states, labels) && j <= n < |states| && p < |states[j].procs|
    ensures p < |states[n].procs| && states[n].procs[p].work == states[j].procs[p].work
  {
    hide IsRun, Inv, Next, Enabled;
    if j < n {
      WorkStays(permits, states, labels, j, n - 1, p);
      RunStep(permits, states, labels, n - 1);
      Reachable(permits, states, labels, n - 1);
      WorkKept(permits, states[n - 1], labels[n - 1], p);
    }
  }

  /** The id a task or chain came with. */
  predicate HasId(work: Work, id: Id) {
    match work
    case Exec(task) => id == task.id
    case Routed(own) => id == own
    case Chained(chain) => id == chain.id
  }

  /** Result `i` of this work comes from the shell executor. */
  predicate ShellBacked(work: Work, i: nat) {
    match work
    case Exec(task) => task.executor == Shell
    case Routed(_) => false
    case Chained(chain) => i < |chain.steps| && chain.steps[i].task.executor == Shell
  }

  /**
   Cancel soundness: a shell-backed result is `Cancelled` only if, earlier in
   the run, a cancel naming that very task or chain was handled while the task's
   own entry was in the active map.
   */
  lemma CancelSound(permits: nat, states: seq<State>, labels: seq<Label>, n: nat, p: nat, i: nat)
    requires IsRun(permits, states, labels) && n < |states|
    requires p < |states[n].procs| && i < |states[n].procs[p].results|
    requires states[n].procs[p].results[i].Status() == Cancelled && ShellBacked(states[n].procs[p].work, i)
    ensures exists j: nat, id :: j < n && CancelHandled(states, labels, j, p, id) && HasId(states[n].procs[p].work, id)
  {
    Reachable(permits, states, labels, n);
    assert p in states[n].tokens;
    var j, id := TokenHistory(permits, states, labels, n, p);
    WorkStays(permits, states, labels, j, n, p);
    assert HasId(states[n].procs[p].work, id);
  }

  /**
   Cancel isolation: handling a cancel for `target` touches the token of the
   process entered under `target` and nothing else of any task.
   */
  lemma CancelIsolated(permits: nat, states: seq<State>, labels: seq<Label>, n: nat)
    requires IsRun(permits, states, labels) && n < |labels|
    requires labels[n] == Main(HandleItem) && states[n].main.Handling? && states[n].main.item.Cancel?
    ensures var target := states[n].main.item.target;
            && states[n + 1].procs == states[n].procs && states[n + 1].active == states[n].active
            && states[n + 1].channel == states[n].channel && states[n + 1].free == states[n].free
            && (forall p: nat | p < |states[n].procs| && !HasId(states[n].procs[p].work, target) ::
                  p in states[n + 1].tokens <==> p in states[n].tokens)
            && (target in states[n].active ==> states[n].active[target].token in states[n + 1].tokens)
  {
    Reachable(permits, states, labels, n);
    RunStep(permits, states, labels, n);
  }

  // ---------------------------------------------------------------- Counts

  /**
   The published counts are the active map's tally by kind, unless a task is
   between its map change and its own update; a publication is never stale,
   because tally and publication share one lock hold.
   */
  lemma CountsFollowTheMap(permits: nat, states: seq<State>, labels: seq<Label>, n: nat)
    requires IsRun(permits, states, labels) && n < |states|
    ensures !Pending(states[n]) ==> states[n].counts == Tally(states[n].active)
    ensures n > 0 && states[n].counts != states[n - 1].counts ==>
              states[n].counts == Tally(states[n].active) && states[n].active == states[n - 1].active
    ensures states[n].counts.total == U32(states[n].counts.oneshot + states[n].counts.continuous)
  {
    Reachable(permits, states, labels, n);
    if n > 0 && states[n].counts != states[n - 1].counts {
      hide IsRun, Inv, Next, Enabled, Tally;
      RunStep(permits, states, labels, n - 1);
      PublicationIsCurrent(states[n - 1], labels[n - 1]);
    }
  }

  lemma PublicationIsCurrent(s: State, l: Label)
    requires Enabled(s, l) && Next(s, l).counts != s.counts
    ensures Next(s, l).counts == Tally(Next(s, l).active) && Next(s, l).active == s.active
  {
    hide Tally, ToJournalRow, Admissible;
  }

  /** Still in the active map as far as the process itself is concerned. */
  predicate Live(proc: Proc) {
    !proc.pc.Counting? && !proc.pc.Releasing? && !proc.pc.Finished?
  }

  ghost predicate MapIsExact(s: State) {
    && (forall p: nat | p < |s.procs| && Live(s.procs[p]) ::
          WorkId(s.procs[p].work) in s.active && s.active[WorkId(s.procs[p].work)].token == p)
    && (forall id | id in s.active :: s.active[id].token < |s.procs| && Live(s.procs[s.active[id].token]))
  }

  /** Submitting keeps the map an exact image of the live tasks if and only if the id is not in it. */
  lemma SubmitKeepsMapExactIff(s: State, work: Work, rest: seq<Item>)
    requires MapIsExact(s) && ActiveOk(s)
    ensures MapIsExact(Handle(s, Submit(work), rest)) <==> forall id | id in s.active :: !HasId(work, id)
  {
    assert forall id :: HasId(work, id) <==> id == WorkId(work);
    var s' := Handle(s, Submit(work), rest);
    if WorkId(work) in s.active {
      var p := s.active[WorkId(work)].token;
      assert Live(s'.procs[p]) && s'.active[WorkId(s'.procs[p].work)].token != p;
    }
  }

  /** The step does not submit a task under an id that is in the active map. */
  predicate Fresh(s: State, l: Label) {
    l == Main(HandleItem) && s.main.Handling? && s.main.item.Submit? ==> WorkId(s.main.item.work) !in s.active
  }

  lemma MapExactMain(s: State, m: MainStep)
    requires MapIsExact(s) && ActiveOk(s) && ProcsOk(s) && MainEnabled(s, m) && Fresh(s, Main(m))
    ensures MapIsExact(MainNext(s, m))
  {
    hide Tally, ToJournalRow, Admissible;
    if m.HandleItem? && s.main.item.Submit? {
      SubmitKeepsMapExactIff(s, s.main.item.work, s.main.items);
    }
  }

  lemma MapExactKept(s: State, s': State, p: nat)
    requires MapIsExact(s) && s'.active == s.active
    requires p < |s.procs| == |s'.procs| && s'.procs == s.procs[p := s'.procs[p]]
    requires s'.procs[p].work == s.procs[p].work && Live(s'.procs[p]) == Live(s.procs[p])
    ensures MapIsExact(s')
  {
  }

  lemma LiveKept(s: State, p: nat, t: TaskStep)
    requires TaskEnabled(s, p, t) && t != Remove
    ensures var s' := TaskNext(s, p, t);
            && |s'.procs| == |s.procs| && s'.procs == s.procs[p := s'.procs[p]] && s'.active == s.active
            && s'.procs[p].work == s.procs[p].work && Live(s'.procs[p]) == Live(s.procs[p])
  {
    hide ToJournalRow, Tally, Admissible, EndOf;
  }

  lemma MapExactRemove(s: State, p: nat)
    requires MapIsExact(s) && ActiveOk(s) && TaskEnabled(s, p, Remove)
    ensures MapIsExact(TaskNext(s, p, Remove))
  {
  }

  lemma MapExactTask(s: State, p: nat, t: TaskStep)
    requires MapIsExact(s) && ActiveOk(s) && TaskEnabled(s, p, t)
    ensures MapIsExact(TaskNext(s, p, t))
  {
    hide MapIsExact, ActiveOk, TaskNext;
    if t == Remove {
      MapExactRemove(s, p);
    } else {
      LiveKept(s, p, t);
      MapExactKept(s, TaskNext(s, p, t), p);
    }
  }

  lemma {:induction false} MapExactInRuns(permits: nat, states: seq<State>, labels: seq<Label>, n: nat)
    requires IsRun(permits, states, labels) && n < |states|
    requires forall i | 0 <= i < n && i < |labels| :: Fresh(states[i], labels[i])
    ensures MapIsExact(states[n])
  {
    if n == 0 {
      return;
    }
    hide IsRun, MapIsExact, MainNext, TaskNext, MainEnabled, TaskEnabled, Fresh, ActiveOk, ProcsOk;
    RunStep(permits, states, labels, n - 1);
    MapExactInRuns(permits, states, labels, n - 1);
    Reachable(permits, states, labels, n - 1);
    assert ActiveOk(states[n - 1]) && ProcsOk(states[n - 1]) && Fresh(states[n - 1], labels[n - 1]);
    match labels[n - 1] {
      case Main(m) => MapExactMain(states[n - 1], m);
      case Task(p, t) => MapExactTask(states[n - 1], p, t);
    }
  }

  function LiveOfKind(procs: seq<Proc>, kind: ExecKind): set<nat> {
    set p: nat | p < |procs| && Live(procs[p])
                 && (if procs[p].work.Exec? then procs[p].work.task.kind == kind else kind == Oneshot)
  }

  /** Two sets in one-to-one correspondence have the same size. */
  lemma {:induction false} SameSize(a: set<nat>, b: set<Id>, f: map<nat, Id>)
    requires f.Keys == a
    requires forall x | x in a :: f[x] in b
    requires forall y | y in b :: exists x :: x in a && f[x] == y
    requires forall x, y | x in a && y in a && f[x] == f[y] :: x == y
    ensures |a| == |b|
  {
    if a == {} {
      assert b == {};
    } else {
      var x :| x in a;
      var f' := map y | y in a - {x} :: f[y];
      forall y | y in b - {f[x]}
        ensures exists z :: z in a - {x} && f'[z] == y
      {
        var z :| z in a && f[z] == y;
        assert z in a - {x} && f'[z] == y;
      }
      SameSize(a - {x}, b - {f[x]}, f');
    }
  }

  lemma ExactMapCounts(s: State, kind: ExecKind)
    requires MapIsExact(s) && ActiveOk(s)
    ensures |OfKind(s.active, kind)| == |LiveOfKind(s.procs, kind)|
  {
    var live := LiveOfKind(s.procs, kind);
    var f := map p | p in live :: WorkId(s.procs[p].work);
    forall id | id in OfKind(s.active, kind)
      ensures exists p :: p in live && f[p] == id
    {
      assert s.active[id].token in live && f[s.active[id].token] == id;
    }
    SameSize(live, OfKind(s.active, kind), f);
  }

  /**
   As long as no id is submitted while it is live, the published counts are the
   numbers of live one-shot and continuous tasks.
   */
  lemma CountsAreLiveTasks(permits: nat, states: seq<State>, labels: seq<Label>, n: nat)
    requires IsRun(permits, states, labels) && n < |states|
    requires forall i | 0 <= i < n && i < |labels| :: Fresh(states[i], labels[i])
    ensures !Pending(states[n]) ==>
              && states[n].counts.oneshot == U32(|LiveOfKind(states[n].procs, Oneshot)|)
              && states[n].counts.continuous == U32(|LiveOfKind(states[n].procs, Continuous)|)
  {
    MapExactInRuns(permits, states, labels, n);
    Reachable(permits, states, labels, n);
    ExactMapCounts(states[n], Oneshot);
    ExactMapCounts(states[n], Continuous);
  }
}