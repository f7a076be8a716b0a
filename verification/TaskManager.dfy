/**
 The task manager and the shutdown drain as code on shared state. Each small
 method is one step of the agent's machine and keeps its invariant; a whole
 submission, the end of a task and the drain are runs of such steps, with any
 steps of others in between.
 */
module TaskManager {
  import opened Types
  import opened Agent
  import opened AgentLaws

  // ---------------------------------------------------------------- Runs of steps

  /** Where these steps lead from `s`, if each is enabled in its turn. */
  ghost function After(s: State, labels: seq<Label>): Option<State> {
    if labels == [] then Some(s)
    else
      var m := After(s, labels[..|labels| - 1]);
      var l := labels[|labels| - 1];
      if m.Some? && Enabled(m.value, l) then Some(Next(m.value, l)) else None
  }

  lemma AfterAppend(s: State, labels: seq<Label>, l: Label)
    ensures var m := After(s, labels);
            After(s, labels + [l]) == if m.Some? && Enabled(m.value, l) then Some(Next(m.value, l)) else None
  {
    assert (labels + [l])[..|labels|] == labels;
  }

  lemma RunAppend(permits: nat, states: seq<State>, labels: seq<Label>, l: Label)
    requires IsRun(permits, states, labels) && Enabled(states[|labels|], l)
    ensures IsRun(permits, states + [Next(states[|labels|], l)], labels + [l])
  {
    hide Next, Enabled, Init;
  }

  /** Such steps extend a run of the agent to a run of the agent. */
  lemma {:induction false} RunExtends(permits: nat, states: seq<State>, labels: seq<Label>, more: seq<Label>)
    returns (states': seq<State>)
    requires IsRun(permits, states, labels) && After(states[|labels|], more).Some?
    ensures IsRun(permits, states', labels + more) && states'[|labels + more|] == After(states[|labels|], more).value
  {
    hide IsRun, Next, Enabled;
    IsRunSize(permits, states, labels);
    if more == [] {
      states' := states;
      assert labels + more == labels;
    } else {
      var init, l := more[..|more| - 1], more[|more| - 1];
      var before := RunExtends(permits, states, labels, init);
      IsRunSize(permits, before, labels + init);
      states' := before + [Next(before[|labels + init|], l)];
      RunAppend(permits, before, labels + init, l);
      assert labels + more == labels + init + [l];
    }
  }

  lemma IsRunSize(permits: nat, states: seq<State>, labels: seq<Label>)
    requires IsRun(permits, states, labels)
    ensures |states| == |labels| + 1
  {
  }

  // ---------------------------------------------------------------- A process's own part of the state

  function RowsOf(p: nat, rows: seq<Row>): seq<Row> {
    if rows == [] then []
    else
      var before, r := RowsOf(p, rows[..|rows| - 1]), rows[|rows| - 1];
      if r.ResultRow? && r.origin == p then before + [r] else before
  }

  function MsgsOf(p: nat, msgs: seq<Msg>): seq<Msg> {
    if msgs == [] then []
    else
      var before, m := MsgsOf(p, msgs[..|msgs| - 1]), msgs[|msgs| - 1];
      if m.origin == p then before + [m] else before
  }

  lemma RowsOfAppend(p: nat, rows: seq<Row>, r: Row)
    ensures RowsOf(p, rows + [r]) == if r.ResultRow? && r.origin == p then RowsOf(p, rows) + [r] else RowsOf(p, rows)
  {
    assert (rows + [r])[..|rows|] == rows;
  }

  lemma MsgsOfAppend(p: nat, msgs: seq<Msg>, m: Msg)
    ensures MsgsOf(p, msgs + [m]) == if m.origin == p then MsgsOf(p, msgs) + [m] else MsgsOf(p, msgs)
  {
    assert (msgs + [m])[..|msgs|] == msgs;
  }

  /** A process, the rows it has journaled for its results and the messages it has sent. */
  datatype Own = Own(proc: Proc, rows: seq<Row>, msgs: seq<Msg>)

  function OwnOf(s: State, p: nat): Own
    requires p < |s.procs|
  {
    Own(s.procs[p], RowsOf(p, s.journal), MsgsOf(p, s.sent))
  }

  /** Another task's step leaves a process's part alone. */
  lemma OwnKeptByTask(s: State, p: nat, q: nat, t: TaskStep)
    requires p < |s.procs| && q != p && TaskEnabled(s, q, t)
    ensures p < |TaskNext(s, q, t).procs| && OwnOf(TaskNext(s, q, t), p) == OwnOf(s, p)
  {
    hide Tally, ToJournalRow, Admissible, RowsOf, MsgsOf;
    var s' := TaskNext(s, q, t);
    if s'.journal != s.journal {
      RowsOfAppend(p, s.journal, s'.journal[|s.journal|]);
    }
    if s'.sent != s.sent {
      MsgsOfAppend(p, s.sent, s'.sent[|s.sent|]);
    }
  }

  /** So does the main loop's, once the process is spawned. */
  lemma OwnKeptByMain(s: State, p: nat, m: MainStep)
    requires ProcsOk(s) && p < |s.procs| && s.procs[p].pc != Registered && MainEnabled(s, m)
    ensures p < |MainNext(s, m).procs| && OwnOf(MainNext(s, m), p) == OwnOf(s, p)
    ensures s.main == Closed ==> MainNext(s, m).main == Closed
  {
    hide Tally, RowsOf, MsgsOf;
  }

  lemma TaskKeepsMain(s: State, p: nat, t: TaskStep)
    requires TaskEnabled(s, p, t)
    ensures TaskNext(s, p, t).main == s.main
  {
    hide Tally, ToJournalRow, Admissible;
  }

  function Rows(p: nat, results: seq<TaskResult>): seq<Row> {
    seq(|results|, i requires 0 <= i < |results| => ResultRow(p, i, ToJournalRow(results[i])))
  }

  function Msgs(p: nat, results: seq<TaskResult>): seq<Msg> {
    seq(|results|, i requires 0 <= i < |results| => Msg(p, i, results[i]))
  }

  lemma RowsNext(p: nat, results: seq<TaskResult>, i: nat, rows: seq<Row>, msgs: seq<Msg>)
    requires i < |results|
    ensures rows + Rows(p, results[..i + 1]) == rows + Rows(p, results[..i]) + [ResultRow(p, i, ToJournalRow(results[i]))]
    ensures msgs + Msgs(p, results[..i + 1]) == msgs + Msgs(p, results[..i]) + [Msg(p, i, results[i])]
  {
    hide ToJournalRow;
  }

  lemma NothingReported(p: nat, results: seq<TaskResult>, rows: seq<Row>, msgs: seq<Msg>)
    ensures rows + Rows(p, results[..0]) == rows && msgs + Msgs(p, results[..0]) == msgs
  {
  }

  /** What a process's own steps do to its part. */
  lemma OwnFinish(s: State, p: nat, results: seq<TaskResult>)
    requires TaskEnabled(s, p, Finish(results))
    ensures p < |TaskNext(s, p, Finish(results)).procs|
    ensures OwnOf(TaskNext(s, p, Finish(results)), p)
            == OwnOf(s, p).(proc := Proc(s.procs[p].work, if results == [] then Removing else Journaling(0), results))
  {
    hide Admissible;
  }

  lemma OwnJournal(s: State, p: nat)
    requires TaskEnabled(s, p, Journal)
    ensures p < |TaskNext(s, p, Journal).procs|
    ensures var o, i := OwnOf(s, p), s.procs[p].pc.i;
            OwnOf(TaskNext(s, p, Journal), p)
            == o.(proc := o.proc.(pc := if o.proc.work.Exec? then Auditing(i) else Sending(i)),
                  rows := o.rows + [ResultRow(p, i, ToJournalRow(o.proc.results[i]))])
  {
    hide RowsOf, ToJournalRow;
    var i := s.procs[p].pc.i;
    RowsOfAppend(p, s.journal, ResultRow(p, i, ToJournalRow(s.procs[p].results[i])));
  }

  lemma OwnAudit(s: State, p: nat)
    requires TaskEnabled(s, p, Audit)
    ensures p < |TaskNext(s, p, Audit).procs|
    ensures var o := OwnOf(s, p);
            OwnOf(TaskNext(s, p, Audit), p) == o.(proc := o.proc.(pc := Sending(o.proc.pc.i)))
  {
  }

  lemma OwnSend(s: State, p: nat)
    requires TaskEnabled(s, p, Send)
    ensures p < |TaskNext(s, p, Send).procs|
    ensures var o, i := OwnOf(s, p), s.procs[p].pc.i;
            OwnOf(TaskNext(s, p, Send), p)
            == o.(proc := o.proc.(pc := if i + 1 < |o.proc.results| then Journaling(i + 1) else Removing),
                  msgs := if s.main == Closed then o.msgs else o.msgs + [Msg(p, i, o.proc.results[i])])
  {
    hide MsgsOf;
    var i := s.procs[p].pc.i;
    MsgsOfAppend(p, s.sent, Msg(p, i, s.procs[p].results[i]));
  }

  lemma OwnLeave(s: State, p: nat, t: TaskStep)
    requires t in {Remove, Recount, Release} && TaskEnabled(s, p, t)
    ensures p < |TaskNext(s, p, t).procs|
    ensures var o := OwnOf(s, p);
            OwnOf(TaskNext(s, p, t), p)
            == o.(proc := o.proc.(pc := if t == Remove then Counting
                                        else if t == Recount && Gated(o.proc.work) then Releasing else Finished))
  {
    hide Tally;
  }

  // ---------------------------------------------------------------- The main loop's part of the state

  function WorksOf(procs: seq<Proc>): seq<Work> {
    seq(|procs|, i requires 0 <= i < |procs| => procs[i].work)
  }

  /** The ids whose receipt was recorded. */
  function ReceiptsOf(audit: seq<AuditEvent>): seq<Id> {
    if audit == [] then []
    else
      var before, e := ReceiptsOf(audit[..|audit| - 1]), audit[|audit| - 1];
      if e.Received? then before + [e.id] else before
  }

  lemma ReceiptsAppend(audit: seq<AuditEvent>, e: AuditEvent)
    ensures ReceiptsOf(audit + [e]) == if e.Received? then ReceiptsOf(audit) + [e.id] else ReceiptsOf(audit)
  {
    assert (audit + [e])[..|audit|] == audit;
  }

  /** What was submitted so far, and where the main loop is. */
  datatype Intake = Intake(main: MainPc, works: seq<Work>, receipts: seq<Id>)

  function IntakeOf(s: State): Intake {
    Intake(s.main, WorksOf(s.procs), ReceiptsOf(s.audit))
  }

  lemma IntakeKept(s: State, p: nat, t: TaskStep)
    requires TaskEnabled(s, p, t)
    ensures IntakeOf(TaskNext(s, p, t)) == IntakeOf(s)
  {
    hide Tally, ToJournalRow, Admissible, ReceiptsOf;
    var s' := TaskNext(s, p, t);
    assert |s'.procs| == |s.procs|;
    assert forall q | 0 <= q < |s.procs| :: s'.procs[q].work == s.procs[q].work;
    if s'.audit != s.audit {
      ReceiptsAppend(s.audit, s'.audit[|s.audit|]);
    }
  }

  lemma IntakeNext(s: State)
    requires MainEnabled(s, NextItem)
    ensures var n, items := IntakeOf(s), s.main.items;
            IntakeOf(MainNext(s, NextItem))
            == n.(main := Handling(items[0], items[1..]), receipts := n.receipts + [ItemId(items[0])])
  {
    hide ReceiptsOf;
    ReceiptsAppend(s.audit, Received(ItemId(s.main.items[0])));
  }

  lemma IntakeHandle(s: State)
    requires MainEnabled(s, HandleItem)
    ensures var n, item, items := IntakeOf(s), s.main.item, s.main.items;
            IntakeOf(MainNext(s, HandleItem))
            == if item.Cancel? then n.(main := Submitting(items))
               else n.(main := Publishing(|s.procs|, items), works := n.works + [item.work])
  {
    hide ReceiptsOf;
  }

  lemma IntakePublish(s: State)
    requires MainEnabled(s, PublishCounts)
    ensures IntakeOf(MainNext(s, PublishCounts)) == IntakeOf(s).(main := Submitting(s.main.items))
  {
    hide ReceiptsOf, Tally;
  }

  /** The work that a batch of items submits. */
  function WorksIn(items: seq<Item>): seq<Work> {
    if items == [] then []
    else
      var before, item := WorksIn(items[..|items| - 1]), items[|items| - 1];
      if item.Cancel? then before else before + [item.work]
  }

  /** The id a received item came with. */
  predicate CameUnder(item: Item, id: Id) {
    match item
    case Cancel(own, _) => id == own
    case Submit(Exec(task)) => id == task.id
    case Submit(Routed(own)) => id == own
    case Submit(Chained(chain)) => id == chain.id
  }

  lemma IdsAreTheItems(items: seq<Item>)
    ensures |IdsIn(items)| == |items| && forall i | 0 <= i < |items| :: CameUnder(items[i], IdsIn(items)[i])
  {
  }

  function IdsIn(items: seq<Item>): seq<Id> {
    seq(|items|, i requires 0 <= i < |items| => ItemId(items[i]))
  }

  lemma ItemsNext(items: seq<Item>, k: nat, works: seq<Work>, ids: seq<Id>)
    requires k < |items|
    ensures works + WorksIn(items[..k + 1])
            == if items[k].Cancel? then works + WorksIn(items[..k]) else works + WorksIn(items[..k]) + [items[k].work]
    ensures ids + IdsIn(items[..k + 1]) == ids + IdsIn(items[..k]) + [ItemId(items[k])]
  {
    assert items[..k + 1][..k] == items[..k];
  }

  lemma NothingSubmitted(items: seq<Item>, works: seq<Work>, ids: seq<Id>)
    ensures works + WorksIn(items[..0]) == works && ids + IdsIn(items[..0]) == ids && items[0..] == items
  {
  }

  // ---------------------------------------------------------------- Manager

  class Manager {
    ghost const permits: nat
    var free: nat
    var active: map<Id, Entry>
    var tokens: set<nat>
    var counts: Counts
    var journal: seq<Row>
    var audit: seq<AuditEvent>
    var channel: seq<Msg>
    var sent: seq<Msg>
    var handed: seq<Msg>
    var procs: seq<Proc>
    var main: MainPc
    var shutdown: bool

    function View(): State
      reads this
    {
      State(free, active, tokens, counts, journal, audit, channel, sent, handed, procs, main, shutdown)
    }

    ghost predicate Valid()
      reads this
    {
      Inv(permits, View())
    }

    constructor (maxConcurrent: nat)
      ensures Valid() && permits == maxConcurrent && View() == Init(maxConcurrent)
    {
      hide Inv;
      permits := maxConcurrent;
      free, active, tokens, counts := maxConcurrent, map[], {}, Counts(0, 0, 0);
      journal, audit, channel, sent, handed, procs := [], [], [], [], [], [];
      main, shutdown := Idle, false;
      InvInit(maxConcurrent);
    }

    // -------------------------------------------------------------- Others

    method Assign(s: State)
      modifies this
      ensures View() == s
    {
      free, active, tokens, counts, journal, audit := s.free, s.active, s.tokens, s.counts, s.journal, s.audit;
      channel, sent, handed, procs, main, shutdown := s.channel, s.sent, s.handed, s.procs, s.main, s.shutdown;
    }

    /** The scheduler lets someone take this step. */
    method Apply(l: Label)
      requires Valid() && Enabled(View(), l)
      modifies this
      ensures Valid() && View() == Next(old(View()), l)
    {
      hide Inv, Next, Enabled;
      InvNext(permits, View(), l);
      var s := Next(View(), l);
      Assign(s);
    }

    /** Tasks run on while the main loop waits: those of these steps happen that can. */
    method TasksRun(steps: seq<(nat, TaskStep)>, ghost begun: State, ghost labels: seq<Label>)
      returns (ghost labels': seq<Label>)
      requires Valid() && After(begun, labels) == Some(View())
      modifies this
      ensures Valid() && After(begun, labels') == Some(View())
      ensures IntakeOf(View()) == old(IntakeOf(View()))
      ensures handed == old(handed) && old(sent) <= sent
    {
      hide Inv, After, TaskNext, TaskEnabled, IntakeOf;
      labels' := labels;
      for k := 0 to |steps|
        invariant Valid() && After(begun, labels') == Some(View())
        invariant IntakeOf(View()) == old(IntakeOf(View()))
        invariant handed == old(handed) && old(sent) <= sent
      {
        var (p, t) := steps[k];
        if Enabled(View(), Task(p, t)) {
          AfterAppend(begun, labels', Task(p, t));
          IntakeKept(View(), p, t);
          HistoryKept(View(), p, t);
          Apply(Task(p, t));
          labels' := labels' + [Task(p, t)];
        }
      }
    }

    /** Everyone but a spawned process runs on: those of these steps happen that can. */
    method OthersRun(p: nat, steps: seq<Label>, ghost begun: State, ghost labels: seq<Label>)
      returns (ghost labels': seq<Label>)
      requires Valid() && p < |procs| && procs[p].pc != Registered && After(begun, labels) == Some(View())
      modifies this
      ensures Valid() && After(begun, labels') == Some(View())
      ensures p < |procs| && OwnOf(View(), p) == old(OwnOf(View(), p))
      ensures old(main) == Closed ==> main == Closed
    {
      hide Inv, After, RowsOf, MsgsOf, TaskNext, TaskEnabled, MainNext, MainEnabled;
      labels' := labels;
      for k := 0 to |steps|
        invariant Valid() && After(begun, labels') == Some(View())
        invariant p < |procs| && OwnOf(View(), p) == old(OwnOf(View(), p))
        invariant old(main) == Closed ==> main == Closed
      {
        var l := steps[k];
        if Enabled(View(), l) && !(l.Task? && l.p == p) {
          AfterAppend(begun, labels', l);
          match l {
            case Task(q, t) =>
              OwnKeptByTask(View(), p, q, t);
              TaskKeepsMain(View(), q, t);
            case Main(m) =>
              ProcsOfInv(permits, View());
              OwnKeptByMain(View(), p, m);
          }
          Apply(l);
          labels' := labels' + [l];
        }
      }
    }

    // -------------------------------------------------------------- Submission

    /** Count the active tasks by kind and publish, under one lock. */
    method UpdateCounts()
      modifies this`counts
      ensures View() == old(View()).(counts := Tally(old(active)))
    {
      var oneshot := CountKind(active, Oneshot);
      var continuous := CountKind(active, Continuous);
      counts := Counts(U32(oneshot), U32(continuous), U32(U32(oneshot) + U32(continuous)));
    }

    method Receive(items: seq<Item>)
      requires Valid() && main == Idle
      modifies this`main
      ensures Valid() && View() == Next(old(View()), Main(ReceiveWork(items))) && main == Submitting(items)
    {
      hide Inv;
      InvNext(permits, View(), Main(ReceiveWork(items)));
      main := Submitting(items);
    }

    /** Record the next item's receipt. */
    method AcceptItem()
      requires Valid() && Enabled(View(), Main(NextItem))
      modifies this`audit, this`main
      ensures Valid() && View() == Next(old(View()), Main(NextItem))
    {
      hide Inv;
      InvNext(permits, View(), Main(NextItem));
      audit := audit + [Received(ItemId(main.items[0]))];
      main := Handling(main.items[0], main.items[1..]);
    }

    /** Enter a task into the active map, or set the token of the entry a cancel names. */
    method Register()
      requires Valid() && Enabled(View(), Main(HandleItem))
      modifies this`active, this`procs, this`tokens, this`main
      ensures Valid() && View() == Next(old(View()), Main(HandleItem))
    {
      hide Inv;
      InvNext(permits, View(), Main(HandleItem));
      match main.item {
        case Submit(work) =>
          active := active[WorkId(work) := Entry(|procs|, KindOf(work))];
          main := Publishing(|procs|, main.items);
          procs := procs + [Proc(work, Registered, [])];
        case Cancel(_, target) =>
          if target in active {
            tokens := tokens + {active[target].token};
          }
          main := Submitting(main.items);
      }
    }

    /** Publish the counts after a registration and spawn the task. */
    method PublishAndSpawn()
      requires Valid() && Enabled(View(), Main(PublishCounts))
      modifies this`counts, this`procs, this`main
      ensures Valid() && View() == Next(old(View()), Main(PublishCounts))
    {
      hide Inv;
      InvNext(permits, View(), Main(PublishCounts));
      UpdateCounts();
      var proc := procs[main.origin];
      procs := procs[main.origin := proc.(pc := if Gated(proc.work) then Waiting else Running)];
      main := Submitting(main.items);
    }

    method EndReceive()
      requires Valid() && main == Submitting([])
      modifies this`main
      ensures Valid() && View() == Next(old(View()), Main(EndItems)) && main == Idle
    {
      hide Inv;
      InvNext(permits, View(), Main(EndItems));
      main := Idle;
    }

    /** The receipt of one item, and then its entry or token. */
    method Admit(others: nat -> seq<(nat, TaskStep)>, n: nat, ghost begun: State, ghost labels: seq<Label>)
      returns (ghost labels': seq<Label>)
      requires Valid() && main.Submitting? && main.items != [] && After(begun, labels) == Some(View())
      modifies this
      ensures Valid() && After(begun, labels') == Some(View())
      ensures var was, items := old(IntakeOf(View())), old(main.items);
              var receipts := was.receipts + [ItemId(items[0])];
              if items[0].Cancel? then IntakeOf(View()) == Intake(Submitting(items[1..]), was.works, receipts)
              else
                main.Publishing? && IntakeOf(View())
                == Intake(Publishing(main.origin, items[1..]), was.works + [items[0].work], receipts)
    {
      hide Inv, After, MainNext, TaskEnabled, WorksOf, ReceiptsOf;
      labels' := TasksRun(others(n), begun, labels);
      AfterAppend(begun, labels', Main(NextItem));
      IntakeNext(View());
      AcceptItem();
      labels' := TasksRun(others(n + 1), begun, labels' + [Main(NextItem)]);
      AfterAppend(begun, labels', Main(HandleItem));
      IntakeHandle(View());
      Register();
      labels' := labels' + [Main(HandleItem)];
    }

    /** One item of a batch, from its receipt to the spawned task or the set token. */
    method SubmitItem(others: nat -> seq<(nat, TaskStep)>, n: nat, ghost begun: State, ghost labels: seq<Label>)
      returns (ghost labels': seq<Label>)
      requires Valid() && main.Submitting? && main.items != [] && After(begun, labels) == Some(View())
      modifies this
      ensures Valid() && After(begun, labels') == Some(View())
      ensures var was, items := old(IntakeOf(View())), old(main.items);
              IntakeOf(View())
              == Intake(Submitting(items[1..]),
                        if items[0].Cancel? then was.works else was.works + [items[0].work],
                        was.receipts + [ItemId(items[0])])
    {
      hide Inv, After, MainNext, TaskEnabled, WorksOf, ReceiptsOf;
      labels' := Admit(others, n, begun, labels);
      if main.Publishing? {
        labels' := TasksRun(others(n + 2), begun, labels');
        ProcsOfInv(permits, View());
        AfterAppend(begun, labels', Main(PublishCounts));
        IntakePublish(View());
        PublishAndSpawn();
        labels' := labels' + [Main(PublishCounts)];
      }
    }

    /**
     A received batch as the main loop submits it, with any tasks running
     meanwhile: every task in it is spawned, in order, every receipt is in the
     audit log, in order, and the counts published last are those of the active
     map unless a finished task is about to publish its own.
     */
    method SubmitAll(items: seq<Item>, others: nat -> seq<(nat, TaskStep)>) returns (ghost labels: seq<Label>)
      requires Valid() && main == Idle
      modifies this
      ensures Valid() && After(old(View()), labels) == Some(View()) && main == Idle
      ensures WorksOf(procs) == old(WorksOf(procs)) + WorksIn(items)
      ensures ReceiptsOf(audit) == old(ReceiptsOf(audit)) + IdsIn(items)
      ensures |IdsIn(items)| == |items| && forall i | 0 <= i < |items| :: CameUnder(items[i], IdsIn(items)[i])
      ensures !Pending(View()) ==> counts == Tally(active)
    {
      hide Inv, After, Tally, WorksOf, WorksIn, ReceiptsOf, IdsIn, Pending, Next, TaskEnabled;
      ghost var begun := View();
      assert After(begun, []) == Some(begun) by { AfterNone(begun); }
      AfterAppend(begun, [], Main(ReceiveWork(items)));
      Receive(items);
      labels := [] + [Main(ReceiveWork(items))];
      ghost var was := IntakeOf(begun);
      NothingSubmitted(items, was.works, was.receipts);
      var k := 0;
      while k < |items|
        invariant k <= |items| && Valid() && After(begun, labels) == Some(View())
        invariant IntakeOf(View())
                  == Intake(Submitting(items[k..]), was.works + WorksIn(items[..k]), was.receipts + IdsIn(items[..k]))
      {
        ItemsNext(items, k, was.works, was.receipts);
        assert items[k..][1..] == items[k + 1..];
        labels := SubmitItem(others, 3 * k, begun, labels);
        k := k + 1;
      }
      assert items[..k] == items && items[k..] == [];
      AfterAppend(begun, labels, Main(EndItems));
      EndReceive();
      labels := labels + [Main(EndItems)];
      CountsOfInv(permits, View());
      IdsAreTheItems(items);
    }

    // -------------------------------------------------------------- A task's end

    method Return(p: nat, results: seq<TaskResult>)
      requires Valid() && Enabled(View(), Task(p, Finish(results)))
      modifies this`procs
      ensures Valid() && View() == Next(old(View()), Task(p, Finish(results)))
    {
      hide Inv, Admissible;
      InvNext(permits, View(), Task(p, Finish(results)));
      procs := procs[p := Proc(procs[p].work, if results == [] then Removing else Journaling(0), results)];
    }

    method RecordResult(p: nat)
      requires Valid() && Enabled(View(), Task(p, Journal))
      modifies this`journal, this`procs
      ensures Valid() && View() == Next(old(View()), Task(p, Journal))
    {
      hide Inv, ToJournalRow;
      InvNext(permits, View(), Task(p, Journal));
      var proc := procs[p];
      var i := proc.pc.i;
      journal := journal + [ResultRow(p, i, ToJournalRow(proc.results[i]))];
      procs := procs[p := proc.(pc := if proc.work.Exec? then Auditing(i) else Sending(i))];
    }

    method RecordEnd(p: nat)
      requires Valid() && Enabled(View(), Task(p, Audit))
      modifies this`audit, this`procs
      ensures Valid() && View() == Next(old(View()), Task(p, Audit))
    {
      hide Inv;
      InvNext(permits, View(), Task(p, Audit));
      var proc := procs[p];
      var i := proc.pc.i;
      var status := proc.results[i].Status();
      audit := audit + [Ended(p, i, WorkId(proc.work), EndType(status), status)];
      procs := procs[p := proc.(pc := Sending(i))];
    }

    /** Into the channel if its receiver is still there; the error of a closed channel is ignored. */
    method SendResult(p: nat)
      requires Valid() && Enabled(View(), Task(p, Send))
      modifies this`channel, this`sent, this`procs
      ensures Valid() && View() == Next(old(View()), Task(p, Send))
    {
      hide Inv;
      InvNext(permits, View(), Task(p, Send));
      var proc := procs[p];
      var i := proc.pc.i;
      if main != Closed {
        channel := channel + [Msg(p, i, proc.results[i])];
        sent := sent + [Msg(p, i, proc.results[i])];
      }
      procs := procs[p := proc.(pc := if i + 1 < |proc.results| then Journaling(i + 1) else Removing)];
    }

    method Deregister(p: nat)
      requires Valid() && Enabled(View(), Task(p, Remove))
      modifies this`active, this`procs
      ensures Valid() && View() == Next(old(View()), Task(p, Remove))
    {
      hide Inv;
      InvNext(permits, View(), Task(p, Remove));
      active := active - {WorkId(procs[p].work)};
      procs := procs[p := procs[p].(pc := Counting)];
    }

    method RecountAfter(p: nat)
      requires Valid() && Enabled(View(), Task(p, Recount))
      modifies this`counts, this`procs
      ensures Valid() && View() == Next(old(View()), Task(p, Recount))
    {
      hide Inv;
      InvNext(permits, View(), Task(p, Recount));
      UpdateCounts();
      procs := procs[p := procs[p].(pc := if Gated(procs[p].work) then Releasing else Finished)];
    }

    method ReleasePermit(p: nat)
      requires Valid() && Enabled(View(), Task(p, Release))
      modifies this`free, this`procs
      ensures Valid() && View() == Next(old(View()), Task(p, Release))
    {
      hide Inv;
      InvNext(permits, View(), Task(p, Release));
      free := free + 1;
      procs := procs[p := procs[p].(pc := Finished)];
    }

    /** A result is journaled, for an exec task also audited. */
    method Keep(p: nat, others: nat -> seq<Label>, n: nat, ghost begun: State, ghost labels: seq<Label>)
      returns (ghost labels': seq<Label>)
      requires Valid() && p < |procs| && procs[p].pc.Journaling? && procs[p].pc.i < |procs[p].results|
      requires After(begun, labels) == Some(View())
      modifies this
      ensures Valid() && After(begun, labels') == Some(View()) && (old(main) == Closed ==> main == Closed)
      ensures p < |procs|
      ensures var o, i := old(OwnOf(View(), p)), old(procs[p].pc.i);
              OwnOf(View(), p) == o.(proc := o.proc.(pc := Sending(i)),
                                     rows := o.rows + [ResultRow(p, i, ToJournalRow(o.proc.results[i]))])
    {
      hide Inv, After, ToJournalRow, TaskNext, MainEnabled, Admissible, RowsOf, MsgsOf;
      labels' := OthersRun(p, others(n), begun, labels);
      AfterAppend(begun, labels', Task(p, Journal));
      OwnJournal(View(), p);
      RecordResult(p);
      labels' := labels' + [Task(p, Journal)];
      if procs[p].work.Exec? {
        labels' := OthersRun(p, others(n + 1), begun, labels');
        AfterAppend(begun, labels', Task(p, Audit));
        OwnAudit(View(), p);
        RecordEnd(p);
        labels' := labels' + [Task(p, Audit)];
      }
    }

    /**
     A kept result is sent, unless the channel has no room; into it, unless its
     receiver is gone.
     */
    method TrySend(p: nat, others: seq<Label>, ghost begun: State, ghost labels: seq<Label>)
      returns (ok: bool, taken: bool, ghost labels': seq<Label>)
      requires Valid() && p < |procs| && procs[p].pc.Sending? && procs[p].pc.i < |procs[p].results|
      requires After(begun, labels) == Some(View())
      modifies this
      ensures Valid() && After(begun, labels') == Some(View()) && (old(main) == Closed ==> main == Closed)
      ensures p < |procs| && (taken ==> ok && main != Closed)
      ensures var o, i := old(OwnOf(View(), p)), old(procs[p].pc.i);
              if !ok then OwnOf(View(), p) == o && main != Closed && |channel| == CHANNEL_CAPACITY
              else
                && OwnOf(View(), p)
                   == o.(proc := o.proc.(pc := if i + 1 < |o.proc.results| then Journaling(i + 1) else Removing),
                         msgs := if taken then o.msgs + [Msg(p, i, o.proc.results[i])] else o.msgs)
                && (!taken ==> main == Closed)
    {
      hide Inv, After, TaskNext, MainEnabled, Admissible, RowsOf, MsgsOf;
      labels' := OthersRun(p, others, begun, labels);
      QueueOfInv(permits, View());
      taken := main != Closed && |channel| < CHANNEL_CAPACITY;
      ok := taken || main == Closed;
      if ok {
        AfterAppend(begun, labels', Task(p, Send));
        OwnSend(View(), p);
        TaskKeepsMain(View(), p, Send);
        SendResult(p);
        labels' := labels' + [Task(p, Send)];
      }
    }

    /** After its last result: out of the map, then the counts published. */
    method Withdraw(p: nat, others: nat -> seq<Label>, n: nat, ghost begun: State, ghost labels: seq<Label>)
      returns (ghost labels': seq<Label>)
      requires Valid() && p < |procs| && procs[p].pc == Removing && After(begun, labels) == Some(View())
      modifies this
      ensures Valid() && After(begun, labels') == Some(View()) && (old(main) == Closed ==> main == Closed)
      ensures p < |procs|
      ensures var o := old(OwnOf(View(), p));
              OwnOf(View(), p) == o.(proc := o.proc.(pc := if Gated(o.proc.work) then Releasing else Finished))
    {
      hide Inv, After, Tally, TaskNext, MainEnabled, Admissible, RowsOf, MsgsOf;
      labels' := OthersRun(p, others(n), begun, labels);
      AfterAppend(begun, labels', Task(p, Remove));
      OwnLeave(View(), p, Remove);
      TaskKeepsMain(View(), p, Remove);
      Deregister(p);
      labels' := OthersRun(p, others(n + 1), begun, labels' + [Task(p, Remove)]);
      AfterAppend(begun, labels', Task(p, Recount));
      OwnLeave(View(), p, Recount);
      TaskKeepsMain(View(), p, Recount);
      RecountAfter(p);
      labels' := labels' + [Task(p, Recount)];
    }

    /** And its permit given back, if it has one. */
    method Leave(p: nat, others: nat -> seq<Label>, n: nat, ghost begun: State, ghost labels: seq<Label>)
      returns (ghost labels': seq<Label>)
      requires Valid() && p < |procs| && procs[p].pc == Removing && After(begun, labels) == Some(View())
      modifies this
      ensures Valid() && After(begun, labels') == Some(View()) && (old(main) == Closed ==> main == Closed)
      ensures p < |procs|
      ensures var o := old(OwnOf(View(), p));
              OwnOf(View(), p) == o.(proc := o.proc.(pc := Finished))
    {
      hide Inv, After, TaskNext, MainEnabled, Admissible, RowsOf, MsgsOf;
      labels' := Withdraw(p, others, n, begun, labels);
      if Gated(procs[p].work) {
        labels' := OthersRun(p, others(n + 2), begun, labels');
        AfterAppend(begun, labels', Task(p, Release));
        OwnLeave(View(), p, Release);
        TaskKeepsMain(View(), p, Release);
        ReleasePermit(p);
        labels' := labels' + [Task(p, Release)];
      }
    }

    /** All results in turn, until one finds no room. */
    method ReportAll(p: nat, results: seq<TaskResult>, others: nat -> seq<Label>, ghost begun: State, ghost labels: seq<Label>)
      returns (done: bool, k: nat, m: nat, ghost labels': seq<Label>)
      requires Valid() && After(begun, labels) == Some(View()) && p < |procs|
      requires procs[p].results == results && procs[p].pc == if results == [] then Removing else Journaling(0)
      modifies this
      ensures Valid() && After(begun, labels') == Some(View()) && p < |procs|
      ensures m <= k <= |results| && (main != Closed ==> m == k)
      ensures done ==> k == |results|
      ensures !done ==> k < |results| && main != Closed && |channel| == CHANNEL_CAPACITY
      ensures var was := old(OwnOf(View(), p));
              OwnOf(View(), p)
              == Own(was.proc.(pc := if done then Removing else Sending(k)),
                     was.rows + Rows(p, results[..if done then k else k + 1]), was.msgs + Msgs(p, results[..m]))
    {
      hide Inv, After, ToJournalRow, Rows, Msgs, RowsOf, MsgsOf, Enabled, Next;
      ghost var was := OwnOf(View(), p);
      labels' := labels;
      NothingReported(p, results, was.rows, was.msgs);
      done, k, m := true, 0, 0;
      while k < |results|
        invariant m <= k <= |results| && Valid() && After(begun, labels') == Some(View())
        invariant main != Closed ==> m == k
        invariant p < |procs|
        invariant OwnOf(View(), p)
                  == Own(was.proc.(pc := if k < |results| then Journaling(k) else Removing),
                         was.rows + Rows(p, results[..k]), was.msgs + Msgs(p, results[..m]))
      {
        RowsNext(p, results, k, was.rows, was.msgs);
        labels' := Keep(p, others, 3 * k, begun, labels');
        var taken;
        done, taken, labels' := TrySend(p, others(3 * k + 2), begun, labels');
        if !done {
          return;
        }
        assert taken ==> m == k;
        k, m := k + 1, if taken then m + 1 else m;
      }
    }

    /**
     The rest of a task's life once its execution has returned, with anything
     happening in between. It ends, or waits for room in the channel. Until then
     it has journaled each result it got to, once and in order, and sent all
     before the one it waits with, as long as there was a receiver.
     */
    method Complete(p: nat, results: seq<TaskResult>, others: nat -> seq<Label>)
      returns (done: bool, k: nat, m: nat, ghost labels: seq<Label>)
      requires Valid() && Enabled(View(), Task(p, Finish(results)))
      modifies this
      ensures Valid() && After(old(View()), labels) == Some(View())
      ensures p < |procs| && procs[p].work == old(procs[p].work) && procs[p].results == results
      ensures m <= k <= |results| && (main != Closed ==> m == k)
      ensures done ==> k == |results| && procs[p].pc == Finished
      ensures !done ==> k < |results| && procs[p].pc == Sending(k) && main != Closed && |channel| == CHANNEL_CAPACITY
      ensures RowsOf(p, journal) == old(RowsOf(p, journal)) + Rows(p, if done then results else results[..k + 1])
      ensures MsgsOf(p, sent) == old(MsgsOf(p, sent)) + Msgs(p, results[..m])
    {
      hide Inv, After, ToJournalRow, Admissible, Rows, Msgs, RowsOf, MsgsOf, TaskNext, MainEnabled;
      ghost var begun := View();
      ghost var was := OwnOf(begun, p);
      assert After(begun, []) == Some(begun) by { AfterNone(begun); }
      AfterAppend(begun, [], Task(p, Finish(results)));
      OwnFinish(View(), p, results);
      Return(p, results);
      labels := [] + [Task(p, Finish(results))];
      done, k, m, labels := ReportAll(p, results, others, begun, labels);
      if done {
        assert results[..k] == results;
        labels := Leave(p, others, 3 * k, begun, labels);
      }
    }

    // -------------------------------------------------------------- Drain

    method HandOne()
      requires Valid() && Enabled(View(), Main(DrainOne))
      modifies this`handed, this`channel
      ensures Valid() && View() == Next(old(View()), Main(DrainOne))
      ensures handed == old(handed) + [old(channel[0])] && channel == old(channel)[1..]
    {
      hide Inv;
      InvNext(permits, View(), Main(DrainOne));
      handed := handed + [channel[0]];
      channel := channel[1..];
    }

    method EndDraining()
      requires Valid() && Enabled(View(), Main(EndDrain))
      modifies this`main
      ensures Valid() && View() == Next(old(View()), Main(EndDrain)) && main == Drained
    {
      hide Inv;
      InvNext(permits, View(), Main(EndDrain));
      main := Drained;
    }

    /**
     The shutdown drain. While each result is being reported, tasks run on and may
     send more; when the loop ends, everything sent has been handed over and counted.
     */
    method Drain(meanwhile: seq<seq<(nat, TaskStep)>>) returns (drained: nat, ghost labels: seq<Label>)
      requires Valid() && main == Draining
      modifies this
      ensures Valid() && After(old(View()), labels) == Some(View()) && main == Drained
      ensures channel == [] && handed == sent && old(sent) <= sent
      ensures old(handed) <= handed && |handed| == |old(handed)| + drained
    {
      hide Inv, After, Next, TaskEnabled;
      ghost var begun := View();
      assert After(begun, []) == Some(begun) by { AfterNone(begun); }
      drained, labels := 0, [];
      while channel != []
        invariant Valid() && main == Draining && After(begun, labels) == Some(View()) && begun.sent <= sent
        invariant begun.handed <= handed && |handed| == |begun.handed| + drained
        decreases if drained < |meanwhile| then |meanwhile| - drained else 0, |channel|
      {
        AfterAppend(begun, labels, Main(DrainOne));
        HandOne();
        labels := labels + [Main(DrainOne)];
        if drained < |meanwhile| {
          labels := TasksRun(meanwhile[drained], begun, labels);
        }
        drained := drained + 1;
      }
      QueueOfInv(permits, View());
      assert handed + [] == handed;
      AfterAppend(begun, labels, Main(EndDrain));
      EndDraining();
      labels := labels + [Main(EndDrain)];
    }
  }

  lemma AfterNone(s: State)
    ensures After(s, []) == Some(s)
  {
  }

  lemma HistoryKept(s: State, p: nat, t: TaskStep)
    requires TaskEnabled(s, p, t)
    ensures TaskNext(s, p, t).handed == s.handed && s.sent <= TaskNext(s, p, t).sent
  {
    hide Tally, ToJournalRow, Admissible;
  }

  lemma ProcsOfInv(permits: nat, s: State)
    requires Inv(permits, s)
    ensures ProcsOk(s)
  {
  }

  lemma CountsOfInv(permits: nat, s: State)
    requires Inv(permits, s)
    ensures !Pending(s) ==> s.counts == Tally(s.active)
  {
  }

  lemma QueueOfInv(permits: nat, s: State)
    requires Inv(permits, s)
    ensures s.handed + s.channel == s.sent && |s.channel| <= CHANNEL_CAPACITY
  {
  }

  method CountKind(active: map<Id, Entry>, kind: ExecKind) returns (n: nat)
    ensures n == |OfKind(active, kind)|
  {
    n := 0;
    var left := active.Keys;
    ghost var all := OfKind(active, kind);
    assert all * left == all;
    while left != {}
      invariant left <= active.Keys
      invariant n + |all * left| == |all|
      decreases left
    {
      var id :| id in left;
      DropOne(all, left, id);
      if active[id].kind == kind {
        n := n + 1;
      }
      left := left - {id};
    }
    assert all * left == {};
  }

  lemma DropOne(kind: set<Id>, left: set<Id>, id: Id)
    requires id in left
    ensures |kind * left| == |kind * (left - {id})| + if id in kind then 1 else 0
  {
    assert kind * left == kind * (left - {id}) + if id in kind then {id} else {};
  }
}
