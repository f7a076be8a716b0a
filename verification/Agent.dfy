/**
 The task manager and the main loop as one interleaved step machine. Every
 spawned task is a program counter; a step is what happens between two points
 where the scheduler may switch: one lock hold, one database statement, one
 channel operation.
 */
module Agent {
  import opened Types
  import opened ChainLaws

  const CHANNEL_CAPACITY := 256

  // ---------------------------------------------------------------- State

  datatype Work = Exec(task: ExecTask) | Routed(id: Id) | Chained(chain: TaskChain)

  function WorkId(w: Work): Id {
    match w
    case Exec(task) => task.id
    case Routed(id) => id
    case Chained(chain) => chain.id
  }

  function KindOf(w: Work): ExecKind {
    if w.Exec? then w.task.kind else Oneshot
  }

  /** Exec tasks and chains wait for a semaphore permit; routed tasks do not. */
  predicate Gated(w: Work) { !w.Routed? }

  datatype Pc =
    | Registered            // in the active map, not spawned yet
    | Waiting               // for a permit
    | Running
    | Journaling(i: nat)    // about to journal result i
    | Auditing(i: nat)
    | Sending(i: nat)       // about to send result i
    | Removing
    | Counting              // out of the active map, counts not published yet
    | Releasing             // about to drop the permit
    | Finished

  datatype Proc = Proc(work: Work, pc: Pc, results: seq<TaskResult>)

  /** A cancellation token is named by the process it was created for. */
  datatype Entry = Entry(token: nat, kind: ExecKind)

  datatype Counts = Counts(oneshot: nat, continuous: nat, total: nat)

  /** A result in flight, with the process it comes from and its position there. */
  datatype Msg = Msg(origin: nat, index: nat, result: TaskResult)

  datatype Row =
    | ResultRow(origin: nat, index: nat, row: JournalRow)
    | TickRow(origin: nat, row: JournalRow)

  datatype AuditEvent =
    | Received(id: Id)
    | Ended(origin: nat, index: nat, id: Id, eventType: string, status: Status)

  datatype Item = Submit(work: Work) | Cancel(id: Id, target: Id)

  datatype MainPc =
    | Idle
    | Submitting(items: seq<Item>)
    | Handling(item: Item, items: seq<Item>)    // its receipt is in the audit log
    | Publishing(origin: nat, items: seq<Item>)
    | Reporting
    | Draining
    | Drained
    | Closed

  /** `handed` and `sent` are histories: what the transport was given and what entered the channel. */
  datatype State = State(
    free: nat,
    active: map<Id, Entry>,
    tokens: set<nat>,
    counts: Counts,
    journal: seq<Row>,
    audit: seq<AuditEvent>,
    channel: seq<Msg>,
    sent: seq<Msg>,
    handed: seq<Msg>,
    procs: seq<Proc>,
    main: MainPc,
    shutdown: bool)

  function Init(permits: nat): State {
    State(permits, map[], {}, Counts(0, 0, 0), [], [], [], [], [], [], Idle, false)
  }

  function OfKind(active: map<Id, Entry>, kind: ExecKind): set<Id> {
    set id | id in active && active[id].kind == kind
  }

  function Tally(active: map<Id, Entry>): Counts {
    var oneshot := U32(|OfKind(active, Oneshot)|);
    var continuous := U32(|OfKind(active, Continuous)|);
    Counts(oneshot, continuous, U32(oneshot + continuous))
  }

  // ---------------------------------------------------------------- Steps

  /**
   What an execution may return. `token` tells whether the task's cancellation
   token is set; only a shell execution's `Cancelled` is tied to it, since a
   sidecar may cancel a task on its own.
   */
  predicate Admissible(work: Work, token: bool, results: seq<TaskResult>) {
    match work
    case Exec(task) =>
      && |results| == 1
      && results[0].taskId == task.id && results[0].chainId == None && results[0].stepIndex == None
      && (task.executor == Shell && results[0].Status() == Cancelled ==> token)
    case Routed(id) =>
      && |results| == 1
      && results[0].taskId == id && results[0].chainId == None && results[0].stepIndex == None
      && results[0].Status() in {Success, Failed}
    case Chained(chain) =>
      && ResultsShape(chain, results)
      && forall i | 0 <= i < |results| ::
           chain.steps[i].task.executor == Shell && results[i].Status() == Cancelled ==> token
  }

  datatype MainStep =
    | ReceiveWork(items: seq<Item>)
    | NextItem
    | HandleItem
    | PublishCounts
    | EndItems
    | TakeResult
    | EndReport
    | StartDrain
    | DrainOne
    | EndDrain
    | CloseChannel
    | SignalShutdown

  datatype TaskStep =
    | Acquire
    | Tick(row: JournalRow)
    | Finish(results: seq<TaskResult>)
    | Journal
    | Audit
    | Send
    | Remove
    | Recount
    | Release

  datatype Label = Main(main: MainStep) | Task(p: nat, step: TaskStep)

  predicate MainEnabled(s: State, m: MainStep) {
    match m
    case ReceiveWork(_) => s.main == Idle
    case NextItem => s.main.Submitting? && s.main.items != []
    case HandleItem => s.main.Handling?
    case PublishCounts => s.main.Publishing? && s.main.origin < |s.procs|
    case EndItems => s.main == Submitting([])
    case TakeResult => s.main == Idle && s.channel != []
    case EndReport => s.main == Reporting
    case StartDrain => s.main == Idle && s.shutdown
    case DrainOne => s.main == Draining && s.channel != []
    case EndDrain => s.main == Draining && s.channel == []
    case CloseChannel => s.main == Drained
    case SignalShutdown => true
  }

  function Hand(s: State): State
    requires s.channel != []
  {
    s.(handed := s.handed + [s.channel[0]], channel := s.channel[1..])
  }

  function ItemId(item: Item): Id {
    match item
    case Submit(work) => WorkId(work)
    case Cancel(id, _) => id
  }

  /** Under the map's lock: enter a task, or set the token of the entry a cancel names. */
  function Handle(s: State, item: Item, rest: seq<Item>): State {
    match item
    case Submit(work) =>
      var p := |s.procs|;
      s.(active := s.active[WorkId(work) := Entry(p, KindOf(work))],
         procs := s.procs + [Proc(work, Registered, [])],
         main := Publishing(p, rest))
    case Cancel(_, target) =>
      s.(tokens := if target in s.active then s.tokens + {s.active[target].token} else s.tokens,
         main := Submitting(rest))
  }

  function MainNext(s: State, m: MainStep): State
    requires MainEnabled(s, m)
  {
    match m
    case ReceiveWork(items) => s.(main := Submitting(items))
    case NextItem =>
      s.(audit := s.audit + [Received(ItemId(s.main.items[0]))],
         main := Handling(s.main.items[0], s.main.items[1..]))
    case HandleItem => Handle(s, s.main.item, s.main.items)
    case PublishCounts =>
      var proc := s.procs[s.main.origin];
      s.(counts := Tally(s.active),
         procs := s.procs[s.main.origin := proc.(pc := if Gated(proc.work) then Waiting else Running)],
         main := Submitting(s.main.items))
    case EndItems => s.(main := Idle)
    case TakeResult => Hand(s).(main := Reporting)
    case EndReport => s.(main := Idle)
    case StartDrain => s.(main := Draining)
    case DrainOne => Hand(s)
    case EndDrain => s.(main := Drained)
    case CloseChannel => s.(main := Closed)
    case SignalShutdown => s.(shutdown := true)
  }

  predicate TaskEnabled(s: State, p: nat, t: TaskStep) {
    p < |s.procs| &&
    var proc := s.procs[p];
    match t
    case Acquire => proc.pc == Waiting && s.free > 0
    case Tick(row) =>
      && proc.pc == Running && proc.work.Exec? && proc.work.task.kind == Continuous
      && row.taskId == proc.work.task.id && row.chainId == None && row.stepIndex == None
    case Finish(results) => proc.pc == Running && Admissible(proc.work, p in s.tokens, results)
    case Journal => proc.pc.Journaling? && proc.pc.i < |proc.results|
    case Audit => proc.pc.Auditing? && proc.pc.i < |proc.results|
    case Send =>
      proc.pc.Sending? && proc.pc.i < |proc.results| && (s.main == Closed || |s.channel| < CHANNEL_CAPACITY)
    case Remove => proc.pc == Removing
    case Recount => proc.pc == Counting
    case Release => proc.pc == Releasing
  }

  function Moved(s: State, p: nat, pc: Pc): State
    requires p < |s.procs|
  {
    s.(procs := s.procs[p := s.procs[p].(pc := pc)])
  }

  function EndType(status: Status): string {
    match status
    case Success => "task.completed"
    case Failed => "task.failed"
    case Cancelled => "task.cancelled"
    case Timeout => "task.timeout"
    case RolledBack => "task.failed"
  }

  function EndOf(p: nat, i: nat, proc: Proc): AuditEvent
    requires i < |proc.results|
  {
    var status := proc.results[i].Status();
    Ended(p, i, WorkId(proc.work), EndType(status), status)
  }

  function TaskNext(s: State, p: nat, t: TaskStep): State
    requires TaskEnabled(s, p, t)
  {
    var proc := s.procs[p];
    match t
    case Acquire => Moved(s, p, Running).(free := s.free - 1)
    case Tick(row) => s.(journal := s.journal + [TickRow(p, row)])
    case Finish(results) =>
      s.(procs := s.procs[p := Proc(proc.work, if results == [] then Removing else Journaling(0), results)])
    case Journal =>
      var i := proc.pc.i;
      Moved(s, p, if proc.work.Exec? then Auditing(i) else Sending(i))
      .(journal := s.journal + [ResultRow(p, i, ToJournalRow(proc.results[i]))])
    case Audit =>
      var i := proc.pc.i;
      Moved(s, p, Sending(i)).(audit := s.audit + [EndOf(p, i, proc)])
    case Send =>
      var i := proc.pc.i;
      var next := Moved(s, p, if i + 1 < |proc.results| then Journaling(i + 1) else Removing);
      var msg := Msg(p, i, proc.results[i]);
      if s.main == Closed then next
      else next.(channel := s.channel + [msg], sent := s.sent + [msg])
    case Remove => Moved(s, p, Counting).(active := s.active - {WorkId(proc.work)})
    case Recount =>
      Moved(s, p, if Gated(proc.work) then Releasing else Finished).(counts := Tally(s.active))
    case Release => Moved(s, p, Finished).(free := s.free + 1)
  }

  predicate Enabled(s: State, l: Label) {
    match l
    case Main(m) => MainEnabled(s, m)
    case Task(p, t) => TaskEnabled(s, p, t)
  }

  function Next(s: State, l: Label): State
    requires Enabled(s, l)
  {
    match l
    case Main(m) => MainNext(s, m)
    case Task(p, t) => TaskNext(s, p, t)
  }

  /** A run from start-up; `states` has one element more than `labels`. */
  ghost predicate IsRun(permits: nat, states: seq<State>, labels: seq<Label>) {
    && |states| == |labels| + 1
    && states[0] == Init(permits)
    && forall i | 0 <= i < |labels| ::
         Enabled(states[i], labels[i]) && states[i + 1] == Next(states[i], labels[i])
  }
}
