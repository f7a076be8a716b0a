/**
 What holds in every state the agent can reach, whatever the interleaving of
 tasks, chains, the main loop and the shutdown drain.
 */
module AgentLaws {
  import opened Types
  import opened ChainLaws
  import opened Agent

  // ---------------------------------------------------------------- Well-formed processes

  predicate PcOk(proc: Proc) {
    match proc.pc
    case Registered => proc.results == []
    case Waiting => proc.results == [] && Gated(proc.work)
    case Running => proc.results == []
    case Journaling(i) => i < |proc.results|
    case Auditing(i) => i < |proc.results| && proc.work.Exec?
    case Sending(i) => i < |proc.results|
    case Releasing => Gated(proc.work)
    case _ => true
  }

  /** Only the process being submitted is registered and not yet spawned. */
  ghost predicate ProcsOk(s: State) {
    && (forall p | 0 <= p < |s.procs| :: PcOk(s.procs[p]))
    && (s.main.Publishing? ==> s.main.origin == |s.procs| - 1 && s.procs[s.main.origin].pc == Registered)
    && (forall p | 0 <= p < |s.procs| && s.procs[p].pc == Registered :: s.main.Publishing? && s.main.origin == p)
  }

  lemma ProcsOkMain(s: State, m: MainStep)
    requires ProcsOk(s) && MainEnabled(s, m)
    ensures ProcsOk(MainNext(s, m))
  {
    hide Tally, ToJournalRow, Admissible;
  }

  /** A task's step changes its own process only, and leaves it well-formed. */
  lemma OneProcMoves(s: State, p: nat, t: TaskStep)
    requires p < |s.procs| && PcOk(s.procs[p]) && TaskEnabled(s, p, t)
    ensures var s' := TaskNext(s, p, t);
            && |s'.procs| == |s.procs| && s'.procs == s.procs[p := s'.procs[p]] && s'.main == s.main
            && s'.procs[p].work == s.procs[p].work
            && PcOk(s'.procs[p]) && s'.procs[p].pc != Registered && s.procs[p].pc != Registered
  {
    hide Tally, ToJournalRow, Admissible;
  }

  lemma ProcsOkTask(s: State, p: nat, t: TaskStep)
    requires ProcsOk(s) && TaskEnabled(s, p, t)
    ensures ProcsOk(TaskNext(s, p, t))
  {
    OneProcMoves(s, p, t);
    hide TaskNext, PcOk;
  }

  // ---------------------------------------------------------------- Permits

  predicate Holds(proc: Proc) {
    Gated(proc.work) && !proc.pc.Registered? && !proc.pc.Waiting? && !proc.pc.Finished?
  }

  function Holders(procs: seq<Proc>): set<nat> {
    set p: nat | p < |procs| && Holds(procs[p])
  }

  predicate PermitsOk(permits: nat, s: State) {
    s.free + |Holders(s.procs)| == permits
  }

  lemma HoldersAppend(procs: seq<Proc>, q: Proc)
    requires !Holds(q)
    ensures Holders(procs + [q]) == Holders(procs)
  {
  }

  lemma HoldersUpdate(procs: seq<Proc>, p: nat, q: Proc)
    requires p < |procs|
    ensures |Holders(procs[p := q])| == |Holders(procs)| + (if Holds(q) then 1 else 0) - (if Holds(procs[p]) then 1 else 0)
  {
    var rest := Holders(procs) - {p};
    assert Holders(procs) == if Holds(procs[p]) then rest + {p} else rest;
    assert Holders(procs[p := q]) == if Holds(q) then rest + {p} else rest;
  }

  lemma PermitsMain(permits: nat, s: State, m: MainStep)
    requires ProcsOk(s) && PermitsOk(permits, s) && MainEnabled(s, m)
    ensures PermitsOk(permits, MainNext(s, m))
  {
    match m {
      case HandleItem =>
        if s.main.item.Submit? {
          HoldersAppend(s.procs, Proc(s.main.item.work, Registered, []));
        }
      case PublishCounts =>
        var p := s.main.origin;
        HoldersUpdate(s.procs, p, MainNext(s, m).procs[p]);
      case _ =>
    }
  }

  lemma PermitsTask(permits: nat, s: State, p: nat, t: TaskStep)
    requires ProcsOk(s) && PermitsOk(permits, s) && TaskEnabled(s, p, t)
    ensures PermitsOk(permits, TaskNext(s, p, t))
  {
    hide Tally, ToJournalRow, Admissible;
    var s' := TaskNext(s, p, t);
    HoldersUpdate(s.procs, p, s'.procs[p]);
    assert s.procs[p := s'.procs[p]] == s'.procs;
  }

  // ---------------------------------------------------------------- Results

  /** How many of its results a process has journaled, and how many it has sent. */
  function Journaled(proc: Proc): nat {
    match proc.pc
    case Journaling(i) => i
    case Auditing(i) => i + 1
    case Sending(i) => i + 1
    case _ => |proc.results|
  }

  function Sent(proc: Proc): nat {
    match proc.pc
    case Journaling(i) => i
    case Auditing(i) => i
    case Sending(i) => i
    case _ => |proc.results|
  }

  /** How many of its results an exec process has audited. */
  function Audited(proc: Proc): nat {
    match proc.pc
    case Journaling(i) => i
    case Auditing(i) => i
    case Sending(i) => i + 1
    case _ => |proc.results|
  }

  predicate IsMsgOf(procs: seq<Proc>, m: Msg) {
    && m.origin < |procs|
    && m.index < Sent(procs[m.origin]) <= |procs[m.origin].results|
    && m.result == procs[m.origin].results[m.index]
  }

  /** Messages of one process appear once each, in the order of its results. */
  predicate MsgsOrdered(msgs: seq<Msg>) {
    forall a, b | 0 <= a < b < |msgs| && msgs[a].origin == msgs[b].origin :: msgs[a].index < msgs[b].index
  }

  /** The channel is a queue: what was taken out, then what is in it, is what was put in. */
  predicate QueueOk(s: State) {
    && |s.channel| <= CHANNEL_CAPACITY
    && s.handed + s.channel == s.sent
  }

  ghost predicate SentOk(s: State) {
    && (forall a | 0 <= a < |s.sent| :: IsMsgOf(s.procs, s.sent[a]))
    && MsgsOrdered(s.sent)
  }

  /** While the receiver exists, no result that was sent is missing from the channel's history. */
  ghost predicate SentAll(s: State) {
    s.main != Closed ==>
      forall p, i | 0 <= p < |s.procs| && 0 <= i < Sent(s.procs[p]) <= |s.procs[p].results| ::
        Msg(p, i, s.procs[p].results[i]) in s.sent
  }

  predicate IsRowOf(procs: seq<Proc>, r: Row) {
    && r.origin < |procs|
    && match r
       case ResultRow(p, i, row) =>
         i < Journaled(procs[p]) <= |procs[p].results| && row == ToJournalRow(procs[p].results[i])
       case TickRow(p, row) =>
         && procs[p].work.Exec? && procs[p].work.task.kind == Continuous
         && row.taskId == procs[p].work.task.id && row.chainId == None && row.stepIndex == None
  }

  /** Every result is journaled at most once, in the order of the process's results. */
  predicate RowsOrdered(rows: seq<Row>) {
    forall a, b | 0 <= a < b < |rows| && rows[a].ResultRow? && rows[b].ResultRow?
                  && rows[a].origin == rows[b].origin :: rows[a].index < rows[b].index
  }

  ghost predicate JournalOk(s: State) {
    && (forall a | 0 <= a < |s.journal| :: IsRowOf(s.procs, s.journal[a]))
    && RowsOrdered(s.journal)
  }

  ghost predicate JournalAll(s: State) {
    forall p, i | 0 <= p < |s.procs| && 0 <= i < Journaled(s.procs[p]) <= |s.procs[p].results| ::
      ResultRow(p, i, ToJournalRow(s.procs[p].results[i])) in s.journal
  }

  /** A step never takes back what a process has journaled, sent or returned. */
  predicate Grows(before: Proc, after: Proc) {
    && before.work == after.work
    && Journaled(before) <= Journaled(after) <= |after.results|
    && Sent(before) <= Sent(after)
    && Audited(before) <= Audited(after) <= |after.results|
    && before.results <= after.results
  }

  predicate AllGrow(procs: seq<Proc>, procs': seq<Proc>) {
    && |procs| <= |procs'|
    && forall p | 0 <= p < |procs| :: Grows(procs[p], procs'[p])
  }

  lemma GrowsMain(s: State, m: MainStep)
    requires ProcsOk(s) && MainEnabled(s, m)
    ensures AllGrow(s.procs, MainNext(s, m).procs)
  {
    hide Tally, ToJournalRow, Admissible;
  }

  lemma OneProcGrows(s: State, p: nat, t: TaskStep)
    requires p < |s.procs| && PcOk(s.procs[p]) && TaskEnabled(s, p, t)
    ensures p < |TaskNext(s, p, t).procs| && Grows(s.procs[p], TaskNext(s, p, t).procs[p])
  {
    hide Tally, ToJournalRow, Admissible;
  }

  lemma GrowsTask(s: State, p: nat, t: TaskStep)
    requires ProcsOk(s) && TaskEnabled(s, p, t)
    ensures AllGrow(s.procs, TaskNext(s, p, t).procs)
  {
    OneProcMoves(s, p, t);
    OneProcGrows(s, p, t);
    hide TaskNext, TaskEnabled;
  }

  lemma QueueMain(s: State, m: MainStep)
    requires QueueOk(s) && MainEnabled(s, m)
    ensures QueueOk(MainNext(s, m))
  {
    hide Tally, ToJournalRow, Admissible;
    if s.channel != [] {
      assert s.channel == [s.channel[0]] + s.channel[1..];
      assert s.handed + s.channel == (s.handed + [s.channel[0]]) + s.channel[1..];
    }
  }

  lemma QueueTask(s: State, p: nat, t: TaskStep)
    requires QueueOk(s) && TaskEnabled(s, p, t)
    ensures QueueOk(TaskNext(s, p, t))
  {
    hide Tally, ToJournalRow, Admissible;
  }

  lemma SentKept(s: State, s': State)
    requires SentOk(s) && AllGrow(s.procs, s'.procs) && s'.sent == s.sent
    ensures SentOk(s')
  {
  }

  lemma SentAppends(s: State, s': State, m: Msg)
    requires SentOk(s) && AllGrow(s.procs, s'.procs) && s'.sent == s.sent + [m]
    requires IsMsgOf(s'.procs, m) && m.origin < |s.procs| && Sent(s.procs[m.origin]) <= m.index
    ensures SentOk(s')
  {
  }

  lemma SentTask(s: State, p: nat, t: TaskStep)
    requires ProcsOk(s) && SentOk(s) && TaskEnabled(s, p, t)
    ensures SentOk(TaskNext(s, p, t))
  {
    GrowsTask(s, p, t);
    hide AllGrow, SentOk;
    if t.Send? && s.main != Closed {
      SentAppends(s, TaskNext(s, p, t), Msg(p, s.procs[p].pc.i, s.procs[p].results[s.procs[p].pc.i]));
    } else {
      SentKept(s, TaskNext(s, p, t));
    }
  }

  lemma JournalKept(s: State, s': State)
    requires JournalOk(s) && AllGrow(s.procs, s'.procs) && s'.journal == s.journal
    ensures JournalOk(s')
  {
  }

  lemma JournalAppends(s: State, s': State, r: Row)
    requires JournalOk(s) && AllGrow(s.procs, s'.procs) && s'.journal == s.journal + [r]
    requires IsRowOf(s'.procs, r)
    requires r.ResultRow? ==> r.origin < |s.procs| && Journaled(s.procs[r.origin]) <= r.index
    ensures JournalOk(s')
  {
  }

  lemma JournalTask(s: State, p: nat, t: TaskStep)
    requires ProcsOk(s) && JournalOk(s) && TaskEnabled(s, p, t)
    ensures JournalOk(TaskNext(s, p, t))
  {
    GrowsTask(s, p, t);
    hide AllGrow, JournalOk, ToJournalRow;
    if t.Journal? {
      var i := s.procs[p].pc.i;
      JournalAppends(s, TaskNext(s, p, t), ResultRow(p, i, ToJournalRow(s.procs[p].results[i])));
    } else if t.Tick? {
      JournalAppends(s, TaskNext(s, p, t), TickRow(p, t.row));
    } else {
      JournalKept(s, TaskNext(s, p, t));
    }
  }

  /** A step extends a history by exactly what the processes have newly done. */
  ghost predicate NewlySent(s: State, s': State) {
    forall p, i | 0 <= p < |s'.procs| && 0 <= i < Sent(s'.procs[p]) <= |s'.procs[p].results|
                  && !(p < |s.procs| && i < Sent(s.procs[p])) ::
      Msg(p, i, s'.procs[p].results[i]) in s'.sent
  }

  ghost predicate NewlyJournaled(s: State, s': State) {
    forall p, i | 0 <= p < |s'.procs| && 0 <= i < Journaled(s'.procs[p]) <= |s'.procs[p].results|
                  && !(p < |s.procs| && i < Journaled(s.procs[p])) ::
      ResultRow(p, i, ToJournalRow(s'.procs[p].results[i])) in s'.journal
  }

  lemma NewMain(s: State, m: MainStep)
    requires ProcsOk(s) && MainEnabled(s, m)
    ensures NewlySent(s, MainNext(s, m)) && NewlyJournaled(s, MainNext(s, m))
  {
    hide ToJournalRow;
  }

  lemma NewSentTask(s: State, p: nat, t: TaskStep)
    requires ProcsOk(s) && TaskEnabled(s, p, t)
    ensures TaskNext(s, p, t).main != Closed ==> NewlySent(s, TaskNext(s, p, t))
  {
    hide ToJournalRow;
  }

  lemma NewJournaledTask(s: State, p: nat, t: TaskStep)
    requires ProcsOk(s) && TaskEnabled(s, p, t)
    ensures NewlyJournaled(s, TaskNext(s, p, t))
  {
    hide ToJournalRow;
  }

  lemma SentAllKept(s: State, s': State)
    requires SentAll(s) && AllGrow(s.procs, s'.procs) && s.sent <= s'.sent
    requires s'.main != Closed ==> s.main != Closed && NewlySent(s, s')
    requires forall p | 0 <= p < |s.procs| :: Sent(s.procs[p]) <= |s.procs[p].results|
    ensures SentAll(s')
  {
    hide ToJournalRow;
    if s'.main != Closed {
      forall p, i | 0 <= p < |s'.procs| && 0 <= i < Sent(s'.procs[p]) <= |s'.procs[p].results|
        ensures Msg(p, i, s'.procs[p].results[i]) in s'.sent
      {
        if p < |s.procs| && i < Sent(s.procs[p]) {
          assert Grows(s.procs[p], s'.procs[p]);
          assert Msg(p, i, s.procs[p].results[i]) in s.sent;
        }
      }
    }
  }

  lemma JournalAllKept(s: State, s': State)
    requires JournalAll(s) && AllGrow(s.procs, s'.procs) && s.journal <= s'.journal && NewlyJournaled(s, s')
    requires forall p | 0 <= p < |s.procs| :: Journaled(s.procs[p]) <= |s.procs[p].results|
    ensures JournalAll(s')
  {
    hide ToJournalRow;
    forall p, i | 0 <= p < |s'.procs| && 0 <= i < Journaled(s'.procs[p]) <= |s'.procs[p].results|
      ensures ResultRow(p, i, ToJournalRow(s'.procs[p].results[i])) in s'.journal
    {
      if p < |s.procs| && i < Journaled(s.procs[p]) {
        assert Grows(s.procs[p], s'.procs[p]);
        assert ResultRow(p, i, ToJournalRow(s.procs[p].results[i])) in s.journal;
      }
    }
  }

  ghost predicate ResultsOk(s: State) {
    QueueOk(s) && SentOk(s) && SentAll(s) && JournalOk(s) && JournalAll(s)
  }

  lemma ResultsMain(s: State, m: MainStep)
    requires ProcsOk(s) && ResultsOk(s) && MainEnabled(s, m)
    ensures ResultsOk(MainNext(s, m))
  {
    var s' := MainNext(s, m);
    GrowsMain(s, m);
    QueueMain(s, m);
    NewMain(s, m);
    hide QueueOk, SentOk, SentAll, JournalOk, JournalAll, AllGrow, NewlySent, NewlyJournaled;
    SentKept(s, s');
    JournalKept(s, s');
    SentAllKept(s, s');
    JournalAllKept(s, s');
  }

  lemma ResultsTask(s: State, p: nat, t: TaskStep)
    requires ProcsOk(s) && ResultsOk(s) && TaskEnabled(s, p, t)
    ensures ResultsOk(TaskNext(s, p, t))
  {
    var s' := TaskNext(s, p, t);
    GrowsTask(s, p, t);
    QueueTask(s, p, t);
    SentTask(s, p, t);
    JournalTask(s, p, t);
    NewSentTask(s, p, t);
    NewJournaledTask(s, p, t);
    hide QueueOk, SentOk, SentAll, JournalOk, JournalAll, AllGrow, NewlySent, NewlyJournaled;
    SentAllKept(s, s');
    JournalAllKept(s, s');
  }

  // ---------------------------------------------------------------- Audited outcomes

  predicate IsEndOf(procs: seq<Proc>, e: AuditEvent) {
    e.Ended? ==>
      && e.origin < |procs| && procs[e.origin].work.Exec?
      && e.index < Audited(procs[e.origin]) <= |procs[e.origin].results|
      && e == EndOf(e.origin, e.index, procs[e.origin])
  }

  /** Every result is audited at most once, in the order of the process's results. */
  predicate EndsOrdered(audit: seq<AuditEvent>) {
    forall a, b | 0 <= a < b < |audit| && audit[a].Ended? && audit[b].Ended?
                  && audit[a].origin == audit[b].origin :: audit[a].index < audit[b].index
  }

  ghost predicate EndsOk(s: State) {
    && (forall a | 0 <= a < |s.audit| :: IsEndOf(s.procs, s.audit[a]))
    && EndsOrdered(s.audit)
  }

  ghost predicate EndsAll(s: State) {
    forall p, i | 0 <= p < |s.procs| && s.procs[p].work.Exec? && 0 <= i < Audited(s.procs[p]) <= |s.procs[p].results| ::
      EndOf(p, i, s.procs[p]) in s.audit
  }

  ghost predicate AuditOk(s: State) { EndsOk(s) && EndsAll(s) }

  lemma EndsKept(s: State, s': State)
    requires EndsOk(s) && AllGrow(s.procs, s'.procs)
    requires s.audit <= s'.audit && forall a | |s.audit| <= a < |s'.audit| :: !s'.audit[a].Ended?
    ensures EndsOk(s')
  {
    hide EndType;
    forall a | 0 <= a < |s'.audit| ensures IsEndOf(s'.procs, s'.audit[a]) {
      if a < |s.audit| {
        assert IsEndOf(s.procs, s.audit[a]);
        if s.audit[a].Ended? {
          assert Grows(s.procs[s.audit[a].origin], s'.procs[s.audit[a].origin]);
        }
      }
    }
  }

  lemma EndsAppends(s: State, s': State, e: AuditEvent)
    requires EndsOk(s) && AllGrow(s.procs, s'.procs) && s'.audit == s.audit + [e]
    requires e.Ended? && IsEndOf(s'.procs, e) && e.origin < |s.procs| && Audited(s.procs[e.origin]) <= e.index
    ensures EndsOk(s')
  {
    hide EndType;
    forall a | 0 <= a < |s'.audit| ensures IsEndOf(s'.procs, s'.audit[a]) {
      if a < |s.audit| {
        assert IsEndOf(s.procs, s.audit[a]);
        if s.audit[a].Ended? {
          assert Grows(s.procs[s.audit[a].origin], s'.procs[s.audit[a].origin]);
        }
      }
    }
  }

  ghost predicate NewlyAudited(s: State, s': State) {
    forall p, i | 0 <= p < |s'.procs| && s'.procs[p].work.Exec? && 0 <= i < Audited(s'.procs[p]) <= |s'.procs[p].results|
                  && !(p < |s.procs| && i < Audited(s.procs[p])) ::
      EndOf(p, i, s'.procs[p]) in s'.audit
  }

  lemma EndsAllKept(s: State, s': State)
    requires EndsAll(s) && AllGrow(s.procs, s'.procs) && s.audit <= s'.audit && NewlyAudited(s, s')
    requires forall p | 0 <= p < |s.procs| :: Audited(s.procs[p]) <= |s.procs[p].results|
    ensures EndsAll(s')
  {
    hide EndType;
    forall p, i | 0 <= p < |s'.procs| && s'.procs[p].work.Exec? && 0 <= i < Audited(s'.procs[p]) <= |s'.procs[p].results|
      ensures EndOf(p, i, s'.procs[p]) in s'.audit
    {
      if p < |s.procs| && i < Audited(s.procs[p]) {
        assert Grows(s.procs[p], s'.procs[p]);
        assert EndOf(p, i, s.procs[p]) in s.audit;
      }
    }
  }

  lemma AuditedBound(s: State)
    requires ProcsOk(s)
    ensures forall p | 0 <= p < |s.procs| :: Audited(s.procs[p]) <= |s.procs[p].results|
  {
  }

  lemma AuditNewMain(s: State, m: MainStep)
    requires ProcsOk(s) && MainEnabled(s, m)
    ensures var s' := MainNext(s, m);
            && NewlyAudited(s, s') && s.audit <= s'.audit
            && forall a | |s.audit| <= a < |s'.audit| :: !s'.audit[a].Ended?
  {
    hide Tally, EndOf;
  }

  lemma AuditMain(s: State, m: MainStep)
    requires ProcsOk(s) && AuditOk(s) && MainEnabled(s, m)
    ensures AuditOk(MainNext(s, m))
  {
    hide MainNext, EndsOk, EndsAll, AllGrow, NewlyAudited, ProcsOk, Audited;
    var s' := MainNext(s, m);
    GrowsMain(s, m);
    AuditNewMain(s, m);
    AuditedBound(s);
    EndsKept(s, s');
    EndsAllKept(s, s');
  }

  lemma AuditNewTask(s: State, p: nat, t: TaskStep)
    requires ProcsOk(s) && TaskEnabled(s, p, t) && (t == Audit ==> s.procs[p].work.Exec?)
    ensures var s' := TaskNext(s, p, t);
            && NewlyAudited(s, s') && s.audit <= s'.audit
            && (t == Audit ==> s'.audit == s.audit + [EndOf(p, s.procs[p].pc.i, s.procs[p])])
            && (t != Audit ==> s'.audit == s.audit)
  {
    hide Tally, ToJournalRow, Admissible, EndType;
  }

  lemma AuditTask(s: State, p: nat, t: TaskStep)
    requires ProcsOk(s) && AuditOk(s) && TaskEnabled(s, p, t)
    ensures AuditOk(TaskNext(s, p, t))
  {
    var s' := TaskNext(s, p, t);
    GrowsTask(s, p, t);
    AuditNewTask(s, p, t);
    AuditedBound(s);
    if t == Audit {
      EndOfAppended(s, p);
    }
    hide TaskNext, EndsOk, EndsAll, AllGrow, NewlyAudited, Audited, EndOf, IsEndOf;
    if t == Audit {
      EndsAppends(s, s', EndOf(p, s.procs[p].pc.i, s.procs[p]));
    } else {
      EndsKept(s, s');
    }
    EndsAllKept(s, s');
  }

  lemma EndOfAppended(s: State, p: nat)
    requires ProcsOk(s) && TaskEnabled(s, p, Audit)
    ensures var e := EndOf(p, s.procs[p].pc.i, s.procs[p]);
            e.Ended? && e.origin == p && Audited(s.procs[p]) <= e.index && IsEndOf(TaskNext(s, p, Audit).procs, e)
  {
    hide EndType;
  }

  // ---------------------------------------------------------------- Active map, tokens, counts

  /** The entry under an id belongs to a process submitted under that id. */
  ghost predicate ActiveOk(s: State) {
    forall id | id in s.active ::
      && s.active[id].token < |s.procs|
      && WorkId(s.procs[s.active[id].token].work) == id
      && s.active[id].kind == KindOf(s.procs[s.active[id].token].work)
  }

  lemma ActiveMain(s: State, m: MainStep)
    requires ActiveOk(s) && MainEnabled(s, m)
    ensures ActiveOk(MainNext(s, m))
  {
    hide Tally, ToJournalRow, Admissible;
  }

  lemma ActiveTask(s: State, p: nat, t: TaskStep)
    requires ActiveOk(s) && TaskEnabled(s, p, t)
    ensures ActiveOk(TaskNext(s, p, t))
  {
    hide Tally, ToJournalRow, Admissible;
  }

  /** Results are what the work may return under the process's token. */
  ghost predicate ReturnsOk(s: State) {
    forall p: nat | p < |s.procs| && s.procs[p].results != [] ::
      Admissible(s.procs[p].work, p in s.tokens, s.procs[p].results)
  }

  lemma ReturnsMain(s: State, m: MainStep)
    requires ReturnsOk(s) && MainEnabled(s, m)
    ensures ReturnsOk(MainNext(s, m))
  {
    hide ResultsShape, Tally;
  }

  lemma ReturnsTask(s: State, p: nat, t: TaskStep)
    requires ReturnsOk(s) && TaskEnabled(s, p, t)
    ensures ReturnsOk(TaskNext(s, p, t))
  {
    hide Admissible, Tally, ToJournalRow;
  }

  /** Some task is between changing the active map and publishing the counts. */
  ghost predicate Pending(s: State) {
    s.main.Publishing? || exists p :: 0 <= p < |s.procs| && s.procs[p].pc == Counting
  }

  ghost predicate CountsOk(s: State) {
    && s.counts.total == U32(s.counts.oneshot + s.counts.continuous)
    && (!Pending(s) ==> s.counts == Tally(s.active))
  }

  lemma CountsMain(s: State, m: MainStep)
    requires CountsOk(s) && ProcsOk(s) && MainEnabled(s, m)
    ensures CountsOk(MainNext(s, m))
  {
    var s' := MainNext(s, m);
    if Pending(s) && !s.main.Publishing? {
      var p :| 0 <= p < |s.procs| && s.procs[p].pc == Counting;
      assert s'.procs[p].pc == Counting;
    }
  }

  lemma CountsTask(s: State, p: nat, t: TaskStep)
    requires CountsOk(s) && TaskEnabled(s, p, t)
    ensures CountsOk(TaskNext(s, p, t))
  {
    hide ToJournalRow, Admissible;
    var s' := TaskNext(s, p, t);
    if t.Remove? {
      assert s'.procs[p].pc == Counting;
    } else if !t.Recount? && Pending(s) && !s.main.Publishing? {
      var q :| 0 <= q < |s.procs| && s.procs[q].pc == Counting;
      assert s'.procs[q].pc == Counting;
    }
  }

  // ---------------------------------------------------------------- Every reachable state

  ghost predicate Inv(permits: nat, s: State) {
    && ProcsOk(s) && PermitsOk(permits, s) && ResultsOk(s) && AuditOk(s)
    && ActiveOk(s) && ReturnsOk(s) && CountsOk(s)
  }

  lemma InvNext(permits: nat, s: State, l: Label)
    requires Inv(permits, s) && Enabled(s, l)
    ensures Inv(permits, Next(s, l))
  {
    hide ProcsOk, PermitsOk, ResultsOk, AuditOk, ActiveOk, ReturnsOk, CountsOk, MainNext, TaskNext, MainEnabled, TaskEnabled;
    match l {
      case Main(m) =>
        ProcsOkMain(s, m);
        PermitsMain(permits, s, m);
        ResultsMain(s, m);
        AuditMain(s, m);
        ActiveMain(s, m);
        ReturnsMain(s, m);
        CountsMain(s, m);
      case Task(p, t) =>
        ProcsOkTask(s, p, t);
        PermitsTask(permits, s, p, t);
        ResultsTask(s, p, t);
        AuditTask(s, p, t);
        ActiveTask(s, p, t);
        ReturnsTask(s, p, t);
        CountsTask(s, p, t);
    }
  }

  lemma InvInit(permits: nat)
    ensures Inv(permits, Init(permits))
  {
    InitParts(permits);
    InitResults(permits);
    hide PermitsOk, CountsOk, ResultsOk, AuditOk;
  }

  lemma InitResults(permits: nat)
    ensures ResultsOk(Init(permits)) && AuditOk(Init(permits))
  {
    hide ToJournalRow, EndOf;
    assert Init(permits).handed + Init(permits).channel == [];
  }

  lemma InitParts(permits: nat)
    ensures PermitsOk(permits, Init(permits)) && CountsOk(Init(permits))
  {
    assert OfKind(map[], Oneshot) == {} && OfKind(map[], Continuous) == {};
    assert Holders([]) == {};
  }

  lemma {:induction false} Reachable(permits: nat, states: seq<State>, labels: seq<Label>, n: nat)
    requires IsRun(permits, states, labels) && n < |states|
    ensures Inv(permits, states[n])
  {
    if n == 0 {
      InvInit(permits);
    } else {
      Reachable(permits, states, labels, n - 1);
      hide Inv, Next, Enabled;
      InvNext(permits, states[n - 1], labels[n - 1]);
    }
  }
}
