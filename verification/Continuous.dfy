/**
 Continuous tasks: one execution per interval, each journaled, until a cancel
 or the agent's shutdown.
 */
module Continuous {
  import opened Types
  import opened StateStore
  import Seqs

  datatype Tick =
    | NoCredentials(message: string, durationMs: nat, timestamp: nat)
    | Ran(report: Report)

  datatype Exit = OnCancel | OnShutdown

  function TickReport(t: Tick): Report {
    match t
    case NoCredentials(message, durationMs, timestamp) =>
      Report(Failed, None, "", message, durationMs, timestamp, Some(message))
    case Ran(report) => report
  }

  function QuietReport(status: Status, timestamp: nat): Report {
    Report(status, None, "", "", 0, timestamp, None)
  }

  function TickRows(id: Id, ticks: seq<Tick>): seq<JournalRow> {
    seq(|ticks|, i requires 0 <= i < |ticks| => ToJournalRow(MakeResult(id, TickReport(ticks[i]))))
  }

  /** What the task reports in the end. */
  function FinalResult(id: Id, ticks: seq<Tick>, exit: Exit, begun: nat, ended: nat): TaskResult {
    match exit
    case OnCancel => MakeResult(id, QuietReport(Cancelled, ended))
    case OnShutdown =>
      if ticks == [] then MakeResult(id, QuietReport(Success, begun))
      else MakeResult(id, TickReport(ticks[|ticks| - 1]))
  }

  lemma TickRowsAppend(id: Id, ticks: seq<Tick>, n: nat)
    requires n < |ticks|
    ensures TickRows(id, ticks[..n + 1]) == TickRows(id, ticks[..n]) + [ToJournalRow(MakeResult(id, TickReport(ticks[n])))]
  {
  }

  /** The ticks that happen before the exit are journaled one row each, in order. */
  method Run(store: Store, task: ExecTask, ticks: seq<Tick>, exit: Exit, begun: nat, ended: nat)
    returns (result: TaskResult)
    requires store.Valid()
    modifies store`journal
    ensures store.Valid()
    ensures Values(store.journal.rows) == old(Values(store.journal.rows)) + TickRows(task.id, ticks)
    ensures result == FinalResult(task.id, ticks, exit, begun, ended)
  {
    hide ToJournalRow, JournalValid, AuditSorted, Values, TickRows;
    var lastResult := MakeResult(task.id, QuietReport(Success, begun));
    var n := 0;
    ghost var before := Values(store.journal.rows);
    NoRows(before, task.id, ticks);
    while n < |ticks|
      invariant n <= |ticks| && store.Valid()
      invariant Values(store.journal.rows) == before + TickRows(task.id, ticks[..n])
      invariant lastResult == FinalResult(task.id, ticks[..n], OnShutdown, begun, ended)
    {
      lastResult := MakeResult(task.id, TickReport(ticks[n]));
      store.RecordTaskResult(ToJournalRow(lastResult));
      TickRowsAppend(task.id, ticks, n);
      Seqs.Assoc(before, TickRows(task.id, ticks[..n]), [ToJournalRow(lastResult)]);
      n := n + 1;
    }
    assert ticks[..n] == ticks;
    match exit {
      case OnCancel => result := MakeResult(task.id, QuietReport(Cancelled, ended));
      case OnShutdown => result := lastResult;
    }
  }

  lemma NoRows(before: seq<JournalRow>, id: Id, ticks: seq<Tick>)
    ensures before + TickRows(id, ticks[..0]) == before
  {
  }

  /**
   A continuous task as the manager runs it: `n` ticks leave exactly `n` tick
   rows and then one row for the final result, which is also what is returned.
   */
  method RunAndJournal(store: Store, task: ExecTask, ticks: seq<Tick>, exit: Exit, begun: nat, ended: nat)
    returns (result: TaskResult)
    requires store.Valid()
    modifies store`journal
    ensures store.Valid()
    ensures result == FinalResult(task.id, ticks, exit, begun, ended)
    ensures Values(store.journal.rows)
            == old(Values(store.journal.rows)) + TickRows(task.id, ticks) + [ToJournalRow(result)]
  {
    result := Run(store, task, ticks, exit, begun, ended);
    store.RecordTaskResult(ToJournalRow(result));
  }

  /**
   What the rows and the final result say. Each tick's row is the task's own, with
   what its execution reported, or the failure to get its credentials. A cancel
   ends the task `Cancelled` whatever the ticks were; a shutdown ends it with its
   last tick's report, or as a success when there was none.
   */
  lemma TicksAndEnd(id: Id, ticks: seq<Tick>, begun: nat, ended: nat)
    ensures |TickRows(id, ticks)| == |ticks|
    ensures forall i | 0 <= i < |ticks| ::
              var row := TickRows(id, ticks)[i];
              && row.taskId == id && row.chainId == None && row.stepIndex == None
              && match ticks[i]
                 case NoCredentials(message, _, _) =>
                   row.status == Failed && row.stderr == message && row.stdout == "" && row.exitCode == None
                 case Ran(report) =>
                   && row.status == report.status && row.stdout == report.stdout
                   && row.stderr == report.stderr && row.exitCode == report.exitCode
    ensures var r := FinalResult(id, ticks, OnCancel, begun, ended);
            r.taskId == id && r.Status() == Cancelled && r.report.stdout == "" && r.report.stderr == "" && r.report.durationMs == 0
    ensures var r := FinalResult(id, ticks, OnShutdown, begun, ended);
            && r.taskId == id
            && (ticks == [] ==> r.Status() == Success && r.report.stdout == "" && r.report.stderr == "")
            && (ticks != [] ==>
                  match ticks[|ticks| - 1]
                  case NoCredentials(message, ms, at) =>
                    && r.Status() == Failed && r.report.error == Some(message)
                    && r.report.durationMs == ms && r.report.timestamp == at
                  case Ran(report) => r.report == report)
  {
  }

  /** Stopped by a shutdown, a task that ticked has its last tick journaled twice over: the final row repeats it. */
  lemma ShutdownRepeatsLastTick(id: Id, ticks: seq<Tick>, begun: nat, ended: nat)
    requires ticks != []
    ensures ToJournalRow(FinalResult(id, ticks, OnShutdown, begun, ended)) == TickRows(id, ticks)[|ticks| - 1]
  {
  }
}
