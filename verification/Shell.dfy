/**
 The shell executor: one child process raced against the task's token and its
 timeout. Which ready branch wins the race is not determined.
 */
module Shell {
  import opened Types

  /** How the race ended; `code` is absent when a signal ended the child. */
  datatype Race =
    | TokenWon
    | TimerWon
    | ChildWon(code: Option<int>, stdout: string, stderr: string)
    | WaitFailed(message: string)

  datatype Run = NoScript | NoSpawn(message: string) | Raced(race: Race)

  /** A branch can only win once it is ready. */
  predicate Possible(run: Run, token: bool, durationMs: nat, timeoutMs: nat) {
    && (run == Raced(TokenWon) ==> token)
    && (run == Raced(TimerWon) ==> durationMs >= timeoutMs)
  }

  datatype Texts = Texts(exitCode: int -> string, timeout: nat -> string)

  const NO_SCRIPT := "missing 'script' field in payload"

  function ReportOf(run: Run, timeoutMs: nat, durationMs: nat, clock: nat, texts: Texts): Report {
    match run
    case NoScript => Report(Failed, None, "", NO_SCRIPT, durationMs, clock, Some(NO_SCRIPT))
    case NoSpawn(e) => Report(Failed, None, "", e, durationMs, clock, Some("failed to spawn shell: " + e))
    case Raced(TokenWon) => Report(Cancelled, None, "", "", durationMs, clock, None)
    case Raced(TimerWon) => Report(Timeout, None, "", "", durationMs, clock, Some(texts.timeout(timeoutMs)))
    case Raced(ChildWon(code, stdout, stderr)) =>
      var shown := if code.Some? then code.value else -1;
      if code == Some(0) then Report(Success, Some(shown), stdout, stderr, durationMs, clock, None)
      else Report(Failed, Some(shown), stdout, stderr, durationMs, clock, Some(texts.exitCode(shown)))
    case Raced(WaitFailed(e)) =>
      Report(Failed, None, "", e, durationMs, clock, Some("failed to wait for shell: " + e))
  }

  /** What each way an execution can go makes of its report. */
  predicate Decided(run: Run, report: Report) {
    match run
    case Raced(TokenWon) => report.status == Cancelled && report.stdout == "" && report.stderr == ""
    case Raced(TimerWon) => report.status == Timeout && report.stdout == "" && report.stderr == ""
    case Raced(ChildWon(code, stdout, stderr)) =>
      && (report.status == Success <==> code == Some(0)) && (report.status == Failed <==> code != Some(0))
      && report.stdout == stdout && report.stderr == stderr
      && report.exitCode == Some(if code.Some? then code.value else -1)
    case Raced(WaitFailed(message)) => report.status == Failed && report.stderr == message
    case NoSpawn(message) => report.status == Failed && report.stderr == message
    case NoScript => report.status == Failed
  }

  /**
   The status tells how the race ended: `Cancelled` needs a set token, `Timeout`
   an elapsed timeout, `Success` exit code 0; an exit code is reported just when
   the child ended first.
   */
  method Execute(task: ExecTask, run: Run, ghost token: bool, durationMs: nat, clock: nat, texts: Texts)
    returns (result: TaskResult)
    requires Possible(run, token, durationMs, task.timeoutMs)
    ensures result == MakeResult(task.id, ReportOf(run, task.timeoutMs, durationMs, clock, texts))
    ensures result.Status() == Cancelled ==> token
    ensures result.Status() == Timeout ==> result.report.durationMs >= task.timeoutMs
    ensures result.Status() == Success <==> result.report.exitCode == Some(0)
    ensures result.report.exitCode.Some? <==> run.Raced? && run.race.ChildWon?
    ensures result.Status() in {Success, Cancelled} <==> result.report.error.None?
    ensures Decided(run, result.report)
  {
    if run.NoScript? {
      return MakeResult(task.id, Report(Failed, None, "", NO_SCRIPT, durationMs, clock, Some(NO_SCRIPT)));
    }
    if run.NoSpawn? {
      var text := "failed to spawn shell: " + run.message;
      return MakeResult(task.id, Report(Failed, None, "", run.message, durationMs, clock, Some(text)));
    }
    match run.race {
      case TokenWon =>
        result := MakeResult(task.id, Report(Cancelled, None, "", "", durationMs, clock, None));
      case TimerWon =>
        var text := texts.timeout(task.timeoutMs);
        result := MakeResult(task.id, Report(Timeout, None, "", "", durationMs, clock, Some(text)));
      case ChildWon(code, stdout, stderr) =>
        var exitCode := if code.Some? then code.value else -1;
        var success := code == Some(0);
        result := MakeResult(task.id,
          Report(if success then Success else Failed, Some(exitCode), stdout, stderr, durationMs, clock,
                 if success then None else Some(texts.exitCode(exitCode))));
      case WaitFailed(e) =>
        var text := "failed to wait for shell: " + e;
        result := MakeResult(task.id, Report(Failed, None, "", e, durationMs, clock, Some(text)));
    }
  }
}
