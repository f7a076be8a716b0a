/**
 The agent's client for sidecar tasks: submit, then poll the status with a
 growing delay until a decisive reply, the timeout or a cancellation.
 */
module SidecarPoll {
  import opened Types
  import opened Rpc

  // ---------------------------------------------------------------- Delays

  const POLL_DELAYS_MS: seq<nat> := [0, 100, 200, 500, 1000]

  /** The delay before poll `k`; the last table entry repeats. */
  function Delay(k: nat): nat {
    if k < |POLL_DELAYS_MS| then POLL_DELAYS_MS[k] else POLL_DELAYS_MS[|POLL_DELAYS_MS| - 1]
  }

  /** The time slept before poll `k`, at least. */
  function SleptBefore(k: nat): nat {
    if k == 0 then 0 else SleptBefore(k - 1) + Delay(k - 1)
  }

  /** The number of polls a timeout leaves room for. */
  function PollBound(timeoutMs: nat): nat {
    if timeoutMs == 0 then 0
    else if timeoutMs <= 100 then 2
    else if timeoutMs <= 300 then 3
    else if timeoutMs <= 800 then 4
    else 4 + (timeoutMs - 800 + 999) / 1000
  }

  lemma {:induction false} SleptFromFourth(k: nat)
    requires k >= 4
    ensures SleptBefore(k) == 800 + 1000 * (k - 4)
  {
    if k == 4 {
      assert SleptBefore(0) == 0 && SleptBefore(1) == 0 && SleptBefore(2) == 100 && SleptBefore(3) == 300;
    } else {
      SleptFromFourth(k - 1);
    }
  }

  lemma {:induction false} SleptMonotone(j: nat, k: nat)
    requires j <= k
    ensures SleptBefore(j) <= SleptBefore(k)
  {
    if j < k {
      SleptMonotone(j, k - 1);
    }
  }

  /** The bound is the least number of polls whose delays add up to the timeout. */
  lemma PollBoundIsLeast(timeoutMs: nat, k: nat)
    ensures SleptBefore(k) >= timeoutMs <==> k >= PollBound(timeoutMs)
  {
    var p := PollBound(timeoutMs);
    assert SleptBefore(0) == 0 && SleptBefore(1) == 0 && SleptBefore(2) == 100 && SleptBefore(3) == 300;
    SleptFromFourth(4);
    if timeoutMs > 800 {
      SleptFromFourth(p);
      SleptFromFourth(p - 1);
    }
    if k >= p {
      SleptMonotone(p, k);
    } else {
      SleptMonotone(k, p - 1);
    }
  }

  // ---------------------------------------------------------------- Replies

  datatype Reply =
    | NoReply                                   // transport error
    | Unreadable                                // neither an error nor a known status
    | Refused(code: int, message: string)
    | Known(status: StatusResponse)

  function Classify(r: Result<Response, string>): Reply {
    match r
    case Err(_) => NoReply
    case Ok(resp) =>
      if resp.error.Some? then Refused(resp.error.value.code, resp.error.value.message)
      else
        var status := StatusFromJson(if resp.result.Some? then resp.result.value else Null);
        if status.Some? then Known(status.value) else Unreadable
  }

  predicate Decisive(reply: Reply) {
    reply.Refused? || (reply.Known? && !reply.status.StatusRunning?)
  }

  // ---------------------------------------------------------------- Polling

  /**
   One run's environment: what poll `k` answers and how long it takes, by how
   much the sleep before it overshoots, whether that sleep loses the race
   against the cancellation token; the time from giving up to the end of the
   final cancel call; the wall clock; and the error texts.
   */
  datatype Env = Env(
    reply: nat -> Result<Response, string>,
    callMs: nat -> nat,
    oversleepMs: nat -> nat,
    cancelled: nat -> bool,
    cancelMs: nat,
    clock: nat,
    shown: (int, string) -> string,
    timeoutText: nat -> string)

  /** A call to the sidecar of that name. */
  datatype Call =
    | SubmitCall(target: string, rpcMethod: string, params: Json)
    | StatusCall(target: string, taskId: string)
    | CancelCall(target: string, taskId: string)

  function SleepMs(env: Env, k: nat): nat {
    if Delay(k) > 0 then Delay(k) + env.oversleepMs(k) else 0
  }

  /** Time since the task started when the loop is at its head for the `k`-th time. */
  function Elapsed(env: Env, start: nat, k: nat): nat {
    if k == 0 then start else Elapsed(env, start, k - 1) + SleepMs(env, k - 1) + env.callMs(k - 1)
  }

  datatype Cause = TimedOut | LocalCancel | Replied

  predicate TimesOut(env: Env, timeoutMs: nat, start: nat, k: nat) { Elapsed(env, start, k) >= timeoutMs }

  predicate Cancels(env: Env, k: nat) { Delay(k) > 0 && env.cancelled(k) }

  predicate Decides(env: Env, k: nat) { Decisive(Classify(env.reply(k))) }

  /** Within one turn of the loop: the timeout first, then the cancellation, then the reply. */
  function CauseAt(env: Env, timeoutMs: nat, start: nat, k: nat): Option<Cause> {
    if TimesOut(env, timeoutMs, start, k) then Some(TimedOut)
    else if Cancels(env, k) then Some(LocalCancel)
    else if Decides(env, k) then Some(Replied)
    else None
  }

  /** A timeout is noticed before a cancel, and a cancel before the next reply. */
  lemma CauseOrder(env: Env, timeoutMs: nat, start: nat, k: nat)
    ensures Elapsed(env, start, k) >= timeoutMs <==> CauseAt(env, timeoutMs, start, k) == Some(TimedOut)
    ensures Elapsed(env, start, k) < timeoutMs && k > 0 && env.cancelled(k) <==>
              CauseAt(env, timeoutMs, start, k) == Some(LocalCancel)
  {
  }

  function StatusReport(env: Env, reply: Reply, durationMs: nat): Report
    requires Decisive(reply)
  {
    match reply
    case Refused(code, message) =>
      Report(Failed, None, "", env.shown(code, message), durationMs, env.clock, Some(message))
    case Known(StatusCompleted(stdout, stderr, _)) =>
      Report(Success, None, stdout, stderr, durationMs, env.clock, None)
    case Known(StatusFailed(error, stderr)) =>
      Report(Failed, None, "", stderr, durationMs, env.clock, Some(error))
    case Known(StatusCancelled) =>
      Report(Cancelled, None, "", "", durationMs, env.clock, None)
  }

  function PlainReport(env: Env, status: Status, durationMs: nat, error: Option<string>): Report {
    Report(status, None, "", "", durationMs, env.clock, error)
  }

  /** The loop stops at turn `n`, for this cause, and not before. */
  ghost predicate StopsAt(env: Env, timeoutMs: nat, start: nat, n: nat, cause: Cause) {
    && CauseAt(env, timeoutMs, start, n) == Some(cause)
    && forall j | 0 <= j < n :: CauseAt(env, timeoutMs, start, j) == None
  }

  function ReportFor(env: Env, timeoutMs: nat, start: nat, n: nat, cause: Cause): Report
    requires cause == Replied ==> Decides(env, n)
  {
    match cause
    case TimedOut =>
      PlainReport(env, Timeout, Elapsed(env, start, n) + env.cancelMs, Some(env.timeoutText(timeoutMs)))
    case LocalCancel => PlainReport(env, Cancelled, Elapsed(env, start, n) + env.cancelMs, None)
    case Replied => StatusReport(env, Classify(env.reply(n)), Elapsed(env, start, n + 1))
  }

  /** The polls a run makes: none after the cause, and one `cancel` just when the agent gave up itself. */
  function Calls(target: string, taskId: string, n: nat, cause: Cause): seq<Call> {
    if cause == Replied then Polls(target, taskId, n + 1)
    else Polls(target, taskId, n) + [CancelCall(target, taskId)]
  }

  function Polls(target: string, taskId: string, n: nat): (calls: seq<Call>)
    ensures |calls| == n
  {
    if n == 0 then [] else Polls(target, taskId, n - 1) + [StatusCall(target, taskId)]
  }

  lemma {:induction false} PollsAre(target: string, taskId: string, n: nat)
    ensures forall i | 0 <= i < n :: Polls(target, taskId, n)[i] == StatusCall(target, taskId)
  {
    if n > 0 {
      PollsAre(target, taskId, n - 1);
    }
  }

  /** After `n` undecided polls: the one that decides, or a cancel; all to the same sidecar about the same task. */
  lemma CallsAre(target: string, taskId: string, n: nat, cause: Cause)
    ensures var calls := Calls(target, taskId, n, cause);
            && |calls| == n + 1
            && (forall i | 0 <= i < n :: calls[i] == StatusCall(target, taskId))
            && calls[n] == if cause == Replied then StatusCall(target, taskId) else CancelCall(target, taskId)
  {
    PollsAre(target, taskId, n);
    PollsAre(target, taskId, n + 1);
  }

  /** The time the first `k` polls took. */
  function CallsMs(env: Env, k: nat): nat {
    if k == 0 then 0 else CallsMs(env, k - 1) + env.callMs(k - 1)
  }

  /** With exact sleeps the elapsed time is that of the submit, the delays and the calls. */
  lemma {:induction false} ElapsedIs(env: Env, start: nat, k: nat)
    requires forall j: nat | j < k :: env.oversleepMs(j) == 0
    ensures Elapsed(env, start, k) == start + SleptBefore(k) + CallsMs(env, k)
  {
    if k > 0 {
      ElapsedIs(env, start, k - 1);
    }
  }

  lemma {:induction false} ElapsedAtLeast(env: Env, start: nat, k: nat)
    ensures Elapsed(env, start, k) >= start + SleptBefore(k)
  {
    if k > 0 {
      ElapsedAtLeast(env, start, k - 1);
    }
  }

  /** While the loop goes on, the next poll is within the bound. */
  lemma PollWithinBound(env: Env, timeoutMs: nat, start: nat, k: nat)
    requires !TimesOut(env, timeoutMs, start, k)
    ensures k < PollBound(timeoutMs)
  {
    ElapsedAtLeast(env, start, k);
    PollBoundIsLeast(timeoutMs, k);
  }

  /**
   The poll loop. It stops at the first turn with a cause: the result is that of
   the first decisive reply unless the timeout or a local cancel comes before it;
   transport errors and unreadable replies only cost time. At most
   `PollBound(timeoutMs)` status calls are made.
   */
  method PollUntilComplete(env: Env, agentTaskId: Id, target: string, taskId: string, timeoutMs: nat, start: nat)
    returns (result: TaskResult, calls: seq<Call>, n: nat, cause: Cause)
    ensures StopsAt(env, timeoutMs, start, n, cause)
    ensures cause == Replied ==> Decides(env, n)
    ensures result == MakeResult(agentTaskId, ReportFor(env, timeoutMs, start, n, cause))
    ensures calls == Calls(target, taskId, n, cause)
    ensures n + (if cause == Replied then 1 else 0) <= PollBound(timeoutMs)
  {
    hide Classify, StatusReport, PollBound, Delay;
    var elapsed := start;
    n := 0;
    calls := [];
    while true
      invariant elapsed == Elapsed(env, start, n)
      invariant forall j | 0 <= j < n :: CauseAt(env, timeoutMs, start, j) == None
      invariant calls == Polls(target, taskId, n)
      invariant n <= PollBound(timeoutMs)
      decreases PollBound(timeoutMs) - n
    {
      if elapsed >= timeoutMs {
        calls := calls + [CancelCall(target, taskId)];
        cause := TimedOut;
        result := MakeResult(agentTaskId, PlainReport(env, Timeout, elapsed + env.cancelMs, Some(env.timeoutText(timeoutMs))));
        return;
      }
      PollWithinBound(env, timeoutMs, start, n);
      var delayMs := Delay(n);
      if delayMs > 0 {
        if env.cancelled(n) {
          calls := calls + [CancelCall(target, taskId)];
          cause := LocalCancel;
          result := MakeResult(agentTaskId, PlainReport(env, Cancelled, elapsed + env.cancelMs, None));
          return;
        }
        elapsed := elapsed + delayMs + env.oversleepMs(n);
      }
      calls := calls + [StatusCall(target, taskId)];
      elapsed := elapsed + env.callMs(n);
      var reply := Classify(env.reply(n));
      if Decisive(reply) {
        cause := Replied;
        result := MakeResult(agentTaskId, StatusReport(env, reply, elapsed));
        return;
      }
      n := n + 1;
    }
  }

  /** Nothing ever happens, and nothing takes longer than it must. */
  ghost predicate Silent(env: Env) {
    forall k: nat :: env.callMs(k) == 0 && env.oversleepMs(k) == 0 && !env.cancelled(k) && !Decides(env, k)
  }

  lemma {:induction false} SilentElapsed(env: Env, k: nat)
    requires Silent(env)
    ensures Elapsed(env, 0, k) == SleptBefore(k)
  {
    if k > 0 {
      SilentElapsed(env, k - 1);
    }
  }

  /** The bound is met exactly by a sidecar that never decides and answers at once. */
  lemma PollBoundIsReached(env: Env, timeoutMs: nat)
    requires Silent(env)
    ensures StopsAt(env, timeoutMs, 0, PollBound(timeoutMs), TimedOut)
  {
    SilentElapsed(env, PollBound(timeoutMs));
    PollBoundIsLeast(timeoutMs, PollBound(timeoutMs));
    forall j: nat | j < PollBound(timeoutMs)
      ensures CauseAt(env, timeoutMs, 0, j) == None
    {
      SilentElapsed(env, j);
      PollBoundIsLeast(timeoutMs, j);
    }
  }

  /**
   With exact sleeps and calls of at most `call` ms, a timeout is noticed before
   `timeoutMs + 1000 + call` ms, or at the first check if the submit took longer.
   */
  lemma TimeoutIsNoticed(env: Env, timeoutMs: nat, start: nat, n: nat, call: nat)
    requires StopsAt(env, timeoutMs, start, n, TimedOut)
    requires forall k: nat | k < n :: env.oversleepMs(k) == 0 && env.callMs(k) <= call
    ensures n == 0 ==> Elapsed(env, start, n) == start
    ensures n > 0 ==> Elapsed(env, start, n) < timeoutMs + 1000 + call
  {
    if n > 0 {
      assert CauseAt(env, timeoutMs, start, n - 1) == None;
      assert Delay(n - 1) <= 1000;
    }
  }

  // ---------------------------------------------------------------- Submit

  /** The payload with the task's credentials added; anything but an object is sent as it is. */
  function WithCredentials(payload: Json, creds: map<string, string>, deferred: Json): Json {
    if !payload.Obj? then payload
    else
      var eager := if creds == map[] then map[]
                   else map["_credentials" := Obj(map name | name in creds :: Str(creds[name]))];
      var later := if deferred.Null? then map[] else map["_lazy_credentials" := deferred];
      Obj(payload.fields + eager + later)
  }

  /**
   Credentials go into the payload under names of their own and only if there are
   any; every other field, and a payload that is no object, is sent as it is.
   */
  lemma CredentialsAreAdded(payload: Json, creds: map<string, string>, deferred: Json)
    ensures var sent := WithCredentials(payload, creds, deferred);
            && (!payload.Obj? ==> sent == payload)
            && (payload.Obj? ==>
                  && sent.Obj?
                  && (forall name | name !in {"_credentials", "_lazy_credentials"} ::
                        Get(sent.fields, name) == Get(payload.fields, name))
                  && (creds == map[] ==> Get(sent.fields, "_credentials") == Get(payload.fields, "_credentials"))
                  && (creds != map[] ==>
                        && "_credentials" in sent.fields && sent.fields["_credentials"].Obj?
                        && sent.fields["_credentials"].fields.Keys == creds.Keys
                        && forall name | name in creds :: sent.fields["_credentials"].fields[name] == Str(creds[name]))
                  && Get(sent.fields, "_lazy_credentials")
                     == if deferred.Null? then Get(payload.fields, "_lazy_credentials") else Some(deferred))
  {
  }

  datatype Submitted = Finished(report: Report) | Accepted(taskId: string)

  function SubmitOutcome(env: Env, target: string, r: Result<Response, string>,
                         badText: Json -> string, show: Json -> string, ms: nat): Submitted
  {
    match r
    case Err(e) => Finished(Report(Failed, None, "", e, ms, env.clock, Some("sidecar " + target + ": " + e)))
    case Ok(resp) =>
      if resp.error.Some? then
        var err := resp.error.value;
        Finished(Report(Failed, None, "", env.shown(err.code, err.message), ms, env.clock, Some(err.message)))
      else
        var value := if resp.result.Some? then resp.result.value else Null;
        match SubmitFromJson(value)
        case None =>
          Finished(Report(Failed, None, show(value), badText(value), ms, env.clock,
                          Some("failed to parse sidecar response: " + badText(value))))
        case Some(SubmitCompleted(stdout, stderr, _)) =>
          Finished(Report(Success, None, stdout, stderr, ms, env.clock, None))
        case Some(SubmitFailed(error, stderr)) =>
          Finished(Report(Failed, None, "", stderr, ms, env.clock, Some(error)))
        case Some(SubmitAccepted(taskId)) => Accepted(taskId)
  }

  /**
   A sidecar task from submit to result. A reply to the submit that is not an
   acceptance is final, with no further call; after an acceptance at most
   `PollBound(timeoutMs)` polls and one cancel follow.
   */
  method Execute(env: Env, id: Id, target: string, rpcMethod: string, payload: Json,
                 creds: map<string, string>, deferred: Json, timeoutMs: nat,
                 submitReply: Result<Response, string>, submitMs: nat,
                 badText: Json -> string, show: Json -> string)
    returns (result: TaskResult, calls: seq<Call>)
    ensures |calls| >= 1 && calls[0] == SubmitCall(target, rpcMethod, WithCredentials(payload, creds, deferred))
    ensures match SubmitOutcome(env, target, submitReply, badText, show, submitMs)
            case Finished(report) => |calls| == 1 && result == MakeResult(id, report)
            case Accepted(taskId) =>
              exists n: nat, cause ::
                && StopsAt(env, timeoutMs, submitMs, n, cause)
                && (cause == Replied ==> Decides(env, n))
                && result == MakeResult(id, ReportFor(env, timeoutMs, submitMs, n, cause))
                && calls[1..] == Calls(target, taskId, n, cause)
                && |calls| <= 2 + PollBound(timeoutMs)
  {
    var params := WithCredentials(payload, creds, deferred);
    calls := [SubmitCall(target, rpcMethod, params)];
    var outcome := SubmitOutcome(env, target, submitReply, badText, show, submitMs);
    match outcome {
      case Finished(report) =>
        result := MakeResult(id, report);
      case Accepted(taskId) =>
        var polls, n, cause;
        result, polls, n, cause := PollUntilComplete(env, id, target, taskId, timeoutMs, submitMs);
        calls := calls + polls;
        assert calls[1..] == polls;
    }
  }

  // ---------------------------------------------------------------- End to end

  /** What the agent makes of a sidecar's reply is what the sidecar's handler returned. */
  lemma HandlerStatusIsSeen<S>(wire: Wire, h: Handler<S>, s: S, taskId: string)
    ensures var params := Obj(map["task_id" := Str(taskId)]);
            var (resp, _) := Dispatch(wire, h, s, NewRequest("status", Some(params)));
            Classify(Ok(DropNullResult(resp)))
            == match h.status(s, taskId).0
               case Ok(status) => Known(status)
               case Err(e) => Refused(e.code, e.message)
  {
    var r := h.status(s, taskId).0;
    if r.Ok? {
      StatusRoundTrip(r.value);
    }
  }

  /** So it is with a submit: the sidecar's verdict, or its acceptance, is what the agent acts on. */
  lemma HandlerSubmitIsSeen<S>(env: Env, wire: Wire, h: Handler<S>, s: S, target: string, params: Json,
                               badText: Json -> string, show: Json -> string, ms: nat)
    ensures var (resp, _) := Dispatch(wire, h, s, NewRequest("submit", Some(params)));
            SubmitOutcome(env, target, Ok(DropNullResult(resp)), badText, show, ms)
            == match h.submit(s, params).0
               case Ok(SubmitAccepted(taskId)) => Accepted(taskId)
               case Ok(SubmitCompleted(stdout, stderr, _)) =>
                 Finished(Report(Success, None, stdout, stderr, ms, env.clock, None))
               case Ok(SubmitFailed(error, stderr)) =>
                 Finished(Report(Failed, None, "", stderr, ms, env.clock, Some(error)))
               case Err(e) =>
                 Finished(Report(Failed, None, "", env.shown(e.code, e.message), ms, env.clock, Some(e.message)))
  {
    var r := h.submit(s, params).0;
    if r.Ok? {
      SubmitRoundTrip(r.value);
    }
  }

  /** A submit that gets no reply, or none that can be read, is a failure that says so. */
  lemma SubmitWithoutVerdict(env: Env, target: string, r: Result<Response, string>,
                             badText: Json -> string, show: Json -> string, ms: nat)
    ensures r.Err? ==>
              SubmitOutcome(env, target, r, badText, show, ms)
              == Finished(Report(Failed, None, "", r.error, ms, env.clock, Some("sidecar " + target + ": " + r.error)))
    ensures r.Ok? && r.value.error.None?
            && SubmitFromJson(if r.value.result.Some? then r.value.result.value else Null).None? ==>
              var o := SubmitOutcome(env, target, r, badText, show, ms);
              o.Finished? && o.report.status == Failed && o.report.error.Some? && o.report.durationMs == ms
  {
  }

  /** A poll without a reply, or with one that cannot be read, decides nothing; nor does `running`. */
  lemma UndecidedPolls(env: Env, k: nat)
    ensures Decides(env, k) <==>
              && env.reply(k).Ok?
              && (env.reply(k).value.error.Some?
                  || var result := env.reply(k).value.result;
                     var status := StatusFromJson(if result.Some? then result.value else Null);
                     status.Some? && status.value != StatusRunning)
  {
  }

  /** The wire form of the reply a handler's answer to a status poll makes. */
  function StatusReply<S>(wire: Wire, h: Handler<S>, s: S, taskId: string): Result<Response, string> {
    var params := Obj(map["task_id" := Str(taskId)]);
    Ok(DropNullResult(Dispatch(wire, h, s, NewRequest("status", Some(params))).0))
  }

  /**
   From the sidecar's handler to the agent's result: the handler's answer to the
   poll that decides is what is reported, and a timeout or a local cancel is
   reported as such, each with the time it took.
   */
  lemma VerdictIsReported<S>(env: Env, wire: Wire, h: Handler<S>, s: S, taskId: string,
                             timeoutMs: nat, start: nat, n: nat)
    requires env.reply(n) == StatusReply(wire, h, s, taskId)
    ensures Decides(env, n) <==> h.status(s, taskId).0 != Ok(StatusRunning)
    ensures Decides(env, n) ==>
              var report := ReportFor(env, timeoutMs, start, n, Replied);
              && report.exitCode == None && report.durationMs == Elapsed(env, start, n + 1)
              && match h.status(s, taskId).0
                 case Ok(StatusCompleted(stdout, stderr, _)) =>
                   report.status == Success && report.stdout == stdout && report.stderr == stderr && report.error == None
                 case Ok(StatusFailed(error, stderr)) =>
                   report.status == Failed && report.stdout == "" && report.stderr == stderr && report.error == Some(error)
                 case Ok(StatusCancelled) =>
                   report.status == Cancelled && report.stdout == "" && report.stderr == "" && report.error == None
                 case Ok(StatusRunning) => false
                 case Err(e) =>
                   && report.status == Failed && report.stdout == ""
                   && report.stderr == env.shown(e.code, e.message) && report.error == Some(e.message)
  {
    HandlerStatusIsSeen(wire, h, s, taskId);
  }

  /** Giving up is reported as what it was. */
  lemma GivingUpIsReported(env: Env, timeoutMs: nat, start: nat, n: nat)
    ensures var report := ReportFor(env, timeoutMs, start, n, TimedOut);
            && report.status == Timeout && report.stdout == "" && report.stderr == ""
            && report.error == Some(env.timeoutText(timeoutMs)) && report.durationMs >= Elapsed(env, start, n)
    ensures var report := ReportFor(env, timeoutMs, start, n, LocalCancel);
            && report.status == Cancelled && report.stdout == "" && report.stderr == ""
            && report.error == None && report.durationMs >= Elapsed(env, start, n)
  {
  }
}
