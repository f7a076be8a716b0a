/**
 Values shared by the models of the Vasal agent: task descriptions, the results
 executors produce and the rows the task journal keeps.
 */
module Types {

  datatype Option<+T> = None | Some(value: T)

  datatype Result<+T, +E> = Ok(value: T) | Err(error: E)

  /** A UUID, compared only for equality. */
  type Id = nat

  datatype Status = Success | Failed | Cancelled | Timeout | RolledBack

  datatype Executor = Shell | Sidecar

  datatype ExecKind = Oneshot | Continuous

  /** The JSON payload and the credential references are opaque to the agent. */
  datatype ExecTask = ExecTask(
    id: Id,
    kind: ExecKind,
    executor: Executor,
    target: Option<string>,
    rpcMethod: Option<string>,
    payload: string,
    intervalMs: Option<nat>,
    timeoutMs: nat,
    credentials: seq<string>)

  datatype RollbackStrategy = RollbackFailed | RollbackAll

  datatype ChainStep = ChainStep(task: ExecTask, rollback: Option<ExecTask>)

  datatype TaskChain = TaskChain(id: Id, steps: seq<ChainStep>, onFailure: RollbackStrategy)

  /** What an executor has to say about one execution. */
  datatype Report = Report(
    status: Status,
    exitCode: Option<int>,
    stdout: string,
    stderr: string,
    durationMs: nat,
    timestamp: nat,
    error: Option<string>)

  datatype TaskResult = TaskResult(
    taskId: Id,
    chainId: Option<Id>,
    stepIndex: Option<nat>,
    report: Report)
  {
    function Status(): Status { report.status }
  }

  /** A result outside any chain. */
  function MakeResult(id: Id, report: Report): TaskResult {
    TaskResult(id, None, None, report)
  }

  /** The report made when a task fails before its executor starts. */
  function FailureReport(message: string, timestamp: nat): Report {
    Report(Failed, None, "", message, 0, timestamp, Some(message))
  }

  const TWO_32: nat := 0x1_0000_0000
  const TWO_64: nat := 0x1_0000_0000_0000_0000

  /** `n as u32`. */
  function U32(n: nat): nat { n % TWO_32 }

  /** `n as i32` of a `u32`. */
  function I32(n: nat): int {
    if n % TWO_32 < TWO_32 / 2 then n % TWO_32 else n % TWO_32 - TWO_32
  }

  /** `n as i64` of a `u64`. */
  function I64(n: nat): int {
    if n % TWO_64 < TWO_64 / 2 then n % TWO_64 else n % TWO_64 - TWO_64
  }

  /** A row of `task_journal`, without its key. The error text is not stored. */
  datatype JournalRow = JournalRow(
    taskId: Id,
    chainId: Option<Id>,
    stepIndex: Option<int>,
    status: Status,
    exitCode: Option<int>,
    stdout: string,
    stderr: string,
    durationMs: int,
    createdAt: int)

  function ToJournalRow(r: TaskResult): JournalRow {
    JournalRow(
      r.taskId,
      r.chainId,
      if r.stepIndex.Some? then Some(I32(r.stepIndex.value)) else None,
      r.report.status,
      r.report.exitCode,
      r.report.stdout,
      r.report.stderr,
      I64(r.report.durationMs),
      I64(r.report.timestamp))
  }

  /** A result whose unsigned fields fit their Rust types. */
  predicate InRange(r: TaskResult) {
    && (r.stepIndex.Some? ==> r.stepIndex.value < TWO_32)
    && r.report.durationMs < TWO_64
    && r.report.timestamp < TWO_64
  }

  /** The unsigned value a signed column of this many values stands for. */
  function Unsigned(n: int, modulus: nat): nat
    requires 0 <= n + modulus
  {
    if n < 0 then n + modulus else n
  }

  /** A row read back, each column into its own field. */
  predicate ReadsAs(row: JournalRow, r: TaskResult) {
    && row.taskId == r.taskId && row.chainId == r.chainId && row.status == r.report.status
    && row.exitCode == r.report.exitCode && row.stdout == r.report.stdout && row.stderr == r.report.stderr
    && row.stepIndex.Some? == r.stepIndex.Some?
    && (row.stepIndex.Some? ==>
          -0x8000_0000 <= row.stepIndex.value < 0x8000_0000 && Unsigned(row.stepIndex.value, TWO_32) == r.stepIndex.value)
    && -0x8000_0000_0000_0000 <= row.durationMs < TWO_64 / 2 && Unsigned(row.durationMs, TWO_64) == r.report.durationMs
    && -0x8000_0000_0000_0000 <= row.createdAt < TWO_64 / 2 && Unsigned(row.createdAt, TWO_64) == r.report.timestamp
  }

  /** Every column holds the field it is named after, in its signed form, and reads back as it. */
  lemma JournalRowReadsBack(r: TaskResult)
    requires InRange(r)
    ensures ReadsAs(ToJournalRow(r), r)
  {
  }

  /** The journal loses nothing of a result but its error text: the signed columns are reversible. */
  lemma JournalRowInjective(a: TaskResult, b: TaskResult)
    requires InRange(a) && InRange(b)
    requires ToJournalRow(a) == ToJournalRow(b)
    ensures a == b.(report := b.report.(error := a.report.error))
  {
  }
}

/** Facts about sequences. */
module Seqs {

  lemma Assoc<T>(a: seq<T>, b: seq<T>, c: seq<T>)
    ensures (a + b) + c == a + (b + c)
  {
  }
}
