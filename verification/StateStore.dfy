/**
 The SQLite state store: each table is a sequence of rows in key order, each
 SQL statement one atomic change.
 */
module StateStore {
  import opened Types
  import Seqs

  datatype AuditEvent = AuditEvent(timestamp: int, eventType: string, taskId: Option<string>, detail: string)

  datatype AuditRow = AuditRow(id: nat, event: AuditEvent, forwarded: bool)

  datatype JournalEntry = JournalEntry(id: nat, row: JournalRow)

  datatype UnitRow = UnitRow(
    name: string, kind: string, version: string, state: string,
    health: Option<string>, healthError: Option<string>, pid: Option<nat>,
    socketPath: Option<string>, config: Option<string>, updatedAt: int)

  // ---------------------------------------------------------------- Audit log

  predicate AuditSorted(rows: seq<AuditRow>) {
    forall i, j | 0 <= i < j < |rows| :: rows[i].id < rows[j].id
  }

  /** `WHERE forwarded = 0 ORDER BY id LIMIT limit`, on rows in key order. */
  function Pending(rows: seq<AuditRow>, limit: nat): seq<AuditRow> {
    if rows == [] || limit == 0 then []
    else if rows[0].forwarded then Pending(rows[1..], limit)
    else [rows[0]] + Pending(rows[1..], limit - 1)
  }

  /** `SET forwarded = 1 WHERE id = ?`. */
  function Mark(rows: seq<AuditRow>, id: nat): seq<AuditRow> {
    seq(|rows|, i requires 0 <= i < |rows| => if rows[i].id == id then rows[i].(forwarded := true) else rows[i])
  }

  function MarkAll(rows: seq<AuditRow>, ids: seq<nat>): seq<AuditRow>
    decreases |ids|
  {
    if ids == [] then rows else MarkAll(Mark(rows, ids[0]), ids[1..])
  }

  /** Length of the forwarded prefix. */
  function Forwarded(rows: seq<AuditRow>): (n: nat)
    ensures n <= |rows|
  {
    if rows == [] || !rows[0].forwarded then 0 else 1 + Forwarded(rows[1..])
  }

  /** The forwarded rows are exactly the oldest ones. */
  predicate ForwardedIsPrefix(rows: seq<AuditRow>) {
    forall i | 0 <= i < |rows| :: rows[i].forwarded <==> i < Forwarded(rows)
  }

  /** The prefix length is determined by the flags. */
  lemma {:induction false} ForwardedUnique(rows: seq<AuditRow>, n: nat)
    requires n <= |rows| && forall i | 0 <= i < |rows| :: rows[i].forwarded <==> i < n
    ensures Forwarded(rows) == n && ForwardedIsPrefix(rows)
  {
    if n > 0 {
      ForwardedUnique(rows[1..], n - 1);
    }
  }

  /** Over a forwarded prefix, the pending rows are the segment right after it. */
  lemma {:induction false} PendingIsSegment(rows: seq<AuditRow>, limit: nat)
    requires ForwardedIsPrefix(rows)
    ensures var f := Forwarded(rows);
            && f <= |rows|
            && Pending(rows, limit) == rows[f..if |rows| - f <= limit then |rows| else f + limit]
  {
    if rows != [] && limit > 0 {
      var rest := rows[1..];
      var f := Forwarded(rows);
      if rows[0].forwarded {
        ForwardedUnique(rest, f - 1);
        PendingIsSegment(rest, limit);
      } else {
        assert f == 0;
        ForwardedUnique(rest, 0);
        PendingIsSegment(rest, limit - 1);
        assert rows == [rows[0]] + rest;
      }
    }
  }

  /** Marking the first pending row moves the boundary by one. */
  lemma MarkNext(rows: seq<AuditRow>, id: nat)
    requires AuditSorted(rows) && ForwardedIsPrefix(rows)
    requires Forwarded(rows) < |rows| && rows[Forwarded(rows)].id == id
    ensures AuditSorted(Mark(rows, id)) && ForwardedIsPrefix(Mark(rows, id))
    ensures Forwarded(Mark(rows, id)) == Forwarded(rows) + 1
  {
    var rows' := Mark(rows, id);
    var f := Forwarded(rows);
    forall i | 0 <= i < |rows'|
      ensures rows'[i].forwarded <==> i < f + 1
    {
      if i < f {
        assert rows[i].id < rows[f].id;
      } else if i > f {
        assert rows[f].id < rows[i].id;
      }
    }
    ForwardedUnique(rows', f + 1);
  }

  /** `ids` are the keys of the first pending rows. */
  predicate NextIds(rows: seq<AuditRow>, ids: seq<nat>) {
    && Forwarded(rows) + |ids| <= |rows|
    && forall k | 0 <= k < |ids| :: rows[Forwarded(rows) + k].id == ids[k]
  }

  /** The same rows, up to their flags. */
  predicate SameEvents(rows: seq<AuditRow>, rows': seq<AuditRow>) {
    && |rows'| == |rows|
    && forall i | 0 <= i < |rows| :: rows'[i].id == rows[i].id && rows'[i].event == rows[i].event
  }

  /** Marking the first pending rows in order moves the boundary past them and changes nothing else. */
  lemma {:induction false} MarkSegment(rows: seq<AuditRow>, ids: seq<nat>)
    requires AuditSorted(rows) && ForwardedIsPrefix(rows) && NextIds(rows, ids)
    ensures AuditSorted(MarkAll(rows, ids)) && ForwardedIsPrefix(MarkAll(rows, ids))
    ensures Forwarded(MarkAll(rows, ids)) == Forwarded(rows) + |ids|
    ensures SameEvents(rows, MarkAll(rows, ids))
    decreases |ids|
  {
    if ids != [] {
      MarkNext(rows, ids[0]);
      MarkSegment(Mark(rows, ids[0]), ids[1..]);
    }
  }

  /** Appending an unforwarded row leaves the boundary where it is. */
  lemma AppendKeepsBoundary(rows: seq<AuditRow>, row: AuditRow)
    requires ForwardedIsPrefix(rows) && !row.forwarded
    ensures ForwardedIsPrefix(rows + [row]) && Forwarded(rows + [row]) == Forwarded(rows)
  {
    ForwardedUnique(rows + [row], Forwarded(rows));
  }

  // ---------------------------------------------------------------- Journal

  predicate JournalSorted(rows: seq<JournalEntry>) {
    forall i, j | 0 <= i < j < |rows| :: rows[i].id < rows[j].id
  }

  /** How many rows have a larger key. */
  function Newer(rows: seq<JournalEntry>, id: nat): nat {
    if rows == [] then 0 else (if rows[0].id > id then 1 else 0) + Newer(rows[1..], id)
  }

  /** The rows of `rows` that are among the `keep` newest of `all`. */
  function KeepNewest(rows: seq<JournalEntry>, all: seq<JournalEntry>, keep: nat): seq<JournalEntry> {
    if rows == [] then []
    else (if Newer(all, rows[0].id) < keep then [rows[0]] else []) + KeepNewest(rows[1..], all, keep)
  }

  /** `DELETE ... WHERE id NOT IN (SELECT id ... ORDER BY id DESC LIMIT keep)`. */
  function Prune(rows: seq<JournalEntry>, keep: nat): seq<JournalEntry> {
    KeepNewest(rows, rows, keep)
  }

  function LastN<T>(s: seq<T>, n: nat): seq<T> {
    if |s| <= n then s else s[|s| - n..]
  }

  lemma {:induction false} NewerThanAll(rows: seq<JournalEntry>, id: nat)
    requires forall i | 0 <= i < |rows| :: rows[i].id > id
    ensures Newer(rows, id) == |rows|
  {
    if rows != [] {
      NewerThanAll(rows[1..], id);
    }
  }

  lemma {:induction false} NewerAt(rows: seq<JournalEntry>, i: nat)
    requires JournalSorted(rows) && i < |rows|
    ensures Newer(rows, rows[i].id) == |rows| - 1 - i
  {
    if i == 0 {
      NewerThanAll(rows[1..], rows[0].id);
    } else {
      NewerAt(rows[1..], i - 1);
    }
  }

  lemma {:induction false} KeepNewestFrom(all: seq<JournalEntry>, i: nat, keep: nat)
    requires JournalSorted(all) && i <= |all|
    ensures KeepNewest(all[i..], all, keep) == if |all| - i <= keep then all[i..] else all[|all| - keep..]
    decreases |all| - i
  {
    if i < |all| {
      NewerAt(all, i);
      assert all[i..][1..] == all[i + 1..];
      KeepNewestFrom(all, i + 1, keep);
    }
  }

  /** Pruning keeps exactly the last `keep` rows, in order. */
  lemma PruneKeepsLast(rows: seq<JournalEntry>, keep: nat)
    requires JournalSorted(rows)
    ensures Prune(rows, keep) == LastN(rows, keep)
  {
    KeepNewestFrom(rows, 0, keep);
    assert rows[0..] == rows;
  }

  datatype JournalOp = RecordRow(row: JournalRow) | PruneTo(keep: nat)

  datatype Journal = Journal(rows: seq<JournalEntry>, lastId: nat)

  predicate JournalValid(j: Journal) {
    JournalSorted(j.rows) && forall i | 0 <= i < |j.rows| :: j.rows[i].id <= j.lastId
  }

  /** Keys come from `AUTOINCREMENT`: never reused, even after a prune. */
  function ApplyJournal(j: Journal, op: JournalOp): Journal {
    match op
    case RecordRow(row) => Journal(j.rows + [JournalEntry(j.lastId + 1, row)], j.lastId + 1)
    case PruneTo(keep) => Journal(Prune(j.rows, keep), j.lastId)
  }

  function RunJournal(ops: seq<JournalOp>): Journal {
    if ops == [] then Journal([], 0)
    else ApplyJournal(RunJournal(ops[..|ops| - 1]), ops[|ops| - 1])
  }

  function Recorded(ops: seq<JournalOp>): seq<JournalRow> {
    if ops == [] then []
    else Recorded(ops[..|ops| - 1]) + (if ops[|ops| - 1].RecordRow? then [ops[|ops| - 1].row] else [])
  }

  function Values(rows: seq<JournalEntry>): seq<JournalRow> {
    seq(|rows|, i requires 0 <= i < |rows| => rows[i].row)
  }

  lemma ApplyJournalValid(j: Journal, op: JournalOp)
    requires JournalValid(j)
    ensures JournalValid(ApplyJournal(j, op))
  {
    if op.PruneTo? {
      PruneKeepsLast(j.rows, op.keep);
    }
  }

  lemma ValuesAppend(rows: seq<JournalEntry>, e: JournalEntry)
    ensures Values(rows + [e]) == Values(rows) + [e.row]
  {
  }

  lemma ValuesSplit(rows: seq<JournalEntry>, n: nat)
    requires n <= |rows|
    ensures Values(rows) == Values(rows[..n]) + Values(rows[n..])
  {
  }

  lemma TailIs<T>(a: seq<T>, b: seq<T>, k: nat)
    requires |b| == k || (|b| < k && a == [])
    ensures LastN(a + b, k) == b
  {
  }

  /** One operation drops some of the oldest rows and keeps the rest in order. */
  lemma ApplyJournalDrops(j: Journal, op: JournalOp) returns (dropped: seq<JournalRow>)
    requires JournalValid(j)
    ensures JournalValid(ApplyJournal(j, op))
    ensures Values(j.rows) + (if op.RecordRow? then [op.row] else []) == dropped + Values(ApplyJournal(j, op).rows)
    ensures |ApplyJournal(j, op).rows| >= |j.rows| || (op.PruneTo? && |ApplyJournal(j, op).rows| == op.keep)
    ensures |ApplyJournal(j, op).rows| >= |j.rows| ==> dropped == []
  {
    match op {
      case RecordRow(row) =>
        dropped := [];
        ValuesAppend(j.rows, JournalEntry(j.lastId + 1, row));
      case PruneTo(keep) =>
        PruneKeepsLast(j.rows, keep);
        var n := if |j.rows| <= keep then 0 else |j.rows| - keep;
        ValuesSplit(j.rows, n);
        dropped := Values(j.rows[..n]);
        assert j.rows[0..] == j.rows;
    }
  }

  /** What is left after any operations is the tail of everything recorded, at least `k` long if there is that much. */
  lemma {:induction false} JournalIsTail(ops: seq<JournalOp>, k: nat) returns (dropped: seq<JournalRow>)
    requires forall i | 0 <= i < |ops| && ops[i].PruneTo? :: ops[i].keep >= k
    ensures JournalValid(RunJournal(ops))
    ensures Recorded(ops) == dropped + Values(RunJournal(ops).rows)
    ensures |RunJournal(ops).rows| >= k || dropped == []
  {
    if ops == [] {
      dropped := [];
    } else {
      hide JournalValid, ApplyJournal, Values;
      var before, op := ops[..|ops| - 1], ops[|ops| - 1];
      var d := JournalIsTail(before, k);
      var j := RunJournal(before);
      var d' := ApplyJournalDrops(j, op);
      dropped := d + d';
      Seqs.Assoc(d, Values(j.rows), if op.RecordRow? then [op.row] else []);
      Seqs.Assoc(d, d', Values(ApplyJournal(j, op).rows));
    }
  }

  /**
   The journal is a ring buffer: after any mix of inserts and prunes that keep
   at least `k` rows, a prune to `k` leaves the last `k` rows ever recorded.
   */
  lemma RingBuffer(ops: seq<JournalOp>, k: nat)
    requires forall i | 0 <= i < |ops| && ops[i].PruneTo? :: ops[i].keep >= k
    ensures Values(RunJournal(ops + [PruneTo(k)]).rows) == LastN(Recorded(ops), k)
  {
    var all := ops + [PruneTo(k)];
    PruneLast(ops, k);
    hide LastN, JournalValid, Values, Recorded, RunJournal;
    var dropped := JournalIsTail(all, k);
    TailIs(dropped, Values(RunJournal(all).rows), k);
  }

  /** A final prune records nothing and leaves at most `k` rows. */
  lemma PruneLast(ops: seq<JournalOp>, k: nat)
    ensures Recorded(ops + [PruneTo(k)]) == Recorded(ops)
    ensures |Values(RunJournal(ops + [PruneTo(k)]).rows)| <= k
    ensures |Values(RunJournal(ops + [PruneTo(k)]).rows)| == |RunJournal(ops + [PruneTo(k)]).rows|
  {
    var all := ops + [PruneTo(k)];
    assert all[..|all| - 1] == ops;
    var _ := JournalIsTail(ops, 0);
    PruneKeepsLast(RunJournal(ops).rows, k);
  }

  // ---------------------------------------------------------------- Units

  /** The name column is the primary key. */
  predicate UniqueNames(rows: seq<UnitRow>) {
    forall i, j | 0 <= i < j < |rows| :: rows[i].name != rows[j].name
  }

  predicate Keyed(units: map<string, UnitRow>) {
    forall name | name in units :: units[name].name == name
  }

  type Units = units: map<string, UnitRow> | Keyed(units) witness map[]

  /** The `units` table by name. */
  ghost function Table(rows: seq<UnitRow>): Units
    requires UniqueNames(rows)
  {
    map i | 0 <= i < |rows| :: rows[i].name := rows[i]
  }

  lemma TableAppend(rows: seq<UnitRow>, unit: UnitRow)
    requires UniqueNames(rows) && forall i | 0 <= i < |rows| :: rows[i].name != unit.name
    ensures UniqueNames(rows + [unit]) && Table(rows + [unit]) == Table(rows)[unit.name := unit]
  {
    var more := rows + [unit];
    assert forall i | 0 <= i < |rows| :: more[i] == rows[i];
    assert more[|rows|] == unit;
  }

  lemma TableReplace(rows: seq<UnitRow>, k: nat, unit: UnitRow)
    requires UniqueNames(rows) && k < |rows| && rows[k].name == unit.name
    ensures UniqueNames(rows[k := unit]) && Table(rows[k := unit]) == Table(rows)[unit.name := unit]
  {
    var more := rows[k := unit];
    assert forall i | 0 <= i < |rows| :: more[i].name == rows[i].name;
  }

  // ---------------------------------------------------------------- Store

  class Store {
    var audit: seq<AuditRow>
    var lastAuditId: nat
    var journal: Journal
    var units: seq<UnitRow>

    predicate Valid()
      reads this
    {
      && AuditSorted(audit)
      && (forall i | 0 <= i < |audit| :: audit[i].id <= lastAuditId)
      && JournalValid(journal)
      && UniqueNames(units)
    }

    constructor ()
      ensures Valid() && audit == [] && journal == Journal([], 0) && units == []
    {
      audit := [];
      lastAuditId := 0;
      journal := Journal([], 0);
      units := [];
    }

    method AppendAudit(event: AuditEvent)
      requires Valid()
      modifies this`audit, this`lastAuditId
      ensures Valid()
      ensures lastAuditId == old(lastAuditId) + 1
      ensures audit == old(audit) + [AuditRow(lastAuditId, event, false)]
    {
      lastAuditId := lastAuditId + 1;
      audit := audit + [AuditRow(lastAuditId, event, false)];
    }

    method PendingAuditEvents(limit: nat) returns (rows: seq<AuditRow>)
      requires Valid()
      ensures rows == Pending(audit, limit)
      ensures |rows| <= limit
    {
      rows := [];
      var i := 0;
      while i < |audit| && |rows| < limit
        invariant i <= |audit| && |rows| <= limit
        invariant Pending(audit, limit) == rows + Pending(audit[i..], limit - |rows|)
      {
        assert audit[i..][1..] == audit[i + 1..];
        if !audit[i].forwarded {
          Seqs.Assoc(rows, [audit[i]], Pending(audit[i + 1..], limit - |rows| - 1));
          rows := rows + [audit[i]];
        }
        i := i + 1;
      }
    }

    /**
     One update per id, each its own transaction: when statement `failAt` fails,
     the updates before it stay. `failAt >= |ids|` means no failure.
     */
    method MarkForwarded(ids: seq<nat>, failAt: nat) returns (ok: bool)
      requires Valid()
      modifies this`audit
      ensures Valid()
      ensures ok <==> failAt >= |ids|
      ensures audit == MarkAll(old(audit), if ok then ids else ids[..failAt])
    {
      var n := 0;
      ghost var stop := if failAt >= |ids| then |ids| else failAt;
      assert ids[0..stop] == if failAt >= |ids| then ids else ids[..failAt];
      while n < |ids| && n != failAt
        invariant n <= stop
        invariant Valid()
        invariant MarkAll(audit, ids[n..stop]) == MarkAll(old(audit), ids[0..stop])
      {
        assert ids[n..stop][1..] == ids[n + 1..stop];
        audit := Mark(audit, ids[n]);
        n := n + 1;
      }
      ok := n == |ids|;
    }

    method RecordTaskResult(row: JournalRow)
      requires Valid()
      modifies this`journal
      ensures Valid() && journal == ApplyJournal(old(journal), RecordRow(row))
      ensures Values(journal.rows) == old(Values(journal.rows)) + [row]
    {
      ApplyJournalValid(journal, RecordRow(row));
      ValuesAppend(journal.rows, JournalEntry(journal.lastId + 1, row));
      journal := Journal(journal.rows + [JournalEntry(journal.lastId + 1, row)], journal.lastId + 1);
    }

    method PruneJournal(keep: nat) returns (deleted: nat)
      requires Valid()
      modifies this`journal
      ensures Valid() && journal == ApplyJournal(old(journal), PruneTo(keep))
      ensures journal.rows == LastN(old(journal.rows), keep)
      ensures deleted + |journal.rows| == |old(journal.rows)|
    {
      ApplyJournalValid(journal, PruneTo(keep));
      PruneKeepsLast(journal.rows, keep);
      var kept := Prune(journal.rows, keep);
      deleted := |journal.rows| - |kept|;
      journal := Journal(kept, journal.lastId);
    }

    /** Insert, or on a conflict of names update: the table gets this row and keeps all others. */
    method UpsertUnit(unit: UnitRow)
      requires Valid()
      modifies this`units
      ensures Valid() && Table(units) == old(Table(units))[unit.name := unit]
    {
      var i := IndexOf(unit.name);
      if i < |units| {
        TableReplace(units, i, unit);
        units := units[i := unit];
      } else {
        TableAppend(units, unit);
        units := units + [unit];
      }
    }

    method IndexOf(name: string) returns (i: nat)
      ensures i <= |units|
      ensures i < |units| ==> units[i].name == name
      ensures i == |units| ==> forall j | 0 <= j < |units| :: units[j].name != name
    {
      i := 0;
      while i < |units| && units[i].name != name
        invariant i <= |units|
        invariant forall j | 0 <= j < i :: units[j].name != name
      {
        i := i + 1;
      }
    }

    /** The row of that name is found wherever it is. */
    method GetUnit(name: string) returns (r: Option<UnitRow>)
      requires Valid()
      ensures r == if name in Table(units) then Some(Table(units)[name]) else None
    {
      var i := IndexOf(name);
      r := if i < |units| then Some(units[i]) else None;
    }
  }
}
