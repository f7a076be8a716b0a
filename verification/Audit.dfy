/** Exponential backoff as the forwarder and the gRPC transport use it. */
module Backoff {

  function Pow2(n: nat): nat {
    if n == 0 then 1 else 2 * Pow2(n - 1)
  }

  function Min(a: nat, b: nat): nat {
    if a <= b then a else b
  }

  /** The number of failures at the end of a history of outcomes. */
  function Streak(outcomes: seq<bool>): nat {
    if outcomes == [] || outcomes[|outcomes| - 1] then 0
    else 1 + Streak(outcomes[..|outcomes| - 1])
  }

  /** The delay stored after `outcomes`: doubled up to `cap` by each failure, back to one after a success. */
  function Delay(outcomes: seq<bool>, cap: nat): nat {
    Min(Pow2(Streak(outcomes)), cap)
  }

  lemma FirstDelay(cap: nat)
    requires cap >= 1
    ensures Delay([], cap) == 1
  {
  }

  lemma DelayNext(outcomes: seq<bool>, ok: bool, cap: nat)
    requires cap >= 1
    ensures Delay(outcomes + [ok], cap) == if ok then 1 else Min(2 * Delay(outcomes, cap), cap)
  {
    assert (outcomes + [ok])[..|outcomes|] == outcomes;
  }
}

/**
 The audit forwarder over the state store. The endpoint keeps what reached it;
 crashes, lost requests, lost acknowledgements, failures partway through the
 marking and concurrent appends may happen at any point.
 */
module Audit {
  import opened Types
  import opened StateStore
  import opened Backoff
  import Seqs

  /** A row as it was posted. The request carries its event; the key only tells rows apart here. */
  datatype Delivery = Delivery(id: nat, event: AuditEvent)

  function DeliveryOf(row: AuditRow): Delivery { Delivery(row.id, row.event) }

  function Deliveries(rows: seq<AuditRow>): seq<Delivery> {
    seq(|rows|, i requires 0 <= i < |rows| => DeliveryOf(rows[i]))
  }

  function Ids(rows: seq<AuditRow>): seq<nat> {
    seq(|rows|, i requires 0 <= i < |rows| => rows[i].id)
  }

  /** A log with every repeat removed. */
  function FirstSeen<T(==)>(log: seq<T>): seq<T> {
    if log == [] then []
    else
      var before, last := log[..|log| - 1], log[|log| - 1];
      if last in before then FirstSeen(before) else FirstSeen(before) + [last]
  }

  lemma {:induction false} FirstSeenMembers<T>(log: seq<T>)
    ensures forall x :: x in FirstSeen(log) <==> x in log
    ensures forall i, j | 0 <= i < j < |FirstSeen(log)| :: FirstSeen(log)[i] != FirstSeen(log)[j]
  {
    if log != [] {
      var before, last := log[..|log| - 1], log[|log| - 1];
      FirstSeenMembers(before);
      assert log == before + [last];
    }
  }

  lemma FirstSeenHas<T>(log: seq<T>, x: T)
    ensures x in FirstSeen(log) <==> x in log
  {
    FirstSeenMembers(log);
  }

  lemma FirstSeenAppend<T>(log: seq<T>, x: T)
    ensures FirstSeen(log + [x]) == if x in log then FirstSeen(log) else FirstSeen(log) + [x]
  {
    assert (log + [x])[..|log|] == log;
  }

  // ---------------------------------------------------------------- Machine

  datatype Pc =
    | Idle
    | Posting(batch: seq<AuditRow>)
    | Marking(ids: seq<nat>, done: nat)

  /** `posted` is what reached the endpoint, `acked` what it acknowledged; both are histories. */
  datatype State = State(rows: seq<AuditRow>, pc: Pc, posted: seq<Delivery>, acked: seq<Delivery>)

  datatype Step =
    | Append(id: nat, event: AuditEvent)
    | Read(limit: nat)
    | PostLost
    | PostUnacked
    | PostAcked
    | MarkOne
    | MarkEnd
    | Abandon     // an error partway through, or a crash

  predicate Enabled(s: State, t: Step) {
    match t
    case Append(id, _) => forall i | 0 <= i < |s.rows| :: s.rows[i].id < id
    case Read(_) => s.pc == Idle
    case PostLost => s.pc.Posting?
    case PostUnacked => s.pc.Posting?
    case PostAcked => s.pc.Posting?
    case MarkOne => s.pc.Marking? && s.pc.done < |s.pc.ids|
    case MarkEnd => s.pc.Marking? && s.pc.done == |s.pc.ids|
    case Abandon => true
  }

  function Next(s: State, t: Step): State
    requires Enabled(s, t)
  {
    match t
    case Append(id, event) => s.(rows := s.rows + [AuditRow(id, event, false)])
    case Read(limit) =>
      var batch := Pending(s.rows, limit);
      if batch == [] then s else s.(pc := Posting(batch))
    case PostLost => s.(pc := Idle)
    case PostUnacked => s.(pc := Idle, posted := s.posted + Deliveries(s.pc.batch))
    case PostAcked =>
      s.(pc := Marking(Ids(s.pc.batch), 0),
         posted := s.posted + Deliveries(s.pc.batch),
         acked := s.acked + Deliveries(s.pc.batch))
    case MarkOne => s.(rows := Mark(s.rows, s.pc.ids[s.pc.done]), pc := s.pc.(done := s.pc.done + 1))
    case MarkEnd => s.(pc := Idle)
    case Abandon => s.(pc := Idle)
  }

  ghost predicate IsRun(states: seq<State>, steps: seq<Step>) {
    && |states| == |steps| + 1
    && states[0] == State([], Idle, [], [])
    && forall i | 0 <= i < |steps| :: Enabled(states[i], steps[i]) && states[i + 1] == Next(states[i], steps[i])
  }

  // ---------------------------------------------------------------- Invariant

  predicate RowsOk(s: State) {
    AuditSorted(s.rows) && ForwardedIsPrefix(s.rows)
  }

  /** The batch in hand is the next segment of the log. */
  predicate BatchOk(s: State) {
    match s.pc
    case Idle => true
    case Posting(batch) =>
      && Forwarded(s.rows) + |batch| <= |s.rows|
      && batch == s.rows[Forwarded(s.rows)..Forwarded(s.rows) + |batch|]
    case Marking(ids, done) => done <= |ids| && NextIds(s.rows, ids[done..])
  }

  /** How far the next marks may go. */
  function Claimed(s: State): nat {
    if s.pc.Marking? && s.pc.done <= |s.pc.ids| then Forwarded(s.rows) + |s.pc.ids| - s.pc.done else Forwarded(s.rows)
  }

  predicate PostedOk(s: State) {
    var m := |FirstSeen(s.posted)|;
    && Claimed(s) <= m <= |s.rows|
    && FirstSeen(s.posted) == Deliveries(s.rows[..m])
  }

  predicate AckedOk(s: State) {
    && Claimed(s) <= |s.rows|
    && (forall i | 0 <= i < Claimed(s) :: DeliveryOf(s.rows[i]) in s.acked)
    && (forall d | d in s.acked :: d in s.posted)
  }

  predicate Inv(s: State) {
    RowsOk(s) && BatchOk(s) && PostedOk(s) && AckedOk(s)
  }

  lemma DeliveriesExtend(rows: seq<AuditRow>, m: nat)
    requires m < |rows|
    ensures Deliveries(rows[..m + 1]) == Deliveries(rows[..m]) + [DeliveryOf(rows[m])]
  {
  }

  /** In a log of distinct keys, a row is among the first `m` just when its position is. */
  lemma DeliveredBefore(rows: seq<AuditRow>, m: nat, j: nat)
    requires AuditSorted(rows) && m <= |rows| && j < |rows|
    ensures DeliveryOf(rows[j]) in Deliveries(rows[..m]) <==> j < m
  {
    var seen := Deliveries(rows[..m]);
    if j < m {
      assert seen[j] == DeliveryOf(rows[j]);
    }
  }

  lemma DeliveriesSplit(rows: seq<AuditRow>, f: nat, n: nat)
    requires f + n < |rows|
    ensures Deliveries(rows[f..f + n + 1]) == Deliveries(rows[f..f + n]) + [DeliveryOf(rows[f + n])]
  {
  }

  lemma NoDeliveries(posted: seq<Delivery>, rows: seq<AuditRow>, f: nat)
    requires f <= |rows|
    ensures posted + Deliveries(rows[f..f + 0]) == posted
  {
  }

  /** Posting a segment that starts within what was posted extends it without a gap. */
  lemma {:induction false} PostSegment(rows: seq<AuditRow>, posted: seq<Delivery>, m: nat, f: nat, n: nat)
    requires AuditSorted(rows) && f <= m <= |rows| && f + n <= |rows|
    requires FirstSeen(posted) == Deliveries(rows[..m])
    ensures FirstSeen(posted + Deliveries(rows[f..f + n])) == Deliveries(rows[..if f + n <= m then m else f + n])
  {
    hide AuditSorted, Deliveries, FirstSeen;
    if n == 0 {
      NoDeliveries(posted, rows, f);
    } else {
      var log := posted + Deliveries(rows[f..f + n - 1]);
      var last := DeliveryOf(rows[f + n - 1]);
      PostSegment(rows, posted, m, f, n - 1);
      DeliveriesSplit(rows, f, n - 1);
      Seqs.Assoc(posted, Deliveries(rows[f..f + n - 1]), [last]);
      FirstSeenAppend(log, last);
      FirstSeenMembers(log);
      var m' := if f + n - 1 <= m then m else f + n - 1;
      DeliveredBefore(rows, m', f + n - 1);
      if f + n - 1 >= m {
        DeliveriesExtend(rows, f + n - 1);
      }
    }
  }

  lemma RowsOkNext(s: State, t: Step)
    requires Inv(s) && Enabled(s, t)
    ensures RowsOk(Next(s, t))
  {
    if t.Append? {
      AppendKeepsBoundary(s.rows, AuditRow(t.id, t.event, false));
    } else if t.MarkOne? {
      assert s.pc.ids[s.pc.done..][0] == s.pc.ids[s.pc.done];
      MarkNext(s.rows, s.pc.ids[s.pc.done]);
    }
  }

  lemma NextIdsTail(rows: seq<AuditRow>, ids: seq<nat>, done: nat)
    requires AuditSorted(rows) && ForwardedIsPrefix(rows)
    requires done < |ids| && NextIds(rows, ids[done..])
    ensures NextIds(Mark(rows, ids[done]), ids[done + 1..])
    ensures Forwarded(Mark(rows, ids[done])) == Forwarded(rows) + 1
    ensures SameEvents(rows, Mark(rows, ids[done]))
  {
    var rest := ids[done..];
    assert rest[0] == ids[done];
    MarkNext(rows, ids[done]);
    var tail := ids[done + 1..];
    forall k | 0 <= k < |tail|
      ensures rows[Forwarded(rows) + 1 + k].id == tail[k]
    {
      assert rest[k + 1] == tail[k];
    }
  }

  lemma BatchOkNext(s: State, t: Step)
    requires Inv(s) && Enabled(s, t)
    ensures BatchOk(Next(s, t))
  {
    hide PostedOk, AckedOk, ForwardedIsPrefix, AuditSorted, FirstSeen, Deliveries, Forwarded, Pending, Mark;
    match t {
      case Append(id, event) =>
        AppendKeepsBoundary(s.rows, AuditRow(id, event, false));
      case Read(limit) =>
        PendingIsSegment(s.rows, limit);
      case PostAcked =>
        assert Ids(s.pc.batch)[0..] == Ids(s.pc.batch);
      case MarkOne =>
        NextIdsTail(s.rows, s.pc.ids, s.pc.done);
      case _ =>
    }
  }

  lemma SameDeliveries(rows: seq<AuditRow>, rows': seq<AuditRow>, m: nat)
    requires SameEvents(rows, rows') && m <= |rows|
    ensures Deliveries(rows'[..m]) == Deliveries(rows[..m])
  {
  }

  lemma PostedOkNext(s: State, t: Step)
    requires Inv(s) && Enabled(s, t)
    ensures PostedOk(Next(s, t))
  {
    hide AckedOk, ForwardedIsPrefix, AuditSorted, FirstSeen, Deliveries;
    var m := |FirstSeen(s.posted)|;
    match t {
      case Append(id, event) =>
        AppendKeepsBoundary(s.rows, AuditRow(id, event, false));
        assert (s.rows + [AuditRow(id, event, false)])[..m] == s.rows[..m];
      case PostUnacked => PostKeepsOk(s);
      case PostAcked => PostKeepsOk(s);
      case MarkOne =>
        NextIdsTail(s.rows, s.pc.ids, s.pc.done);
        SameDeliveries(s.rows, Mark(s.rows, s.pc.ids[s.pc.done]), m);
      case _ =>
    }
  }

  lemma PostKeepsOk(s: State)
    requires Inv(s) && s.pc.Posting?
    ensures var log := FirstSeen(s.posted + Deliveries(s.pc.batch));
            && Forwarded(s.rows) + |s.pc.batch| <= |log| <= |s.rows|
            && log == Deliveries(s.rows[..|log|])
  {
    PostSegment(s.rows, s.posted, |FirstSeen(s.posted)|, Forwarded(s.rows), |s.pc.batch|);
  }

  lemma AckedOkNext(s: State, t: Step)
    requires Inv(s) && Enabled(s, t)
    ensures AckedOk(Next(s, t))
  {
    hide PostedOk, ForwardedIsPrefix, AuditSorted, FirstSeen;
    match t {
      case Append(id, event) =>
        AppendKeepsBoundary(s.rows, AuditRow(id, event, false));
      case PostAcked => AckKeepsOk(s);
      case MarkOne =>
        NextIdsTail(s.rows, s.pc.ids, s.pc.done);
      case _ =>
    }
  }

  lemma AckKeepsOk(s: State)
    requires Inv(s) && s.pc.Posting?
    ensures AckedOk(Next(s, PostAcked))
  {
    var f := Forwarded(s.rows);
    var added := Deliveries(s.pc.batch);
    forall i | 0 <= i < f + |s.pc.batch|
      ensures DeliveryOf(s.rows[i]) in s.acked + added
    {
      if i >= f {
        assert added[i - f] == DeliveryOf(s.rows[i]);
      }
    }
  }

  lemma {:induction false} Reachable(states: seq<State>, steps: seq<Step>, n: nat)
    requires IsRun(states, steps) && n < |states|
    ensures Inv(states[n])
  {
    if n > 0 {
      Reachable(states, steps, n - 1);
      var s, t := states[n - 1], steps[n - 1];
      hide Inv;
      RowsOkNext(s, t);
      BatchOkNext(s, t);
      PostedOkNext(s, t);
      AckedOkNext(s, t);
      InvFrom(states[n]);
    }
  }

  lemma InvFrom(s: State)
    requires RowsOk(s) && BatchOk(s) && PostedOk(s) && AckedOk(s)
    ensures Inv(s)
  {
  }

  /**
   At least once, in order, without gaps. In every reachable state the forwarded
   rows are a prefix of the log, each of them was in an acknowledged request, and
   what the endpoint received is, repeats removed, a prefix of the events in key
   order.
   */
  lemma DeliveryIsGapFree(states: seq<State>, steps: seq<Step>, n: nat)
    requires IsRun(states, steps) && n < |states|
    ensures var s := states[n];
            && (forall i, j | 0 <= i < j < |s.rows| && s.rows[j].forwarded :: s.rows[i].forwarded)
            && (forall i | 0 <= i < |s.rows| && s.rows[i].forwarded ::
                  DeliveryOf(s.rows[i]) in s.acked && DeliveryOf(s.rows[i]) in FirstSeen(s.posted))
            && FirstSeen(s.posted) <= Deliveries(s.rows)
  {
    Reachable(states, steps, n);
    var s := states[n];
    FirstSeenMembers(s.posted);
    assert Deliveries(s.rows)[..|FirstSeen(s.posted)|] == Deliveries(s.rows[..|FirstSeen(s.posted)|]);
  }

  // ---------------------------------------------------------------- Payloads

  function Map<T, U>(f: T -> U, log: seq<T>): seq<U> {
    seq(|log|, i requires 0 <= i < |log| => f(log[i]))
  }

  lemma MapAppend<T, U>(f: T -> U, log: seq<T>, x: T)
    ensures Map(f, log + [x]) == Map(f, log) + [f(x)]
  {
  }

  lemma {:induction false} MapMember<T, U>(f: T -> U, log: seq<T>, x: T)
    requires x in log
    ensures f(x) in Map(f, log)
  {
    var i :| 0 <= i < |log| && log[i] == x;
    assert Map(f, log)[i] == f(x);
  }

  /** Removing repeats before a function is applied does not change the first-seen values. */
  lemma {:induction false} FirstSeenMap<T, U>(f: T -> U, log: seq<T>)
    ensures FirstSeen(Map(f, log)) == FirstSeen(Map(f, FirstSeen(log)))
  {
    if log != [] {
      var before, last := log[..|log| - 1], log[|log| - 1];
      assert log == before + [last];
      FirstSeenMap(f, before);
      FirstSeenAppend(before, last);
      MapAppend(f, before, last);
      FirstSeenAppend(Map(f, before), f(last));
      if last in before {
        MapMember(f, before, last);
      } else {
        MapAppend(f, FirstSeen(before), last);
        FirstSeenAppend(Map(f, FirstSeen(before)), f(last));
        FirstSeenHas(Map(f, before), f(last));
        FirstSeenHas(Map(f, FirstSeen(before)), f(last));
      }
    }
  }

  /** Once a value repeats, nothing new follows. */
  predicate RepeatsLast<T(==)>(log: seq<T>) {
    forall i, j | 0 <= i < j < |log| && log[i] in log[..i] :: log[j] in log[..j]
  }

  lemma {:induction false} FirstSeenLength<T>(log: seq<T>)
    ensures |FirstSeen(log)| <= |log|
    ensures |FirstSeen(log)| == |log| <==> Distinct(log)
  {
    if log != [] {
      var before := log[..|log| - 1];
      FirstSeenLength(before);
      forall i | 0 <= i < |before| ensures log[..i] == before[..i] {}
    }
  }

  predicate Distinct<T(==)>(log: seq<T>) {
    forall i | 0 <= i < |log| :: log[i] !in log[..i]
  }

  lemma RepeatsLastNext<T>(log: seq<T>, x: T)
    ensures RepeatsLast(log + [x]) <==> RepeatsLast(log) && (x in log || Distinct(log))
  {
    var log' := log + [x];
    assert log'[..|log|] == log;
    forall i | 0 <= i < |log| ensures log'[..i] == log[..i] && log'[i] == log[i] {}
    if RepeatsLast(log') {
      forall i, j | 0 <= i < j < |log| && log[i] in log[..i] ensures log[j] in log[..j] {
        assert log'[i] in log'[..i];
        assert log'[j] in log'[..j];
      }
      if !Distinct(log) {
        var i :| 0 <= i < |log| && log[i] in log[..i];
        assert log'[i] in log'[..i];
        assert log'[|log|] in log'[..|log|];
      }
    }
  }

  /** A log with its repeats removed is a prefix of it just when the repeats come last. */
  lemma {:induction false} FirstSeenIsPrefixIff<T>(log: seq<T>)
    ensures FirstSeen(log) <= log <==> RepeatsLast(log)
  {
    if log != [] {
      var before, last := log[..|log| - 1], log[|log| - 1];
      assert log == before + [last];
      FirstSeenIsPrefixIff(before);
      FirstSeenLength(before);
      FirstSeenAppend(before, last);
      RepeatsLastNext(before, last);
      hide RepeatsLast, FirstSeen;
      if last in before {
        PrefixOfInit(FirstSeen(before), before, last);
      } else if !Distinct(before) {
        LostOrder(before, last);
      } else {
        assert RepeatsLast(before) by { NothingRepeats(before); }
        assert FirstSeen(before) == before;
      }
    }
  }

  lemma NothingRepeats<T>(log: seq<T>)
    requires Distinct(log)
    ensures RepeatsLast(log)
  {
  }

  lemma PrefixOfInit<T>(a: seq<T>, log: seq<T>, x: T)
    requires |a| <= |log|
    ensures a <= log + [x] <==> a <= log
  {
  }

  /** A new value after a repeat is out of place. */
  lemma LostOrder<T>(before: seq<T>, last: T)
    requires |FirstSeen(before)| < |before| && last !in before
    ensures !(FirstSeen(before) + [last] <= before + [last])
  {
    var k := |FirstSeen(before)|;
    assert (before + [last])[k] == before[k];
    assert (FirstSeen(before) + [last])[k] == last;
  }

  function PayloadsOf<P>(payload: AuditEvent -> P, rows: seq<AuditRow>): seq<P> {
    seq(|rows|, i requires 0 <= i < |rows| => payload(rows[i].event))
  }

  /**
   What the endpoint gets are payloads without keys. Their first-seen log is that
   of the payloads of the first `m` rows, the forwarded ones and perhaps more; it
   is itself a prefix of the log's payloads if and only if, among those, no new
   payload follows a repeated one.
   */
  lemma PayloadsAreGapFree<P>(states: seq<State>, steps: seq<Step>, n: nat, payload: AuditEvent -> P)
    requires IsRun(states, steps) && n < |states|
    ensures var s := states[n];
            var m := |FirstSeen(s.posted)|;
            var received := Map((d: Delivery) => payload(d.event), s.posted);
            && m <= |s.rows| && (forall i | m <= i < |s.rows| :: !s.rows[i].forwarded)
            && FirstSeen(received) == FirstSeen(PayloadsOf(payload, s.rows[..m]))
            && (FirstSeen(received) <= PayloadsOf(payload, s.rows) <==> RepeatsLast(PayloadsOf(payload, s.rows[..m])))
  {
    hide FirstSeen, RepeatsLast, IsRun, AuditSorted;
    Reachable(states, steps, n);
    var s := states[n];
    var m := |FirstSeen(s.posted)|;
    var f := (d: Delivery) => payload(d.event);
    FirstSeenMap(f, s.posted);
    var sent := PayloadsOf(payload, s.rows[..m]);
    assert Map(f, Deliveries(s.rows[..m])) == sent;
    FirstSeenIsPrefixIff(sent);
    FirstSeenLength(sent);
    assert PayloadsOf(payload, s.rows)[..m] == sent;
  }

  /** Three events appended and posted once. */
  lemma PostThree(r0: AuditRow, r1: AuditRow, r2: AuditRow) returns (states: seq<State>, steps: seq<Step>)
    requires r0.id < r1.id < r2.id && !r0.forwarded && !r1.forwarded && !r2.forwarded
    ensures IsRun(states, steps)
    ensures states[|steps|].rows == [r0, r1, r2] && states[|steps|].posted == Deliveries([r0, r1, r2])
  {
    hide Pending, Deliveries;
    var rows := [r0, r1, r2];
    AllPending(r0, r1, r2);
    var s0 := State([], Idle, [], []);
    var s1, s2, s3 := s0.(rows := [r0]), s0.(rows := [r0, r1]), s0.(rows := rows);
    var s4 := s3.(pc := Posting(rows));
    var s5 := Next(s4, PostAcked);
    steps := [Append(r0.id, r0.event), Append(r1.id, r1.event), Append(r2.id, r2.event), Read(3), PostAcked];
    states := [s0, s1, s2, s3, s4, s5];
    assert Next(s0, steps[0]) == s1;
    assert Enabled(s1, steps[1]) && Next(s1, steps[1]) == s2;
    assert Enabled(s2, steps[2]) && Next(s2, steps[2]) == s3;
    assert Next(s3, steps[3]) == s4;
    assert s5.posted == [] + Deliveries(rows);
  }

  /**
   The prefix form fails in a run that appends two events with equal payloads and
   a third with another, and posts the three once.
   */
  lemma EqualPayloadsHideARow<P>(e: AuditEvent, e': AuditEvent, g: AuditEvent, payload: AuditEvent -> P)
    returns (states: seq<State>, steps: seq<Step>)
    requires payload(e) == payload(e') != payload(g)
    ensures IsRun(states, steps)
    ensures var s := states[|steps|];
            var received := Map((d: Delivery) => payload(d.event), s.posted);
            && received == [payload(e), payload(e), payload(g)]
            && FirstSeen(received) == [payload(e), payload(g)]
            && !(FirstSeen(received) <= PayloadsOf(payload, s.rows))
  {
    hide IsRun, FirstSeen, Next, Enabled;
    var rows := [AuditRow(1, e, false), AuditRow(2, e', false), AuditRow(3, g, false)];
    states, steps := PostThree(rows[0], rows[1], rows[2]);
    assert |states| == |steps| + 1 by { RunSize(states, steps); }
    var x, y := payload(e), payload(g);
    assert Map((d: Delivery) => payload(d.event), Deliveries(rows)) == [x, x, y];
    assert PayloadsOf(payload, rows) == [x, x, y];
    FirstSeenOfThree(x, y);
    assert [x, y][1] != [x, x, y][1];
  }

  lemma RunSize(states: seq<State>, steps: seq<Step>)
    requires IsRun(states, steps)
    ensures |states| == |steps| + 1
  {
  }

  lemma AllPending(r0: AuditRow, r1: AuditRow, r2: AuditRow)
    requires !r0.forwarded && !r1.forwarded && !r2.forwarded
    ensures Pending([r0, r1, r2], 3) == [r0, r1, r2]
  {
    assert [r0, r1, r2][1..] == [r1, r2] && [r1, r2][1..] == [r2] && [r2][1..] == [];
    assert Pending([r2], 1) == [r2];
    assert Pending([r1, r2], 2) == [r1, r2];
  }

  lemma FirstSeenOfThree<P>(x: P, y: P)
    requires x != y
    ensures FirstSeen([x, x, y]) == [x, y]
  {
    FirstSeenAppend([x, x], y);
    FirstSeenAppend([x], x);
    FirstSeenAppend([], x);
    assert [x, x] + [y] == [x, x, y] && [x] + [x] == [x, x] && [] + [x] == [x];
  }

  // ---------------------------------------------------------------- Forwarder

  class Endpoint {
    var posted: seq<Delivery>

    constructor ()
      ensures posted == []
    {
      posted := [];
    }
  }

  datatype PostOutcome = Lost | Unacked | Acked

  /**
   What happens around one flush: the batch size in force, the faults, and the
   events others append, before the pending rows are read and after.
   */
  datatype Round = Round(batchSize: nat, earlier: seq<AuditEvent>, readFails: bool,
                         post: PostOutcome, later: seq<AuditEvent>, failAt: nat)

  /** The endpoint has the events up to some point past the forwarded ones, and nothing else. */
  predicate InStep(rows: seq<AuditRow>, posted: seq<Delivery>) {
    var m := |FirstSeen(posted)|;
    && AuditSorted(rows) && ForwardedIsPrefix(rows)
    && Forwarded(rows) <= m <= |rows|
    && FirstSeen(posted) == Deliveries(rows[..m])
  }

  function BatchLen(rows: seq<AuditRow>, limit: nat): nat {
    Min(|rows| - Forwarded(rows), limit)
  }

  lemma InStepAppend(rows: seq<AuditRow>, posted: seq<Delivery>, row: AuditRow)
    requires InStep(rows, posted) && !row.forwarded
    requires forall i | 0 <= i < |rows| :: rows[i].id < row.id
    ensures InStep(rows + [row], posted) && Forwarded(rows + [row]) == Forwarded(rows)
  {
    AppendKeepsBoundary(rows, row);
    assert (rows + [row])[..|FirstSeen(posted)|] == rows[..|FirstSeen(posted)|];
  }

  lemma InStepPost(rows: seq<AuditRow>, posted: seq<Delivery>, n: nat)
    requires InStep(rows, posted) && Forwarded(rows) + n <= |rows|
    ensures var log := posted + Deliveries(rows[Forwarded(rows)..Forwarded(rows) + n]);
            InStep(rows, log) && Forwarded(rows) + n <= |FirstSeen(log)|
  {
    hide FirstSeen;
    PostSegment(rows, posted, |FirstSeen(posted)|, Forwarded(rows), n);
  }

  lemma InStepMark(rows: seq<AuditRow>, posted: seq<Delivery>, ids: seq<nat>)
    requires InStep(rows, posted) && NextIds(rows, ids) && Forwarded(rows) + |ids| <= |FirstSeen(posted)|
    ensures InStep(MarkAll(rows, ids), posted)
    ensures Forwarded(MarkAll(rows, ids)) == Forwarded(rows) + |ids| && SameEvents(rows, MarkAll(rows, ids))
  {
    hide FirstSeen, Deliveries;
    MarkSegment(rows, ids);
    SameDeliveries(rows, MarkAll(rows, ids), |FirstSeen(posted)|);
  }

  lemma BatchOf(rows: seq<AuditRow>, limit: nat)
    requires ForwardedIsPrefix(rows)
    ensures Forwarded(rows) + BatchLen(rows, limit) <= |rows|
    ensures Pending(rows, limit) == rows[Forwarded(rows)..Forwarded(rows) + BatchLen(rows, limit)]
  {
    PendingIsSegment(rows, limit);
  }

  lemma InStepPrefix(rows: seq<AuditRow>, posted: seq<Delivery>)
    requires InStep(rows, posted)
    ensures ForwardedIsPrefix(rows)
  {
  }

  lemma MarkableIds(rows: seq<AuditRow>, events: seq<AuditRow>, k: nat)
    requires Forwarded(rows) + |events| <= |rows| && k <= |events|
    requires events == rows[Forwarded(rows)..Forwarded(rows) + |events|]
    ensures NextIds(rows, Ids(events)[..k])
  {
  }

  // ---------------------------------------------------------------- One flush

  /** The audit log, the last key given out and what was posted. */
  datatype Flow = Flow(rows: seq<AuditRow>, lastId: nat, posted: seq<Delivery>)

  predicate Good(s: Flow) {
    InStep(s.rows, s.posted) && forall i | 0 <= i < |s.rows| :: s.rows[i].id <= s.lastId
  }

  /** The log once others have appended these events. */
  function Appended(s: Flow, others: seq<AuditEvent>): Flow {
    if others == [] then s
    else
      var t := Appended(s, others[..|others| - 1]);
      t.(rows := t.rows + [AuditRow(t.lastId + 1, others[|others| - 1], false)], lastId := t.lastId + 1)
  }

  /** One flush: what it leaves and whether it reports success. */
  function Flush(s: Flow, round: Round): (Flow, bool) {
    var before := Appended(s, round.earlier);
    var batch := Pending(before.rows, round.batchSize);
    var t := Appended(before, round.later);
    if round.readFails then (t, false)
    else if batch == [] then (t, true)
    else
      match round.post
      case Lost => (t, false)
      case Unacked => (t.(posted := t.posted + Deliveries(batch)), false)
      case Acked =>
        (t.(posted := t.posted + Deliveries(batch),
            rows := MarkAll(t.rows, Ids(batch)[..Min(round.failAt, |batch|)])),
         round.failAt >= |batch|)
  }

  lemma {:induction false} AppendedKeeps(s: Flow, others: seq<AuditEvent>)
    requires Good(s)
    ensures var t := Appended(s, others);
            && Good(t) && t.posted == s.posted
            && s.rows <= t.rows && |t.rows| == |s.rows| + |others| && Forwarded(t.rows) == Forwarded(s.rows)
  {
    hide InStep, Forwarded;
    if others != [] {
      AppendedKeeps(s, others[..|others| - 1]);
      var t := Appended(s, others[..|others| - 1]);
      InStepAppend(t.rows, t.posted, AuditRow(t.lastId + 1, others[|others| - 1], false));
    }
  }

  /** The size of this round's batch: of what is pending when it reads, at most the batch size. */
  function Batch(s: Flow, round: Round): nat {
    if round.readFails then 0 else Min(|s.rows| + |round.earlier| - Forwarded(s.rows), round.batchSize)
  }

  /** How many rows of a batch of `n` get marked in this round. */
  function Marked(round: Round, n: nat): nat {
    if round.post == Acked then Min(round.failAt, n) else 0
  }

  predicate Succeeds(s: Flow, round: Round) {
    var n := Batch(s, round);
    !round.readFails && (n == 0 || (round.post == Acked && round.failAt >= n))
  }

  /** Marking the first rows of an acknowledged batch keeps the forwarded rows a prefix of what was posted. */
  lemma MarkKeeps(t: Flow, events: seq<AuditRow>, k: nat)
    requires Good(t) && k <= |events|
    requires Forwarded(t.rows) + |events| <= |t.rows| && Forwarded(t.rows) + |events| <= |FirstSeen(t.posted)|
    requires events == t.rows[Forwarded(t.rows)..Forwarded(t.rows) + |events|]
    ensures var after := t.(rows := MarkAll(t.rows, Ids(events)[..k]));
            && Good(after) && Forwarded(after.rows) == Forwarded(t.rows) + k
            && |after.rows| == |t.rows| && (forall i | 0 <= i < |t.rows| :: DeliveryOf(after.rows[i]) == DeliveryOf(t.rows[i]))
            && Deliveries(after.rows[Forwarded(t.rows)..Forwarded(t.rows) + |events|]) == Deliveries(events)
  {
    hide InStep, Forwarded, MarkAll, FirstSeen;
    MarkableIds(t.rows, events, k);
    InStepMark(t.rows, t.posted, Ids(events)[..k]);
  }

  /**
   One flush reports success just when nothing was pending or the whole batch was
   acknowledged and marked. It keeps delivery gap-free with the events that arrive
   meanwhile, moves the boundary by the rows it marked, and posts the next segment
   of the log unless the request was lost.
   */
  lemma FlushLaw(s: Flow, round: Round)
    requires Good(s)
    ensures var (after, ok) := Flush(s, round);
            var n, f := Batch(s, round), Forwarded(s.rows);
            && Good(after) && (ok <==> Succeeds(s, round))
            && |after.rows| == |s.rows| + |round.earlier| + |round.later|
            && f + n <= |after.rows| && Forwarded(after.rows) == f + Marked(round, n)
            && after.posted == s.posted
                 + (if round.post == Lost then [] else Deliveries(after.rows[f..f + n]))
            && (forall i | 0 <= i < |s.rows| :: DeliveryOf(after.rows[i]) == DeliveryOf(s.rows[i]))
  {
    hide InStep, Deliveries, Forwarded, Pending, FirstSeen, MarkAll, Appended, DeliveryOf;
    AppendedKeeps(s, round.earlier);
    var before := Appended(s, round.earlier);
    InStepPrefix(before.rows, before.posted);
    BatchOf(before.rows, round.batchSize);
    AppendedKeeps(before, round.later);
    var t := Appended(before, round.later);
    var batch := Pending(before.rows, round.batchSize);
    NoDeliveries(s.posted, t.rows, Forwarded(s.rows));
    if !round.readFails && batch != [] {
      assert t.rows[Forwarded(t.rows)..Forwarded(t.rows) + |batch|] == batch;
      InStepPost(t.rows, t.posted, |batch|);
      var posted := t.(posted := t.posted + Deliveries(batch));
      if round.post == Acked {
        MarkKeeps(posted, batch, Min(round.failAt, |batch|));
      }
    }
  }

  /** A round that succeeds with room for all that is pending forwards every row there was when it read. */
  lemma RoundCatchesUp(s: Flow, round: Round)
    requires Good(s) && Succeeds(s, round) && |s.rows| + |round.earlier| - Forwarded(s.rows) <= round.batchSize
    ensures var after := Flush(s, round).0;
            && Forwarded(after.rows) == |s.rows| + |round.earlier| <= |after.rows|
            && Deliveries(after.rows[..Forwarded(after.rows)]) <= FirstSeen(after.posted)
  {
    FlushLaw(s, round);
    hide Flush, Forwarded, FirstSeen, AuditSorted;
    var after := Flush(s, round).0;
    var m := |FirstSeen(after.posted)|;
    assert Deliveries(after.rows[..Forwarded(after.rows)]) == Deliveries(after.rows[..m])[..Forwarded(after.rows)];
  }

  ghost function FlowOf(store: Store, endpoint: Endpoint): Flow
    reads store, endpoint
  {
    Flow(store.audit, store.lastAuditId, endpoint.posted)
  }

  /** Others append their events one by one. */
  method AppendOthers(store: Store, endpoint: Endpoint, others: seq<AuditEvent>)
    requires store.Valid()
    modifies store`audit, store`lastAuditId
    ensures store.Valid() && FlowOf(store, endpoint) == Appended(old(FlowOf(store, endpoint)), others)
  {
    hide AuditSorted, JournalValid;
    for k := 0 to |others|
      invariant store.Valid() && FlowOf(store, endpoint) == Appended(old(FlowOf(store, endpoint)), others[..k])
    {
      assert others[..k + 1][..k] == others[..k];
      store.AppendAudit(others[k]);
    }
    assert others[..|others|] == others;
  }

  /** One flush on the store and the endpoint; a success counts the rows of the batch. */
  method FlushOnce(store: Store, endpoint: Endpoint, round: Round) returns (r: Result<nat, string>)
    requires store.Valid()
    modifies store`audit, store`lastAuditId, endpoint`posted
    ensures store.Valid()
    ensures (FlowOf(store, endpoint), r.Ok?) == Flush(old(FlowOf(store, endpoint)), round)
    ensures r.Ok? ==> r.value == |Pending(Appended(old(FlowOf(store, endpoint)), round.earlier).rows, round.batchSize)|
  {
    hide Deliveries, Pending, AuditSorted, JournalValid, MarkAll, Appended;
    AppendOthers(store, endpoint, round.earlier);
    if round.readFails {
      AppendOthers(store, endpoint, round.later);
      return Err("database");
    }
    var events := store.PendingAuditEvents(round.batchSize);
    AppendOthers(store, endpoint, round.later);
    if events == [] {
      return Ok(0);
    }
    if round.post == Lost {
      return Err("request failed");
    }
    endpoint.posted := endpoint.posted + Deliveries(events);
    if round.post == Unacked {
      return Err("endpoint refused");
    }
    var ids := Ids(events);
    assert ids[..|events|] == ids;
    var ok := store.MarkForwarded(ids, round.failAt);
    r := if ok then Ok(|events|) else Err("database");
  }

  // ---------------------------------------------------------------- The loop

  const MAX_BACKOFF: nat := 60

  /** Rounds one after the other: what they leave and which of them succeeded. */
  function Rounds(s: Flow, rounds: seq<Round>): (Flow, seq<bool>) {
    if rounds == [] then (s, [])
    else
      var (before, outcomes) := Rounds(s, rounds[..|rounds| - 1]);
      var (after, ok) := Flush(before, rounds[|rounds| - 1]);
      (after, outcomes + [ok])
  }

  /** Over any rounds delivery stays gap-free, and each one's success is decided by its own faults. */
  lemma {:induction false} RoundsLaw(s: Flow, rounds: seq<Round>)
    requires Good(s)
    ensures var (after, outcomes) := Rounds(s, rounds);
            && Good(after) && |outcomes| == |rounds|
            && forall k | 0 <= k < |rounds| :: outcomes[k] == Succeeds(Rounds(s, rounds[..k]).0, rounds[k])
  {
    hide Good, Flush, Succeeds;
    if rounds != [] {
      var before := rounds[..|rounds| - 1];
      RoundsLaw(s, before);
      FlushLaw(Rounds(s, before).0, rounds[|rounds| - 1]);
      forall k | 0 <= k < |before| ensures rounds[..k] == before[..k] {}
    }
  }

  /**
   The forwarder's loop over a finite run of rounds, then the flush at shutdown.
   `slept` has the backoff slept after each round, none after a success: the one
   stored before it doubled.
   */
  method RunForwarder(store: Store, endpoint: Endpoint, rounds: seq<Round>, last: Round)
    returns (backoff: nat, outcomes: seq<bool>, slept: seq<nat>)
    requires store.Valid()
    modifies store`audit, store`lastAuditId, endpoint`posted
    ensures store.Valid()
    ensures var (before, flushed) := Rounds(old(FlowOf(store, endpoint)), rounds);
            outcomes == flushed && FlowOf(store, endpoint) == Flush(before, last).0
    ensures old(Good(FlowOf(store, endpoint))) ==> Good(FlowOf(store, endpoint))
    ensures backoff == Min(Pow2(Streak(outcomes)), 60)
    ensures |slept| == |outcomes|
    ensures forall k | 0 <= k < |slept| ::
              slept[k] == if outcomes[k] then 0 else Min(Pow2(Streak(outcomes[..k])), 60)
  {
    hide Flush, JournalValid, AuditSorted, Streak, Pow2, Good;
    backoff, outcomes, slept := 1, [], [];
    assert Delay([], MAX_BACKOFF) == 1 by { FirstDelay(MAX_BACKOFF); }
    var k := 0;
    while k < |rounds|
      invariant k <= |rounds| && |outcomes| == |slept| == k && store.Valid()
      invariant (FlowOf(store, endpoint), outcomes) == Rounds(old(FlowOf(store, endpoint)), rounds[..k])
      invariant backoff == Delay(outcomes, MAX_BACKOFF)
      invariant forall i | 0 <= i < k :: slept[i] == if outcomes[i] then 0 else Delay(outcomes[..i], MAX_BACKOFF)
    {
      var r := FlushOnce(store, endpoint, rounds[k]);
      DelayNext(outcomes, r.Ok?, MAX_BACKOFF);
      slept := slept + [if r.Ok? then 0 else backoff];
      if r.Ok? {
        backoff := 1;
      } else {
        backoff := Min(backoff * 2, MAX_BACKOFF);
      }
      ghost var before := outcomes;
      outcomes := outcomes + [r.Ok?];
      forall i | 0 <= i <= k ensures outcomes[..i] == before[..i] {}
      assert before[..k] == before;
      assert rounds[..k + 1][..k] == rounds[..k];
      k := k + 1;
    }
    assert rounds[..k] == rounds;
    if old(Good(FlowOf(store, endpoint))) {
      RoundsLaw(old(FlowOf(store, endpoint)), rounds);
      FlushLaw(FlowOf(store, endpoint), last);
    }
    var _ := FlushOnce(store, endpoint, last);
  }

  /** The log after `rounds` undisturbed flushes. */
  function Flushed(rows: seq<AuditRow>, limit: nat, rounds: nat): seq<AuditRow> {
    if rounds == 0 then rows
    else
      var before := Flushed(rows, limit, rounds - 1);
      MarkAll(before, Ids(Pending(before, limit)))
  }

  /** Undisturbed flushes make progress: `rounds` of them forward `rounds * limit` rows, or all there are. */
  lemma {:induction false} FlushesDrain(rows: seq<AuditRow>, limit: nat, rounds: nat)
    requires AuditSorted(rows) && ForwardedIsPrefix(rows)
    ensures var after := Flushed(rows, limit, rounds);
            && AuditSorted(after) && ForwardedIsPrefix(after) && |after| == |rows|
            && Forwarded(after) == Min(|rows|, Forwarded(rows) + rounds * limit)
  {
    hide AuditSorted, ForwardedIsPrefix, Forwarded, Pending, MarkAll;
    if rounds > 0 {
      FlushesDrain(rows, limit, rounds - 1);
      FlushMoves(Flushed(rows, limit, rounds - 1), limit);
      assert rounds * limit == (rounds - 1) * limit + limit;
    }
  }

  lemma FlushMoves(rows: seq<AuditRow>, limit: nat)
    requires AuditSorted(rows) && ForwardedIsPrefix(rows)
    ensures var after := MarkAll(rows, Ids(Pending(rows, limit)));
            && AuditSorted(after) && ForwardedIsPrefix(after) && |after| == |rows|
            && Forwarded(after) == Min(|rows|, Forwarded(rows) + limit)
  {
    hide AuditSorted, ForwardedIsPrefix, Forwarded, Pending, MarkAll;
    BatchOf(rows, limit);
    var events := Pending(rows, limit);
    MarkableIds(rows, events, |events|);
    assert Ids(events)[..|events|] == Ids(events);
    MarkSegment(rows, Ids(events));
  }
}
