/**
 Upgrading a managed unit, with a rollback to a named version. Every external
 step may fail: downloads, file writes, extraction, starting the new binary,
 the health probe and the database.
 */
module UnitUpgrade {
  import opened Types
  import opened Codec
  import opened StateStore

  datatype RollbackSpec = RollbackSpec(version: string, sha256: string)

  datatype Job = Job(name: string, targetVersion: string, sha256: string, rollback: Option<RollbackSpec>)

  datatype WriteFault = Written | Torn | NotWritten

  datatype Tar = Unpacked | Refused | NotRun

  /** Getting an archive into the install directory. */
  datatype Fetch = Fetch(download: Option<seq<byte>>, write: WriteFault, tar: Tar)

  /** Bringing the new version up and recording it. */
  datatype Start = Start(lookupFails: bool, binaryExists: bool, spawnFails: bool, pid: nat, upsertFails: bool, now: int)

  /**
   `oldEnds` and `newEnds` tell whether the old process and an unhealthy new one
   have ended when the time they are given after the signal is over.
   */
  datatype Faults = Faults(
    oldEnds: bool, fetch: Fetch, start: Start, healthy: bool, newEnds: bool,
    rollbackFetch: Fetch, rollbackStart: Start)

  /** Only the whole archive is ever unpacked; a torn write ends the attempt. */
  datatype Event =
    | Killed(pid: nat, ended: bool)
    | Wrote(version: string, bytes: seq<byte>, complete: bool)
    | Extracted(version: string, bytes: seq<byte>)
    | ExtractFailed(version: string)
    | Spawned(version: string, pid: nat)
    | Probed(healthy: bool)
    | RowWritten(row: UnitRow)

  datatype World = World(units: Units, log: seq<Event>)

  // ---------------------------------------------------------------- Specification

  function Note(w: World, e: Event): World {
    w.(log := w.log + [e])
  }

  predicate Verified(digest: seq<byte> -> string, sha256: string, download: Option<seq<byte>>) {
    download.Some? && digest(download.value) == sha256
  }

  datatype Unpack = UnpackDone | UnpackFailed | UnpackAborted

  /** Write the archive and unpack it; a failure to write or to start `tar` aborts. */
  function WriteAndUnpack(w: World, version: string, bytes: seq<byte>, f: Fetch): (World, Unpack) {
    match f.write
    case NotWritten => (w, UnpackAborted)
    case Torn => (Note(w, Wrote(version, bytes, false)), UnpackAborted)
    case Written =>
      var written := Note(w, Wrote(version, bytes, true));
      match f.tar
      case NotRun => (written, UnpackAborted)
      case Refused => (Note(written, ExtractFailed(version)), UnpackFailed)
      case Unpacked => (Note(written, Extracted(version, bytes)), UnpackDone)
  }

  function Upserted(w: World, row: UnitRow): World {
    Note(w.(units := w.units[row.name := row]), RowWritten(row))
  }

  predicate Starts(row: UnitRow, s: Start) { row.kind == "sidecar" && s.binaryExists }

  /** The row under its new version, running if a binary was started. */
  function NewRow(row: UnitRow, version: string, s: Start): UnitRow {
    var updated := row.(version := version, updatedAt := s.now);
    if Starts(row, s) then updated.(pid := Some(s.pid), state := "running") else updated
  }

  function PerformRollback(w: World, digest: seq<byte> -> string, name: string, spec: RollbackSpec, f: Fetch, s: Start)
    : (World, bool)
  {
    if !Verified(digest, spec.sha256, f.download) then (w, false)
    else
      var (unpacked, r) := WriteAndUnpack(w, spec.version, f.download.value, f);
      if r != UnpackDone || s.lookupFails then (unpacked, false)
      else if name !in unpacked.units then (unpacked, true)
      else
        var row := unpacked.units[name];
        if Starts(row, s) && s.spawnFails then (unpacked, false)
        else
          var started := if Starts(row, s) then Note(unpacked, Spawned(spec.version, s.pid)) else unpacked;
          if s.upsertFails then (started, false)
          else (Upserted(started, NewRow(row, spec.version, s)), true)
  }

  function RollbackIfAny(w: World, digest: seq<byte> -> string, job: Job, f: Faults): World {
    match job.rollback
    case None => w
    case Some(spec) => PerformRollback(w, digest, job.name, spec, f.rollbackFetch, f.rollbackStart).0
  }

  function Upgrade(w: World, digest: seq<byte> -> string, job: Job, f: Faults): (World, bool) {
    if !Verified(digest, job.sha256, f.fetch.download) then (w, false)
    else if f.start.lookupFails || job.name !in w.units then (w, false)
    else
      var current := w.units[job.name];
      var stopped := if current.pid.Some? then Note(w, Killed(current.pid.value, f.oldEnds)) else w;
      var (unpacked, r) := WriteAndUnpack(stopped, job.targetVersion, f.fetch.download.value, f.fetch);
      match r
      case UnpackAborted => (unpacked, false)
      case UnpackFailed => (RollbackIfAny(unpacked, digest, job, f), false)
      case UnpackDone => BringUp(unpacked, digest, job, f, current)
  }

  /** Start the unpacked version if it is a sidecar, probe it, and record it. */
  function BringUp(w: World, digest: seq<byte> -> string, job: Job, f: Faults, current: UnitRow): (World, bool) {
    if Starts(current, f.start) then
      if f.start.spawnFails then (w, false)
      else
        var probed := Note(Note(w, Spawned(job.targetVersion, f.start.pid)), Probed(f.healthy));
        if !f.healthy then (RollbackIfAny(Note(probed, Killed(f.start.pid, f.newEnds)), digest, job, f), false)
        else Record(probed, job, f, current)
    else Record(w, job, f, current)
  }

  function Record(w: World, job: Job, f: Faults, current: UnitRow): (World, bool) {
    if f.start.upsertFails then (w, false)
    else (Upserted(w, NewRow(current, job.targetVersion, f.start)), true)
  }

  // ---------------------------------------------------------------- What every run keeps

  function LastExtracted(log: seq<Event>): Option<string> {
    if log == [] then None
    else if log[|log| - 1].Extracted? then Some(log[|log| - 1].version)
    else LastExtracted(log[..|log| - 1])
  }

  predicate Named(digest: seq<byte> -> string, job: Job, version: string, bytes: seq<byte>) {
    || (version == job.targetVersion && digest(bytes) == job.sha256)
    || (job.rollback.Some? && version == job.rollback.value.version && digest(bytes) == job.rollback.value.sha256)
  }

  /**
   Only archives whose digest is the one named for their version are written;
   only a whole archive just written is unpacked; and a row is only ever written
   with the version unpacked last.
   */
  predicate HonestAt(digest: seq<byte> -> string, job: Job, log: seq<Event>, i: nat)
    requires i < |log|
  {
    match log[i]
    case Wrote(version, bytes, _) => Named(digest, job, version, bytes)
    case Extracted(version, bytes) => i > 0 && log[i - 1] == Wrote(version, bytes, true)
    case RowWritten(row) => LastExtracted(log[..i]) == Some(row.version)
    case _ => true
  }

  ghost predicate Honest(digest: seq<byte> -> string, job: Job, log: seq<Event>) {
    forall i: nat | i < |log| :: HonestAt(digest, job, log, i)
  }

  lemma HonestNote(digest: seq<byte> -> string, job: Job, log: seq<Event>, e: Event)
    requires Honest(digest, job, log) && HonestAt(digest, job, log + [e], |log|)
    ensures Honest(digest, job, log + [e])
    ensures LastExtracted(log + [e]) == if e.Extracted? then Some(e.version) else LastExtracted(log)
  {
    var log' := log + [e];
    assert log'[..|log|] == log;
    forall i: nat | i < |log'|
      ensures HonestAt(digest, job, log', i)
    {
      if i < |log| {
        assert HonestAt(digest, job, log, i);
        assert log'[..i] == log[..i];
      }
    }
  }

  lemma HonestUnpack(digest: seq<byte> -> string, job: Job, w: World, version: string, bytes: seq<byte>, f: Fetch)
    requires Honest(digest, job, w.log) && Named(digest, job, version, bytes)
    ensures var (w', r) := WriteAndUnpack(w, version, bytes, f);
            && Honest(digest, job, w'.log) && w'.units == w.units
            && (r == UnpackDone ==> LastExtracted(w'.log) == Some(version))
  {
    hide Honest, LastExtracted;
    if f.write == Torn {
      HonestNote(digest, job, w.log, Wrote(version, bytes, false));
    } else if f.write == Written {
      HonestNote(digest, job, w.log, Wrote(version, bytes, true));
      var written := w.log + [Wrote(version, bytes, true)];
      if f.tar == Refused {
        HonestNote(digest, job, written, ExtractFailed(version));
      } else if f.tar == Unpacked {
        HonestNote(digest, job, written, Extracted(version, bytes));
      }
    }
  }

  /** Storing a row under the version unpacked last keeps the log honest. */
  lemma HonestStore(digest: seq<byte> -> string, job: Job, w: World, row: UnitRow)
    requires Honest(digest, job, w.log) && LastExtracted(w.log) == Some(row.version)
    ensures Honest(digest, job, Upserted(w, row).log)
  {
    assert (w.log + [RowWritten(row)])[..|w.log|] == w.log;
    HonestNote(digest, job, w.log, RowWritten(row));
  }

  lemma HonestRollback(digest: seq<byte> -> string, job: Job, w: World, f: Fetch, s: Start)
    requires Honest(digest, job, w.log) && job.rollback.Some?
    ensures Honest(digest, job, PerformRollback(w, digest, job.name, job.rollback.value, f, s).0.log)
  {
    hide Honest, LastExtracted, WriteAndUnpack, Upserted;
    var spec := job.rollback.value;
    if Verified(digest, spec.sha256, f.download) {
      HonestUnpack(digest, job, w, spec.version, f.download.value, f);
      var (unpacked, r) := WriteAndUnpack(w, spec.version, f.download.value, f);
      if r == UnpackDone && job.name in unpacked.units {
        var row := unpacked.units[job.name];
        HonestNote(digest, job, unpacked.log, Spawned(spec.version, s.pid));
        var started := if Starts(row, s) then Note(unpacked, Spawned(spec.version, s.pid)) else unpacked;
        HonestStore(digest, job, started, NewRow(row, spec.version, s));
      }
    }
  }

  lemma HonestRollbackIfAny(digest: seq<byte> -> string, job: Job, w: World, f: Faults)
    requires Honest(digest, job, w.log)
    ensures Honest(digest, job, RollbackIfAny(w, digest, job, f).log)
  {
    if job.rollback.Some? {
      HonestRollback(digest, job, w, f.rollbackFetch, f.rollbackStart);
    }
  }

  lemma HonestBringUp(digest: seq<byte> -> string, job: Job, w: World, f: Faults, current: UnitRow)
    requires Honest(digest, job, w.log) && LastExtracted(w.log) == Some(job.targetVersion)
    ensures Honest(digest, job, BringUp(w, digest, job, f, current).0.log)
  {
    hide Honest, LastExtracted, RollbackIfAny, Upserted;
    var row := NewRow(current, job.targetVersion, f.start);
    if Starts(current, f.start) {
      HonestNote(digest, job, w.log, Spawned(job.targetVersion, f.start.pid));
      var spawned := Note(w, Spawned(job.targetVersion, f.start.pid));
      HonestNote(digest, job, spawned.log, Probed(f.healthy));
      var probed := Note(spawned, Probed(f.healthy));
      HonestNote(digest, job, probed.log, Killed(f.start.pid, f.newEnds));
      HonestRollbackIfAny(digest, job, Note(probed, Killed(f.start.pid, f.newEnds)), f);
      HonestStore(digest, job, probed, row);
    } else {
      HonestStore(digest, job, w, row);
    }
  }

  /**
   Under any faults: only archives matching their named digest reach the install
   directory, only whole ones are unpacked, and whenever the unit's row is
   written its version is that of the archive unpacked last.
   */
  lemma UpgradeIsHonest(w: World, digest: seq<byte> -> string, job: Job, f: Faults)
    requires w.log == []
    ensures Honest(digest, job, Upgrade(w, digest, job, f).0.log)
  {
    if Verified(digest, job.sha256, f.fetch.download) && job.name in w.units {
      var current := w.units[job.name];
      var stopped := if current.pid.Some? then Note(w, Killed(current.pid.value, f.oldEnds)) else w;
      assert Honest(digest, job, stopped.log);
      hide Honest, LastExtracted, WriteAndUnpack, RollbackIfAny, BringUp;
      HonestUnpack(digest, job, stopped, job.targetVersion, f.fetch.download.value, f.fetch);
      var (unpacked, r) := WriteAndUnpack(stopped, job.targetVersion, f.fetch.download.value, f.fetch);
      HonestRollbackIfAny(digest, job, unpacked, f);
      if r == UnpackDone {
        HonestBringUp(digest, job, unpacked, f, current);
      }
    }
  }

  // ---------------------------------------------------------------- Outcomes

  /** The target version was unpacked. */
  predicate TargetUnpacked(w: World, digest: seq<byte> -> string, job: Job, f: Faults) {
    && Verified(digest, job.sha256, f.fetch.download) && !f.start.lookupFails && job.name in w.units
    && f.fetch.write == Written && f.fetch.tar == Unpacked
  }

  /** The only failures that trigger the rollback: `tar` refusing the archive and a failed probe. */
  predicate TriggersRollback(w: World, digest: seq<byte> -> string, job: Job, f: Faults) {
    && Verified(digest, job.sha256, f.fetch.download) && !f.start.lookupFails && job.name in w.units
    && f.fetch.write == Written
    && (f.fetch.tar == Refused
        || (f.fetch.tar == Unpacked && Starts(w.units[job.name], f.start) && !f.start.spawnFails && !f.healthy))
  }

  /** The rollback itself goes through. */
  predicate RollbackWorks(w: World, digest: seq<byte> -> string, job: Job, f: Faults) {
    && job.rollback.Some? && job.name in w.units
    && Verified(digest, job.rollback.value.sha256, f.rollbackFetch.download)
    && f.rollbackFetch.write == Written && f.rollbackFetch.tar == Unpacked
    && !f.rollbackStart.lookupFails && !f.rollbackStart.upsertFails
    && !(Starts(w.units[job.name], f.rollbackStart) && f.rollbackStart.spawnFails)
  }

  lemma RollbackOutcome(w: World, digest: seq<byte> -> string, job: Job, f: Faults)
    requires job.name in w.units
    ensures RollbackIfAny(w, digest, job, f).units
            == if RollbackWorks(w, digest, job, f)
               then w.units[job.name := NewRow(w.units[job.name], job.rollback.value.version, f.rollbackStart)]
               else w.units
  {
  }

  /** Success means unpacked, healthy if it was started, and recorded. */
  predicate Succeeds(w: World, digest: seq<byte> -> string, job: Job, f: Faults) {
    && TargetUnpacked(w, digest, job, f)
    && (Starts(w.units[job.name], f.start) ==> !f.start.spawnFails && f.healthy)
    && !f.start.upsertFails
  }

  lemma UnpackOutcome(w: World, version: string, bytes: seq<byte>, f: Fetch)
    ensures var (after, r) := WriteAndUnpack(w, version, bytes, f);
            && after.units == w.units
            && (r == UnpackDone <==> f.write == Written && f.tar == Unpacked)
            && (r == UnpackFailed <==> f.write == Written && f.tar == Refused)
  {
  }

  lemma SameRollback(w: World, w': World, digest: seq<byte> -> string, job: Job, f: Faults)
    requires w.units == w'.units
    ensures RollbackWorks(w, digest, job, f) <==> RollbackWorks(w', digest, job, f)
    ensures RollbackWorks(w, digest, job, f) ==> job.rollback.Some?
  {
  }

  /** Bringing up an unpacked version. */
  lemma BringUpOutcome(w: World, digest: seq<byte> -> string, job: Job, f: Faults)
    requires job.name in w.units
    ensures var current := w.units[job.name];
            var (after, ok) := BringUp(w, digest, job, f, current);
            && (ok <==> (Starts(current, f.start) ==> !f.start.spawnFails && f.healthy) && !f.start.upsertFails)
            && after.units ==
               if ok then w.units[job.name := NewRow(current, job.targetVersion, f.start)]
               else if Starts(current, f.start) && !f.start.spawnFails && !f.healthy && RollbackWorks(w, digest, job, f) then
                 w.units[job.name := NewRow(current, job.rollback.value.version, f.rollbackStart)]
               else w.units
  {
    hide RollbackIfAny;
    var probed := Note(Note(w, Spawned(job.targetVersion, f.start.pid)), Probed(f.healthy));
    RollbackOutcome(Note(probed, Killed(f.start.pid, f.newEnds)), digest, job, f);
  }

  /**
   The units table after an upgrade under any faults. It changes in two cases
   only: to the target version when the upgrade succeeds, and to the rollback
   version when a triggering failure is followed by a rollback that works. So an
   error without a rollback specification leaves every row as it was, and
   failures to write, to run `tar`, to start the binary or to store the row are
   never rolled back.
   */
  lemma UpgradeOutcome(w: World, digest: seq<byte> -> string, job: Job, f: Faults)
    ensures Upgrade(w, digest, job, f).1 <==> Succeeds(w, digest, job, f)
    ensures Upgrade(w, digest, job, f).0.units
            == if Succeeds(w, digest, job, f) then
                 w.units[job.name := NewRow(w.units[job.name], job.targetVersion, f.start)]
               else if TriggersRollback(w, digest, job, f) && RollbackWorks(w, digest, job, f) then
                 w.units[job.name := NewRow(w.units[job.name], job.rollback.value.version, f.rollbackStart)]
               else w.units
  {
    hide RollbackIfAny, BringUp, NewRow, Starts, WriteAndUnpack, RollbackWorks, Keyed;
    if Verified(digest, job.sha256, f.fetch.download) && !f.start.lookupFails && job.name in w.units {
      var current := w.units[job.name];
      var stopped := if current.pid.Some? then Note(w, Killed(current.pid.value, f.oldEnds)) else w;
      var (unpacked, r) := WriteAndUnpack(stopped, job.targetVersion, f.fetch.download.value, f.fetch);
      UnpackOutcome(stopped, job.targetVersion, f.fetch.download.value, f.fetch);
      SameRollback(w, unpacked, digest, job, f);
      RollbackOutcome(unpacked, digest, job, f);
      BringUpOutcome(unpacked, digest, job, f);
    }
  }

  // ---------------------------------------------------------------- Row and files

  lemma LastNote(log: seq<Event>, e: Event)
    ensures LastExtracted(log + [e]) == if e.Extracted? then Some(e.version) else LastExtracted(log)
  {
    assert (log + [e])[..|log|] == log;
  }

  lemma LastAfterUnpack(w: World, version: string, bytes: seq<byte>, f: Fetch)
    ensures var (after, r) := WriteAndUnpack(w, version, bytes, f);
            LastExtracted(after.log) == if r == UnpackDone then Some(version) else LastExtracted(w.log)
  {
    hide LastExtracted;
    LastNote(w.log, Wrote(version, bytes, f.write == Written));
    var written := w.log + [Wrote(version, bytes, f.write == Written)];
    LastNote(written, ExtractFailed(version));
    LastNote(written, Extracted(version, bytes));
  }

  /** The rollback's archive was unpacked. */
  predicate RollbackUnpacks(digest: seq<byte> -> string, job: Job, f: Faults) {
    && job.rollback.Some?
    && Verified(digest, job.rollback.value.sha256, f.rollbackFetch.download)
    && f.rollbackFetch.write == Written && f.rollbackFetch.tar == Unpacked
  }

  lemma LastAfterRollback(w: World, digest: seq<byte> -> string, job: Job, f: Faults)
    requires job.name in w.units
    ensures LastExtracted(RollbackIfAny(w, digest, job, f).log)
            == if RollbackUnpacks(digest, job, f) then Some(job.rollback.value.version) else LastExtracted(w.log)
  {
    hide LastExtracted, WriteAndUnpack, NewRow;
    if job.rollback.Some? && Verified(digest, job.rollback.value.sha256, f.rollbackFetch.download) {
      var spec, s := job.rollback.value, f.rollbackStart;
      UnpackOutcome(w, spec.version, f.rollbackFetch.download.value, f.rollbackFetch);
      LastAfterUnpack(w, spec.version, f.rollbackFetch.download.value, f.rollbackFetch);
      var unpacked := WriteAndUnpack(w, spec.version, f.rollbackFetch.download.value, f.rollbackFetch).0;
      LastNote(unpacked.log, Spawned(spec.version, s.pid));
      var row := unpacked.units[job.name];
      var started := if Starts(row, s) then Note(unpacked, Spawned(spec.version, s.pid)) else unpacked;
      LastNote(started.log, RowWritten(NewRow(row, spec.version, s)));
    }
  }

  lemma LastAfterBringUp(w: World, digest: seq<byte> -> string, job: Job, f: Faults)
    requires job.name in w.units
    ensures var current := w.units[job.name];
            LastExtracted(BringUp(w, digest, job, f, current).0.log)
            == if Starts(current, f.start) && !f.start.spawnFails && !f.healthy && RollbackUnpacks(digest, job, f)
               then Some(job.rollback.value.version) else LastExtracted(w.log)
  {
    hide LastExtracted, RollbackIfAny, NewRow, RollbackUnpacks;
    var current := w.units[job.name];
    LastNote(w.log, Spawned(job.targetVersion, f.start.pid));
    var spawned := Note(w, Spawned(job.targetVersion, f.start.pid));
    LastNote(spawned.log, Probed(f.healthy));
    var probed := Note(spawned, Probed(f.healthy));
    LastNote(probed.log, Killed(f.start.pid, f.newEnds));
    LastAfterRollback(Note(probed, Killed(f.start.pid, f.newEnds)), digest, job, f);
    LastNote(w.log, RowWritten(NewRow(current, job.targetVersion, f.start)));
    LastNote(probed.log, RowWritten(NewRow(current, job.targetVersion, f.start)));
  }

  /** The version unpacked last in an upgrade. */
  lemma LastAfterUpgrade(w: World, digest: seq<byte> -> string, job: Job, f: Faults)
    requires w.log == []
    ensures LastExtracted(Upgrade(w, digest, job, f).0.log)
            == if TriggersRollback(w, digest, job, f) && RollbackUnpacks(digest, job, f) then
                 Some(job.rollback.value.version)
               else if TargetUnpacked(w, digest, job, f) then Some(job.targetVersion)
               else None
  {
    hide LastExtracted, RollbackIfAny, BringUp, WriteAndUnpack, NewRow;
    assert LastExtracted(w.log) == None by { LastOfNone(); }
    if Verified(digest, job.sha256, f.fetch.download) && !f.start.lookupFails && job.name in w.units {
      var current := w.units[job.name];
      var stopped := if current.pid.Some? then Note(w, Killed(current.pid.value, f.oldEnds)) else w;
      if current.pid.Some? {
        LastNote(w.log, Killed(current.pid.value, f.oldEnds));
      }
      var (unpacked, r) := WriteAndUnpack(stopped, job.targetVersion, f.fetch.download.value, f.fetch);
      UnpackOutcome(stopped, job.targetVersion, f.fetch.download.value, f.fetch);
      LastAfterUnpack(stopped, job.targetVersion, f.fetch.download.value, f.fetch);
      LastAfterRollback(unpacked, digest, job, f);
      LastAfterBringUp(unpacked, digest, job, f);
    }
  }

  lemma LastOfNone()
    ensures LastExtracted([]) == None
  {
  }

  /** The version an upgrade unpacks last, if it unpacks any. */
  function OnDisk(w: World, digest: seq<byte> -> string, job: Job, f: Faults): string {
    if TriggersRollback(w, digest, job, f) && RollbackUnpacks(digest, job, f) then job.rollback.value.version
    else job.targetVersion
  }

  /**
   Once an upgrade has unpacked something, the row names the version on disk if
   and only if the upgrade succeeded, its rollback ran to the end, or the row
   named that version all along. Every other failure after an unpack leaves the
   old version recorded over new files.
   */
  lemma RowNamesFilesIff(w: World, digest: seq<byte> -> string, job: Job, f: Faults)
    requires w.log == [] && job.name in w.units
    requires LastExtracted(Upgrade(w, digest, job, f).0.log).Some?
    ensures var after := Upgrade(w, digest, job, f).0;
            && job.name in after.units
            && (after.units[job.name].version == LastExtracted(after.log).value
                <==> || Succeeds(w, digest, job, f)
                     || (TriggersRollback(w, digest, job, f) && RollbackWorks(w, digest, job, f))
                     || w.units[job.name].version == OnDisk(w, digest, job, f))
  {
    hide Upgrade, LastExtracted;
    LastAfterUpgrade(w, digest, job, f);
    UpgradeOutcome(w, digest, job, f);
  }

  /** Faults under which all goes well until the new row cannot be stored. */
  function StoreFails(bytes: seq<byte>, now: int): Faults {
    var fetch := Fetch(Some(bytes), Written, Unpacked);
    var start := Start(false, false, false, 0, true, now);
    Faults(true, fetch, start, true, true, fetch, start)
  }

  /** Such a failure leaves any unit with the old version recorded over the new one's files. */
  lemma StoreFailureMisnames(w: World, digest: seq<byte> -> string, job: Job, bytes: seq<byte>, now: int)
    requires w.log == [] && job.name in w.units && digest(bytes) == job.sha256
    requires w.units[job.name].version != job.targetVersion
    ensures var after := Upgrade(w, digest, job, StoreFails(bytes, now)).0;
            && LastExtracted(after.log) == Some(job.targetVersion)
            && job.name in after.units && after.units[job.name].version != job.targetVersion
  {
    hide Upgrade, LastExtracted;
    LastAfterUpgrade(w, digest, job, StoreFails(bytes, now));
    UpgradeOutcome(w, digest, job, StoreFails(bytes, now));
  }

  // ---------------------------------------------------------------- Processes

  /**
   The unit's processes, by pid. One that was signalled and has not ended in time
   runs on; none ends without a signal.
   */
  function Alive(log: seq<Event>, was: multiset<nat>): multiset<nat> {
    if log == [] then was else AliveNext(Alive(log[..|log| - 1], was), log[|log| - 1])
  }

  function AliveNext(alive: multiset<nat>, e: Event): multiset<nat> {
    match e
    case Killed(pid, ended) => if ended then alive - multiset{pid} else alive
    case Spawned(_, pid) => alive + multiset{pid}
    case _ => alive
  }

  function PidOf(row: UnitRow): multiset<nat> {
    if row.pid.Some? then multiset{row.pid.value} else multiset{}
  }

  /** What runs in the end, and the most that ever ran at once. */
  datatype Trail = Trail(alive: multiset<nat>, peak: nat)

  function Started(t: Trail, pid: nat): Trail {
    Trail(t.alive + multiset{pid}, Max(t.peak, |t.alive| + 1))
  }

  function Stopped(t: Trail, pid: nat, ended: bool): Trail {
    if ended then t.(alive := t.alive - multiset{pid}) else t
  }

  function TrailNext(t: Trail, e: Event): Trail {
    match e
    case Killed(pid, ended) => Stopped(t, pid, ended)
    case Spawned(_, pid) => Started(t, pid)
    case _ => t
  }

  function Max(a: nat, b: nat): nat { if a >= b then a else b }

  function TrailOf(log: seq<Event>, was: multiset<nat>): (t: Trail)
    ensures |t.alive| <= t.peak
  {
    if log == [] then Trail(was, |was|)
    else
      var t := TrailOf(log[..|log| - 1], was);
      var alive := AliveNext(t.alive, log[|log| - 1]);
      Trail(alive, Max(t.peak, |alive|))
  }

  lemma {:induction false} TrailAlive(log: seq<Event>, was: multiset<nat>)
    ensures TrailOf(log, was).alive == Alive(log, was)
  {
    if log != [] {
      TrailAlive(log[..|log| - 1], was);
    }
  }

  lemma {:induction false} PeakBounds(log: seq<Event>, was: multiset<nat>, i: nat)
    requires i <= |log|
    ensures |Alive(log[..i], was)| <= TrailOf(log, was).peak
  {
    hide Alive, AliveNext;
    if i == |log| {
      assert log[..i] == log;
      TrailAlive(log, was);
    } else {
      var before := log[..|log| - 1];
      assert log[..i] == before[..i];
      PeakBounds(before, was, i);
    }
  }

  lemma {:induction false} PeakIsReached(log: seq<Event>, was: multiset<nat>) returns (i: nat)
    ensures i <= |log| && |Alive(log[..i], was)| == TrailOf(log, was).peak
  {
    hide Alive, AliveNext;
    TrailAlive(log, was);
    if log == [] || TrailOf(log, was).peak == |TrailOf(log, was).alive| {
      i := |log|;
      assert log[..i] == log;
    } else {
      var before := log[..|log| - 1];
      i := PeakIsReached(before, was);
      assert log[..i] == before[..i];
    }
  }

  lemma TrailNote(log: seq<Event>, was: multiset<nat>, e: Event)
    ensures TrailOf(log + [e], was) == TrailNext(TrailOf(log, was), e)
  {
    assert (log + [e])[..|log|] == log;
  }

  lemma TrailUnpack(w: World, version: string, bytes: seq<byte>, f: Fetch, was: multiset<nat>)
    ensures TrailOf(WriteAndUnpack(w, version, bytes, f).0.log, was) == TrailOf(w.log, was)
  {
    hide TrailOf;
    TrailNote(w.log, was, Wrote(version, bytes, f.write == Written));
    var written := w.log + [Wrote(version, bytes, true)];
    TrailNote(written, was, ExtractFailed(version));
    TrailNote(written, was, Extracted(version, bytes));
  }

  /** The rollback starts a process, recorded or not. */
  predicate RollbackStarts(w: World, digest: seq<byte> -> string, job: Job, f: Faults) {
    && RollbackUnpacks(digest, job, f) && !f.rollbackStart.lookupFails && job.name in w.units
    && Starts(w.units[job.name], f.rollbackStart) && !f.rollbackStart.spawnFails
  }

  function AfterRollback(t: Trail, w: World, digest: seq<byte> -> string, job: Job, f: Faults): Trail {
    if RollbackStarts(w, digest, job, f) then Started(t, f.rollbackStart.pid) else t
  }

  lemma TrailRollback(w: World, digest: seq<byte> -> string, job: Job, f: Faults, was: multiset<nat>)
    ensures TrailOf(RollbackIfAny(w, digest, job, f).log, was)
            == AfterRollback(TrailOf(w.log, was), w, digest, job, f)
  {
    hide TrailOf, WriteAndUnpack, Started;
    if job.rollback.Some? && Verified(digest, job.rollback.value.sha256, f.rollbackFetch.download) {
      var spec, s := job.rollback.value, f.rollbackStart;
      var bytes := f.rollbackFetch.download.value;
      var (unpacked, r) := WriteAndUnpack(w, spec.version, bytes, f.rollbackFetch);
      UnpackOutcome(w, spec.version, bytes, f.rollbackFetch);
      TrailUnpack(w, spec.version, bytes, f.rollbackFetch, was);
      if r == UnpackDone && job.name in unpacked.units {
        var spawned := Spawned(spec.version, s.pid);
        TrailNote(unpacked.log, was, spawned);
        var stored := RowWritten(NewRow(unpacked.units[job.name], spec.version, s));
        TrailNote(unpacked.log, was, stored);
        TrailNote(unpacked.log + [spawned], was, stored);
      }
    }
  }

  function AfterBringUp(t: Trail, w: World, digest: seq<byte> -> string, job: Job, f: Faults): Trail
    requires job.name in w.units
  {
    if !Starts(w.units[job.name], f.start) || f.start.spawnFails then t
    else if f.healthy then Started(t, f.start.pid)
    else AfterRollback(Stopped(Started(t, f.start.pid), f.start.pid, f.newEnds), w, digest, job, f)
  }

  lemma TrailBringUp(w: World, digest: seq<byte> -> string, job: Job, f: Faults, was: multiset<nat>)
    requires job.name in w.units
    ensures TrailOf(BringUp(w, digest, job, f, w.units[job.name]).0.log, was)
            == AfterBringUp(TrailOf(w.log, was), w, digest, job, f)
  {
    hide TrailOf, RollbackIfAny, RollbackUnpacks, Started, Stopped;
    var current, pid := w.units[job.name], f.start.pid;
    var stored := RowWritten(NewRow(current, job.targetVersion, f.start));
    if Starts(current, f.start) {
      var spawned := Spawned(job.targetVersion, pid);
      TrailNote(w.log, was, spawned);
      TrailNote(w.log + [spawned], was, Probed(f.healthy));
      var probed := w.log + [spawned] + [Probed(f.healthy)];
      TrailNote(probed, was, stored);
      TrailNote(probed, was, Killed(pid, f.newEnds));
      TrailRollback(Note(World(w.units, probed), Killed(pid, f.newEnds)), digest, job, f, was);
    } else {
      TrailNote(w.log, was, stored);
    }
  }

  /** The upgrade found the unit and signalled its process. */
  predicate Begun(w: World, digest: seq<byte> -> string, job: Job, f: Faults) {
    Verified(digest, job.sha256, f.fetch.download) && !f.start.lookupFails && job.name in w.units
  }

  function AfterStop(row: UnitRow, f: Faults): Trail {
    var t := Trail(PidOf(row), |PidOf(row)|);
    if row.pid.Some? then Stopped(t, row.pid.value, f.oldEnds) else t
  }

  function AfterUpgrade(w: World, digest: seq<byte> -> string, job: Job, f: Faults): Trail
    requires job.name in w.units
  {
    var row := w.units[job.name];
    if !Begun(w, digest, job, f) then Trail(PidOf(row), |PidOf(row)|)
    else if TargetUnpacked(w, digest, job, f) then AfterBringUp(AfterStop(row, f), w, digest, job, f)
    else if TriggersRollback(w, digest, job, f) then AfterRollback(AfterStop(row, f), w, digest, job, f)
    else AfterStop(row, f)
  }

  lemma TrailUpgrade(w: World, digest: seq<byte> -> string, job: Job, f: Faults)
    requires w.log == [] && job.name in w.units
    ensures TrailOf(Upgrade(w, digest, job, f).0.log, PidOf(w.units[job.name])) == AfterUpgrade(w, digest, job, f)
  {
    var current := w.units[job.name];
    var was := PidOf(current);
    assert TrailOf([], was) == Trail(was, |was|);
    if Begun(w, digest, job, f) {
      var stopped := if current.pid.Some? then Note(w, Killed(current.pid.value, f.oldEnds)) else w;
      assert TrailOf(stopped.log, was) == AfterStop(current, f) by {
        if current.pid.Some? {
          TrailNote([], was, Killed(current.pid.value, f.oldEnds));
        }
      }
      TrailFromStop(w, stopped, digest, job, f, was);
    }
  }

  lemma TrailFromStop(w: World, stopped: World, digest: seq<byte> -> string, job: Job, f: Faults, was: multiset<nat>)
    requires Begun(w, digest, job, f) && TrailOf(stopped.log, was) == AfterStop(w.units[job.name], f)
    requires var pid := w.units[job.name].pid;
             stopped == if pid.Some? then Note(w, Killed(pid.value, f.oldEnds)) else w
    ensures TrailOf(Upgrade(w, digest, job, f).0.log, was) == AfterUpgrade(w, digest, job, f)
  {
    hide TrailOf, WriteAndUnpack, RollbackIfAny, BringUp, RollbackUnpacks, Started, Stopped, AfterStop;
    var bytes := f.fetch.download.value;
    var (unpacked, r) := WriteAndUnpack(stopped, job.targetVersion, bytes, f.fetch);
    TrailUnpack(stopped, job.targetVersion, bytes, f.fetch, was);
    UnpackOutcome(stopped, job.targetVersion, bytes, f.fetch);
    match r {
      case UnpackAborted =>
      case UnpackFailed => TrailRollback(unpacked, digest, job, f, was);
      case UnpackDone => TrailBringUp(unpacked, digest, job, f, was);
    }
  }

  /** The old process runs on past its signal. */
  predicate OldStays(w: World, digest: seq<byte> -> string, job: Job, f: Faults) {
    Begun(w, digest, job, f) && w.units[job.name].pid.Some? && !f.oldEnds
  }

  predicate TargetStarts(w: World, digest: seq<byte> -> string, job: Job, f: Faults) {
    TargetUnpacked(w, digest, job, f) && Starts(w.units[job.name], f.start) && !f.start.spawnFails
  }

  /** The new version was found unhealthy and runs on past its signal. */
  predicate UnhealthyStays(w: World, digest: seq<byte> -> string, job: Job, f: Faults) {
    TargetStarts(w, digest, job, f) && !f.healthy && !f.newEnds
  }

  /** A rollback is triggered and starts a process. */
  predicate RollbackRuns(w: World, digest: seq<byte> -> string, job: Job, f: Faults) {
    TriggersRollback(w, digest, job, f) && RollbackStarts(w, digest, job, f)
  }

  /**
   Two versions of a unit run side by side at some point of an upgrade if and
   only if one is started after a signal that did not end the one before it.
   */
  lemma SideBySideIff(w: World, digest: seq<byte> -> string, job: Job, f: Faults)
    requires w.log == [] && job.name in w.units
    ensures var was := PidOf(w.units[job.name]);
            var log := Upgrade(w, digest, job, f).0.log;
            (exists i: nat :: i <= |log| && |Alive(log[..i], was)| > 1)
            <==>
            || (OldStays(w, digest, job, f) && (TargetStarts(w, digest, job, f) || RollbackRuns(w, digest, job, f)))
            || (UnhealthyStays(w, digest, job, f) && RollbackRuns(w, digest, job, f))
  {
    var log, was := Upgrade(w, digest, job, f).0.log, PidOf(w.units[job.name]);
    TrailUpgrade(w, digest, job, f);
    PeakIs(w, digest, job, f);
    var top := PeakIsReached(log, was);
    forall i: nat | i <= |log| ensures |Alive(log[..i], was)| <= TrailOf(log, was).peak {
      PeakBounds(log, was, i);
    }
    hide *;
  }

  lemma StopLeaves(row: UnitRow, f: Faults)
    ensures var t := AfterStop(row, f);
            && |t.alive| <= t.peak <= 1
            && t.alive == if row.pid.Some? && !f.oldEnds then PidOf(row) else multiset{}
  {
  }

  lemma RestoredBag(a: multiset<nat>, p: nat)
    ensures a + multiset{p} - multiset{p} == a && |a + multiset{p}| == |a| + 1
  {
  }

  function Plus(a: multiset<nat>, more: bool, p: nat): multiset<nat> {
    if more then a + multiset{p} else a
  }

  /** What bringing the new version up adds to the processes there are. */
  lemma BringUpLeaves(t: Trail, w: World, digest: seq<byte> -> string, job: Job, f: Faults)
    requires job.name in w.units && t.peak <= 1 && |t.alive| <= t.peak
    ensures var after := AfterBringUp(t, w, digest, job, f);
            var starts := Starts(w.units[job.name], f.start) && !f.start.spawnFails;
            var rolls := starts && !f.healthy && RollbackStarts(w, digest, job, f);
            && (after.peak > 1 <==> starts && (|t.alive| == 1 || (rolls && !f.newEnds)))
            && after.alive == Plus(Plus(t.alive, starts && (f.healthy || !f.newEnds), f.start.pid),
                                   rolls, f.rollbackStart.pid)
  {
    hide Starts, RollbackStarts;
    RestoredBag(t.alive, f.start.pid);
  }

  lemma PeakIs(w: World, digest: seq<byte> -> string, job: Job, f: Faults)
    requires job.name in w.units
    ensures AfterUpgrade(w, digest, job, f).peak > 1
            <==>
            || (OldStays(w, digest, job, f) && (TargetStarts(w, digest, job, f) || RollbackRuns(w, digest, job, f)))
            || (UnhealthyStays(w, digest, job, f) && RollbackRuns(w, digest, job, f))
  {
    hide AfterBringUp, AfterStop, Starts, RollbackStarts, Verified;
    var t := AfterStop(w.units[job.name], f);
    StopLeaves(w.units[job.name], f);
    OnePid(w.units[job.name]);
    if Begun(w, digest, job, f) && TargetUnpacked(w, digest, job, f) {
      BringUpLeaves(t, w, digest, job, f);
    }
  }

  /** The processes an upgrade leaves running. */
  function Left(w: World, digest: seq<byte> -> string, job: Job, f: Faults): multiset<nat>
    requires job.name in w.units
  {
    var kept := if !Begun(w, digest, job, f) || OldStays(w, digest, job, f) then PidOf(w.units[job.name]) else multiset{};
    var target := TargetStarts(w, digest, job, f) && (f.healthy || !f.newEnds);
    Plus(Plus(kept, target, f.start.pid), RollbackRuns(w, digest, job, f), f.rollbackStart.pid)
  }

  lemma PlusNone(a: multiset<nat>, p: nat, q: nat)
    ensures Plus(a, false, p) == a && Plus(a, false, q) == a && Plus(a, true, q) == a + multiset{q}
  {
  }

  lemma LeftAfterBringUp(w: World, digest: seq<byte> -> string, job: Job, f: Faults)
    requires TargetUnpacked(w, digest, job, f)
    ensures AfterBringUp(AfterStop(w.units[job.name], f), w, digest, job, f).alive == Left(w, digest, job, f)
  {
    hide AfterBringUp, AfterStop, Starts, RollbackStarts, PidOf, Plus, Verified;
    StopLeaves(w.units[job.name], f);
    BringUpLeaves(AfterStop(w.units[job.name], f), w, digest, job, f);
  }

  lemma LeftInTrail(w: World, digest: seq<byte> -> string, job: Job, f: Faults)
    requires job.name in w.units
    ensures AfterUpgrade(w, digest, job, f).alive == Left(w, digest, job, f)
  {
    hide AfterBringUp, AfterStop, Starts, RollbackStarts, PidOf, Plus, Verified;
    var row := w.units[job.name];
    var t := AfterStop(row, f);
    if !Begun(w, digest, job, f) {
      PlusNone(PidOf(row), f.start.pid, f.rollbackStart.pid);
    } else {
      StopLeaves(row, f);
      if TargetUnpacked(w, digest, job, f) {
        LeftAfterBringUp(w, digest, job, f);
      } else {
        PlusNone(t.alive, f.start.pid, f.rollbackStart.pid);
      }
    }
  }

  lemma LeftIs(w: World, digest: seq<byte> -> string, job: Job, f: Faults)
    requires w.log == [] && job.name in w.units
    ensures Alive(Upgrade(w, digest, job, f).0.log, PidOf(w.units[job.name])) == Left(w, digest, job, f)
  {
    hide *;
    TrailUpgrade(w, digest, job, f);
    TrailAlive(Upgrade(w, digest, job, f).0.log, PidOf(w.units[job.name]));
    LeftInTrail(w, digest, job, f);
  }

  /** A version that was started runs on without a row to name it. */
  predicate Unrecorded(w: World, digest: seq<byte> -> string, job: Job, f: Faults) {
    || (TargetStarts(w, digest, job, f) && f.healthy && f.start.upsertFails)
    || UnhealthyStays(w, digest, job, f)
    || (RollbackRuns(w, digest, job, f) && f.rollbackStart.upsertFails)
  }

  /** A version that was started is the one the row now names. */
  predicate Recorded(w: World, digest: seq<byte> -> string, job: Job, f: Faults) {
    || (TargetStarts(w, digest, job, f) && f.healthy && !f.start.upsertFails)
    || (RollbackRuns(w, digest, job, f) && !f.rollbackStart.upsertFails)
  }

  lemma StartsApart(w: World, digest: seq<byte> -> string, job: Job, f: Faults)
    ensures TargetStarts(w, digest, job, f) || RollbackRuns(w, digest, job, f) ==> Begun(w, digest, job, f)
    ensures TargetStarts(w, digest, job, f) && RollbackRuns(w, digest, job, f) ==> !f.healthy
  {
  }

  lemma OnePid(row: UnitRow)
    ensures |PidOf(row)| == if row.pid.Some? then 1 else 0
  {
  }

  lemma Included(a: multiset<nat>, b: multiset<nat>)
    ensures a <= b ==> |a| <= |b|
    ensures |a| == |b| ==> (a <= b <==> a == b)
  {
    if a <= b {
      assert b == a + (b - a);
    }
  }

  /**
   What is left of the old process, the target and the rollback version, against
   the pid of the row, which is the target's, the rollback version's or still the old one.
   */
  lemma NamedIff(was: multiset<nat>, survivor: bool, target: bool, named: bool, p: nat, rolled: bool, namedBack: bool, q: nat)
    requires |was| <= 1 && (survivor ==> |was| == 1) && (named ==> target && !rolled) && (namedBack ==> rolled)
    ensures var left := Plus(Plus(if survivor then was else multiset{}, target, p), rolled, q);
            var row := if named then multiset{p} else if namedBack then multiset{q} else was;
            left <= row <==>
              || !((target && !named) || (rolled && !namedBack) || (survivor && (named || namedBack)))
              || left == was
  {
    var left := Plus(Plus(if survivor then was else multiset{}, target, p), rolled, q);
    var row := if named then multiset{p} else if namedBack then multiset{q} else was;
    Included(left, row);
    assert |left| == (if survivor then 1 else 0) + (if target then 1 else 0) + (if rolled then 1 else 0);
    if !target && !rolled {
      assert left <= was;
    }
  }

  /** The pid the row names after an upgrade. */
  lemma PidAfter(w: World, digest: seq<byte> -> string, job: Job, f: Faults)
    requires job.name in w.units
    ensures var after := Upgrade(w, digest, job, f).0;
            && job.name in after.units
            && PidOf(after.units[job.name])
               == if TargetStarts(w, digest, job, f) && f.healthy && !f.start.upsertFails then multiset{f.start.pid}
                  else if RollbackRuns(w, digest, job, f) && !f.rollbackStart.upsertFails then
                    multiset{f.rollbackStart.pid}
                  else PidOf(w.units[job.name])
  {
    UpgradeOutcome(w, digest, job, f);
    hide Upgrade;
  }

  /**
   Every process an upgrade leaves running is the one the unit's row names, if
   and only if none of these happened: a started version went unrecorded, or an
   old one outlived its signal while a new one was recorded. The exception is a
   single process left under the pid the row had before, be it the old one or
   one that got the same pid.
   */
  lemma NoOrphanIff(w: World, digest: seq<byte> -> string, job: Job, f: Faults)
    requires w.log == [] && job.name in w.units
    ensures var after := Upgrade(w, digest, job, f).0;
            var was := PidOf(w.units[job.name]);
            && job.name in after.units
            && (Alive(after.log, was) <= PidOf(after.units[job.name])
                <==>
                || !(Unrecorded(w, digest, job, f) || (OldStays(w, digest, job, f) && Recorded(w, digest, job, f)))
                || Left(w, digest, job, f) == was)
  {
    hide Upgrade, Alive, Begun, TargetStarts, RollbackRuns, PidOf, Plus;
    PlusNone(PidOf(w.units[job.name]), f.start.pid, f.rollbackStart.pid);
    LeftIs(w, digest, job, f);
    PidAfter(w, digest, job, f);
    StartsApart(w, digest, job, f);
    var was := PidOf(w.units[job.name]);
    assert |was| == if w.units[job.name].pid.Some? then 1 else 0 by { OnePid(w.units[job.name]); }
    if Begun(w, digest, job, f) {
      var target, rolled := TargetStarts(w, digest, job, f), RollbackRuns(w, digest, job, f);
      NamedIff(was, OldStays(w, digest, job, f),
               target && (f.healthy || !f.newEnds), target && f.healthy && !f.start.upsertFails, f.start.pid,
               rolled, rolled && !f.rollbackStart.upsertFails, f.rollbackStart.pid);
    }
  }

  /**
   The unit's row after an upgrade: everything but the version, the time, the pid
   and the state is kept; the state and the pid change just when a started version
   was recorded, to "running" and its pid; only a sidecar whose binary is there is
   ever started, so any other unit keeps them and its processes.
   */
  lemma RowAfter(w: World, digest: seq<byte> -> string, job: Job, f: Faults)
    requires w.log == [] && job.name in w.units
    ensures var (after, ok) := Upgrade(w, digest, job, f);
            var was := w.units[job.name];
            && job.name in after.units
            && (forall name | name != job.name ::
                  (name in after.units <==> name in w.units) && (name in w.units ==> after.units[name] == w.units[name]))
            && var row := after.units[job.name];
               && row.name == was.name && row.kind == was.kind && row.health == was.health
               && row.healthError == was.healthError && row.socketPath == was.socketPath && row.config == was.config
               && row.state == (if Recorded(w, digest, job, f) then "running" else was.state)
               && (!Recorded(w, digest, job, f) ==> row.pid == was.pid)
               && (ok ==> row.version == job.targetVersion && row.updatedAt == f.start.now)
               && (ok && was.kind == "sidecar" && f.start.binaryExists ==> row.state == "running" && row.pid == Some(f.start.pid))
               && (was.kind != "sidecar" || (!f.start.binaryExists && !f.rollbackStart.binaryExists) ==>
                     && row.state == was.state && row.pid == was.pid
                     && Alive(after.log, PidOf(was)) <= PidOf(was))
  {
    UpgradeOutcome(w, digest, job, f);
    LeftIs(w, digest, job, f);
    hide Upgrade, Alive, Verified;
  }

  lemma Extends(w: World, digest: seq<byte> -> string, job: Job, f: Faults, version: string, bytes: seq<byte>, fetch: Fetch)
    ensures w.log <= WriteAndUnpack(w, version, bytes, fetch).0.log
    ensures w.log <= RollbackIfAny(w, digest, job, f).log
  {
  }

  lemma BringUpExtends(w: World, digest: seq<byte> -> string, job: Job, f: Faults, current: UnitRow)
    ensures w.log <= BringUp(w, digest, job, f, current).0.log
  {
    hide RollbackIfAny;
    var probed := Note(Note(w, Spawned(job.targetVersion, f.start.pid)), Probed(f.healthy));
    Extends(Note(probed, Killed(f.start.pid, f.newEnds)), digest, job, f, "", [], f.fetch);
  }

  /** A running unit is signalled before anything else is done to it. */
  lemma SignalComesFirst(w: World, digest: seq<byte> -> string, job: Job, f: Faults)
    requires w.log == [] && job.name in w.units && w.units[job.name].pid.Some?
    ensures var log := Upgrade(w, digest, job, f).0.log;
            log == [] || log[0] == Killed(w.units[job.name].pid.value, f.oldEnds)
  {
    hide WriteAndUnpack, RollbackIfAny, BringUp;
    if Begun(w, digest, job, f) {
      var current := w.units[job.name];
      var stopped := Note(w, Killed(current.pid.value, f.oldEnds));
      var bytes := f.fetch.download.value;
      Extends(stopped, digest, job, f, job.targetVersion, bytes, f.fetch);
      var unpacked := WriteAndUnpack(stopped, job.targetVersion, bytes, f.fetch).0;
      Extends(unpacked, digest, job, f, "", [], f.fetch);
      BringUpExtends(unpacked, digest, job, f, current);
    }
  }

  /** Faults under which all goes well but for the old process, which outlasts its signal. */
  function OldOutlasts(bytes: seq<byte>, pid: nat, now: int): Faults {
    var fetch := Fetch(Some(bytes), Written, Unpacked);
    var start := Start(false, true, false, pid, false, now);
    Faults(false, fetch, start, true, true, fetch, start)
  }

  /** Then the upgrade of a running sidecar succeeds, with both versions running and the old one orphaned. */
  lemma SurvivorIsOrphaned(w: World, digest: seq<byte> -> string, job: Job, bytes: seq<byte>, pid: nat, now: int)
    requires w.log == [] && job.name in w.units && digest(bytes) == job.sha256
    requires w.units[job.name].kind == "sidecar" && w.units[job.name].pid.Some?
    ensures var (after, ok) := Upgrade(w, digest, job, OldOutlasts(bytes, pid, now));
            var was := PidOf(w.units[job.name]);
            && ok && job.name in after.units && after.units[job.name].pid == Some(pid)
            && Alive(after.log, was) == was + multiset{pid}
            && !(Alive(after.log, was) <= PidOf(after.units[job.name]))
            && exists i: nat :: i <= |after.log| && |Alive(after.log[..i], was)| > 1
  {
    var f := OldOutlasts(bytes, pid, now);
    UpgradeOutcome(w, digest, job, f);
    LeftIs(w, digest, job, f);
    SideBySideIff(w, digest, job, f);
    hide Upgrade, Alive;
    Included(Left(w, digest, job, f), PidOf(Upgrade(w, digest, job, f).0.units[job.name]));
  }

  // ---------------------------------------------------------------- Host

  /** The host the upgrade works on, changed step by step. */
  class Host {
    const digest: seq<byte> -> string
    const store: Store
    var log: seq<Event>

    ghost function View(): World
      requires store.Valid()
      reads this, store
    {
      World(Table(store.units), log)
    }

    constructor (digest: seq<byte> -> string, store: Store)
      requires store.Valid()
      ensures this.digest == digest && this.store == store && View() == World(Table(store.units), [])
    {
      this.digest := digest;
      this.store := store;
      this.log := [];
    }

    method Did(e: Event)
      requires store.Valid()
      modifies this`log
      ensures View() == Note(old(View()), e)
    {
      log := log + [e];
    }

    method WriteAndExtract(version: string, bytes: seq<byte>, f: Fetch) returns (r: Unpack)
      requires store.Valid()
      modifies this`log
      ensures (View(), r) == WriteAndUnpack(old(View()), version, bytes, f)
    {
      if f.write == NotWritten {
        return UnpackAborted;
      }
      Did(Wrote(version, bytes, f.write == Written));
      if f.write == Torn || f.tar == NotRun {
        return UnpackAborted;
      }
      if f.tar == Refused {
        Did(ExtractFailed(version));
        return UnpackFailed;
      }
      Did(Extracted(version, bytes));
      r := UnpackDone;
    }

    method UpsertUnit(row: UnitRow)
      requires store.Valid()
      modifies this`log, store`units
      ensures store.Valid() && View() == Upserted(old(View()), row)
    {
      store.UpsertUnit(row);
      Did(RowWritten(row));
    }

    method RollBack(name: string, spec: RollbackSpec, f: Fetch, s: Start) returns (ok: bool)
      requires store.Valid()
      modifies this`log, store`units
      ensures store.Valid() && (View(), ok) == PerformRollback(old(View()), digest, name, spec, f, s)
    {
      hide Upserted, WriteAndUnpack, Table, AuditSorted, JournalValid, UniqueNames;
      if f.download.None? || digest(f.download.value) != spec.sha256 {
        return false;
      }
      var r := WriteAndExtract(spec.version, f.download.value, f);
      if r != UnpackDone || s.lookupFails {
        return false;
      }
      var found := store.GetUnit(name);
      if found.None? {
        return true;
      }
      var row := found.value.(version := spec.version, updatedAt := s.now);
      if row.kind == "sidecar" && s.binaryExists {
        if s.spawnFails {
          return false;
        }
        Did(Spawned(spec.version, s.pid));
        row := row.(pid := Some(s.pid), state := "running");
      }
      if s.upsertFails {
        return false;
      }
      UpsertUnit(row);
      ok := true;
    }

    method BringUpUnit(job: Job, f: Faults, current: UnitRow) returns (ok: bool)
      requires store.Valid()
      modifies this`log, store`units
      ensures store.Valid() && (View(), ok) == BringUp(old(View()), digest, job, f, current)
    {
      hide Upserted, WriteAndUnpack, PerformRollback, Table, AuditSorted, JournalValid, UniqueNames;
      var updated := current.(version := job.targetVersion, updatedAt := f.start.now);
      if current.kind == "sidecar" && f.start.binaryExists {
        if f.start.spawnFails {
          return false;
        }
        Did(Spawned(job.targetVersion, f.start.pid));
        updated := updated.(pid := Some(f.start.pid), state := "running");
        Did(Probed(f.healthy));
        if !f.healthy {
          Did(Killed(f.start.pid, f.newEnds));
          if job.rollback.Some? {
            var _ := RollBack(job.name, job.rollback.value, f.rollbackFetch, f.rollbackStart);
          }
          return false;
        }
      }
      if f.start.upsertFails {
        return false;
      }
      UpsertUnit(updated);
      ok := true;
    }

    method UpgradeUnit(job: Job, f: Faults) returns (ok: bool)
      requires store.Valid()
      modifies this`log, store`units
      ensures store.Valid() && (View(), ok) == Upgrade(old(View()), digest, job, f)
    {
      hide Upserted, WriteAndUnpack, PerformRollback, BringUp, Table, AuditSorted, JournalValid, UniqueNames;
      if f.fetch.download.None? || digest(f.fetch.download.value) != job.sha256 {
        return false;
      }
      if f.start.lookupFails {
        return false;
      }
      var found := store.GetUnit(job.name);
      if found.None? {
        return false;
      }
      var current := found.value;
      if current.pid.Some? {
        Did(Killed(current.pid.value, f.oldEnds));
      }
      var r := WriteAndExtract(job.targetVersion, f.fetch.download.value, f.fetch);
      if r == UnpackAborted {
        return false;
      }
      if r == UnpackFailed {
        if job.rollback.Some? {
          var _ := RollBack(job.name, job.rollback.value, f.rollbackFetch, f.rollbackStart);
        }
        return false;
      }
      ok := BringUpUnit(job, f, current);
    }
  }
}
