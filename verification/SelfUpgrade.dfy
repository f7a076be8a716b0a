/**
 Replacing the agent's own binary. Every file operation may stop the upgrade,
 by an error or by a crash, having written none, some or all of its bytes;
 only a rename is atomic.
 */
module SelfUpgrade {
  import opened Types
  import opened Codec

  /** The agent's files. The running executable is none of the files the upgrade keeps in its data directory. */
  datatype Path =
    | Exe
    | Backup(version: string)
    | StateFile
    | NewFile
    | Other(name: string)

  type Files = map<Path, seq<byte>>

  datatype PendingUpgrade = PendingUpgrade(
    targetVersion: string, previousVersion: string, rollbackPath: Path, initiatedAt: int)

  /** The state file's format. */
  datatype Format = Format(write: PendingUpgrade -> seq<byte>, read: seq<byte> -> Option<PendingUpgrade>)

  /** What is written is read back, and a state file cut short is not taken for one. */
  ghost predicate Sound(f: Format) {
    && (forall p :: f.read(f.write(p)) == Some(p))
    && (forall p, n: nat :: n < |f.write(p)| ==> f.read(f.write(p)[..n]) == None)
  }

  datatype Fault = NoFault | Untouched | Torn(written: nat)

  datatype Faults = Faults(copy: Fault, state: Fault, binary: Fault, chmodFails: bool, renameFails: bool)

  datatype Job = Job(
    download: Option<seq<byte>>, digest: seq<byte> -> string, expected: string,
    targetVersion: string, currentVersion: string, now: int)

  // ---------------------------------------------------------------- Specification

  function Put(files: Files, path: Path, content: seq<byte>, fault: Fault): Files {
    match fault
    case NoFault => files[path := content]
    case Untouched => files
    case Torn(n) => files[path := if n < |content| then content[..n] else content]
  }

  function PendingFor(job: Job): PendingUpgrade {
    PendingUpgrade(job.targetVersion, job.currentVersion, Backup(job.currentVersion), job.now)
  }

  predicate Verified(job: Job) {
    job.download.Some? && job.digest(job.download.value) == job.expected
  }

  /** The files when the upgrade stops or finishes, and whether it finished. */
  function Upgrade(files: Files, job: Job, format: Format, f: Faults): (Files, bool) {
    if !Verified(job) || Exe !in files then (files, false)
    else
      var copied := Put(files, Backup(job.currentVersion), files[Exe], f.copy);
      if f.copy != NoFault then (copied, false)
      else
        var noted := Put(copied, StateFile, format.write(PendingFor(job)), f.state);
        if f.state != NoFault then (noted, false)
        else
          var staged := Put(noted, NewFile, job.download.value, f.binary);
          if f.binary != NoFault || f.chmodFails || f.renameFails then (staged, false)
          else ((staged - {NewFile})[Exe := job.download.value], true)
  }

  /** What can go wrong in a recovery: reading the state file, removing it, moving the backup back. */
  datatype Recovery = Recovery(readFails: bool, removeFails: bool, renameFails: bool)

  /** `check_pending`: what it returns and leaves; a state file it cannot read is dropped, one it cannot remove stays. */
  function CheckPending(files: Files, format: Format, r: Recovery): (Option<PendingUpgrade>, Files) {
    if StateFile !in files then (None, files)
    else (if r.readFails then None else format.read(files[StateFile]),
          if r.removeFails then files else files - {StateFile})
  }

  function Rollback(files: Files, p: PendingUpgrade, renameFails: bool): (Files, bool) {
    if p.rollbackPath !in files || renameFails then (files, false)
    else if p.rollbackPath == Exe then (files, true)
    else ((files - {p.rollbackPath})[Exe := files[p.rollbackPath]], true)
  }

  /** What a restart makes of the files: look for a pending upgrade and undo it. */
  function Recover(files: Files, format: Format, r: Recovery): Files {
    var (pending, rest) := CheckPending(files, format, r);
    if pending.None? then rest else Rollback(rest, pending.value, r.renameFails).0
  }

  // ---------------------------------------------------------------- Crash safety

  /**
   Whatever the faults: the executable is the old one, or the verified new one
   with the old one backed up and a complete state file beside it; and no file
   outside the upgrade's own is touched.
   */
  lemma CrashSafe(files: Files, job: Job, format: Format, f: Faults)
    requires Exe in files
    ensures var (after, done) := Upgrade(files, job, format, f);
            && Exe in after
            && (done <==> job.download.Some? && job.digest(job.download.value) == job.expected
                          && f.copy == f.state == f.binary == NoFault && !f.chmodFails && !f.renameFails)
            && (!done ==> after[Exe] == files[Exe])
            && (done ==>
                  && Verified(job) && after[Exe] == job.download.value
                  && Backup(job.currentVersion) in after && after[Backup(job.currentVersion)] == files[Exe]
                  && StateFile in after && NewFile !in after
                  && after[StateFile] == format.write(PendingUpgrade(
                       job.targetVersion, job.currentVersion, Backup(job.currentVersion), job.now)))
            && forall p | p !in {Exe, Backup(job.currentVersion), StateFile, NewFile} ::
                 (p in after <==> p in files) && (p in files ==> after[p] == files[p])
  {
  }

  /** A stale state file, if any, cannot mislead the recovery from an interrupted upgrade. */
  predicate Harmless(files: Files, job: Job, format: Format, r: Recovery)
    requires Exe in files
  {
    StateFile !in files ||
    match format.read(files[StateFile])
    case None => true
    case Some(p) =>
      && p.rollbackPath != Backup(job.currentVersion)
      && ((p.rollbackPath == StateFile && !r.removeFails)
          || p.rollbackPath !in files || files[p.rollbackPath] == files[Exe])
  }

  /** The recovery can read the state file and move a backup. */
  predicate Undoes(r: Recovery) { !r.readFails && !r.renameFails }

  /** Recovering from the upgrade under these faults leaves the old executable in place. */
  predicate Restored(files: Files, job: Job, format: Format, r: Recovery, f: Faults)
    requires Exe in files
  {
    var after := Recover(Upgrade(files, job, format, f).0, format, r);
    Exe in after && after[Exe] == files[Exe]
  }

  /** Once the state file is complete, the backup is, and a recovery installs it. */
  lemma RecoverNoted(files: Files, job: Job, format: Format, r: Recovery)
    requires Sound(format) && Undoes(r)
    requires StateFile in files && files[StateFile] == format.write(PendingFor(job))
    requires Backup(job.currentVersion) in files
    ensures var after := Recover(files, format, r);
            Exe in after && after[Exe] == files[Backup(job.currentVersion)]
  {
    assert format.read(format.write(PendingFor(job))) == Some(PendingFor(job));
  }

  /** Before the state file is touched, only a stale one can be found. */
  lemma RecoverStale(files: Files, stopped: Files, job: Job, format: Format, r: Recovery)
    requires Exe in files && Harmless(files, job, format, r) && Undoes(r)
    requires forall p | p != Backup(job.currentVersion) ::
               (p in stopped <==> p in files) && (p in files ==> stopped[p] == files[p])
    ensures var after := Recover(stopped, format, r);
            Exe in after && after[Exe] == files[Exe]
  {
  }

  /** A state file cut short is dropped. */
  lemma RecoverTorn(files: Files, job: Job, format: Format, r: Recovery, n: nat)
    requires Sound(format) && Exe in files && StateFile in files
    requires n < |format.write(PendingFor(job))| && files[StateFile] == format.write(PendingFor(job))[..n]
    ensures var after := Recover(files, format, r);
            Exe in after && after[Exe] == files[Exe]
  {
    assert format.read(format.write(PendingFor(job))[..n]) == None;
  }

  /** A recovery that cannot undo anything leaves the executable it finds. */
  lemma RecoverNothing(files: Files, format: Format, r: Recovery)
    requires Exe in files && !Undoes(r)
    ensures var after := Recover(files, format, r);
            Exe in after && after[Exe] == files[Exe]
  {
  }

  /**
   A recovery restores the old executable from one that can undo, with no stale
   state file to mislead it, and else from an upgrade that did not finish.
   */
  lemma RecoveryRestores(files: Files, job: Job, format: Format, r: Recovery, f: Faults)
    requires Sound(format) && Exe in files
    requires if Undoes(r) then Harmless(files, job, format, r)
             else !Upgrade(files, job, format, f).1 || job.download == Some(files[Exe])
    ensures Restored(files, job, format, r, f)
  {
    hide Sound, Harmless, Recover;
    var stopped := Upgrade(files, job, format, f).0;
    if !Undoes(r) {
      CrashSafe(files, job, format, f);
      RecoverNothing(stopped, format, r);
    } else if !Verified(job) || f.copy != NoFault || f.state == Untouched {
      RecoverStale(files, stopped, job, format, r);
    } else if f.state.Torn? && f.state.written < |format.write(PendingFor(job))| {
      RecoverTorn(stopped, job, format, r, f.state.written);
    } else {
      RecoverNoted(stopped, job, format, r);
    }
  }

  /**
   After an upgrade that stopped anywhere or finished, a restart that looks for
   a pending upgrade and rolls it back has the old executable again, byte for
   byte, whatever the faults, if and only if it can read the state file and move
   the backup, and no stale state file was there to mislead it: one naming the
   backup about to be overwritten, or some other file that differs from the
   executable. A recovery that cannot do either never undoes a finished upgrade.
   */
  lemma RecoveryRestoresIff(files: Files, job: Job, format: Format, r: Recovery)
    requires Sound(format) && Verified(job) && Exe in files && files[Exe] != []
    ensures (forall f :: Restored(files, job, format, r, f))
            <==> if Undoes(r) then Harmless(files, job, format, r) else job.download.value == files[Exe]
  {
    if if Undoes(r) then Harmless(files, job, format, r) else job.download.value == files[Exe] {
      forall f ensures Restored(files, job, format, r, f) {
        RecoveryRestores(files, job, format, r, f);
      }
    } else if Undoes(r) {
      MisledRecovery(files, job, format, r);
    } else {
      var f := Faults(NoFault, NoFault, NoFault, false, false);
      RecoverNothing(Upgrade(files, job, format, f).0, format, r);
      assert !Restored(files, job, format, r, f);
    }
  }

  /** The faults under which a stale state file misleads the recovery. */
  lemma MisledRecovery(files: Files, job: Job, format: Format, r: Recovery)
    requires Verified(job) && Exe in files && files[Exe] != []
    requires Undoes(r) && !Harmless(files, job, format, r)
    ensures var p := format.read(files[StateFile]).value;
            var copy := if p.rollbackPath == Backup(job.currentVersion) then Torn(0) else Untouched;
            !Restored(files, job, format, r, Faults(copy, NoFault, NoFault, false, false))
  {
  }

  /**
   The misleading state file arises: a finished upgrade leaves one, and a second
   upgrade under the same running version, stopped while it makes its backup,
   cannot be recovered from.
   */
  lemma SecondUpgradeIsAtRisk(files: Files, job: Job, format: Format, f: Faults, job': Job, r: Recovery)
    requires Sound(format) && Exe in files && Upgrade(files, job, format, f).1
    requires job'.currentVersion == job.currentVersion
    ensures var after := Upgrade(files, job, format, f).0;
            && Exe in after && !Harmless(after, job', format, r)
            && (Verified(job') && after[Exe] != [] && Undoes(r) ==>
                  !Restored(after, job', format, r, Faults(Torn(0), NoFault, NoFault, false, false)))
  {
    hide Recover;
    var after := Upgrade(files, job, format, f).0;
    assert format.read(format.write(PendingFor(job))) == Some(PendingFor(job));
    if Verified(job') && after[Exe] != [] && Undoes(r) {
      MisledRecovery(after, job', format, r);
    }
  }

  /** A finished upgrade is found once: with its details, and not again once its state file is gone. */
  lemma PendingIsTakenOnce(files: Files, job: Job, format: Format, f: Faults, r: Recovery, again: Recovery)
    requires Sound(format) && Exe in files && Upgrade(files, job, format, f).1 && !r.readFails && !r.removeFails
    ensures var (pending, rest) := CheckPending(Upgrade(files, job, format, f).0, format, r);
            && pending == Some(PendingUpgrade(job.targetVersion, job.currentVersion, Backup(job.currentVersion), job.now))
            && CheckPending(rest, format, again) == (None, rest)
            && Exe in rest && rest[Exe] == job.download.value
  {
    assert format.read(format.write(PendingFor(job))) == Some(PendingFor(job));
  }

  /** A rollback that succeeded cannot be repeated: the second one fails and changes nothing. */
  lemma RollbackOnce(files: Files, p: PendingUpgrade, renameFails: bool)
    requires p.rollbackPath != Exe && Rollback(files, p, false).1
    ensures var once := Rollback(files, p, false).0;
            once[Exe] == files[p.rollbackPath] && Rollback(once, p, renameFails) == (once, false)
  {
  }

  // ---------------------------------------------------------------- Host

  class Disk {
    var files: Files

    constructor (files: Files)
      ensures this.files == files
    {
      this.files := files;
    }

    method WriteFile(path: Path, content: seq<byte>, fault: Fault) returns (ok: bool)
      modifies this
      ensures files == Put(old(files), path, content, fault) && (ok <==> fault == NoFault)
    {
      match fault {
        case NoFault => files := files[path := content];
        case Untouched =>
        case Torn(n) => files := files[path := if n < |content| then content[..n] else content];
      }
      ok := fault == NoFault;
    }

    method Rename(from: Path, to: Path, fails: bool) returns (ok: bool)
      requires from != to
      modifies this
      ensures ok <==> from in old(files) && !fails
      ensures files == if ok then (old(files) - {from})[to := old(files)[from]] else old(files)
    {
      if from !in files || fails {
        return false;
      }
      files := (files - {from})[to := files[from]];
      ok := true;
    }

    method RemoveFile(path: Path, fails: bool)
      modifies this
      ensures files == if fails then old(files) else old(files) - {path}
    {
      if !fails {
        files := files - {path};
      }
    }

    method Execute(job: Job, format: Format, f: Faults) returns (r: Result<(), string>)
      modifies this
      ensures (files, r.Ok?) == Upgrade(old(files), job, format, f)
    {
      if job.download.None? {
        return Err("artifact download failed");
      }
      var bytes := job.download.value;
      if job.digest(bytes) != job.expected {
        return Err("sha256 mismatch");
      }
      if Exe !in files {
        return Err("cannot back up the executable");
      }
      var ok := WriteFile(Backup(job.currentVersion), files[Exe], f.copy);
      if !ok {
        return Err("backup failed");
      }
      ok := WriteFile(StateFile, format.write(PendingFor(job)), f.state);
      if !ok {
        return Err("state file not written");
      }
      ok := WriteFile(NewFile, bytes, f.binary);
      if !ok {
        return Err("binary not written");
      }
      if f.chmodFails {
        return Err("permissions not set");
      }
      ok := Rename(NewFile, Exe, f.renameFails);
      if !ok {
        return Err("binary not replaced");
      }
      r := Ok(());
    }

    /** Consumes the state file, valid or not. */
    method TakePending(format: Format, r: Recovery) returns (p: Option<PendingUpgrade>)
      modifies this
      ensures (p, files) == CheckPending(old(files), format, r)
    {
      if StateFile !in files {
        return None;
      }
      p := if r.readFails then None else format.read(files[StateFile]);
      RemoveFile(StateFile, r.removeFails);
    }

    method Restore(p: PendingUpgrade, renameFails: bool) returns (ok: bool)
      modifies this
      ensures (files, ok) == Rollback(old(files), p, renameFails)
    {
      if p.rollbackPath !in files {
        return false;
      }
      if p.rollbackPath == Exe {
        return !renameFails;
      }
      ok := Rename(p.rollbackPath, Exe, renameFails);
    }
  }
}