/** The crash-safe upgrade of a Docker installation: a journal, a write freeze, files that cannot be
    switched together, and a recovery that may itself be interrupted. Every step may fail or be the
    last one before a crash, before or after it took effect, and users keep writing whenever they
    are let in. */
module DockerUpgrade {
  import opened Common

  type Write = nat
  type BackupId = nat

  /** A directory tree is whole, under the version it carries, or it is in the middle of a copy. */
  datatype Tree = Whole(version: nat) | Torn

  /** deployment.json; `compose` and `images` are digests. */
  datatype Marker = Marker(id: nat, version: nat, compose: nat, images: nat)

  /** A complete, verified backup directory. */
  datatype Snapshot = Snapshot(marker: Marker, compose: nat, app: Tree, images: nat, db: set<Write>, files: set<Write>)

  datatype Journal =
    | Clear
    | Stopping(id: nat, previous: nat)
    | Changing(id: nat, backup: BackupId, planned: Option<Marker>)
    | Committed(id: nat, target: nat)

  /** The four things an installation consists of. */
  datatype Release = Release(marker: Marker, compose: nat, app: Tree, images: nat)

  /** The marker, the application and the image list agree, as load and validate_runtime demand. */
  predicate Consistent(r: Release)
  {
    r.compose == r.marker.compose && r.app == Whole(r.marker.version) && r.images == r.marker.images
  }

  /** What recovery_marker accepts: a marker and a composition that this transaction can have written. */
  predicate Recoverable(saved: Marker, j: Journal, backup: BackupId, marker: Marker, compose: nat)
  {
    && j.Changing? && j.id == saved.id && j.backup == backup
    && (marker == saved || Some(marker) == j.planned)
    && (j.planned.Some? ==> j.planned.value.id == saved.id)
    && (compose == saved.compose || (j.planned.Some? && compose == j.planned.value.compose))
  }

  class Host {
    // Durable state.
    var journal: Journal
    var gate: bool
    var marker: Marker
    var compose: nat
    var app: Tree
    var images: nat
    var db: set<Write>
    var files: set<Write>
    var backups: map<BackupId, Snapshot>
    // The panel is up; requests that entered before the freeze may still finish.
    var running: bool
    var draining: bool
    // Acknowledged writes; the installation before and after the open transaction; an edit by hand since it stopped.
    ghost var ackedDb: set<Write>
    ghost var ackedFiles: set<Write>
    ghost var before: Release
    ghost var planned: Release
    ghost var edited: bool

    function Current(): Release
      reads this
    {
      Release(marker, compose, app, images)
    }

    /** Nothing acknowledged is missing. */
    ghost predicate NothingLost()
      reads this
    {
      ackedDb <= db && ackedFiles <= files
    }

    predicate RecoverableNow()
      reads this
      requires journal.Changing? && journal.backup in backups
    {
      Recoverable(backups[journal.backup].marker, journal, journal.backup, marker, compose)
    }

    /** A snapshot that holds every acknowledged write and the installation before the transaction. */
    ghost predicate Covers(b: Snapshot)
      reads this
    {
      && ackedDb <= b.db && ackedFiles <= b.files
      && Release(b.marker, b.compose, b.app, b.images) == before
    }

    /** One whole installation, the old or the new one. */
    ghost predicate Finished()
      reads this
    {
      Consistent(Current()) && (Current() == before || Current() == planned)
    }

    /** What holds between any two steps, whatever was interrupted. */
    ghost predicate Safe()
      reads this
    {
      && (journal.Clear? || journal.Stopping? || journal.Committed? ==> NothingLost())
      && (match journal
          case Clear => !gate
          case Stopping(id, previous) =>
            !edited ==> Current() == before && Consistent(before) && id == marker.id && previous == marker.version
          case Changing(id, b, plan) =>
            && gate && !(running && draining) && b in backups && Covers(backups[b])
            && Consistent(before) && Consistent(planned) && id == before.marker.id == planned.marker.id
            && (plan.Some? ==> plan.value == before.marker || plan.value == planned.marker)
            && (!edited ==> RecoverableNow())
          case Committed(id, target) =>
            !edited ==> Finished() && id == marker.id && target == marker.version)
    }

    /** What every step leaves alone about the transaction as such. */
    twostate predicate SameTransaction()
      reads this
    {
      before == old(before) && planned == old(planned) && backups == old(backups)
    }

    /** No acknowledgement is taken back. */
    twostate predicate AcknowledgedStays()
      reads this
    {
      old(ackedDb) <= ackedDb && old(ackedFiles) <= ackedFiles
    }

    // ------------------------------------------------------------------ users

    /** Requests are served while the panel is up and not frozen, and those already inside finish. */
    method Users()
      modifies this`db, this`files, this`ackedDb, this`ackedFiles
      ensures old(ackedDb) <= ackedDb && old(ackedFiles) <= ackedFiles && old(db) <= db && old(files) <= files
      ensures ackedDb - old(ackedDb) <= db && ackedFiles - old(ackedFiles) <= files
      ensures !running || (gate && !draining) ==> ackedDb == old(ackedDb) && ackedFiles == old(ackedFiles) && db == old(db) && files == old(files)
    {
      if running && (!gate || draining) {
        var rows: set<Write> := *;
        var names: set<Write> := *;
        db, ackedDb := db + rows, ackedDb + rows;
        files, ackedFiles := files + names, ackedFiles + names;
      }
    }

    /** An administrator edits the marker or the composition while no program runs over them, in
        whatever stage a transaction was interrupted. */
    method Edit(m: Marker, c: nat)
      requires Safe()
      modifies this`marker, this`compose, this`edited
      ensures Safe()
    {
      marker, compose, edited := m, c, true;
    }

    // ------------------------------------------------------------------ single steps

    /** A failure or a crash at this point, unless the attempt is calm. */
    static method Fault(calm: bool) returns (bad: bool)
      ensures calm ==> !bad
    {
      bad := *;
      if calm {
        bad := false;
      }
    }

    /** atomic_json of the transaction file: the old or the new journal, never a mixture. */
    method WriteJournal(calm: bool, j: Journal) returns (ok: bool)
      modifies this`journal
      ensures ok ==> journal == j
      ensures journal == j || journal == old(journal)
      ensures calm ==> ok
    {
      var bad := false;
      bad := Fault(calm);
      if bad { return false; }
      journal := j;
      bad := Fault(calm);
      if bad { return false; }
      return true;
    }

    /** maintenance_gate.begin: fails if the freeze is already there. */
    method BeginGate(calm: bool) returns (ok: bool)
      modifies this`gate, this`draining
      ensures ok ==> gate
      ensures old(gate) ==> gate && !ok && draining == old(draining)
      ensures !gate ==> !old(gate)
      ensures calm && !old(gate) ==> ok
    {
      var bad := false;
      if gate { return false; }
      bad := Fault(calm);
      if bad { return false; }
      gate, draining := true, true;
      bad := Fault(calm);
      if bad { return false; }
      return true;
    }

    method FinishGate(calm: bool) returns (ok: bool)
      modifies this`gate
      ensures ok ==> !gate
      ensures gate ==> old(gate)
      ensures calm ==> ok
    {
      var bad := false;
      bad := Fault(calm);
      if bad { return false; }
      gate := false;
      bad := Fault(calm);
      if bad { return false; }
      return true;
    }

    /** stop_application, and the stop at the start of activate: graceful, so requests inside finish first. */
    method StopApplication(calm: bool) returns (ok: bool)
      modifies this`running, this`draining
      ensures ok ==> !running
      ensures running ==> old(running) && draining == old(draining)
      ensures draining ==> old(draining)
      ensures calm ==> ok
    {
      var bad := false;
      bad := Fault(calm);
      if bad { return false; }
      running, draining := false, false;
      bad := Fault(calm);
      if bad { return false; }
      return true;
    }

    /** Starting may migrate and add internal records, but drops none. */
    method StartApplication(calm: bool) returns (ok: bool)
      modifies this`running, this`draining, this`db, this`files
      ensures old(db) <= db && old(files) <= files
      ensures running && draining ==> old(running) && old(draining)
      ensures calm ==> ok
      ensures ok ==> running
    {
      var bad := false;
      bad := Fault(calm);
      if bad { return false; }
      var rows: set<Write> := *;
      var names: set<Write> := *;
      db, files := db + rows, files + names;
      if !running { running, draining := true, false; }
      bad := Fault(calm);
      if bad { return false; }
      return true;
    }

    method Health(calm: bool) returns (ok: bool)
      ensures ok ==> running
      ensures calm && running ==> ok
    {
      var bad := false;
      bad := Fault(calm);
      if bad { return false; }
      return running;
    }

    /** copy_application: pieces are replaced one after another, never under a running panel. */
    method CopyApplication(calm: bool, version: nat) returns (ok: bool)
      requires !running
      modifies this`app
      ensures ok ==> app == Whole(version)
      ensures calm ==> ok
    {
      var bad := false;
      bad := Fault(calm);
      if bad { return false; }
      app := Torn;
      bad := Fault(calm);
      if bad { return false; }
      app := Whole(version);
      return true;
    }

    /** backup_current: the writers are stopped. */
    method BackupCurrent(calm: bool, b: BackupId) returns (ok: bool)
      requires !running
      modifies this`backups
      ensures ok ==> backups == old(backups)[b := Snapshot(marker, compose, app, images, db, files)]
      ensures !ok ==> backups == old(backups)
      ensures calm ==> ok
    {
      var bad := false;
      bad := Fault(calm);
      if bad { return false; }
      backups := backups[b := Snapshot(marker, compose, app, images, db, files)];
      return true;
    }

    // ------------------------------------------------------------------ activate

    /** Records both known sides, then switches the composition and the marker and starts everything. */
    method Activate(calm: bool, m: Marker) returns (ok: bool)
      requires Safe() && journal.Changing? && !edited
      requires marker == before.marker && compose == before.compose
      requires m == before.marker || m == planned.marker
      modifies this`journal, this`marker, this`compose, this`running, this`draining, this`db, this`files
      ensures Safe() && SameTransaction() && journal.Changing? && journal.backup == old(journal).backup && gate && edited == old(edited)
      ensures ok ==> marker == m && compose == m.compose
      ensures old(db) <= db && old(files) <= files
      ensures ok ==> running
      ensures calm ==> ok
    {
      ok := StopApplication(calm);
      if !ok { return; }
      ok := Switch(calm, m);
      if !ok { return; }
      ok := StartApplication(calm);
      if !ok { return; }
      ok := Health(calm);
    }

    /** Under a stopped panel: both known sides, then the composition, then the marker. */
    method Switch(calm: bool, m: Marker) returns (ok: bool)
      requires !running && Safe() && journal.Changing? && !edited
      requires marker == before.marker && compose == before.compose
      requires m == before.marker || m == planned.marker
      modifies this`journal, this`marker, this`compose
      ensures Safe() && SameTransaction() && journal.Changing? && journal.backup == old(journal).backup
      ensures ok ==> marker == m && compose == m.compose && journal.planned == Some(m)
      ensures calm ==> ok
    {
      var bad := false;
      ok := WriteJournal(calm, journal.(planned := Some(m)));
      if !ok { return; }
      bad := Fault(calm);
      if bad { return false; }
      compose := m.compose;
      bad := Fault(calm);
      if bad { return false; }
      marker := m;
      ok := true;
    }

    // ------------------------------------------------------------------ restore

    /** restore_snapshot, with recovery_marker in front of it. */
    method RestoreSnapshot(calm: bool, b: BackupId) returns (ok: bool, saved: Marker)
      requires Safe() && gate && (journal.Changing? || journal.Stopping?)
      modifies this`journal, this`marker, this`compose, this`app, this`images, this`db, this`files, this`running, this`draining, this`edited
      ensures Safe() && SameTransaction()
      ensures journal.Changing? <==> old(journal).Changing?
      ensures ok ==> journal.Changing? && NothingLost() && Current() == before && saved == before.marker && !edited && running
      // An unknown marker or composition is refused before anything is touched.
      ensures !(old(journal).Changing? && old(journal).backup == b && old(RecoverableNow()))
              ==> !ok && journal == old(journal) && running == old(running) && Current() == old(Current()) && db == old(db) && files == old(files)
      ensures calm && old(journal).Changing? && old(journal).backup == b && old(RecoverableNow()) ==> ok
    {
      if !journal.Changing? || journal.backup != b || !RecoverableNow() {
        return false, marker;
      }
      edited := false;
      var snapshot := backups[b];
      saved := snapshot.marker;
      ok := Restore(calm, snapshot);
    }

    /** The restore after its check: everything from the snapshot, then the switch back. */
    method Restore(calm: bool, snapshot: Snapshot) returns (ok: bool)
      requires Safe() && journal.Changing? && !edited && snapshot == backups[journal.backup]
      modifies this`journal, this`marker, this`compose, this`app, this`images, this`db, this`files, this`running, this`draining
      ensures Safe() && SameTransaction() && journal.Changing?
      ensures ok ==> NothingLost() && Current() == before && running
      ensures calm ==> ok
    {
      ok := StopApplication(calm);
      if !ok { return; }
      ok := RestoreMetadata(calm, snapshot);
      if !ok { return; }
      ok := RestoreData(calm, snapshot);
      if !ok { return; }
      ok := RestoreProgram(calm, snapshot);
      if !ok { return; }
      ok := Activate(calm, snapshot.marker);
    }

    /** The composition and the marker, one file at a time. */
    method RestoreMetadata(calm: bool, snapshot: Snapshot) returns (ok: bool)
      requires !running && Safe() && journal.Changing? && !edited && snapshot == backups[journal.backup]
      modifies this`marker, this`compose
      ensures Safe()
      ensures ok ==> marker == before.marker && compose == before.compose
      ensures calm ==> ok
    {
      var bad := false;
      bad := Fault(calm);
      if bad { return false; }
      compose := snapshot.compose;
      bad := Fault(calm);
      if bad { return false; }
      marker := snapshot.marker;
      return true;
    }

    /** The database, then the state directory: removed first, copied back second. */
    method RestoreData(calm: bool, snapshot: Snapshot) returns (ok: bool)
      requires !running && Safe() && journal.Changing? && !edited && snapshot == backups[journal.backup]
      modifies this`db, this`files
      ensures Safe()
      ensures ok ==> NothingLost()
      ensures calm ==> ok
    {
      var bad := false;
      bad := Fault(calm);
      if bad { return false; }
      db := {};
      bad := Fault(calm);
      if bad { return false; }
      db := snapshot.db;
      bad := Fault(calm);
      if bad { return false; }
      files := {};
      bad := Fault(calm);
      if bad { return false; }
      files := snapshot.files;
      return true;
    }

    method RestoreProgram(calm: bool, snapshot: Snapshot) returns (ok: bool)
      requires !running && Safe() && journal.Changing? && !edited && snapshot == backups[journal.backup]
      modifies this`app, this`images
      ensures Safe()
      ensures ok ==> app == before.app && images == before.images
      ensures calm ==> ok
    {
      var bad := false;
      bad := Fault(calm);
      if bad { return false; }
      app := Torn;
      bad := Fault(calm);
      if bad { return false; }
      app := snapshot.app;
      bad := Fault(calm);
      if bad { return false; }
      images := snapshot.images;
      return true;
    }

    /** complete_gate: from here on, new writes are let in, and no snapshot is restored any more. */
    method CompleteGate(calm: bool, target: nat) returns (ok: bool)
      requires Safe() && !journal.Clear? && gate && NothingLost()
      requires !edited ==> Finished() && target == marker.version && journal.id == marker.id
      modifies this`journal, this`gate, this`db, this`files, this`ackedDb, this`ackedFiles
      ensures Safe() && SameTransaction() && AcknowledgedStays() && Current() == old(Current())
      ensures journal == old(journal) || (journal.Committed? && journal.target == target) || journal.Clear?
      ensures ok ==> journal.Clear?
      ensures calm ==> ok
    {
      ok := WriteJournal(calm, Committed(journal.id, target));
      if !ok { return; }
      ok := FinishGate(calm);
      Users();
      if !ok { return; }
      ok := WriteJournal(calm, Clear);
    }

    // ------------------------------------------------------------------ transaction

    /** Stop, back up, and record the snapshot as the way back. */
    method StopAndBackup(calm: bool, b: BackupId) returns (ok: bool, backedUp: bool)
      requires Safe() && journal.Stopping? && !edited && gate && Consistent(planned) && planned.marker.id == marker.id
      modifies this
      ensures Safe() && AcknowledgedStays() && before == old(before) && planned == old(planned) && Current() == old(Current())
      ensures gate && !edited && (journal.Stopping? || journal.Changing?)
      ensures journal.Changing? ==> journal.backup == b && backedUp
      ensures ok ==> journal.Changing? && NothingLost() && !running
      ensures calm ==> ok
    {
      backedUp := false;
      Users();
      ok := StopApplication(calm);
      Users();
      if !ok { return; }
      ok, backedUp := RecordBackup(calm, b);
    }

    /** Under a stopped panel: the snapshot, then its record as the way back. */
    method RecordBackup(calm: bool, b: BackupId) returns (ok: bool, backedUp: bool)
      requires Safe() && journal.Stopping? && !edited && gate && !running && Consistent(planned) && planned.marker.id == marker.id
      modifies this`journal, this`backups
      ensures Safe() && gate && (journal.Stopping? || journal.Changing?)
      ensures journal.Changing? ==> journal.backup == b && backedUp
      ensures ok ==> journal.Changing?
      ensures calm ==> ok
    {
      backedUp := false;
      ok := BackupCurrent(calm, b);
      if !ok { return; }
      backedUp := true;
      ok := WriteJournal(calm, Changing(marker.id, b, None));
    }

    /** The body of the transaction after the freeze: stop, back up, change, check, commit. */
    method ChangeAndCommit(calm: bool, b: BackupId, target: Marker) returns (ok: bool, backedUp: bool)
      requires Safe() && journal.Stopping? && !edited && gate && planned == Release(target, target.compose, Whole(target.version), target.images)
      requires target.id == marker.id
      modifies this
      ensures Safe() && AcknowledgedStays() && before == old(before) && planned == old(planned)
      ensures ok ==> journal.Clear? && Current() == planned && running
      ensures journal.Clear? ==> Current() == planned
      ensures journal.Stopping? || journal.Changing? ==> gate
      ensures journal.Changing? ==> journal.backup == b && backedUp
      ensures !edited
      ensures calm ==> ok
    {
      ok, backedUp := StopAndBackup(calm, b);
      if !ok { return; }
      ok := Install(calm, target);
      if !ok { return; }
      ok := CompleteGate(calm, target.version);
    }

    /** The change itself, under a durable snapshot: program, image list, then the switch, then the last
        checks before the irreversible commit. */
    method Install(calm: bool, target: Marker) returns (ok: bool)
      requires Safe() && journal.Changing? && !edited && NothingLost() && !running
      requires planned == Release(target, target.compose, Whole(target.version), target.images)
      requires marker == before.marker && compose == before.compose
      modifies this`app, this`images, this`journal, this`marker, this`compose, this`running, this`draining, this`db, this`files
      ensures Safe() && SameTransaction() && journal.Changing? && journal.backup == old(journal).backup && gate
      ensures ok ==> NothingLost() && Current() == planned && running
      ensures calm ==> ok
    {
      var bad := false;
      ok := CopyApplication(calm, target.version);
      if !ok { return; }
      images := target.images;
      bad := Fault(calm);
      if bad { return false; }
      ok := Activate(calm, target);
      if !ok { return; }
      // load, health and validate_runtime once more
      if !Consistent(Current()) || marker != target {
        return false;
      }
      bad := Fault(calm);
      if bad { return false; }
    }

    /** The exception handler: nothing after a commit, else the snapshot if there is one, else a plain restart. */
    method HandleFailure(calm: bool, b: BackupId, backedUp: bool)
      requires Safe() && (journal.Stopping? || journal.Changing? ==> gate)
      requires journal.Changing? ==> backedUp && journal.backup == b
      requires !edited && (journal.Clear? ==> Current() == planned)
      modifies this
      ensures Safe() && AcknowledgedStays() && before == old(before) && planned == old(planned)
      ensures journal.Clear? ==> Current() == before || Current() == planned
      // Undisturbed, it brings the old installation back, running and open: from the snapshot, or, if
      // there is none yet, as it stands.
      ensures calm && (old(journal).Changing? || (old(journal).Stopping? && !backedUp))
              ==> journal.Clear? && !gate && running && Current() == before && NothingLost()
      // A snapshot that the journal does not know yet is refused, and the freeze stays for recovery.
      ensures old(journal).Stopping? && backedUp
              ==> journal == old(journal) && gate && Current() == old(Current()) && running == old(running) && db == old(db) && files == old(files)
      // After the commit nothing is done.
      ensures old(journal).Committed? || old(journal).Clear?
              ==> journal == old(journal) && gate == old(gate) && Current() == old(Current()) && db == old(db) && files == old(files)
    {
      if journal.Committed? || journal.Clear? {
        return;
      }
      if backedUp {
        var restored, saved := RestoreSnapshot(calm, b);
        if restored {
          var done := CompleteGate(calm, saved.version);
        }
      } else {
        var started := StartApplication(calm);
        if !started { return; }
        var healthy := Health(calm);
        if !healthy { return; }
        var done := CompleteGate(calm, marker.version);
      }
    }

    /** The part of the transaction that its handler covers. */
    method Attempt(calm: bool, undo: bool, b: BackupId, target: Marker) returns (ok: bool, raised: bool, backedUp: bool)
      requires Safe() && journal.Stopping? && !edited && gate && planned == Release(target, target.compose, Whole(target.version), target.images)
      requires target.id == marker.id
      modifies this
      ensures Safe() && AcknowledgedStays() && before == old(before) && planned == old(planned)
      ensures ok ==> journal.Clear? && Current() == planned && running
      ensures journal.Clear? ==> Current() == before || Current() == planned
      ensures raised && undo && journal.Clear? && Current() != planned ==> !gate && running && NothingLost()
      ensures raised && undo && !journal.Clear?
              ==> journal.Committed? || (journal.Stopping? && backedUp && gate && Current() == before && NothingLost())
      ensures raised ==> !ok
      ensures calm ==> ok
    {
      raised := false;
      ok, backedUp := ChangeAndCommit(calm, b, target);
      if ok { return; }
      // A crash ends here; an exception enters the handler.
      var bad := false;
      bad := Fault(calm);
      if bad { return; }
      raised := true;
      HandleFailure(undo, b, backedUp);
    }

    /** transaction: on an exception the handler restores or restarts; after a crash nobody does. `calm` says
        that nothing fails, `undo` that nothing fails in the handler; `raised` that an exception ended it
        after the freeze was acquired, and `backedUp` that a snapshot had been made. */
    method Transaction(calm: bool, undo: bool, b: BackupId, target: Marker) returns (ok: bool, raised: bool, backedUp: bool)
      requires Safe() && b !in backups && target.id == marker.id
      modifies this
      ensures Safe() && AcknowledgedStays()
      ensures ok ==> journal.Clear? && Current() == Release(target, target.compose, Whole(target.version), target.images) && running
      // An open transaction or a freeze is never overwritten.
      ensures !old(journal).Clear? || old(gate) ==> !ok && journal == old(journal) && gate == old(gate) && Current() == old(Current())
      // Cleared: the old installation or the new one, as a whole.
      ensures journal.Clear? ==> Current() == old(Current()) || Current() == Release(target, target.compose, Whole(target.version), target.images)
      // An exception is undone: the old installation is back, running and open, unless the commit was
      // recorded, or nothing was changed yet and the snapshot just made is not in the journal.
      ensures raised && undo && journal.Clear? && Current() != planned
              ==> !gate && running && Current() == old(Current()) && NothingLost()
      ensures raised && undo && !journal.Clear?
              ==> journal.Committed? || (journal.Stopping? && backedUp && gate && Current() == old(Current()) && NothingLost())
      ensures raised ==> !ok && planned == Release(target, target.compose, Whole(target.version), target.images)
      // Undisturbed, from a consistent and idle installation, it succeeds.
      ensures calm && old(journal).Clear? && !old(gate) && old(Consistent(Current())) ==> ok
    {
      raised, backedUp := false, false;
      Users();
      if !Consistent(Current()) || !journal.Clear? || gate {
        return false, false, false;
      }
      before, planned, edited := Current(), Release(target, target.compose, Whole(target.version), target.images), false;
      ok := WriteJournal(calm, Stopping(marker.id, marker.version));
      Users();
      if !ok { return; }
      ok := BeginGate(calm);
      Users();
      if !ok { return; }
      ok, raised, backedUp := Attempt(calm, undo, b, target);
    }

    // ------------------------------------------------------------------ recovery

    method Recover(calm: bool) returns (ok: bool)
      requires Safe()
      modifies this
      ensures Safe() && AcknowledgedStays()
      // When recovery clears the journal, everything is the old installation or everything is the new one,
      // unless it was edited by hand before the snapshot or after the commit.
      ensures journal.Clear? && !old(journal).Clear? && (old(journal).Changing? || !old(edited)) ==> Finished() && SameTransaction()
      // After the commit, an edit that leaves the pieces in disagreement is refused.
      ensures journal.Clear? && old(journal).Committed? ==> Consistent(Current()) && marker.version == old(journal).target
      // After the commit record no snapshot is restored: the installation stays and no data goes away.
      ensures old(journal).Committed? ==> Current() == old(Current()) && old(db) <= db && old(files) <= files
      // An unknown edit is refused before any service is stopped.
      ensures old(journal).Changing? && !old(RecoverableNow())
              ==> !ok && journal == old(journal) && running == old(running) && Current() == old(Current()) && db == old(db) && files == old(files)
      ensures ok ==> journal.Clear? && !gate
      // It clears the journal only over a running panel, and refuses a transaction of another installation.
      ensures journal.Clear? && !old(journal).Clear? ==> running
      ensures !old(journal).Clear? && old(journal).id != old(marker).id
              ==> !ok && journal == old(journal) && gate == old(gate) && running == old(running) && Current() == old(Current())
      // Undisturbed, it finishes: always before the commit unless there is an unknown edit, and afterwards if the panel is up.
      // An edit in another stage may stop it.
      ensures calm && (old(journal).Changing? ==> old(RecoverableNow())) && (old(journal).Committed? ==> old(running)) &&
              (old(edited) ==> old(journal).Clear? || old(journal).Changing?)
              ==> ok
    {
      Users();
      if journal.Clear? {
        return true;
      }
      if journal.id != marker.id {
        return false;
      }
      if !journal.Committed? && !gate {
        ok := BeginGate(calm);
        Users();
        if !ok { return; }
      }
      match journal
      case Committed(_, target) => ok := RecoverCommitted(calm);
      case Changing(_, b, _) => ok := RecoverChanging(calm, b);
      case Stopping(_, previous) => ok := RecoverStopping(calm);
    }

    /** A committed version only has its freeze released. */
    method RecoverCommitted(calm: bool) returns (ok: bool)
      requires Safe() && journal.Committed?
      modifies this`journal, this`gate, this`db, this`files, this`ackedDb, this`ackedFiles
      ensures Safe() && AcknowledgedStays()
      ensures Current() == old(Current()) && old(db) <= db && old(files) <= files
      ensures ok ==> journal.Clear?
      ensures journal.Clear? ==> Consistent(Current()) && marker.version == old(journal).target && SameTransaction() && running
      ensures calm && !edited && old(running) ==> ok
    {
      if !Consistent(Current()) || marker.version != journal.target {
        return false;
      }
      ok := Health(calm);
      if !ok { return; }
      ok := FinishGate(calm);
      Users();
      if !ok { return; }
      ok := WriteJournal(calm, Clear);
    }

    method RecoverChanging(calm: bool, b: BackupId) returns (ok: bool)
      requires Safe() && journal.Changing? && journal.backup == b
      modifies this
      ensures Safe() && AcknowledgedStays() && SameTransaction()
      ensures journal.Clear? ==> Current() == before && running
      ensures !old(RecoverableNow())
              ==> !ok && journal == old(journal) && running == old(running) && Current() == old(Current()) && db == old(db) && files == old(files)
      ensures ok ==> journal.Clear?
      ensures calm && old(RecoverableNow()) ==> ok
    {
      var saved;
      ok, saved := RestoreSnapshot(calm, b);
      if !ok { return; }
      ok := CompleteGate(calm, saved.version);
    }

    method RecoverStopping(calm: bool) returns (ok: bool)
      requires Safe() && journal.Stopping? && gate && journal.id == marker.id
      modifies this
      ensures Safe() && AcknowledgedStays() && SameTransaction()
      ensures Current() == old(Current()) && edited == old(edited)
      ensures journal.Clear? ==> running && compose == marker.compose
      ensures ok ==> journal.Clear?
      ensures calm && !edited ==> ok
    {
      if compose != marker.compose {
        return false;
      }
      ok := StartApplication(calm);
      Users();
      if !ok { return; }
      ok := Health(calm);
      if !ok { return; }
      ok := CompleteGate(calm, marker.version);
    }

    /** Power loss, or a container that is restarted on its own. */
    method Reboot()
      requires Safe()
      modifies this`running, this`draining
      ensures Safe()
    {
      running, draining := *, false;
    }

    /** Any history of upgrades, recoveries, crashes, edits by hand and traffic: whenever the freeze is
        absent, every acknowledged write is present, and no acknowledgement is ever taken back. */
    method Life(steps: nat)
      requires Safe()
      modifies this
      ensures Safe() && AcknowledgedStays()
      ensures !gate ==> NothingLost()
      ensures journal.Clear? ==> !gate
      ensures journal.Changing? && !edited ==> journal.backup in backups && RecoverableNow()
    {
      for i := 0 to steps
        invariant Safe() && AcknowledgedStays()
      {
        var calm: bool := *;
        var undo: bool := *;
        if {
          case true => Users();
          case true => Reboot();
          case true =>
            var m: Marker := *;
            var c: nat := *;
            Edit(m, c);
          case true =>
            var b: BackupId := *;
            var target: Marker := *;
            if b !in backups && target.id == marker.id {
              var ok, raised, backedUp := Transaction(calm, undo, b, target);
            }
          case true =>
            var ok := Recover(calm);
        }
      }
    }
  }
}
