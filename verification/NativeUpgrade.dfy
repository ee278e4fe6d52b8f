/** The upgrade and recovery of a native installation behind the private gateway: the same freeze as for
    Docker, another journal, and a handler that restores without looking at the journal. */
module NativeUpgrade {
  type Version = nat
  type Write = nat
  type BackupId = nat

  /** The version that the program reports, and whether all of it is in place. */
  datatype App = App(version: Version, whole: bool)

  datatype Snapshot = Snapshot(app: App, files: set<Write>, db: set<Write>)

  datatype Journal =
    | Clear
    | Preparing(previous: Version)
    | Changing(backup: BackupId, target: Version)
    | Healthy(backup: BackupId, target: Version)
    | Committed(target: Version)

  datatype Instr =
    | Record(journal: Journal)
    | BeginGate
    | FinishGate
    | Stop
    | Backup(b: BackupId)
    | Install(v: Version)
    | CopyFiles(b: BackupId)
    | LoadDb(b: BackupId)
    | BringUp(v: Version)
    | Health(v: Version)
    | Check

  /** transaction; its handler's two ways back, which recovery shares; recovery of a healthy and of a
      committed upgrade. */
  datatype Kind =
    | Upgrading(target: Version, backup: BackupId, previous: Version)
    | Restoring(from: BackupId, v: Version)
    | Restarting(v: Version)
    | Resuming(v: Version)
    | Finishing(v: Version)

  function Program(k: Kind): seq<Instr>
  {
    match k
    case Upgrading(t, b, p) =>
      [Record(Preparing(p)), BeginGate, Stop, Backup(b), Record(Changing(b, t)), Install(t), BringUp(t),
       Record(Healthy(b, t)), Check, Record(Committed(t)), FinishGate, Record(Clear)]
    case Restoring(b, v) =>
      [Check, Stop, CopyFiles(b), Install(v), LoadDb(b), BringUp(v), Record(Committed(v)), FinishGate, Record(Clear)]
    case Restarting(v) => [BringUp(v), Record(Committed(v)), FinishGate, Record(Clear)]
    case Resuming(v) => [Health(v), Check, Record(Committed(v)), FinishGate, Record(Clear)]
    case Finishing(v) => [Health(v), FinishGate, Record(Clear)]
  }

  datatype Task = Idle | Task(kind: Kind, at: nat)

  /** What is on the disk, the services, the updater's program, and the acknowledged writes. */
  datatype State = State(journal: Journal, gate: bool, app: App, files: set<Write>, db: set<Write>,
                         backups: map<BackupId, Snapshot>, running: bool, draining: bool, task: Task,
                         ackedFiles: set<Write>, ackedDb: set<Write>)

  datatype Event =
    // Requests are served while the panel is up and not frozen, and those already inside finish.
    | Users(files: set<Write>, db: set<Write>)
    | Upgrade(target: Version, b: BackupId)
    | Recover
    // The next instruction; one that fails may have taken effect, or part of it.
    | Turn(ok: bool, late: bool, files: set<Write>, db: set<Write>)
    // The updater dies, alone or with the whole machine.
    | Crash(power: bool, up: bool)

  predicate Possible(s: State, i: Instr)
  {
    match i
    case BeginGate => !s.gate
    case BringUp(v) => s.app.version == v
    case Health(v) => s.running && s.app.version == v
    case _ => true
  }

  /** `done` or in part. Starting may migrate and add records, but drops none. */
  function Effect(s: State, i: Instr, done: bool, f: set<Write>, d: set<Write>): State
  {
    match i
    case Record(j) => s.(journal := j)
    case BeginGate => if s.gate then s else s.(gate := true, draining := true)
    case FinishGate => s.(gate := false)
    case Stop => s.(running := false, draining := false)
    case Backup(b) => if done then s.(backups := s.backups[b := Snapshot(s.app, s.files, s.db)]) else s
    case Install(v) => s.(app := App(v, done))
    case CopyFiles(b) => if b in s.backups then s.(files := if done then s.backups[b].files else f * s.backups[b].files) else s
    case LoadDb(b) => if b in s.backups then s.(db := if done then s.backups[b].db else d * s.backups[b].db) else s
    case BringUp(_) => s.(files := s.files + f, db := s.db + d, running := true, draining := s.running && s.draining)
    case Health(_) => s
    case Check => s
  }

  /** Where an exception leads: nowhere, except in a transaction between the freeze and the commit. */
  function AfterFailure(s: State, k: Kind, at: nat): Task
  {
    if !k.Upgrading? || at <= 1 || at > 9 then Idle
    else if at <= 3 then Task(Restarting(s.app.version), 0)
    else if k.backup in s.backups then Task(Restoring(k.backup, s.backups[k.backup].app.version), 0)
    else Idle
  }

  function TurnTask(s: State, ok: bool, late: bool, f: set<Write>, d: set<Write>): State
    requires s.task.Task? && s.task.at < |Program(s.task.kind)|
  {
    var k, at := s.task.kind, s.task.at;
    var i := Program(k)[at];
    if ok && Possible(s, i)
    then Effect(s, i, true, f, d).(task := if at + 1 == |Program(k)| then Idle else Task(k, at + 1))
    else
      var t := if late then Effect(s, i, false, f, d) else s;
      t.(task := AfterFailure(t, k, at))
  }

  function Recovery(s: State): Task
  {
    match s.journal
    case Clear => Idle
    case Preparing(p) => Task(Restarting(p), 0)
    case Changing(b, _) => if b in s.backups then Task(Restoring(b, s.backups[b].app.version), 0) else Idle
    case Healthy(_, t) => Task(Resuming(t), 0)
    case Committed(t) => Task(Finishing(t), 0)
  }

  function Step(s: State, e: Event): State
  {
    match e
    case Users(f, d) =>
      if s.running && (!s.gate || s.draining)
      then s.(files := s.files + f, db := s.db + d, ackedFiles := s.ackedFiles + f, ackedDb := s.ackedDb + d)
      else s
    case Upgrade(t, b) =>
      if s.task.Idle? && s.journal.Clear? && !s.gate && b !in s.backups then s.(task := Task(Upgrading(t, b, s.app.version), 0)) else s
    case Recover => if s.task.Idle? then s.(task := Recovery(s)) else s
    case Turn(ok, late, f, d) => if s.task.Task? && s.task.at < |Program(s.task.kind)| then TurnTask(s, ok, late, f, d) else s
    case Crash(power, up) => if power then s.(task := Idle, running := up, draining := false) else s.(task := Idle)
  }

  predicate Restores(t: Task) { t.Task? && t.kind.Restoring? }

  /** The handler is about to restore the backup, and the journal on the disk does not say so. */
  predicate Exposed(s: State, e: Event)
  {
    var t := Step(s, e);
    s.task.Task? && s.task.kind.Upgrading? && Restores(t.task) && !t.journal.Changing?
  }

  ghost predicate Allowed(s: State, e: Event) { !Exposed(s, e) }

  /** Nothing acknowledged is missing. */
  predicate Kept(s: State) { s.ackedFiles <= s.files && s.ackedDb <= s.db }

  /** A running installation; it holds something, at least its administrator. */
  ghost predicate Init(s: State)
  {
    && s.journal.Clear? && !s.gate && s.app.whole && Kept(s) && s.task.Idle? && s.ackedFiles != {}
  }

  ghost predicate Reaches(s: State, es: seq<Event>, t: State)
    decreases |es|
  {
    if es == [] then s == t else Allowed(s, es[0]) && Reaches(Step(s, es[0]), es[1..], t)
  }

  // ------------------------------------------------------------------ invariant

  /** A snapshot that holds every acknowledged write and a whole program. */
  predicate Covers(s: State, b: BackupId)
  {
    && b in s.backups && s.backups[b].app.whole
    && s.ackedFiles <= s.backups[b].files && s.ackedDb <= s.backups[b].db
  }

  predicate Installed(s: State, v: Version) { Kept(s) && s.app == App(v, true) }

  /** What holds of the disk at any time, whatever was interrupted. */
  predicate JournalFine(s: State)
  {
    match s.journal
    case Clear => !s.gate && Kept(s) && s.app.whole && (s.task.Idle? || s.task.at == 0)
    case Preparing(p) => Installed(s, p)
    case Changing(b, _) => s.gate && !(s.running && s.draining) && Covers(s, b)
    case Healthy(_, t) => Installed(s, t)
    case Committed(t) => Installed(s, t)
  }

  predicate UpgradingFine(s: State, t: Version, b: BackupId, p: Version, at: nat)
  {
    && (at == 0 ==> s.journal.Clear? && s.app.version == p)
    && (1 <= at <= 4 ==> s.journal == Preparing(p))
    && (2 <= at <= 10 ==> s.gate)
    && (3 <= at <= 6 ==> !s.running)
    && (at == 4 ==> Covers(s, b))
    && (4 <= at <= 9 ==> b in s.backups && s.backups[b].app.version == p)
    && (5 <= at <= 7 ==> s.journal == Changing(b, t) && Kept(s))
    && (6 <= at <= 7 ==> s.app == App(t, true))
    && (8 <= at <= 9 ==> s.journal == Healthy(b, t))
    && (10 <= at ==> s.journal == Committed(t))
    && (11 <= at ==> !s.gate)
    && (7 <= at ==> s.running)
  }

  predicate RestoringFine(s: State, b: BackupId, v: Version, at: nat)
  {
    && (at <= 6 ==> s.journal.Changing? && s.journal.backup == b && b in s.backups && s.backups[b].app.version == v)
    && (3 <= at <= 6 ==> s.ackedFiles <= s.files)
    && (4 <= at <= 6 ==> s.app == App(v, true))
    && (5 <= at <= 6 ==> Kept(s))
    && (7 <= at ==> s.journal == Committed(v))
    && (8 <= at ==> !s.gate)
    && (2 <= at <= 5 ==> !s.running) && (6 <= at ==> s.running)
  }

  /** What the program knows at its place. */
  predicate TaskFine(s: State)
  {
    s.task.Task? ==>
      var at := s.task.at;
      && at < |Program(s.task.kind)|
      && match s.task.kind
         case Upgrading(t, b, p) => UpgradingFine(s, t, b, p, at)
         case Restoring(b, v) => RestoringFine(s, b, v, at)
         case Restarting(v) =>
           (at <= 1 ==> s.journal == Preparing(v)) && (2 <= at ==> s.journal == Committed(v)) && (3 <= at ==> !s.gate) && (1 <= at ==> s.running)
         case Resuming(v) =>
           && (at <= 2 ==> s.journal.Healthy? && s.journal.target == v)
           && (3 <= at ==> s.journal == Committed(v)) && (4 <= at ==> !s.gate) && (1 <= at ==> s.running)
         case Finishing(v) => s.journal == Committed(v) && (2 <= at ==> !s.gate) && (1 <= at ==> s.running)
  }

  ghost predicate Inv(s: State) { JournalFine(s) && TaskFine(s) && s.ackedFiles != {} }

  /** `t` is `s` after the instruction at hand. */
  predicate Advances(s: State, i: Instr, f: set<Write>, d: set<Write>, t: State)
  {
    && s.task.Task? && s.task.at < |Program(s.task.kind)| && i == Program(s.task.kind)[s.task.at] && Possible(s, i)
    && t == Effect(s, i, true, f, d).(task := if s.task.at + 1 == |Program(s.task.kind)| then Idle else Task(s.task.kind, s.task.at + 1))
  }

  lemma UpgradingBegins(s: State, i: Instr, f: set<Write>, d: set<Write>, t: State)
    requires Inv(s) && Advances(s, i, f, d, t) && s.task.kind.Upgrading? && s.task.at <= 3
    ensures Inv(t)
  {
  }

  lemma UpgradingChanges(s: State, i: Instr, f: set<Write>, d: set<Write>, t: State)
    requires Inv(s) && Advances(s, i, f, d, t) && s.task.kind.Upgrading? && 4 <= s.task.at <= 7
    ensures Inv(t)
  {
  }

  lemma UpgradingEnds(s: State, i: Instr, f: set<Write>, d: set<Write>, t: State)
    requires Inv(s) && Advances(s, i, f, d, t) && s.task.kind.Upgrading? && 8 <= s.task.at
    ensures Inv(t)
  {
  }

  lemma RestoringGoes(s: State, i: Instr, f: set<Write>, d: set<Write>, t: State)
    requires Inv(s) && Advances(s, i, f, d, t) && s.task.kind.Restoring? && s.task.at <= 3
    ensures Inv(t)
  {
  }

  lemma RestoringEnds(s: State, i: Instr, f: set<Write>, d: set<Write>, t: State)
    requires Inv(s) && Advances(s, i, f, d, t) && s.task.kind.Restoring? && 4 <= s.task.at
    ensures Inv(t)
  {
  }

  lemma RestGoes(s: State, i: Instr, f: set<Write>, d: set<Write>, t: State)
    requires Inv(s) && Advances(s, i, f, d, t) && !s.task.kind.Upgrading? && !s.task.kind.Restoring?
    ensures Inv(t)
  {
  }

  lemma UpgradingFails(s: State, i: Instr, f: set<Write>, d: set<Write>, t: State)
    requires Inv(s) && s.task.Task? && s.task.kind.Upgrading? && i == Program(s.task.kind)[s.task.at]
    requires t == s || t == Effect(s, i, false, f, d)
    requires Restores(AfterFailure(t, s.task.kind, s.task.at)) ==> t.journal.Changing?
    ensures Inv(t.(task := AfterFailure(t, s.task.kind, s.task.at)))
  {
  }

  lemma RestoringFails(s: State, i: Instr, f: set<Write>, d: set<Write>, t: State)
    requires Inv(s) && s.task.Task? && s.task.kind.Restoring? && i == Program(s.task.kind)[s.task.at]
    requires t == s || t == Effect(s, i, false, f, d)
    ensures Inv(t.(task := Idle))
  {
  }

  lemma RestFails(s: State, i: Instr, f: set<Write>, d: set<Write>, t: State)
    requires Inv(s) && s.task.Task? && !s.task.kind.Upgrading? && !s.task.kind.Restoring? && i == Program(s.task.kind)[s.task.at]
    requires t == s || t == Effect(s, i, false, f, d)
    ensures Inv(t.(task := Idle))
  {
  }

  lemma QuietKeepsInv(s: State, e: Event)
    requires Inv(s) && !e.Turn?
    ensures Inv(Step(s, e))
  {
  }

  lemma AdvanceKeepsInv(s: State, i: Instr, f: set<Write>, d: set<Write>, t: State)
    requires Inv(s) && Advances(s, i, f, d, t)
    ensures Inv(t)
  {
    match s.task.kind
    case Upgrading(_, _, _) =>
      if s.task.at <= 3 {
        UpgradingBegins(s, i, f, d, t);
      } else if s.task.at <= 7 {
        UpgradingChanges(s, i, f, d, t);
      } else {
        UpgradingEnds(s, i, f, d, t);
      }
    case Restoring(_, _) =>
      if s.task.at <= 3 {
        RestoringGoes(s, i, f, d, t);
      } else {
        RestoringEnds(s, i, f, d, t);
      }
    case _ => RestGoes(s, i, f, d, t);
  }

  lemma FailureKeepsInv(s: State, i: Instr, f: set<Write>, d: set<Write>, t: State)
    requires Inv(s) && s.task.Task? && i == Program(s.task.kind)[s.task.at]
    requires t == s || t == Effect(s, i, false, f, d)
    requires s.task.kind.Upgrading? && Restores(AfterFailure(t, s.task.kind, s.task.at)) ==> t.journal.Changing?
    ensures Inv(t.(task := AfterFailure(t, s.task.kind, s.task.at)))
  {
    match s.task.kind
    case Upgrading(_, _, _) => UpgradingFails(s, i, f, d, t);
    case Restoring(_, _) => RestoringFails(s, i, f, d, t);
    case _ => RestFails(s, i, f, d, t);
  }

  lemma StepKeepsInv(s: State, e: Event)
    requires Inv(s) && Allowed(s, e)
    ensures Inv(Step(s, e))
  {
    if !e.Turn? {
      QuietKeepsInv(s, e);
    } else if s.task.Task? {
      var i, t := Program(s.task.kind)[s.task.at], Step(s, e);
      if e.ok && Possible(s, i) {
        AdvanceKeepsInv(s, i, e.files, e.db, t);
      } else {
        FailureKeepsInv(s, i, e.files, e.db, if e.late then Effect(s, i, false, e.files, e.db) else s);
      }
    }
  }

  lemma {:induction false} RunKeepsInv(s: State, es: seq<Event>, t: State)
    requires Inv(s) && Reaches(s, es, t)
    ensures Inv(t)
    decreases |es|
  {
    if es != [] {
      StepKeepsInv(s, es[0]);
      RunKeepsInv(Step(s, es[0]), es[1..], t);
    }
  }

  /** In every run without an exposed restore: whenever the freeze is absent nothing acknowledged is
      missing, and a finished transaction or recovery leaves one version as a whole. */
  lemma NothingIsLost(s: State, es: seq<Event>, t: State)
    requires Init(s) && Reaches(s, es, t)
    ensures !t.gate ==> Kept(t)
    ensures t.journal.Clear? ==> !t.gate && t.app.whole
  {
    RunKeepsInv(s, es, t);
  }

  /** Data and program are copied only while the panel is stopped. */
  lemma CopiedWhileStopped(s: State, es: seq<Event>, t: State)
    requires Init(s) && Reaches(s, es, t) && t.task.Task?
    ensures t.task.at < |Program(t.task.kind)|
    ensures var i := Program(t.task.kind)[t.task.at];
            i.Backup? || i.Install? || i.CopyFiles? || i.LoadDb? ==> !t.running
  {
    RunKeepsInv(s, es, t);
  }

  // ------------------------------------------------------------------ after the commit

  /** Committed, or finished and not yet begun again. */
  predicate Settled(s: State)
  {
    s.journal.Committed? || (s.journal.Clear? && s.task.Idle?)
  }

  lemma CommittedRuns(s: State)
    requires Inv(s) && s.journal.Committed? && s.task.Task?
    ensures var i := Program(s.task.kind)[s.task.at];
            i.Health? || i.FinishGate? || (i == Record(Clear) && s.task.at + 1 == |Program(s.task.kind)|)
    ensures forall t :: AfterFailure(t, s.task.kind, s.task.at).Idle?
  {
  }

  lemma SettledStep(s: State, e: Event)
    requires Inv(s) && Settled(s) && Allowed(s, e) && !e.Upgrade?
    ensures Settled(Step(s, e)) && s.files <= Step(s, e).files && s.db <= Step(s, e).db && s.app == Step(s, e).app
  {
    if s.journal.Committed? && s.task.Task? {
      CommittedRuns(s);
    }
  }

  lemma {:induction false} SettledRun(s: State, es: seq<Event>, t: State)
    requires Inv(s) && Settled(s) && Reaches(s, es, t) && forall i :: 0 <= i < |es| ==> !es[i].Upgrade?
    ensures s.files <= t.files && s.db <= t.db && s.app == t.app
    decreases |es|
  {
    if es != [] {
      SettledStep(s, es[0]);
      StepKeepsInv(s, es[0]);
      SettledRun(Step(s, es[0]), es[1..], t);
    }
  }

  /** Once the commit is recorded, no data goes away and the program stays, however often the release of
      the freeze fails or is interrupted, until somebody starts another upgrade. */
  lemma NothingIsRestored(s: State, es: seq<Event>, t: State, fs: seq<Event>, w: State)
    requires Init(s) && Reaches(s, es, t) && t.journal.Committed?
    requires Reaches(t, fs, w) && forall i :: 0 <= i < |fs| ==> !fs[i].Upgrade?
    ensures t.files <= w.files && t.db <= w.db && t.app == w.app
  {
    RunKeepsInv(s, es, t);
    SettledRun(t, fs, w);
  }

  // ------------------------------------------------------------------ an exposed restore

  /** Some continuation releases the freeze while something acknowledged is missing. */
  ghost predicate LosesLater(s: State)
  {
    exists es, t :: Reaches(s, es, t) && !t.gate && !Kept(t)
  }

  lemma {:induction false} Extend(s: State, es: seq<Event>, t: State, e: Event)
    requires Reaches(s, es, t) && Allowed(t, e)
    ensures Reaches(s, es + [e], Step(t, e))
    decreases |es|
  {
    if es == [] {
      assert es + [e] == [e] && [e][1..] == [];
      assert Reaches(Step(t, e), [], Step(t, e));
    } else {
      Extend(Step(s, es[0]), es[1..], t, e);
      assert (es + [e])[1..] == es[1..] + [e];
    }
  }

  /** A program goes on by one instruction. */
  lemma GoOn(s: State, es: seq<Event>, t: State, i: Instr) returns (fs: seq<Event>, u: State)
    requires Reaches(s, es, t) && t.task.Task? && t.task.at < |Program(t.task.kind)|
    requires i == Program(t.task.kind)[t.task.at] && Possible(t, i)
    ensures Reaches(s, fs, u) && Advances(t, i, {}, {}, u)
  {
    var e := Turn(true, false, {}, {});
    Extend(s, es, t, e);
    fs, u := es + [e], Step(t, e);
  }

  /** What the journal says of the program, whoever runs. */
  predicate Believed(j: Journal, app: App)
  {
    match j
    case Preparing(p) => app == App(p, true)
    case Healthy(_, t) => app == App(t, true)
    case Committed(t) => app == App(t, true)
    case _ => false
  }

  predicate Lacks(s: State, w: Write) { w in s.ackedFiles && w !in s.files }

  /** The restore is interrupted while it copies the files, and the machine starts again. */
  lemma Interrupted(u: State, b: BackupId, v: Version) returns (es: seq<Event>, x: State, w: Write)
    requires u.task == Task(Restoring(b, v), 0) && b in u.backups && u.ackedFiles != {} && Believed(u.journal, u.app)
    ensures Reaches(u, es, x) && Lacks(x, w) && x.running && x.task.Idle? && x.journal == u.journal && x.app == u.app
  {
    w :| w in u.ackedFiles;
    es := [];
    var t := u;
    es, t := GoOn(u, es, t, Check);
    es, t := GoOn(u, es, t, Stop);
    var half, power := Turn(false, true, u.backups[b].files - {w}, {}), Crash(true, true);
    Extend(u, es, t, half);
    var y := Step(t, half);
    Extend(u, es + [half], y, power);
    es, x := es + [half] + [power], Step(y, power);
  }

  /** A program before its release of the freeze. */
  predicate AtRelease(s: State)
  {
    s.task.Task? && s.task.at < |Program(s.task.kind)| && Program(s.task.kind)[s.task.at].FinishGate?
  }

  /** Recovery finds what it expects, and commits. */
  lemma Recommitted(u: State, es: seq<Event>, x: State, w: Write) returns (fs: seq<Event>, y: State)
    requires Reaches(u, es, x) && Lacks(x, w) && x.running && x.task.Idle? && Believed(x.journal, x.app)
    ensures Reaches(u, fs, y) && AtRelease(y) && Lacks(y, w)
  {
    Extend(u, es, x, Recover);
    fs, y := es + [Recover], Step(x, Recover);
    match x.journal
    case Preparing(p) =>
      fs, y := GoOn(u, fs, y, BringUp(p));
      fs, y := GoOn(u, fs, y, Record(Committed(p)));
    case Healthy(_, t) =>
      fs, y := GoOn(u, fs, y, Health(t));
      fs, y := GoOn(u, fs, y, Check);
      fs, y := GoOn(u, fs, y, Record(Committed(t)));
    case Committed(t) => fs, y := GoOn(u, fs, y, Health(t));
  }

  lemma Released(u: State, es: seq<Event>, x: State, w: Write) returns (fs: seq<Event>, y: State)
    requires Reaches(u, es, x) && AtRelease(x) && Lacks(x, w)
    ensures Reaches(u, fs, y) && !y.gate && Lacks(y, w)
  {
    fs, y := GoOn(u, es, x, FinishGate);
  }

  lemma ExposedIsBelieved(t: State, e: Event)
    requires Inv(t) && Exposed(t, e)
    ensures var u := Step(t, e);
            && u.task.at == 0 && u.task.kind.from in u.backups && u.ackedFiles != {} && Believed(u.journal, u.app)
  {
  }

  lemma ExposedLoses(t: State, e: Event)
    requires Inv(t) && Exposed(t, e)
    ensures LosesLater(Step(t, e))
  {
    ExposedIsBelieved(t, e);
    var u := Step(t, e);
    var es, x, w := Interrupted(u, u.task.kind.from, u.task.kind.v);
    var fs, y := Recommitted(u, es, x, w);
    fs, y := Released(u, fs, y, w);
    assert Reaches(u, fs, y) && !y.gate && !Kept(y);
  }

  lemma UnexposedIsSafe(t: State, e: Event)
    requires Inv(t) && Allowed(t, e)
    ensures !LosesLater(Step(t, e))
  {
    StepKeepsInv(t, e);
    forall es, w | Reaches(Step(t, e), es, w) && !w.gate ensures Kept(w) {
      RunKeepsInv(Step(t, e), es, w);
    }
  }

  /** In every reachable state, for every next event: acknowledged writes can be missing later without the
      freeze if and only if the event is an exception after the backup that finds another journal on the
      disk than the changing one. The handler could look before it restores. */
  lemma LosesExactlyWhen(s: State, es: seq<Event>, t: State, e: Event)
    requires Init(s) && Reaches(s, es, t)
    ensures LosesLater(Step(t, e)) <==> Exposed(t, e)
  {
    RunKeepsInv(s, es, t);
    if Exposed(t, e) {
      ExposedLoses(t, e);
    } else {
      UnexposedIsSafe(t, e);
    }
  }

  // ------------------------------------------------------------------ an instance

  lemma BackedUp(s: State, target: Version, b: BackupId) returns (es: seq<Event>, t: State)
    requires Init(s) && b !in s.backups
    ensures Reaches(s, es, t) && t.task == Task(Upgrading(target, b, s.app.version), 4)
  {
    var p := s.app.version;
    Extend(s, [], s, Upgrade(target, b));
    es, t := [] + [Upgrade(target, b)], Step(s, Upgrade(target, b));
    es, t := GoOn(s, es, t, Record(Preparing(p)));
    es, t := GoOn(s, es, t, BeginGate);
    es, t := GoOn(s, es, t, Stop);
    es, t := GoOn(s, es, t, Backup(b));
  }

  /** From every installation and for every target: the journal cannot be written after the backup, say for
      want of space. */
  lemma BackupUnrecorded(s: State, target: Version, b: BackupId) returns (es: seq<Event>, t: State, e: Event)
    requires Init(s) && b !in s.backups
    ensures Reaches(s, es, t) && t.task == Task(Upgrading(target, b, s.app.version), 4)
    ensures e == Turn(false, false, {}, {}) && Exposed(t, e) && LosesLater(Step(t, e))
  {
    es, t := BackedUp(s, target, b);
    e := Turn(false, false, {}, {});
    RunKeepsInv(s, es, t);
    LosesExactlyWhen(s, es, t, e);
  }

  // ------------------------------------------------------------------ undisturbed programs

  /** The next `n` instructions, none of which fails on its own. */
  function Undisturbed(s: State, n: nat): State
    decreases n
  {
    if n == 0 then s else Undisturbed(Step(s, Turn(true, false, {}, {})), n - 1)
  }

  function Left(t: Task): nat { if t.Task? && t.at < |Program(t.kind)| then |Program(t.kind)| - t.at else 0 }

  /** The version that a program is to end with. */
  function Goal(k: Kind): Version { if k.Upgrading? then k.target else k.v }

  /** What a program needs to start: no other freeze, or, where it starts nothing itself, a running panel. */
  predicate CanStart(s: State)
  {
    s.task.Task? ==>
      && (s.task.kind.Upgrading? && s.task.at <= 1 ==> !s.gate)
      && ((s.task.kind.Resuming? || s.task.kind.Finishing?) && s.task.at == 0 ==> s.running)
  }

  lemma NextIsPossible(s: State)
    requires Inv(s) && CanStart(s) && s.task.Task?
    ensures Possible(s, Program(s.task.kind)[s.task.at])
  {
  }

  lemma LastIsClear(s: State)
    requires Inv(s) && s.task.Task? && s.task.at + 1 == |Program(s.task.kind)|
    ensures Program(s.task.kind)[s.task.at] == Record(Clear) && s.journal == Committed(Goal(s.task.kind))
    ensures s.app == App(Goal(s.task.kind), true) && s.running
  {
  }

  lemma NextCanStart(s: State, t: State)
    requires Inv(s) && CanStart(s) && s.task.Task? && Advances(s, Program(s.task.kind)[s.task.at], {}, {}, t)
    ensures CanStart(t)
  {
  }

  /** The journal is clear, the freeze gone, nothing is missing, and version `v` is in place and running. */
  predicate Open(s: State, v: Version)
  {
    s.task.Idle? && s.journal.Clear? && !s.gate && Kept(s) && s.app == App(v, true) && s.running
  }

  /** An undisturbed program ends, with the version it was to end with. */
  lemma {:induction false} Finishes(s: State)
    requires Inv(s) && CanStart(s) && s.task.Task?
    ensures Open(Undisturbed(s, Left(s.task)), Goal(s.task.kind))
    decreases Left(s.task)
  {
    var i, t := Program(s.task.kind)[s.task.at], Step(s, Turn(true, false, {}, {}));
    NextIsPossible(s);
    AdvanceKeepsInv(s, i, {}, {}, t);
    if s.task.at + 1 == |Program(s.task.kind)| {
      LastIsClear(s);
    } else {
      NextCanStart(s, t);
      Finishes(t);
    }
  }

  /** What recovery goes back or on to. */
  function Expected(s: State): Version
  {
    match s.journal
    case Clear => s.app.version
    case Preparing(p) => p
    case Changing(b, _) => if b in s.backups then s.backups[b].app.version else s.app.version
    case Healthy(_, t) => t
    case Committed(t) => t
  }

  lemma RecoveryBegins(t: State)
    requires Inv(t) && t.task.Idle? && !t.journal.Clear? && (t.journal.Healthy? || t.journal.Committed? ==> t.running)
    ensures var u := Step(t, Recover);
            u.task.Task? && CanStart(u) && Inv(u) && Goal(u.task.kind) == Expected(t)
  {
    QuietKeepsInv(t, Recover);
  }

  /** In every reachable state an undisturbed recovery finishes, whatever was interrupted, after a change that is
      recorded as healthy or committed provided that the panel is up: before the change with the old version,
      in the middle of it with that of the snapshot, and after it with the new one. */
  lemma RecoveryFinishes(s: State, es: seq<Event>, t: State) returns (n: nat)
    requires Init(s) && Reaches(s, es, t) && t.task.Idle? && !t.journal.Clear?
    requires t.journal.Healthy? || t.journal.Committed? ==> t.running
    ensures Open(Undisturbed(Step(t, Recover), n), Expected(t))
  {
    RunKeepsInv(s, es, t);
    RecoveryBegins(t);
    n := Left(Step(t, Recover).task);
    Finishes(Step(t, Recover));
  }

  lemma UpgradeBegins(t: State, target: Version, b: BackupId)
    requires Inv(t) && t.task.Idle? && t.journal.Clear? && b !in t.backups
    ensures var u := Step(t, Upgrade(target, b));
            u.task == Task(Upgrading(target, b, t.app.version), 0) && CanStart(u) && Inv(u)
  {
    QuietKeepsInv(t, Upgrade(target, b));
  }

  /** So does an undisturbed upgrade from an idle installation ... */
  lemma UpgradeFinishes(s: State, es: seq<Event>, t: State, target: Version, b: BackupId) returns (n: nat)
    requires Init(s) && Reaches(s, es, t) && t.task.Idle? && t.journal.Clear? && b !in t.backups
    ensures Open(Undisturbed(Step(t, Upgrade(target, b)), n), target)
  {
    RunKeepsInv(s, es, t);
    UpgradeBegins(t, target, b);
    n := Left(Step(t, Upgrade(target, b)).task);
    Finishes(Step(t, Upgrade(target, b)));
  }

  lemma HandlerBegins(t: State, e: Event)
    requires Inv(t) && e.Turn? && t.task.Task? && t.task.kind.Upgrading?
    requires Step(t, e).task.Task? && !Step(t, e).task.kind.Upgrading?
    ensures CanStart(Step(t, e)) && Goal(Step(t, e).task.kind) == t.task.kind.previous
  {
  }

  /** ... and an undisturbed handler, with the old version. */
  lemma HandlerFinishes(s: State, es: seq<Event>, t: State, e: Event) returns (n: nat)
    requires Init(s) && Reaches(s, es, t) && Allowed(t, e) && e.Turn? && t.task.Task? && t.task.kind.Upgrading?
    requires Step(t, e).task.Task? && !Step(t, e).task.kind.Upgrading?
    ensures Open(Undisturbed(Step(t, e), n), t.task.kind.previous)
  {
    RunKeepsInv(s, es, t);
    StepKeepsInv(t, e);
    HandlerBegins(t, e);
    n := Left(Step(t, e).task);
    Finishes(Step(t, e));
  }

  /** When the handler runs at all: on every exception between the freeze and the commit. */
  lemma HandlerStartsExactlyWhen(s: State, es: seq<Event>, t: State, e: Event)
    requires Init(s) && Reaches(s, es, t) && e.Turn? && t.task.Task? && t.task.kind.Upgrading?
    ensures Step(t, e).task.Task? && !Step(t, e).task.kind.Upgrading?
            <==> 1 < t.task.at < 10 && !(e.ok && Possible(t, Program(t.task.kind)[t.task.at]))
  {
    RunKeepsInv(s, es, t);
    HandlerDecides(t, e);
  }

  lemma HandlerDecides(t: State, e: Event)
    requires Inv(t) && e.Turn? && t.task.Task? && t.task.kind.Upgrading?
    ensures Step(t, e).task.Task? && !Step(t, e).task.kind.Upgrading?
            <==> 1 < t.task.at < 10 && !(e.ok && Possible(t, Program(t.task.kind)[t.task.at]))
  {
  }
}
