/**
 The durable protocol of the service launcher: what is on disk, which server
 processes are alive, and the single file operations and process events that
 change them.  A run is a sequence of such actions.  The death of the launcher
 is one of the actions and may fall between any two others.
 */
module LauncherProtocol {
  import opened Wrappers

  /** An exact version.  Precedence orders versions; build metadata does not take part. */
  datatype Version = Version(precedence: nat, build: string)

  type UpdateId = nat

  /** SQLite keeps a database in a main file, a write-ahead log and a shared-memory file. */
  datatype Suffix = Main | Wal | Shm

  const SUFFIXES: seq<Suffix> := [Main, Wal, Shm]

  /** What one database file holds; Torn is the remains of a copy that was cut short. */
  datatype Content = Whole(writer: Version, bytes: nat) | Torn

  /** The database files that exist. */
  type Files = map<Suffix, Content>

  datatype Status = Pending | Committed | RolledBack | Failed

  datatype Update = Update(id: UpdateId, from: Version, target: Version, status: Status)

  datatype ServiceState = ServiceState(active: Version, update: Option<Update>)

  /** A completed backup directory, with or without the restore marker. */
  datatype Backup = Backup(files: Files, marked: bool)

  datatype Disk = Disk(
    state: ServiceState,
    db: Files,
    backups: map<UpdateId, Backup>,
    staging: map<UpdateId, Files>)

  datatype Process = Process(pid: nat, version: Version)

  datatype Outcome = Outcome(id: UpdateId, status: Status)

  /** Bookkeeping no file holds: database images at first trial starts, terminal records, ids used. */
  datatype History = History(first: map<UpdateId, Files>, outcomes: seq<Outcome>, used: set<UpdateId>)

  datatype World = World(disk: Disk, live: set<Process>, history: History)

  datatype Action =
    | ChildWrites(process: Process, suffix: Suffix, bytes: nat)
    | ChildRemoves(process: Process, suffix: Suffix)
    | ProcessExits(process: Process)
    | LauncherDies
    | StartActive(process: Process)
    | StartTrial(process: Process)
    | AcceptUpdate(id: UpdateId, target: Version)
    | Commit
    | RecordFailure(status: Status)
    | Stage(id: UpdateId, files: Files)
    | Unstage(id: UpdateId)
    | CompleteBackup
    | MarkRestore
    | TearFile(suffix: Suffix)
    | RestoreFile(suffix: Suffix)
    | ErodeBackup(id: UpdateId, rest: Backup)
    | EraseBackup(id: UpdateId)

  predicate IsPending(s: ServiceState) {
    s.update.Some? && s.update.value.status == Pending
  }

  /** The pending update of a state that has one. */
  function PendingUpdate(s: ServiceState): Update
    requires IsPending(s)
  {
    s.update.value
  }

  predicate HasBackup(d: Disk) {
    IsPending(d.state) && PendingUpdate(d.state).id in d.backups
  }

  /** The backup belonging to the pending update. */
  function PendingBackup(d: Disk): Backup
    requires HasBackup(d)
  {
    d.backups[PendingUpdate(d.state).id]
  }

  predicate Marked(d: Disk) {
    HasBackup(d) && PendingBackup(d).marked
  }

  /** Every file is whole and was last written by a version no newer than v. */
  predicate NoNewer(files: Files, v: Version) {
    forall s <- files :: files[s].Whole? && files[s].writer.precedence <= v.precedence
  }

  /** When an action may happen.  The guards speak of what is on disk and alive, never of the launcher's memory. */
  predicate Enabled(w: World, a: Action) {
    var d := w.disk;
    match a
    case ChildWrites(p, _, _) => p in w.live
    case ChildRemoves(p, _) => p in w.live
    case ProcessExits(_) => true
    case LauncherDies => true
    case StartActive(p) =>
      w.live == {} && !IsPending(d.state) && p.version == d.state.active
    case StartTrial(p) =>
      w.live == {} && HasBackup(d) && !Marked(d) && p.version == PendingUpdate(d.state).target
    case AcceptUpdate(id, target) =>
      !IsPending(d.state) && target.precedence > d.state.active.precedence && id !in w.history.used
    case Commit =>
      HasBackup(d) && !Marked(d) && PendingUpdate(d.state).id in w.history.first
    case RecordFailure(status) =>
      && w.live == {} && IsPending(d.state) && status in {RolledBack, Failed}
      && (HasBackup(d) ==> Marked(d) && d.db == PendingBackup(d).files)
    case Stage(_, _) => true
    case Unstage(_) => true
    case CompleteBackup =>
      && w.live == {} && IsPending(d.state) && !HasBackup(d)
      && PendingUpdate(d.state).id in d.staging
      && d.staging[PendingUpdate(d.state).id] == d.db
    case MarkRestore => w.live == {} && HasBackup(d)
    case TearFile(s) => w.live == {} && Marked(d) && s in PendingBackup(d).files
    case RestoreFile(s) => w.live == {} && Marked(d)
    case ErodeBackup(id, rest) => id in d.backups && !(IsPending(d.state) && PendingUpdate(d.state).id == id)
    case EraseBackup(id) => !(IsPending(d.state) && PendingUpdate(d.state).id == id)
  }

  /** The state a terminal record leaves behind. */
  function Settled(s: ServiceState, status: Status): ServiceState
    requires IsPending(s)
  {
    var u := PendingUpdate(s);
    ServiceState(if status == Committed then u.target else u.from, Some(u.(status := status)))
  }

  function Settle(w: World, status: Status): World
    requires IsPending(w.disk.state)
  {
    w.(disk := w.disk.(state := Settled(w.disk.state, status)),
       history := w.history.(outcomes := w.history.outcomes + [Outcome(PendingUpdate(w.disk.state).id, status)]))
  }

  /** What an action does. */
  function Apply(w: World, a: Action): World
    requires Enabled(w, a)
  {
    var d := w.disk;
    match a
    case ChildWrites(p, s, bytes) => w.(disk := d.(db := d.db[s := Whole(p.version, bytes)]))
    case ChildRemoves(_, s) => w.(disk := d.(db := d.db - {s}))
    case ProcessExits(p) => w.(live := w.live - {p})
    case LauncherDies => w.(live := {})
    case StartActive(p) => w.(live := {p})
    case StartTrial(p) =>
      var id := PendingUpdate(d.state).id;
      w.(live := {p}, history := if id in w.history.first then w.history
                                 else w.history.(first := w.history.first[id := d.db]))
    case AcceptUpdate(id, target) =>
      w.(disk := d.(state := d.state.(update := Some(Update(id, d.state.active, target, Pending)))),
         history := w.history.(used := w.history.used + {id}))
    case Commit => Settle(w, Committed)
    case RecordFailure(status) => Settle(w, status)
    case Stage(id, files) => w.(disk := d.(staging := d.staging[id := files]))
    case Unstage(id) => w.(disk := d.(staging := d.staging - {id}))
    case CompleteBackup =>
      var id := PendingUpdate(d.state).id;
      w.(disk := d.(backups := d.backups[id := Backup(d.staging[id], false)], staging := d.staging - {id}))
    case MarkRestore =>
      w.(disk := d.(backups := d.backups[PendingUpdate(d.state).id := PendingBackup(d).(marked := true)]))
    case TearFile(s) => w.(disk := d.(db := d.db[s := Torn]))
    case RestoreFile(s) =>
      var source := PendingBackup(d).files;
      w.(disk := d.(db := if s in source then d.db[s := source[s]] else d.db - {s}))
    case ErodeBackup(id, rest) => w.(disk := d.(backups := d.backups[id := rest]))
    case EraseBackup(id) => w.(disk := d.(backups := d.backups - {id}))
  }

  // ---------------------------------------------------------------------------
  // Runs

  /** A fresh installation: nothing recorded yet, and a database no newer version has touched. */
  predicate Init(w: World) {
    && w.disk.state.update == None
    && NoNewer(w.disk.db, w.disk.state.active)
    && w.disk.backups == map[] && w.live == {}
    && w.history == History(map[], [], {})
  }

  /** Every action of the log is enabled when its turn comes. */
  predicate Legal(w0: World, log: seq<Action>)
    decreases |log|, 0
  {
    log == [] || (Legal(w0, log[..|log|-1]) && Enabled(Replay(w0, log[..|log|-1]), log[|log|-1]))
  }

  /** The world after the log. */
  function Replay(w0: World, log: seq<Action>): World
    requires Legal(w0, log)
    decreases |log|, 1
  {
    if log == [] then w0 else Apply(Replay(w0, log[..|log|-1]), log[|log|-1])
  }

  lemma {:induction false} PrefixLegal(w0: World, log: seq<Action>, i: nat)
    requires Legal(w0, log) && i <= |log|
    ensures Legal(w0, log[..i])
  {
    if i == |log| {
      assert log[..i] == log;
    } else {
      PrefixLegal(w0, log[..|log|-1], i);
      assert log[..|log|-1][..i] == log[..i];
    }
  }

  lemma LegalAppend(w0: World, log: seq<Action>, a: Action)
    requires Legal(w0, log) && Enabled(Replay(w0, log), a)
    ensures Legal(w0, log + [a]) && Replay(w0, log + [a]) == Apply(Replay(w0, log), a)
  {
    assert (log + [a])[..|log|] == log;
  }

  /** The world in which action i of the log happens. */
  function At(w0: World, log: seq<Action>, i: nat): World
    requires Legal(w0, log) && i <= |log|
  {
    PrefixLegal(w0, log, i);
    Replay(w0, log[..i])
  }

  lemma AtNext(w0: World, log: seq<Action>, i: nat)
    requires Legal(w0, log) && i < |log|
    ensures Enabled(At(w0, log, i), log[i])
    ensures At(w0, log, i + 1) == Apply(At(w0, log, i), log[i])
  {
    PrefixLegal(w0, log, i + 1);
    assert log[..i + 1][..i] == log[..i];
  }

  // ---------------------------------------------------------------------------
  // The invariant of every reachable world

  /** The consistency the state parser demands of the stored record. */
  predicate StateConsistent(s: ServiceState) {
    s.update.Some? ==>
      var u := s.update.value;
      && u.target.precedence > u.from.precedence
      && s.active == (if u.status == Committed then u.target else u.from)
  }

  predicate HistoryConsistent(w: World) {
    var h := w.history;
    && (forall o <- h.outcomes :: o.id in h.used && o.status != Pending)
    && (forall i, j :: 0 <= i < j < |h.outcomes| ==> h.outcomes[i].id != h.outcomes[j].id)
    && h.first.Keys <= h.used && w.disk.backups.Keys <= h.used
    && (w.disk.state.update.Some? ==>
          var u := w.disk.state.update.value;
          && u.id in h.used
          && (u.status == Pending ==> forall o <- h.outcomes :: o.id != u.id)
          && (u.status != Pending ==> h.outcomes != [] && h.outcomes[|h.outcomes|-1] == Outcome(u.id, u.status)))
  }

  /** At most one server process, and of which version. */
  predicate ProcessesConsistent(w: World) {
    && (forall p, q :: p in w.live && q in w.live ==> p == q)
    && (forall p <- w.live ::
          if HasBackup(w.disk) then
            && !Marked(w.disk)
            && p.version == PendingUpdate(w.disk.state).target
            && PendingUpdate(w.disk.state).id in w.history.first
          else p.version == w.disk.state.active)
  }

  /** Who may have written the live files and the backup. */
  predicate DataConsistent(w: World) {
    var d := w.disk;
    if HasBackup(d) then
      var u, b := PendingUpdate(d.state), PendingBackup(d);
      && NoNewer(b.files, u.from)
      && (u.id in w.history.first ==> w.history.first[u.id] == b.files)
      && (!b.marked ==> NoNewer(d.db, u.target))
      && (!b.marked && u.id !in w.history.first ==> d.db == b.files)
    else
      && NoNewer(d.db, d.state.active)
      && (IsPending(d.state) ==> PendingUpdate(d.state).id !in w.history.first)
  }

  predicate Inv(w: World) {
    StateConsistent(w.disk.state) && HistoryConsistent(w) && ProcessesConsistent(w) && DataConsistent(w)
  }

  lemma StepKeepsRecords(w: World, a: Action)
    requires Inv(w) && Enabled(w, a)
    ensures StateConsistent(Apply(w, a).disk.state) && HistoryConsistent(Apply(w, a))
  {
  }

  lemma StepKeepsProcesses(w: World, a: Action)
    requires Inv(w) && Enabled(w, a)
    ensures ProcessesConsistent(Apply(w, a))
  {
  }

  lemma StepKeepsData(w: World, a: Action)
    requires Inv(w) && Enabled(w, a)
    ensures DataConsistent(Apply(w, a))
  {
  }

  /** Every action keeps the invariant. */
  lemma StepKeepsInv(w: World, a: Action)
    requires Inv(w) && Enabled(w, a)
    ensures Inv(Apply(w, a))
  {
    StepKeepsRecords(w, a);
    StepKeepsProcesses(w, a);
    StepKeepsData(w, a);
  }

  lemma {:induction false} ReachableInv(w0: World, log: seq<Action>)
    requires Init(w0) && Legal(w0, log)
    ensures Inv(Replay(w0, log))
  {
    if log != [] {
      ReachableInv(w0, log[..|log|-1]);
      StepKeepsInv(Replay(w0, log[..|log|-1]), log[|log|-1]);
    }
  }

  lemma AtInv(w0: World, log: seq<Action>, i: nat)
    requires Init(w0) && Legal(w0, log) && i <= |log|
    ensures Inv(At(w0, log, i))
  {
    PrefixLegal(w0, log, i);
    ReachableInv(w0, log[..i]);
  }

  // ---------------------------------------------------------------------------
  // What holds of every run

  /** In every reachable world at most one server process is alive. */
  lemma AtMostOneProcess(w0: World, log: seq<Action>, i: nat, p: Process, q: Process)
    requires Init(w0) && Legal(w0, log) && i <= |log|
    requires p in At(w0, log, i).live && q in At(w0, log, i).live
    ensures p == q
  {
    AtInv(w0, log, i);
  }

  /** What makes the backup necessary: a server alive may leave a file that no older version accepts. */
  lemma WritingSpoilsData(w: World, p: Process, s: Suffix, bytes: nat, older: Version)
    requires p in w.live && older.precedence < p.version.precedence
    ensures Enabled(w, ChildWrites(p, s, bytes)) && !NoNewer(Apply(w, ChildWrites(p, s, bytes)).disk.db, older)
  {
    var spoilt := Apply(w, ChildWrites(p, s, bytes)).disk.db;
    assert spoilt[s] == Whole(p.version, bytes);
  }

  /** An active server only ever starts on whole files that nothing newer than it has written. */
  lemma ActiveStartsOnOwnData(w0: World, log: seq<Action>, i: nat)
    requires Init(w0) && Legal(w0, log) && i < |log| && log[i].StartActive?
    ensures log[i].process.version == At(w0, log, i).disk.state.active
    ensures NoNewer(At(w0, log, i).disk.db, At(w0, log, i).disk.state.active)
  {
    AtInv(w0, log, i);
    AtNext(w0, log, i);
  }

  /** Action i starts a trial of update id. */
  predicate StartsTrialOf(w0: World, log: seq<Action>, i: nat, id: UpdateId)
    requires Legal(w0, log)
  {
    i < |log| && log[i].StartTrial? && IsPending(At(w0, log, i).disk.state)
    && PendingUpdate(At(w0, log, i).disk.state).id == id
  }

  /** Action i is the first start of a trial of update id. */
  predicate FirstTrialOf(w0: World, log: seq<Action>, i: nat, id: UpdateId)
    requires Legal(w0, log)
  {
    StartsTrialOf(w0, log, i, id) && forall k: nat | k < i :: !StartsTrialOf(w0, log, k, id)
  }

  /** The history remembers an image exactly for the updates some trial of which has started. */
  lemma {:induction false} FirstImages(w0: World, log: seq<Action>, j: nat, id: UpdateId)
    requires Init(w0) && Legal(w0, log) && j <= |log|
    ensures id in At(w0, log, j).history.first <==> exists k: nat :: k < j && StartsTrialOf(w0, log, k, id)
    decreases j
  {
    if j == 0 {
      assert log[..0] == [];
    } else {
      FirstImages(w0, log, j - 1, id);
      AtNext(w0, log, j - 1);
      if id in At(w0, log, j).history.first && id !in At(w0, log, j - 1).history.first {
        assert StartsTrialOf(w0, log, j - 1, id);
      }
    }
  }

  /** Once taken, the image of a first trial start is the database of that moment, for good. */
  lemma {:induction false} FirstImageStays(w0: World, log: seq<Action>, i: nat, j: nat, id: UpdateId)
    requires Init(w0) && Legal(w0, log) && i < j <= |log| && FirstTrialOf(w0, log, i, id)
    ensures id in At(w0, log, j).history.first
    ensures At(w0, log, j).history.first[id] == At(w0, log, i).disk.db
    decreases j
  {
    AtNext(w0, log, j - 1);
    if j == i + 1 {
      FirstImages(w0, log, i, id);
    } else {
      FirstImageStays(w0, log, i, j - 1, id);
    }
  }

  /**
   While an update is pending and a trial of it has started, a complete backup exists
   and equals the database at the moment the first trial began.
   */
  lemma BackupHeldWhilePending(w0: World, log: seq<Action>, i: nat, j: nat, id: UpdateId)
    requires Init(w0) && Legal(w0, log) && i < j <= |log| && FirstTrialOf(w0, log, i, id)
    requires IsPending(At(w0, log, j).disk.state) && PendingUpdate(At(w0, log, j).disk.state).id == id
    ensures id in At(w0, log, j).disk.backups
    ensures At(w0, log, j).disk.backups[id].files == At(w0, log, i).disk.db
  {
    AtInv(w0, log, j);
    FirstImageStays(w0, log, i, j, id);
  }

  /** Recording a rollback or failure finds all three files as they were when the first trial began. */
  lemma FailureRestoresFirstImage(w0: World, log: seq<Action>, i: nat, j: nat, id: UpdateId)
    requires Init(w0) && Legal(w0, log) && i < j < |log| && FirstTrialOf(w0, log, i, id)
    requires log[j].RecordFailure? && IsPending(At(w0, log, j).disk.state)
    requires PendingUpdate(At(w0, log, j).disk.state).id == id
    ensures At(w0, log, j + 1).disk.db == At(w0, log, i).disk.db
    ensures NoNewer(At(w0, log, j + 1).disk.db, At(w0, log, j + 1).disk.state.active)
  {
    BackupHeldWhilePending(w0, log, i, j, id);
    AtNext(w0, log, j);
    AtInv(w0, log, j + 1);
  }

  /** The commit record leaves the database as the trial wrote it and makes the trial's version the active one. */
  lemma CommitKeepsTrialData(w0: World, log: seq<Action>, j: nat)
    requires Init(w0) && Legal(w0, log) && j < |log| && log[j].Commit?
    ensures IsPending(At(w0, log, j).disk.state)
    ensures At(w0, log, j + 1).disk.state.active == PendingUpdate(At(w0, log, j).disk.state).target
    ensures At(w0, log, j + 1).disk.db == At(w0, log, j).disk.db
    ensures NoNewer(At(w0, log, j + 1).disk.db, At(w0, log, j + 1).disk.state.active)
  {
    AtNext(w0, log, j);
    AtInv(w0, log, j + 1);
  }

  /** The stored active version never decreases, and an update leaves it alone while pending. */
  lemma {:induction false} ActiveVersionNeverDecreases(w0: World, log: seq<Action>, i: nat, j: nat)
    requires Init(w0) && Legal(w0, log) && i <= j <= |log|
    ensures At(w0, log, i).disk.state.active.precedence <= At(w0, log, j).disk.state.active.precedence
    ensures IsPending(At(w0, log, j).disk.state) ==>
              At(w0, log, j).disk.state.active == PendingUpdate(At(w0, log, j).disk.state).from
    decreases j
  {
    AtInv(w0, log, j);
    if i < j {
      ActiveVersionNeverDecreases(w0, log, i, j - 1);
      AtInv(w0, log, j - 1);
      AtNext(w0, log, j - 1);
    }
  }

  lemma {:induction false} OutcomesOnlyGrow(w0: World, log: seq<Action>, i: nat, j: nat)
    requires Init(w0) && Legal(w0, log) && i <= j <= |log|
    ensures At(w0, log, i).history.outcomes <= At(w0, log, j).history.outcomes
    decreases j
  {
    if i < j {
      OutcomesOnlyGrow(w0, log, i, j - 1);
      AtNext(w0, log, j - 1);
    }
  }

  /** Action i records a terminal outcome for update id. */
  predicate Settles(w0: World, log: seq<Action>, i: nat, id: UpdateId)
    requires Legal(w0, log)
  {
    i < |log| && (log[i].Commit? || log[i].RecordFailure?) && IsPending(At(w0, log, i).disk.state)
    && PendingUpdate(At(w0, log, i).disk.state).id == id
  }

  /** A terminal outcome, once recorded, is remembered in every later world. */
  lemma SettledIsRemembered(w0: World, log: seq<Action>, i: nat, j: nat, id: UpdateId)
    requires Init(w0) && Legal(w0, log) && i < j <= |log| && Settles(w0, log, i, id)
    ensures exists o :: o in At(w0, log, j).history.outcomes && o.id == id
  {
    AtNext(w0, log, i);
    OutcomesOnlyGrow(w0, log, i + 1, j);
    var settled := At(w0, log, i + 1).history.outcomes;
    assert settled[|settled|-1] in At(w0, log, j).history.outcomes;
  }

  /** Each update gets at most one terminal outcome, so a committed one is never undone later. */
  lemma OneOutcomePerUpdate(w0: World, log: seq<Action>, i: nat, j: nat, id: UpdateId)
    requires Init(w0) && Legal(w0, log) && Settles(w0, log, i, id) && Settles(w0, log, j, id)
    ensures i == j
  {
    if i < j {
      AtInv(w0, log, j);
      SettledIsRemembered(w0, log, i, j, id);
    } else if j < i {
      AtInv(w0, log, i);
      SettledIsRemembered(w0, log, j, i, id);
    }
  }

  /** After the commit of an update no later record ever brings back an older version. */
  lemma CommittedStays(w0: World, log: seq<Action>, i: nat, j: nat)
    requires Init(w0) && Legal(w0, log) && i < j <= |log| && log[i].Commit?
    ensures IsPending(At(w0, log, i).disk.state)
    ensures PendingUpdate(At(w0, log, i).disk.state).target.precedence <= At(w0, log, j).disk.state.active.precedence
    ensures Outcome(PendingUpdate(At(w0, log, i).disk.state).id, Committed) in At(w0, log, j).history.outcomes
  {
    AtNext(w0, log, i);
    ActiveVersionNeverDecreases(w0, log, i + 1, j);
    OutcomesOnlyGrow(w0, log, i + 1, j);
    var settled := At(w0, log, i + 1).history.outcomes;
    assert settled[|settled|-1] in At(w0, log, j).history.outcomes;
  }
}
