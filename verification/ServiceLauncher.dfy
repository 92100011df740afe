/**
 The launcher itself: the methods that back up and restore the database, write the
 state record and move between server processes.  Every file operation goes through
 Host.Do, which only performs an action the protocol enables, so whatever these
 methods do, and wherever they are cut short, is a run of LauncherProtocol.
 */
module ServiceLauncher {
  import opened Wrappers
  import opened LauncherProtocol

  /** Worlds that differ at most in what live servers can change: the database, and who of them is still alive. */
  predicate Within(w: World, w': World) {
    w'.live <= w.live && w' == w.(live := w'.live, disk := w.disk.(db := w'.disk.db))
  }

  /** The same world with one backup directory changed. */
  function WithBackup(w: World, id: UpdateId, b: Backup): World {
    w.(disk := w.disk.(backups := w.disk.backups[id := b]))
  }

  /** Whatever live servers do in between, an action of the launcher stays possible and has the same effect. */
  lemma ServersDoNotInterfere(w: World, w': World, a: Action)
    requires Enabled(w, a) && !a.ChildWrites? && !a.ChildRemoves?
    requires Within(w, w') && (w.live == {} ==> w' == w)
    ensures Enabled(w', a) && Within(Apply(w, a), Apply(w', a))
  {
  }

  /** The machine a launcher runs on: its disk, its processes and the log of what happened to them. */
  class Host {
    const initial: World
    /** Whether every file operation, message and lookup succeeds. */
    const reliable: bool
    /** Whether servers keep still while a launcher is in a transition. */
    const quiet: bool
    var log: seq<Action>
    var now: World
    var spawned: nat
    var nextId: UpdateId
    /** The versions whose runtime is complete. */
    var installed: set<Version>

    predicate Valid()
      reads this
    {
      && Init(initial) && Legal(initial, log) && Replay(initial, log) == now
      && forall id <- now.history.used :: id < nextId
    }

    constructor (w: World, reliable: bool, quiet: bool, installed: set<Version>)
      requires Init(w)
      ensures this.installed == installed
      ensures Valid() && initial == now == w && log == [] && this.reliable == reliable && this.quiet == quiet
    {
      this.reliable, this.quiet, this.installed := reliable, quiet, installed;
      initial, log, now, spawned, nextId := w, [], w, 0, 0;
    }

    /** Nothing can change between two actions of a launcher: no server is alive, or those that are keep still. */
    predicate Still(w: World) {
      quiet || w.live == {}
    }

    /** Perform one action at once. */
    method Perform(a: Action)
      requires Valid() && Enabled(now, a) && (a.AcceptUpdate? ==> a.id < nextId)
      modifies this`log, this`now
      ensures Valid() && now == Apply(old(now), a) && log == old(log) + [a]
    {
      LegalAppend(initial, log, a);
      log, now := log + [a], Apply(now, a);
    }

    /** Live servers write and remove files and exit, as often as they like. */
    method LetServersRun()
      requires Valid()
      modifies this`log, this`now
      ensures Valid() && old(log) <= log && Within(old(now), now)
      ensures Still(old(now)) ==> now == old(now) && log == old(log)
    {
      var goOn := *;
      var limit: nat := *;
      while goOn && !quiet && now.live != {} && limit > 0
        invariant Valid() && old(log) <= log && Within(old(now), now)
        invariant Still(old(now)) ==> now == old(now) && log == old(log)
        decreases limit
      {
        var p :| p in now.live;
        var suffix: Suffix := *;
        var bytes: nat := *;
        var writes, exits := *, *;
        if exits {
          Perform(ProcessExits(p));
        } else if writes {
          Perform(ChildWrites(p, suffix, bytes));
        } else {
          Perform(ChildRemoves(p, suffix));
        }
        goOn := *;
        limit := limit - 1;
      }
    }

    /** Perform one action of the launcher, whatever live servers did since the one before. */
    method Do(a: Action)
      requires Valid() && Enabled(now, a) && (a.AcceptUpdate? ==> a.id < nextId)
      requires !a.ChildWrites? && !a.ChildRemoves?
      modifies this`log, this`now
      ensures Valid() && old(log) <= log && Within(Apply(old(now), a), now)
      ensures Still(old(now)) ==> now == Apply(old(now), a) && log == old(log) + [a]
    {
      LetServersRun();
      ServersDoNotInterfere(old(now), now, a);
      Perform(a);
    }

    /** The launcher is killed when only the first `kept` logged actions have happened; its children die with it. */
    method DieAfter(kept: nat)
      requires Valid() && kept <= |log|
      modifies this`log, this`now
      ensures Valid() && log == old(log)[..kept] + [LauncherDies] && now.live == {}
      ensures Legal(initial, old(log)) && now.disk == At(initial, old(log), kept).disk
    {
      PrefixLegal(initial, log, kept);
      assert forall id <- Replay(initial, log[..kept]).history.used :: id < nextId by {
        UsedOnlyGrows(initial, log, kept, |log|);
        assert log[..|log|] == log;
      }
      log, now := log[..kept], Replay(initial, log[..kept]);
      Perform(LauncherDies);
    }

    /** Any file operation or message may fail. */
    method Attempt() returns (ok: bool)
      ensures reliable ==> ok
    {
      var works := *;
      ok := reliable || works;
    }

    /** Whether the runtime of a version is there; what cannot be read counts as missing. */
    method RuntimeExists(version: Version) returns (present: bool)
      ensures present ==> version in installed
      ensures reliable ==> present == (version in installed)
    {
      var readable := Attempt();
      present := readable && version in installed;
    }

    method PathExists(present: bool) returns (ok: bool, found: bool)
      ensures ok ==> found == present
      ensures reliable ==> ok
    {
      ok := Attempt();
      found := present;
    }

    /** Stop a process and wait until it is gone. */
    method Terminate(p: Process)
      requires Valid()
      modifies this`log, this`now
      ensures Valid() && old(log) <= log && Within(old(now).(live := old(now.live) - {p}), now)
      ensures Still(old(now)) ==> now == old(now).(live := old(now.live) - {p})
    {
      Do(ProcessExits(p));
    }

    /** Replace the state record; a failure may come before or after the rename. */
    method WriteServiceState(a: Action) returns (ok: bool)
      requires Valid() && Enabled(now, a) && (a.Commit? || a.RecordFailure? || (a.AcceptUpdate? && a.id < nextId))
      modifies this`log, this`now
      ensures Valid() && old(log) <= log
      ensures now == old(now) || Within(Apply(old(now), a), now)
      ensures ok ==> Within(Apply(old(now), a), now)
      ensures (ok || now != old(now)) && Still(old(now)) ==> now == Apply(old(now), a)
      ensures reliable ==> ok
    {
      ok := Attempt();
      if ok {
        Do(a);
        ok := Attempt();
      }
    }

    /** Drop a half-made backup and report the failure. */
    method Abandon(id: UpdateId) returns (ok: bool)
      requires Valid() && now.live == {}
      modifies this`log, this`now
      ensures Valid() && old(log) <= log && !ok
      ensures now.(disk := now.disk.(staging := old(now.disk.staging))) == old(now)
      ensures reliable ==> id !in now.disk.staging
    {
      ok := Attempt();
      if ok {
        Do(Unstage(id));
      }
      ok := false;
    }

    /** Copy one quiescent file into the half-made backup; only the main file has to exist. */
    method StageFile(id: UpdateId, suffix: Suffix) returns (ok: bool)
      requires Valid() && id in now.disk.staging && now.live == {}
      modifies this`log, this`now
      ensures Valid() && old(log) <= log
      ensures now.(disk := now.disk.(staging := old(now.disk.staging))) == old(now)
      ensures ok && suffix in now.disk.db ==>
                && id in now.disk.staging
                && now.disk.staging[id] == old(now.disk.staging[id])[suffix := now.disk.db[suffix]]
      ensures ok && suffix !in now.disk.db ==> suffix != Main && now == old(now)
      ensures ok && suffix in now.disk.db ==>
                log == old(log) +
                       [Stage(id, old(now.disk.staging[id])[suffix := Torn]), Stage(id, now.disk.staging[id])]
      ensures reliable && (suffix in now.disk.db || suffix != Main) ==> ok
    {
      var found;
      ok, found := PathExists(suffix in now.disk.db);
      if !ok || !found {
        ok := ok && suffix != Main;
        return;
      }
      var copied := now.disk.staging[id];
      Do(Stage(id, copied[suffix := Torn]));
      ok := Attempt();
      if ok {
        Do(Stage(id, copied[suffix := now.disk.db[suffix]]));
        ok := Attempt();
      }
    }

    /** Make the staging directory and fill it with all files that exist. */
    method StageDatabase(id: UpdateId) returns (ok: bool)
      requires Valid() && now.live == {}
      modifies this`log, this`now
      ensures Valid() && old(log) <= log
      ensures now.(disk := now.disk.(staging := old(now.disk.staging))) == old(now)
      ensures ok ==> Main in now.disk.db && id in now.disk.staging && now.disk.staging[id] == now.disk.db
      ensures reliable && Main in now.disk.db ==> ok
    {
      ok := Attempt();
      if !ok {
        return;
      }
      Do(Unstage(id));
      Do(Stage(id, map[]));
      for i := 0 to |SUFFIXES|
        invariant Valid() && old(log) <= log
        invariant now.(disk := now.disk.(staging := old(now.disk.staging))) == old(now)
        invariant id in now.disk.staging
        invariant forall s :: s in now.disk.staging[id] <==> s in SUFFIXES[..i] && s in now.disk.db
        invariant forall s <- now.disk.staging[id] :: now.disk.staging[id][s] == now.disk.db[s]
        invariant i > 0 ==> Main in now.disk.db
      {
        ok := StageFile(id, SUFFIXES[i]);
        if !ok {
          return;
        }
      }
      forall s
        ensures s in SUFFIXES[..|SUFFIXES|]
      {
        EverySuffixListed(s);
      }
      ok := true;
    }

    /** Snapshot the database before the first trial; a completed backup is left alone. */
    method BackupDatabaseOnce(pending: Update) returns (ok: bool)
      requires Valid() && IsPending(now.disk.state) && PendingUpdate(now.disk.state) == pending && now.live == {}
      modifies this`log, this`now
      ensures Valid() && old(log) <= log
      ensures now.live == {} && now.history == old(now.history)
      ensures now.disk.state == old(now.disk.state) && now.disk.db == old(now.disk.db)
      ensures now.disk.backups == old(now.disk.backups) ||
              (!old(HasBackup(now.disk)) &&
               now.disk.backups == old(now.disk.backups)[pending.id := Backup(old(now.disk.db), false)])
      ensures ok ==> HasBackup(now.disk) && (old(HasBackup(now.disk)) || Main in now.disk.db)
      ensures reliable && (old(HasBackup(now.disk)) || Main in now.disk.db) ==> ok
      ensures reliable && !old(HasBackup(now.disk)) ==> pending.id !in now.disk.staging
    {
      var found;
      ok, found := PathExists(HasBackup(now.disk));
      if !ok || found {
        return;
      }
      ok := StageDatabase(pending.id);
      if ok {
        ok := Attempt();
      }
      if !ok {
        ok := Abandon(pending.id);
        return;
      }
      Do(CompleteBackup);
      ok := Attempt();
      if !ok {
        ok := Abandon(pending.id);
      }
    }

    /** Leave the marker that tells a later launcher to finish the rollback. */
    method MarkDatabaseRestorePending() returns (ok: bool)
      requires Valid() && HasBackup(now.disk) && now.live == {}
      modifies this`log, this`now
      ensures Valid() && old(log) <= log
      ensures now == old(now) || now == Apply(old(now), MarkRestore)
      ensures ok ==> Marked(now.disk)
      ensures reliable ==> ok
    {
      var found;
      ok, found := PathExists(Marked(now.disk));
      if !ok || found {
        return;
      }
      ok := Attempt();
      if ok {
        Do(MarkRestore);
        ok := Attempt();
      }
    }

    /** Put one file back: copy it from the backup, or remove it if the backup does not have it. */
    method RestoreOne(suffix: Suffix) returns (ok: bool)
      requires Valid() && now.live == {} && Marked(now.disk)
      modifies this`log, this`now
      ensures Valid() && old(log) <= log
      ensures now.(disk := now.disk.(db := old(now.disk.db))) == old(now)
      ensures ok ==> now.disk.db == if suffix in PendingBackup(now.disk).files
                                    then old(now.disk.db)[suffix := PendingBackup(now.disk).files[suffix]]
                                    else old(now.disk.db) - {suffix}
      ensures ok ==> log == old(log) + (if suffix in PendingBackup(now.disk).files then [TearFile(suffix)] else []) +
                            [RestoreFile(suffix)]
      ensures reliable ==> ok
    {
      var found;
      ok, found := PathExists(suffix in PendingBackup(now.disk).files);
      if ok && found {
        Do(TearFile(suffix));
        ok := Attempt();
      }
      if ok {
        Do(RestoreFile(suffix));
        ok := Attempt();
      }
    }

    /** Put the backed-up files in place.  Whatever an earlier attempt left behind, success gives exactly the backup. */
    method RestoreDatabaseBackup(pending: Update) returns (ok: bool)
      requires Valid() && IsPending(now.disk.state) && PendingUpdate(now.disk.state) == pending && now.live == {}
      modifies this`log, this`now
      ensures Valid() && old(log) <= log
      ensures now.live == {} && now.history == old(now.history) && now.disk.state == old(now.disk.state)
      ensures HasBackup(now.disk) == old(HasBackup(now.disk))
      ensures !HasBackup(now.disk) ==> now == old(now)
      ensures HasBackup(now.disk) ==> PendingBackup(now.disk).files == old(PendingBackup(now.disk).files)
      ensures ok && HasBackup(now.disk) ==> Marked(now.disk) && now.disk.db == PendingBackup(now.disk).files
      ensures reliable ==> ok
    {
      var found;
      ok, found := PathExists(HasBackup(now.disk));
      if !ok || !found {
        return;
      }
      ok := MarkDatabaseRestorePending();
      if ok {
        ok := RestoreAll(PendingBackup(now.disk).files);
      }
    }

    method RestoreAll(source: Files) returns (ok: bool)
      requires Valid() && now.live == {} && Marked(now.disk) && PendingBackup(now.disk).files == source
      modifies this`log, this`now
      ensures Valid() && old(log) <= log
      ensures now.(disk := now.disk.(db := old(now.disk.db))) == old(now)
      ensures ok ==> now.disk.db == source
      ensures reliable ==> ok
    {
      for i := 0 to |SUFFIXES|
        invariant Valid() && old(log) <= log
        invariant now.(disk := now.disk.(db := old(now.disk.db))) == old(now)
        invariant forall s <- SUFFIXES[..i] :: s in source <==> s in now.disk.db
        invariant forall s <- SUFFIXES[..i] :: s in source ==> now.disk.db[s] == source[s]
      {
        ok := RestoreOne(SUFFIXES[i]);
        if !ok {
          return;
        }
      }
      forall s
        ensures s in SUFFIXES[..|SUFFIXES|]
      {
        EverySuffixListed(s);
      }
      ok := Attempt();
    }

    /** Remove one entry of a backup directory, a file or the marker, in no particular order. */
    method RemoveEntry(id: UpdateId)
      requires Valid() && !(IsPending(now.disk.state) && PendingUpdate(now.disk.state).id == id)
      requires id in now.disk.backups && now.disk.backups[id] != Backup(map[], false)
      modifies this`log, this`now
      ensures Valid() && old(log) <= log && id in now.disk.backups
      ensures Within(WithBackup(old(now), id, now.disk.backups[id]), now)
      ensures Still(old(now)) ==> now == WithBackup(old(now), id, now.disk.backups[id])
      ensures now.disk.backups[id].files.Keys < old(now.disk.backups[id].files.Keys) ||
              (now.disk.backups[id].files == old(now.disk.backups[id].files) &&
               old(now.disk.backups[id].marked) && !now.disk.backups[id].marked)
    {
      var b := now.disk.backups[id];
      var markerFirst := *;
      if b.files != map[] && !(b.marked && markerFirst) {
        var s :| s in b.files;
        Do(ErodeBackup(id, b.(files := b.files - {s})));
      } else {
        Do(ErodeBackup(id, b.(marked := false)));
      }
    }

    /** Remove the entries of a backup directory one by one, until it is empty or one cannot be removed. */
    method EmptyBackup(id: UpdateId) returns (ok: bool)
      requires Valid() && !(IsPending(now.disk.state) && PendingUpdate(now.disk.state).id == id)
      requires id in now.disk.backups
      modifies this`log, this`now
      ensures Valid() && old(log) <= log && id in now.disk.backups
      ensures Within(WithBackup(old(now), id, now.disk.backups[id]), now)
      ensures Still(old(now)) ==> now == WithBackup(old(now), id, now.disk.backups[id])
      ensures ok ==> now.disk.backups[id] == Backup(map[], false)
      ensures reliable ==> ok
    {
      ok := Attempt();
      while ok && now.disk.backups[id] != Backup(map[], false)
        invariant Valid() && old(log) <= log && id in now.disk.backups
        invariant Within(WithBackup(old(now), id, now.disk.backups[id]), now)
        invariant Still(old(now)) ==> now == WithBackup(old(now), id, now.disk.backups[id])
        invariant reliable ==> ok
        decreases now.disk.backups[id].files.Keys, now.disk.backups[id].marked
      {
        RemoveEntry(id);
        ok := Attempt();
      }
    }

    /** Remove the backup of an update that is over, entry by entry. */
    method DiscardDatabaseBackup(id: UpdateId) returns (ok: bool)
      requires Valid() && !(IsPending(now.disk.state) && PendingUpdate(now.disk.state).id == id)
      modifies this`log, this`now
      ensures Valid() && old(log) <= log
      ensures Within(old(now), now.(disk := now.disk.(backups := old(now.disk.backups))))
      ensures Still(old(now)) ==> now.(disk := now.disk.(backups := old(now.disk.backups))) == old(now)
      ensures now.disk.backups - {id} == old(now.disk.backups) - {id}
      ensures ok ==> id !in now.disk.backups
      ensures reliable ==> ok
    {
      var found;
      ok, found := PathExists(id in now.disk.backups);
      if !ok || !found {
        return;
      }
      ok := EmptyBackup(id);
      if ok {
        Do(EraseBackup(id));
        ok := Attempt();
      }
    }
  }

  datatype Role = Active | Trial

  datatype Rejection =
    | NotActiveServer | NotSelectedVersion | AlreadyPending
    | NotExactVersion | NotNewer | PathNotAbsolute | RuntimeMissing

  datatype Message =
    | RequestUpdate(target: Version, exact: bool, absolute: bool)
    | Prepared(updateId: UpdateId)

  datatype Reply = Silent | Rejected(reason: Rejection) | Accepted(id: UpdateId) | Committed(id: UpdateId)

  /** What can reach a launcher: messages, timers, exits and errors of any child it ever had, and a stop signal. */
  datatype Event =
    | FromChild(child: Process, message: Message)
    | HandoffDue(child: Process)
    | PreparedTimeout(child: Process)
    | Exited(child: Process)
    | Errored(child: Process)
    | StopSignal
    | StopDue

  /** What the world does in between: a live server works on its database or ends. */
  datatype Disturbance = Wrote(suffix: Suffix, bytes: nat) | Removed(suffix: Suffix) | Ended | Nothing

  /** The supervisor.  Its transitions run one at a time, each to the end, as its promise chain makes them. */
  class Launcher {
    const host: Host
    var state: ServiceState
    var child: Option<Process>
    var role: Role
    var timer: Option<Process>
    var stopRequested: bool
    var stopping: bool
    var done: bool

    /** No server is alive that this launcher does not hold. */
    predicate Supervising()
      reads this, host
    {
      && host.Valid()
      && (forall p <- host.now.live :: child == Some(p))
      && (stopping ==> child == None) && (done ==> stopping)
    }

    /** A server is alive, and the launcher holds it. */
    predicate Runs()
      reads this, host
    {
      child.Some? && child.value in host.now.live
    }

    /** The launcher's memory agrees with the stored record. */
    predicate InSync()
      reads this, host
    {
      var d := host.now.disk;
      && state == d.state
      && (child.Some? && role == Active ==> child.value.version == state.active && !HasBackup(d))
      && (child.Some? && role == Trial ==>
            && HasBackup(d) && !Marked(d)
            && child.value.version == PendingUpdate(state).target
            && PendingUpdate(state).id in host.now.history.first)
    }

    predicate Valid()
      reads this, host
    {
      Supervising() && (!stopping ==> InSync())
    }

    /** A launcher process that has just read the state record. */
    constructor (h: Host)
      requires h.Valid() && h.now.live == {}
      ensures Valid() && host == h && child == None && !stopping && !stopRequested && !done
    {
      host, state, child, role, timer := h, h.now.disk.state, None, Active, None;
      stopRequested, stopping, done := false, false, false;
    }

    method ClearTimer()
      modifies this`timer
      ensures timer == None
    {
      timer := None;
    }

    /** A transition threw: stop everything for good. */
    method Fatal()
      requires Supervising()
      modifies this, host`log, host`now
      ensures Valid() && done && stopping && old(host.log) <= host.log
      ensures !old(done) ==> timer == None
      ensures child == None && Within(old(host.now).(live := {}), host.now)
      ensures host.Still(old(host.now)) ==> host.now == old(host.now).(live := {})
    {
      if done {
        return;
      }
      done, stopping := true, true;
      ClearTimer();
      var c := child;
      child := None;
      if c.Some? {
        host.Terminate(c.value);
      }
    }

    /** A stop signal arrives: note it once and let no timer start anything new. */
    method RequestStop()
      requires Valid()
      modifies this`stopRequested, this`timer
      ensures Valid()
      ensures stopRequested == (old(stopRequested) || !stopping)
      ensures !old(stopRequested) && !stopping ==> timer == None
    {
      if stopRequested || stopping {
        return;
      }
      stopRequested := true;
      ClearTimer();
    }

    /** The queued part of a stop signal, after the transitions queued before it. */
    method Stop()
      requires Valid() && stopRequested
      modifies this, host`log, host`now
      ensures Valid() && old(host.log) <= host.log
      ensures stopping && done && child == None && Within(old(host.now).(live := {}), host.now)
      ensures host.Still(old(host.now)) ==> host.now == old(host.now).(live := {})
    {
      stopping := true;
      var c := child;
      child := None;
      if c.Some? {
        host.Terminate(c.value);
      }
      done := true;
    }

    /** Spawn a server of the given version, unless the launcher is stopping or the runtime is missing. */
    method StartChild(version: Version, r: Role) returns (ok: bool)
      requires Supervising() && child == None && state == host.now.disk.state && !stopping
      requires r == Active ==> !IsPending(state) && version == state.active
      requires r == Trial ==> HasBackup(host.now.disk) && !Marked(host.now.disk)
      requires r == Trial ==> version == PendingUpdate(state).target
      modifies this`child, this`role, this`timer, host`log, host`now, host`spawned
      ensures Supervising() && old(host.log) <= host.log
      ensures ok ==> Valid() && child == Some(Process(old(host.spawned), version)) && role == r
      ensures ok && r == Active ==> host.now == Apply(old(host.now), StartActive(child.value))
      ensures ok && r == Trial ==> host.now == Apply(old(host.now), StartTrial(child.value))
      ensures !ok ==> child == None && host.now == old(host.now)
      ensures host.spawned == if ok then old(host.spawned) + 1 else old(host.spawned)
      ensures timer == if ok && r == Trial then child else old(timer)
      ensures ok ==> version in host.installed
      ensures host.reliable ==> (ok <==> version in host.installed)
    {
      ok := host.RuntimeExists(version);
      if ok {
        ok := host.Attempt();
      }
      if ok {
        Spawn(version, r);
      }
    }

    /** Spawn it as the child. */
    method Spawn(version: Version, r: Role)
      requires Supervising() && child == None && state == host.now.disk.state && !stopping
      requires r == Active ==> !IsPending(state) && version == state.active
      requires r == Trial ==> HasBackup(host.now.disk) && !Marked(host.now.disk)
      requires r == Trial ==> version == PendingUpdate(state).target
      modifies this`child, this`role, this`timer, host`log, host`now, host`spawned
      ensures Valid() && old(host.log) <= host.log
      ensures child == Some(Process(old(host.spawned), version)) && role == r
      ensures host.spawned == old(host.spawned) + 1
      ensures host.now ==
              Apply(old(host.now), if r == Active then StartActive(child.value) else StartTrial(child.value))
      ensures timer == if r == Trial then child else old(timer)
    {
      var p := Process(host.spawned, version);
      host.spawned := host.spawned + 1;
      child, role := Some(p), r;
      ReachableInv(host.initial, host.log);
      if r == Trial {
        host.Do(StartTrial(p));
        timer := Some(p);
      } else {
        host.Do(StartActive(p));
      }
    }

    /** Finish the restore, record the outcome and drop the backup, with no server alive. */
    method SettleAsFailure(pending: Update, status: Status) returns (ok: bool)
      requires Supervising() && InSync() && !stopping && child == None
      requires IsPending(state) && PendingUpdate(state) == pending && status in {RolledBack, Failed}
      modifies this`state, host`log, host`now
      ensures Supervising() && old(host.log) <= host.log
      ensures ok ==> state == Settled(old(state), status) && InSync()
      ensures host.reliable ==> ok && pending.id !in host.now.disk.backups
      ensures ok ==> host.now.disk.db == if old(HasBackup(host.now.disk)) then old(PendingBackup(host.now.disk).files)
                                         else old(host.now.disk.db)
    {
      assert host.now.live == {};
      ok := host.RestoreDatabaseBackup(pending);
      if !ok {
        return;
      }
      ok := host.WriteServiceState(RecordFailure(status));
      if !ok {
        return;
      }
      state := Settled(state, status);
      var discarded := host.DiscardDatabaseBackup(pending.id);
    }

    /** Undo a pending update: stop the trial, finish the restore, record the outcome, start the previous version. */
    method ReturnToPrevious(pending: Update, status: Status) returns (ok: bool)
      requires Supervising() && InSync() && !stopping && IsPending(state) && PendingUpdate(state) == pending
      requires status in {RolledBack, Failed}
      modifies this, host`log, host`now, host`spawned
      ensures Supervising() && old(host.log) <= host.log
      ensures ok ==> Valid() && !stopping && Runs() && role == Active && child.value.version == pending.from
      ensures host.reliable ==> (ok <==> pending.from in host.installed)
      ensures host.reliable ==> pending.id !in host.now.disk.backups && state == Settled(old(state), status)
      ensures host.reliable && old(HasBackup(host.now.disk)) ==>
                host.now.disk.db == old(PendingBackup(host.now.disk).files)
      ensures host.reliable && !old(HasBackup(host.now.disk)) && host.Still(old(host.now)) ==>
                host.now.disk.db == old(host.now.disk.db)
      ensures timer == old(timer)
      ensures ok ==> state == Settled(old(state), status)
      ensures ok && old(HasBackup(host.now.disk)) ==> host.now.disk.db == old(PendingBackup(host.now.disk).files)
      ensures ok && !old(HasBackup(host.now.disk)) && host.Still(old(host.now)) ==>
                host.now.disk.db == old(host.now.disk.db)
    {
      if child.Some? {
        var c := child.value;
        child := None;
        host.Terminate(c);
      }
      ok := SettleAsFailure(pending, status);
      if ok {
        ok := StartChild(state.active, Active);
      }
    }

    /** A trial can be started: there is a backup or a database to make one of, and the runtime. */
    predicate CanTry(pending: Update)
      reads this, host
    {
      (HasBackup(host.now.disk) || Main in host.now.disk.db) && pending.target in host.installed
    }

    /** The failure of the update is recorded, its backup is gone, and the previous version runs if it is installed. */
    predicate GoesBack(before: ServiceState, pending: Update, ok: bool)
      requires IsPending(before)
      reads this, host
    {
      && state == Settled(before, Failed) && pending.id !in host.now.disk.backups
      && (ok <==> pending.from in host.installed)
      && (ok ==> Runs() && role == Active && child.value.version == pending.from)
    }

    /** Back up once, then start the trial; anything that fails leads back to the previous version. */
    method BeginOrRetryTrial(pending: Update) returns (ok: bool)
      requires Supervising() && InSync() && !stopping && child == None
      requires IsPending(state) && PendingUpdate(state) == pending && !Marked(host.now.disk)
      modifies this, host`log, host`now, host`spawned
      ensures Supervising() && old(host.log) <= host.log
      ensures ok ==> Valid() && !stopping && Runs()
      ensures ok ==> (role == Trial && child.value.version == pending.target && state == old(state)) ||
                     (role == Active && state == Settled(old(state), Failed))
      ensures ok && old(HasBackup(host.now.disk)) && role == Trial ==>
                host.now.disk.backups == old(host.now.disk.backups)
      ensures timer == if ok && role == Trial then child else old(timer)
      ensures host.reliable && old(CanTry(pending)) ==> ok && role == Trial
      ensures host.reliable && !old(CanTry(pending)) ==> GoesBack(old(state), pending, ok)
      ensures host.reliable && !old(CanTry(pending)) && old(HasBackup(host.now.disk)) ==>
                host.now.disk.db == old(PendingBackup(host.now.disk).files)
      ensures host.reliable && !old(CanTry(pending)) && !old(HasBackup(host.now.disk)) ==>
                host.now.disk.db == old(host.now.disk.db)
    {
      ok := host.BackupDatabaseOnce(pending);
      if !ok {
        ok := ReturnToPrevious(pending, Failed);
        return;
      }
      ok := StartChild(pending.target, Trial);
      if !ok {
        ok := ReturnToPrevious(pending, Failed);
      }
    }

    /** What a freshly started launcher does with the state record it finds. */
    method Recover() returns (ok: bool)
      requires Valid() && child == None && !stopping
      modifies this, host`log, host`now, host`spawned
      ensures Supervising() && old(host.log) <= host.log
      ensures ok ==> Valid() && !stopping && Runs()
      ensures ok && !old(IsPending(state)) ==>
                role == Active && state == old(state) && host.now.disk.db == old(host.now.disk.db)
      ensures ok && old(Marked(host.now.disk)) ==>
                && role == Active && state == Settled(old(state), Failed)
                && host.now.disk.db == old(PendingBackup(host.now.disk).files)
      ensures timer == if ok && role == Trial then child else old(timer)
      ensures host.reliable && !old(IsPending(state)) ==>
                && (ok <==> old(state.active) in host.installed)
                && (old(state).update.Some? ==> old(state).update.value.id !in host.now.disk.backups)
      ensures host.reliable && old(IsPending(state)) && !old(Marked(host.now.disk)) &&
              old(CanTry(PendingUpdate(state))) ==>
                ok && role == Trial && state == old(state)
      ensures host.reliable && old(IsPending(state)) &&
              (old(Marked(host.now.disk)) || !old(CanTry(PendingUpdate(state)))) ==>
                && GoesBack(old(state), PendingUpdate(old(state)), ok)
                && host.now.disk.db == (if old(HasBackup(host.now.disk)) then old(PendingBackup(host.now.disk).files)
                                        else old(host.now.disk.db))
    {
      if !IsPending(state) {
        if state.update.Some? {
          var discarded := host.DiscardDatabaseBackup(state.update.value.id);
        }
        ok := StartChild(state.active, Active);
        return;
      }
      var pending := PendingUpdate(state);
      var found;
      ok, found := host.PathExists(Marked(host.now.disk));
      if !ok {
        return;
      }
      if found {
        ok := ReturnToPrevious(pending, Failed);
        return;
      }
      var installed := host.RuntimeExists(pending.target);
      if !installed {
        ok := ReturnToPrevious(pending, Failed);
        return;
      }
      ok := BeginOrRetryTrial(pending);
    }

    /** The reason to refuse an update request that can be seen without looking for the runtime. */
    function Objection(target: Version, exact: bool, absolute: bool): (r: Option<Rejection>)
      requires child.Some?
      reads this
      ensures r == None <==> role == Active && child.value.version == state.active && !IsPending(state) && exact
                             && target.precedence > state.active.precedence && absolute
    {
      if role != Active then Some(NotActiveServer)
      else if child.value.version != state.active then Some(NotSelectedVersion)
      else if IsPending(state) then Some(AlreadyPending)
      else if !exact then Some(NotExactVersion)
      else if target.precedence <= child.value.version.precedence then Some(NotNewer)
      else if !absolute then Some(PathNotAbsolute)
      else None
    }

    /** Record the update, then tell the server; the trial begins after the handoff delay. */
    method AcceptRequest(target: Version) returns (ok: bool, id: UpdateId)
      requires Valid() && !stopping && child.Some? && role == Active && !IsPending(state)
      requires target.precedence > state.active.precedence
      modifies this`state, this`timer, host`log, host`now, host`nextId
      ensures Supervising() && old(host.log) <= host.log && (ok ==> Valid())
      ensures Enabled(old(host.now), AcceptUpdate(id, target))
      ensures host.reliable ==> ok && timer == child
      ensures ok ==> && state == old(state).(update := Some(Update(id, old(state.active), target, Pending)))
                     && Within(Apply(old(host.now), AcceptUpdate(id, target)), host.now)
                     && (host.quiet ==> host.now == Apply(old(host.now), AcceptUpdate(id, target)))
    {
      id := host.nextId;
      host.nextId := host.nextId + 1;
      ReachableInv(host.initial, host.log);
      ok := host.WriteServiceState(AcceptUpdate(id, target));
      if !ok {
        return;
      }
      state := state.(update := Some(Update(id, child.value.version, target, Pending)));
      ok := host.Attempt();
      if ok {
        timer := child;
      }
    }

    /** An update request is recorded unless there is an objection or the runtime is not installed. */
    method HandleUpdateRequest(target: Version, exact: bool, absolute: bool) returns (ok: bool, reply: Reply)
      requires Valid() && !stopping && child.Some?
      modifies this`state, this`timer, host`log, host`now, host`nextId
      ensures Supervising() && old(host.log) <= host.log && (ok ==> Valid())
      ensures reply.Rejected? ==> host.now == old(host.now) && state == old(state)
      ensures old(Objection(target, exact, absolute)).Some? ==>
                reply == Rejected(old(Objection(target, exact, absolute)).value)
      ensures host.reliable ==> ok
      ensures host.reliable && old(Objection(target, exact, absolute)).None? ==>
                if target in host.installed then reply.Accepted? && timer == child
                else reply == Rejected(RuntimeMissing)
      ensures old(Objection(target, exact, absolute)).None? ==>
                reply == Rejected(RuntimeMissing) || (reply.Accepted? &&
                  Enabled(old(host.now), AcceptUpdate(reply.id, target)))
      ensures ok && reply.Accepted? ==>
                && state == old(state).(update := Some(Update(reply.id, old(state.active), target, Pending)))
                && Within(Apply(old(host.now), AcceptUpdate(reply.id, target)), host.now)
                && (host.quiet ==> host.now == Apply(old(host.now), AcceptUpdate(reply.id, target)))
    {
      var objection := Objection(target, exact, absolute);
      if objection.None? {
        var installed := host.RuntimeExists(target);
        objection := if installed then None else Some(RuntimeMissing);
      }
      if objection.Some? {
        reply := Rejected(objection.value);
        ok := host.Attempt();
      } else {
        var id;
        ok, id := AcceptRequest(target);
        reply := Accepted(id);
      }
    }

    /** The handoff delay is over: stop the active server and start the trial. */
    method BeginTrial(c: Process) returns (ok: bool)
      requires Valid()
      modifies this, host`log, host`now, host`spawned
      ensures Supervising() && old(host.log) <= host.log && (ok ==> Valid())
      ensures old(child) != Some(c) || old(role) != Active || !old(IsPending(state)) ==>
                ok && unchanged(this) && unchanged(host)
      ensures host.reliable && old(child) == Some(c) && old(role) == Active && old(IsPending(state)) &&
              host.Still(old(host.now)) ==>
                if old(CanTry(PendingUpdate(state))) then
                  ok && Runs() && role == Trial && state == old(state) && timer == child
                else GoesBack(old(state), PendingUpdate(old(state)), ok) && timer == None
      ensures host.reliable && (old(IsPending(state)) ==> PendingUpdate(old(state)).from in host.installed) ==> ok
    {
      if child != Some(c) || role != Active || !IsPending(state) {
        return true;
      }
      timer := None;
      child := None;
      host.Terminate(c);
      ok := BeginOrRetryTrial(PendingUpdate(state));
    }

    /** Record the commit, make the trial the active server, drop the backup and tell the server. */
    method CommitUpdate(pending: Update) returns (ok: bool)
      requires Valid() && !stopping && child.Some? && role == Trial && PendingUpdate(state) == pending
      modifies this`state, this`role, this`timer, host`log, host`now
      ensures Supervising() && old(host.log) <= host.log && (ok ==> Valid())
      ensures ok ==> state == Settled(old(state), LauncherProtocol.Committed) && role == Active
      ensures timer == None && host.now.live <= old(host.now.live)
      ensures host.reliable ==> pending.id !in host.now.disk.backups
      ensures host.quiet ==> host.now.live == old(host.now.live) && host.now.disk.db == old(host.now.disk.db)
      ensures host.reliable ==> ok
    {
      ClearTimer();
      ok := host.WriteServiceState(Commit);
      if !ok {
        return;
      }
      state := Settled(state, LauncherProtocol.Committed);
      role := Active;
      var discarded := host.DiscardDatabaseBackup(pending.id);
      ok := host.Attempt();
    }

    /** A server reports that its update is prepared. */
    method HandlePrepared(updateId: UpdateId) returns (ok: bool, reply: Reply)
      requires Valid() && !stopping && child.Some?
      modifies this, host`log, host`now, host`spawned
      ensures Supervising() && old(host.log) <= host.log && (ok ==> Valid())
      ensures ok ==> old(role) == Trial
      ensures host.reliable && old(role) == Trial ==>
                (ok <==> updateId == old(PendingUpdate(state)).id || PendingUpdate(old(state)).from in host.installed)
      ensures host.reliable && old(role) == Trial ==> PendingUpdate(old(state)).id !in host.now.disk.backups
      ensures ok && updateId == old(PendingUpdate(state)).id ==>
                && reply == Reply.Committed(updateId) && state == Settled(old(state), LauncherProtocol.Committed)
                && timer == None && child == old(child) && role == Active && host.now.live <= old(host.now.live)
                && NoNewer(host.now.disk.db, state.active)
                && (host.quiet ==> host.now.live == old(host.now.live) && host.now.disk.db == old(host.now.disk.db))
      ensures ok && updateId != old(PendingUpdate(state)).id ==>
                && reply == Silent && state == Settled(old(state), RolledBack) && Runs() && role == Active
                && host.now.disk.db == old(PendingBackup(host.now.disk).files)
    {
      reply := Silent;
      if role != Trial {
        return false, reply;
      }
      var pending := PendingUpdate(state);
      if pending.id != updateId {
        ok := ReturnToPrevious(pending, RolledBack);
        return;
      }
      ok := CommitUpdate(pending);
      reply := Reply.Committed(pending.id);
      ReachableInv(host.initial, host.log);
    }

    method HandleMessage(c: Process, m: Message) returns (ok: bool, reply: Reply)
      requires Valid()
      modifies this, host`log, host`now, host`spawned, host`nextId
      ensures Supervising() && old(host.log) <= host.log && (ok ==> Valid())
      ensures old(child) != Some(c) || old(stopping) ==> ok && reply == Silent && unchanged(this) && unchanged(host)
      ensures host.reliable && old(child) == Some(c) && m.RequestUpdate? ==>
                && ok
                && (old(Objection(m.target, m.exact, m.absolute)).Some? ==>
                      reply == Rejected(old(Objection(m.target, m.exact, m.absolute)).value))
                && (old(Objection(m.target, m.exact, m.absolute)).None? ==>
                      if m.target in host.installed then reply.Accepted? && timer == child
                      else reply == Rejected(RuntimeMissing))
      ensures m.RequestUpdate? ==> child == old(child) && role == old(role)
      ensures ok && reply.Accepted? ==>
                && m.RequestUpdate?
                && state == old(state).(update := Some(Update(reply.id, old(state.active), m.target, Pending)))
      ensures old(child) == Some(c) && m.Prepared? && old(role) == Active ==> !ok
      ensures host.reliable && old(child) == Some(c) && m.Prepared? && old(role) == Trial &&
              m.updateId == PendingUpdate(old(state)).id ==>
                && ok && reply == Reply.Committed(m.updateId) && role == Active && child == old(child)
                && state == Settled(old(state), LauncherProtocol.Committed)
      ensures host.reliable && old(child) == Some(c) && m.Prepared? && old(role) == Trial &&
              m.updateId != PendingUpdate(old(state)).id && PendingUpdate(old(state)).from in host.installed ==>
                ok && reply == Silent && Runs() && role == Active && state == Settled(old(state), RolledBack)
    {
      if child != Some(c) || stopping {
        return true, Silent;
      }
      match m
      case RequestUpdate(target, exact, absolute) => ok, reply := HandleUpdateRequest(target, exact, absolute);
      case Prepared(id) => ok, reply := HandlePrepared(id);
    }

    /** The trial took too long. */
    method HandlePreparedTimeout(c: Process) returns (ok: bool)
      requires Valid()
      modifies this, host`log, host`now, host`spawned
      ensures Supervising() && old(host.log) <= host.log && (ok ==> Valid())
      ensures old(child) != Some(c) || old(role) != Trial ==> ok && unchanged(this) && unchanged(host)
      ensures ok && old(child) == Some(c) && old(role) == Trial ==>
                && state == Settled(old(state), RolledBack) && Runs() && role == Active && timer == None
                && host.now.disk.db == old(PendingBackup(host.now.disk).files)
      ensures host.reliable && old(child) == Some(c) && old(role) == Trial ==>
                && (ok <==> PendingUpdate(old(state)).from in host.installed)
                && state == Settled(old(state), RolledBack)
    {
      if child != Some(c) || role != Trial {
        return true;
      }
      timer := None;
      ok := ReturnToPrevious(PendingUpdate(state), RolledBack);
    }

    /** A child has exited; it is no longer alive when this event is handled. */
    method HandleExit(c: Process) returns (ok: bool)
      requires Valid() && c !in host.now.live
      modifies this, host`log, host`now, host`spawned
      ensures Supervising() && old(host.log) <= host.log && (ok ==> Valid())
      ensures old(child) != Some(c) ==> ok && unchanged(this) && unchanged(host)
      ensures ok && old(child) == Some(c) && old(role) == Trial ==>
                && state == Settled(old(state), RolledBack) && Runs() && role == Active && timer == None
                && host.now.disk.db == old(PendingBackup(host.now.disk).files)
      ensures ok && old(child) == Some(c) && old(role) == Active ==> old(IsPending(state)) && Runs()
      ensures host.reliable && old(child) == Some(c) && old(role) == Trial ==>
                && (ok <==> PendingUpdate(old(state)).from in host.installed)
                && state == Settled(old(state), RolledBack)
      ensures host.reliable && old(child) == Some(c) && old(role) == Active && old(IsPending(state)) ==>
                if old(CanTry(PendingUpdate(state))) then
                  ok && Runs() && role == Trial && state == old(state) && timer == child
                else GoesBack(old(state), PendingUpdate(old(state)), ok)
    {
      if child != Some(c) || stopping {
        return true;
      }
      child := None;
      ClearTimer();
      if role == Trial {
        ok := ReturnToPrevious(PendingUpdate(state), RolledBack);
      } else if IsPending(state) {
        ok := BeginOrRetryTrial(PendingUpdate(state));
      } else {
        ok := false;
      }
    }

    /** Run one queued transition; one that throws ends the launcher. */
    method Handle(e: Event)
      requires Valid() && (e.Exited? ==> e.child !in host.now.live)
      modifies this, host`log, host`now, host`spawned, host`nextId
      ensures Valid() && old(host.log) <= host.log
      ensures !e.StopSignal? && !e.StopDue? && !e.Errored? && old(child) != Some(e.child) ==>
                unchanged(this) && unchanged(host)
      ensures e.Errored? ==> done
      ensures e.Exited? && old(child) == Some(e.child) && old(role) == Active && !old(IsPending(state)) ==> done
      ensures host.reliable && (e.Exited? || e.PreparedTimeout?) && old(child) == Some(e.child) &&
              old(role) == Trial && PendingUpdate(old(state)).from in host.installed ==>
                Runs() && role == Active && state == Settled(old(state), RolledBack)
      ensures host.reliable && e.FromChild? && old(child) == Some(e.child) && e.message.Prepared? &&
              old(role) == Trial && e.message.updateId == PendingUpdate(old(state)).id ==>
                child == old(child) && role == Active && state == Settled(old(state), LauncherProtocol.Committed)
      ensures host.reliable && e.FromChild? && old(child) == Some(e.child) && e.message.RequestUpdate? &&
              e.message.target in host.installed &&
              old(Objection(e.message.target, e.message.exact, e.message.absolute)).None? ==>
                IsPending(state) && PendingUpdate(state).target == e.message.target && timer == child == old(child)
      ensures host.reliable && host.Still(old(host.now)) && e.HandoffDue? && old(child) == Some(e.child) &&
              old(role) == Active && old(IsPending(state)) && old(CanTry(PendingUpdate(state))) ==>
                Runs() && role == Trial && state == old(state) && timer == child
      ensures host.reliable && e.Exited? && old(child) == Some(e.child) && old(role) == Active &&
              old(IsPending(state)) && old(CanTry(PendingUpdate(state))) ==>
                Runs() && role == Trial && state == old(state) && timer == child
      ensures e.StopDue? && !old(stopRequested) ==> unchanged(this) && unchanged(host)
      ensures e.StopSignal? ==> stopRequested == (old(stopRequested) || !old(stopping)) && unchanged(host)
      ensures e.StopDue? && old(stopRequested) ==> done && Within(old(host.now).(live := {}), host.now)
    {
      var ok := true;
      match e {
        case FromChild(c, m) =>
          var reply;
          ok, reply := HandleMessage(c, m);
        case HandoffDue(c) => ok := BeginTrial(c);
        case PreparedTimeout(c) => ok := HandlePreparedTimeout(c);
        case Exited(c) => ok := HandleExit(c);
        case Errored(_) => ok := false;
        case StopSignal => RequestStop();
        case StopDue =>
          if stopRequested {
            Stop();
          }
      }
      if !ok {
        Fatal();
      }
    }

    /** The server at work, between two transitions of the launcher. */
    method Disturb(d: Disturbance)
      requires Valid()
      modifies host`log, host`now
      ensures Valid() && old(host.log) <= host.log
    {
      if child == None || child.value !in host.now.live {
        return;
      }
      var p := child.value;
      match d
      case Wrote(s, n) => host.Perform(ChildWrites(p, s, n));
      case Removed(s) => host.Perform(ChildRemoves(p, s));
      case Ended => host.Perform(ProcessExits(p));
      case Nothing =>
    }
  }

  /** One round of a schedule: installed versions, server activity, an event, and perhaps the launcher's death. */
  datatype Round = Round(installed: set<Version>, disturbance: Disturbance, event: Event, death: Option<nat>)

  /** A new launcher process takes over a host on which nothing is running any more. */
  method StartLauncher(host: Host) returns (launcher: Launcher)
    requires host.Valid() && host.now.live == {}
    modifies host`log, host`now, host`spawned
    ensures launcher.Valid() && launcher.host == host && fresh(launcher) && old(host.log) <= host.log
    ensures host.reliable && old(host.now.disk.state.active) in host.installed ==> launcher.Runs() && !launcher.stopping
  {
    ReachableInv(host.initial, host.log);
    launcher := new Launcher(host);
    var recovered := launcher.Recover();
    if !recovered {
      launcher.Fatal();
    }
  }

  /**
   The whole service under any schedule.  A launcher recovers and handles events; a death
   strikes after any number of the actions made since that launcher began, its own recovery
   included, and a new launcher takes over.  Whatever the schedule, the log is a run of the protocol.
   */
  method Serve(host: Host, schedule: seq<Round>)
    requires host.Valid() && host.now.live == {}
    modifies host
    ensures host.Valid() && Legal(host.initial, host.log) && Replay(host.initial, host.log) == host.now
    ensures forall p, q :: p in host.now.live && q in host.now.live ==> p == q
  {
    var began: nat := |host.log|;
    var launcher := StartLauncher(host);
    for i := 0 to |schedule|
      invariant launcher.Valid() && launcher.host == host && fresh(launcher) && began <= |host.log|
    {
      host.installed := schedule[i].installed;
      launcher.Disturb(schedule[i].disturbance);
      var e := schedule[i].event;
      if !(e.Exited? && e.child in host.now.live) {
        launcher.Handle(e);
      }
      if schedule[i].death.Some? {
        var kept := began + schedule[i].death.value;
        host.DieAfter(if kept <= |host.log| then kept else |host.log|);
        began := |host.log|;
        launcher := StartLauncher(host);
      }
    }
    ReachableInv(host.initial, host.log);
  }

  lemma EverySuffixListed(s: Suffix)
    ensures s in SUFFIXES[..|SUFFIXES|]
  {
    assert SUFFIXES[..|SUFFIXES|] == [Main, Wal, Shm];
    match s
    case Main => assert SUFFIXES[0] == s;
    case Wal => assert SUFFIXES[1] == s;
    case Shm => assert SUFFIXES[2] == s;
  }

  lemma {:induction false} UsedOnlyGrows(w0: World, log: seq<Action>, i: nat, j: nat)
    requires Legal(w0, log) && i <= j <= |log|
    ensures At(w0, log, i).history.used <= At(w0, log, j).history.used
    decreases j
  {
    if i < j {
      UsedOnlyGrows(w0, log, i, j - 1);
      AtNext(w0, log, j - 1);
    }
  }
}
