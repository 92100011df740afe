/**
 Starting and stopping the local daemon by many processes at once: each contender takes
 its steps through the launch lock, and while it is inside, through the body of a start or
 a stop.  Steps of contenders, daemons and bystanders interleave freely.
 */
module DaemonProtocol {
  import opened LaunchLock
  import opened LocalDaemon
  import opened Wrappers

  /** Where the body of a start or stop is.  What was read may be out of date by the next step. */
  datatype Body =
    | Fresh
    | Looked(found: Discovery)
    | PortFree(found: Discovery)
    | Attached(daemon: Daemon)
    | Signalled(daemon: Daemon)
    | Gone(daemon: Daemon)
    | Cleared
    | Spawned(daemon: Daemon)
    | GivingUp(daemon: Daemon)
    | Finished

  datatype Root = Root(
    lock: LaunchLock.World,
    bodies: map<Owner, Body>,
    record: Discovery,
    live: set<Daemon>,
    foreignPorts: set<Port>)

  datatype Move =
    | LockStep(step: Step)
    | Look(owner: Owner)
    | Attach(owner: Owner)           // the recorded daemon answers with its own identity
    | ProbePort(owner: Owner)        // the recorded port can be listened on
    | RemoveRecord(owner: Owner)
    | Signal(owner: Owner)
    | SeeGone(owner: Owner)
    | ForgetRecord(owner: Owner)
    | Spawn(owner: Owner, daemon: Daemon)
    | SeeReady(owner: Owner)
    | Terminate(owner: Owner)        // the daemon did not get ready
    | Finish(owner: Owner)           // done, or given up where nothing was spawned
    | DaemonRecords(daemon: Daemon)
    | DaemonDies(daemon: Daemon)
    | PortTaken(port: Port)
    | PortLeft(port: Port)
    | RecordOverwritten(record: Discovery)

  predicate CanListen(w: Root, port: Port) {
    port !in w.foreignPorts && forall d <- w.live :: d.port != port
  }

  /** The port a record names, if any, can be listened on. */
  predicate PortOfRecordFree(w: Root, found: Discovery) {
    match found
    case NoRecord => true
    case Unusable(port) => port.Some? ==> CanListen(w, port.value)
    case Recorded(daemon) => CanListen(w, daemon.port)
  }

  predicate InBody(w: Root, o: Owner) {
    LaunchLock.At(w.lock, o, LaunchLock.InBody) && o in w.bodies
  }

  predicate Enabled(w: Root, m: Move) {
    match m
    case LockStep(step) =>
      && LaunchLock.Enabled(w.lock, step)
      && (step.LeaveBody? ==> InBody(w, step.owner) && w.bodies[step.owner] == Finished)
    case Look(o) => InBody(w, o) && w.bodies[o] == Fresh
    case Attach(o) =>
      InBody(w, o) && w.bodies[o].Looked? && w.bodies[o].found.Recorded? && w.bodies[o].found.daemon in w.live
    case ProbePort(o) => InBody(w, o) && w.bodies[o].Looked? && PortOfRecordFree(w, w.bodies[o].found)
    case RemoveRecord(o) => InBody(w, o) && w.bodies[o].PortFree?
    case Signal(o) => InBody(w, o) && w.bodies[o].Attached?
    case SeeGone(o) => InBody(w, o) && w.bodies[o].Signalled? && w.bodies[o].daemon !in w.live
    case ForgetRecord(o) => InBody(w, o) && w.bodies[o].Gone?
    case Spawn(o, d) => InBody(w, o) && w.bodies[o] == Cleared && d.port !in w.foreignPorts
    case SeeReady(o) =>
      InBody(w, o) && w.bodies[o].Spawned? && w.bodies[o].daemon in w.live && w.record == Recorded(w.bodies[o].daemon)
    case Terminate(o) => InBody(w, o) && w.bodies[o].Spawned?
    case Finish(o) =>
      InBody(w, o) && !w.bodies[o].Spawned? && (w.bodies[o].GivingUp? ==> w.bodies[o].daemon !in w.live)
    case DaemonRecords(d) => d in w.live
    case DaemonDies(d) => d in w.live
    case PortTaken(port) => CanListen(w, port)
    case PortLeft(_) => true
    case RecordOverwritten(_) => w.live == {}
  }

  function Goto(w: Root, o: Owner, body: Body): Root {
    w.(bodies := w.bodies[o := body])
  }

  function Apply(w: Root, m: Move): Root
    requires Enabled(w, m)
  {
    match m
    case LockStep(step) =>
      w.(lock := LaunchLock.Apply(w.lock, step),
         bodies := if step.Write? then w.bodies[step.owner := Fresh] else w.bodies)
    case Look(o) => Goto(w, o, Looked(w.record))
    case Attach(o) => Goto(w, o, Attached(w.bodies[o].found.daemon))
    case ProbePort(o) =>
      Goto(w, o, if w.bodies[o].found == NoRecord then Cleared
                 else if w.bodies[o].found == Unusable(None) then Finished else PortFree(w.bodies[o].found))
    case RemoveRecord(o) => Goto(w, o, Cleared).(record := NoRecord)
    case Signal(o) => Goto(w, o, Signalled(w.bodies[o].daemon))
    case SeeGone(o) => Goto(w, o, Gone(w.bodies[o].daemon))
    case ForgetRecord(o) =>
      Goto(w, o, Cleared).(record := if w.record == Recorded(w.bodies[o].daemon) then NoRecord else w.record)
    case Spawn(o, d) => Goto(w, o, Spawned(d)).(live := w.live + {d})
    case SeeReady(o) => Goto(w, o, Finished)
    case Terminate(o) => Goto(w, o, GivingUp(w.bodies[o].daemon))
    case Finish(o) => Goto(w, o, Finished)
    case DaemonRecords(d) => w.(record := Recorded(d))
    case DaemonDies(d) => w.(live := w.live - {d})
    case PortTaken(port) => w.(foreignPorts := w.foreignPorts + {port})
    case PortLeft(port) => w.(foreignPorts := w.foreignPorts - {port})
    case RecordOverwritten(record) => w.(record := record)
  }

  predicate IsRun(w: Root, moves: seq<Move>)
    decreases |moves|
  {
    moves == [] || (Enabled(w, moves[0]) && IsRun(Apply(w, moves[0]), moves[1..]))
  }

  function After(w: Root, moves: seq<Move>): Root
    requires IsRun(w, moves)
    decreases |moves|
  {
    if moves == [] then w else After(Apply(w, moves[0]), moves[1..])
  }

  /** No process that had recorded its pid in the lock exits. */
  predicate HoldersStay(w: Root, moves: seq<Move>)
    requires IsRun(w, moves)
    decreases |moves|
  {
    moves == [] || (
      && (moves[0].LockStep? && moves[0].step.Exit? ==> moves[0].step.pid !in w.lock.recorded)
      && HoldersStay(Apply(w, moves[0]), moves[1..]))
  }

  /** A free lock, and a live daemon only if it is the recorded one and holds its port. */
  predicate Init(w: Root) {
    && LaunchLock.Init(w.lock) && w.bodies == map[]
    && forall d <- w.live :: w.record == Recorded(d) && d.port !in w.foreignPorts
  }

  // ---------------------------------------------------------------------------
  // One live daemon

  /** Contender o has spawned this daemon and not yet seen the end of that. */
  predicate Starting(w: Root, o: Owner, d: Daemon) {
    Inside(w.lock, o) && o in w.bodies && (w.bodies[o] == Spawned(d) || w.bodies[o] == GivingUp(d))
  }

  /** A live daemon is the recorded one, or the one being started; and it holds its port. */
  predicate Accounted(w: Root) {
    forall d <- w.live :: d.port !in w.foreignPorts && (w.record == Recorded(d) ||
      exists o <- w.bodies :: Starting(w, o, d))
  }

  /** What the body of a start or stop may rely on at each point, whatever the others do. */
  predicate BodyKnows(w: Root, body: Body) {
    match body
    case Fresh => true
    case Looked(found) => forall d <- w.live :: found == Recorded(d)
    case PortFree(_) => w.live == {}
    case Attached(d) => w.live <= {d}
    case Signalled(d) => w.live <= {d}
    case Gone(_) => w.live == {}
    case Cleared => w.live == {}
    case Spawned(d) => w.live <= {d}
    case GivingUp(d) => w.live <= {d}
    case Finished => true
  }

  predicate BodiesKnow(w: Root) {
    forall o <- w.lock.stages :: Inside(w.lock, o) ==>
      && o in w.bodies && BodyKnows(w, w.bodies[o])
      && (w.lock.stages[o] != LaunchLock.InBody ==> w.bodies[o] == Finished)
  }

  predicate AtMostOne(w: Root) {
    forall d, e :: d in w.live && e in w.live ==> d == e
  }

  predicate Inv(w: Root) {
    LaunchLock.Inv(w.lock) && Accounted(w) && BodiesKnow(w) && AtMostOne(w)
  }

  lemma OneInside(w: Root, o1: Owner, o2: Owner)
    requires LaunchLock.Inv(w.lock) && Inside(w.lock, o1) && Inside(w.lock, o2)
    ensures o1 == o2
  {
    assert AtItsFile(w.lock, o1) && AtItsFile(w.lock, o2);
  }

  /** While the contender inside is not starting a daemon, a live daemon is the recorded one. */
  lemma RecordHolds(w: Root, o: Owner, d: Daemon)
    requires Inv(w) && Inside(w.lock, o) && !Starting(w, o, d) && d in w.live
    ensures w.record == Recorded(d)
  {
    if o' :| o' in w.bodies && Starting(w, o', d) {
      OneInside(w, o, o');
    }
  }

  /** Steps of the body of contender o. */
  predicate ByBody(m: Move, o: Owner) {
    match m
    case Look(o') => o' == o
    case Attach(o') => o' == o
    case ProbePort(o') => o' == o
    case RemoveRecord(o') => o' == o
    case Signal(o') => o' == o
    case SeeGone(o') => o' == o
    case ForgetRecord(o') => o' == o
    case Spawn(o', _) => o' == o
    case SeeReady(o') => o' == o
    case Terminate(o') => o' == o
    case Finish(o') => o' == o
    case _ => false
  }

  /** What a body knows after its own step is right. */
  lemma BodyLearns(w: Root, m: Move, o: Owner)
    requires Inv(w) && Enabled(w, m) && ByBody(m, o)
    ensures InBody(w, o) && BodyKnows(Apply(w, m), Apply(w, m).bodies[o])
  {
    assert Inside(w.lock, o) && BodyKnows(w, w.bodies[o]);
    if m.Look? {
      forall d <- w.live
        ensures w.record == Recorded(d)
      {
        RecordHolds(w, o, d);
      }
    }
  }

  /** What another one's step leaves of it. */
  lemma BodyKeeps(w: Root, m: Move, body: Body)
    requires Enabled(w, m) && BodyKnows(w, body) && !m.Spawn?
    ensures BodyKnows(Apply(w, m), body)
  {
    assert Apply(w, m).live <= w.live;
  }

  lemma StepKeepsBodies(w: Root, m: Move)
    requires Inv(w) && Enabled(w, m) && LaunchLock.Inv(Apply(w, m).lock)
    ensures BodiesKnow(Apply(w, m))
  {
    var w' := Apply(w, m);
    forall o <- w'.lock.stages | Inside(w'.lock, o)
      ensures o in w'.bodies && BodyKnows(w', w'.bodies[o])
      ensures w'.lock.stages[o] != LaunchLock.InBody ==> w'.bodies[o] == Finished
    {
      if ByBody(m, o) {
        BodyLearns(w, m, o);
      } else if m.LockStep? {
        if m.step.Write? && m.step.owner == o {
          assert w'.bodies[o] == Fresh;
        } else {
          assert Inside(w.lock, o);
          BodyKeeps(w, m, w.bodies[o]);
        }
      } else if m.Spawn? {
        OneInside(w, o, m.owner);
      } else {
        BodyKeeps(w, m, w.bodies[o]);
      }
    }
  }

  /** A daemon being started stays so through every step but the end of it. */
  lemma StartingStays(w: Root, m: Move, o: Owner, d: Daemon)
    requires Inv(w) && Enabled(w, m) && Starting(w, o, d)
    ensures Starting(Apply(w, m), o, d) || w.record == Recorded(d) || d !in w.live
  {
    if ByBody(m, o) {
      assert BodyKnows(w, w.bodies[o]);
    }
  }

  lemma StepKeepsAccounted(w: Root, m: Move)
    requires Inv(w) && Enabled(w, m)
    ensures Accounted(Apply(w, m))
  {
    var w' := Apply(w, m);
    forall d <- w'.live
      ensures d.port !in w'.foreignPorts
      ensures w'.record == Recorded(d) || exists o <- w'.bodies :: Starting(w', o, d)
    {
      if m.Spawn? && m.daemon == d {
        assert Starting(w', m.owner, d);
      } else {
        StaysAccounted(w, m, d);
      }
    }
  }

  lemma StaysAccounted(w: Root, m: Move, d: Daemon)
    requires Inv(w) && Enabled(w, m) && d in w.live && d in Apply(w, m).live
    ensures d.port !in Apply(w, m).foreignPorts
    ensures Apply(w, m).record == Recorded(d) || exists o <- Apply(w, m).bodies :: Starting(Apply(w, m), o, d)
  {
    RecordStays(w, m);
    if w.record != Recorded(d) {
      var o :| o in w.bodies && Starting(w, o, d);
      StartingStays(w, m, o, d);
      assert Starting(Apply(w, m), o, d) && o in Apply(w, m).bodies;
    }
  }

  /** The record of a live daemon is only ever replaced by the record of a live daemon. */
  lemma RecordStays(w: Root, m: Move)
    requires Inv(w) && Enabled(w, m)
    ensures forall d <- w.live :: w.record == Recorded(d) ==> Apply(w, m).record == Recorded(d)
  {
    if m.RemoveRecord? || m.ForgetRecord? {
      assert Inside(w.lock, m.owner) && BodyKnows(w, w.bodies[m.owner]);
    }
  }

  lemma StepKeepsAtMostOne(w: Root, m: Move)
    requires Inv(w) && Enabled(w, m)
    ensures AtMostOne(Apply(w, m))
  {
    if m.Spawn? {
      assert Inside(w.lock, m.owner) && BodyKnows(w, w.bodies[m.owner]);
    }
  }

  lemma StepKeepsInv(w: Root, m: Move)
    requires Inv(w) && Enabled(w, m) && (m.LockStep? && m.step.Exit? ==> m.step.pid !in w.lock.recorded)
    ensures Inv(Apply(w, m))
  {
    if m.LockStep? {
      StepKeepsExclusive(w.lock, m.step);
      StepKeepsWitnessed(w.lock, m.step);
    }
    StepKeepsBodies(w, m);
    StepKeepsAccounted(w, m);
    StepKeepsAtMostOne(w, m);
  }

  lemma {:induction false} RunsKeepInv(w: Root, moves: seq<Move>)
    requires Inv(w) && IsRun(w, moves) && HoldersStay(w, moves)
    ensures Inv(After(w, moves))
    decreases |moves|
  {
    if moves != [] {
      StepKeepsInv(w, moves[0]);
      RunsKeepInv(Apply(w, moves[0]), moves[1..]);
    }
  }

  /**
   However many processes start and stop the daemon at once, and however their steps
   interleave, at most one managed daemon is alive, if no process that recorded its pid in
   the lock exits; and once nobody is inside the lock it is the recorded one.
   */
  lemma OneLiveDaemon(w: Root, moves: seq<Move>, d: Daemon, e: Daemon)
    requires Init(w) && IsRun(w, moves) && HoldersStay(w, moves)
    requires d in After(w, moves).live && e in After(w, moves).live
    ensures d == e
    ensures (forall o <- After(w, moves).lock.stages :: !Inside(After(w, moves).lock, o)) ==>
              After(w, moves).record == Recorded(d)
  {
    RunsKeepInv(w, moves);
  }

  // ---------------------------------------------------------------------------
  // What a start and a stop get to

  ghost predicate CanReach(w: Root, goal: Root) {
    exists moves :: IsRun(w, moves) && After(w, moves) == goal
  }

  lemma OneMove(w: Root, m: Move, next: Root, goal: Root)
    requires Enabled(w, m) && Apply(w, m) == next && CanReach(next, goal)
    ensures CanReach(w, goal)
  {
    var moves :| IsRun(next, moves) && After(next, moves) == goal;
    assert ([m] + moves)[1..] == moves;
    assert IsRun(w, [m] + moves) && After(w, [m] + moves) == goal;
  }

  /** Contender o, of process p, at this stage of the lock and point of its body; the lock file is its own. */
  function Holding(w: Root, o: Owner, p: Pid, stage: Stage, body: Body): Root {
    w.(lock := w.lock.(file := Written(LockRecord(o, p)), stages := w.lock.stages[o := stage],
                       pids := w.lock.pids[o := p], recorded := w.lock.recorded + {p}),
       bodies := w.bodies[o := body])
  }

  /** The contender is through, and the lock is free. */
  function Left(w: Root, o: Owner, p: Pid): Root {
    w.(lock := w.lock.(file := Missing, stages := w.lock.stages[o := Over], pids := w.lock.pids[o := p],
                       recorded := w.lock.recorded + {p}),
       bodies := w.bodies[o := Finished])
  }

  lemma BodyMoves(w: Root, o: Owner, p: Pid, body: Body, next: Body)
    ensures Goto(Holding(w, o, p, LaunchLock.InBody, body), o, next) == Holding(w, o, p, LaunchLock.InBody, next)
  {
    assert w.bodies[o := body][o := next] == w.bodies[o := next];
  }

  lemma StageMoves(w: Root, o: Owner, p: Pid, stage: Stage, step: Step, next: Stage, goal: Root)
    requires var u := Holding(w, o, p, stage, Finished);
             && Enabled(u, LockStep(step)) && !step.Write?
             && LaunchLock.Apply(u.lock, step) == LaunchLock.Goto(u.lock, o, next)
    requires CanReach(Holding(w, o, p, next, Finished), goal)
    ensures CanReach(Holding(w, o, p, stage, Finished), goal)
  {
    assert w.lock.stages[o := stage][o := next] == w.lock.stages[o := next];
    OneMove(Holding(w, o, p, stage, Finished), LockStep(step), Holding(w, o, p, next, Finished), goal);
  }

  lemma CanUnlink(w: Root, o: Owner, p: Pid)
    requires p in w.lock.alive
    ensures CanReach(Holding(w, o, p, Unlinking, Finished), Left(w, o, p))
  {
    assert w.lock.stages[o := Unlinking][o := Over] == w.lock.stages[o := Over];
    assert IsRun(Left(w, o, p), []);
    OneMove(Holding(w, o, p, Unlinking, Finished), LockStep(Unlink(o)), Left(w, o, p), Left(w, o, p));
  }

  lemma CanRelease(w: Root, o: Owner, p: Pid)
    requires p in w.lock.alive
    ensures CanReach(Holding(w, o, p, Releasing, Finished), Left(w, o, p))
  {
    CanUnlink(w, o, p);
    StageMoves(w, o, p, Releasing, CheckOwner(o), Unlinking, Left(w, o, p));
  }

  lemma CanLeave(w: Root, o: Owner, p: Pid)
    requires p in w.lock.alive
    ensures CanReach(Holding(w, o, p, LaunchLock.InBody, Finished), Left(w, o, p))
  {
    CanRelease(w, o, p);
    StageMoves(w, o, p, LaunchLock.InBody, LeaveBody(o), Releasing, Left(w, o, p));
  }

  lemma CanEnter(w: Root, o: Owner, p: Pid, goal: Root)
    requires w.lock.file == Missing && Newcomer(w.lock, o, p)
    requires CanReach(Holding(w, o, p, LaunchLock.InBody, Fresh), goal)
    ensures CanReach(w, goal)
  {
    var arrived := Apply(w, LockStep(Arrive(o, p)));
    var created := Apply(arrived, LockStep(Create(o)));
    assert created.lock.stages == w.lock.stages[o := Writing];
    assert created.lock.stages[o := LaunchLock.InBody] == w.lock.stages[o := LaunchLock.InBody];
    OneMove(created, LockStep(Write(o)), Holding(w, o, p, LaunchLock.InBody, Fresh), goal);
    OneMove(arrived, LockStep(Create(o)), created, goal);
    OneMove(w, LockStep(Arrive(o, p)), arrived, goal);
  }

  lemma BodyMove(w: Root, o: Owner, p: Pid, body: Body, m: Move, w': Root, next: Body, goal: Root)
    requires var u := Holding(w, o, p, LaunchLock.InBody, body);
             && Enabled(u, m) && ByBody(m, o)
             && Apply(u, m) == Goto(u, o, next).(record := w'.record, live := w'.live)
    requires w' == w.(record := w'.record, live := w'.live)
    requires CanReach(Holding(w', o, p, LaunchLock.InBody, next), goal)
    ensures CanReach(Holding(w, o, p, LaunchLock.InBody, body), goal)
  {
    BodyMoves(w, o, p, body, next);
    OneMove(Holding(w, o, p, LaunchLock.InBody, body), m, Holding(w', o, p, LaunchLock.InBody, next), goal);
  }

  lemma CanRecord(w: Root, o: Owner, p: Pid, d: Daemon)
    requires p in w.lock.alive && d in w.live
    ensures var ready := w.(record := Recorded(d));
            CanReach(Holding(w, o, p, LaunchLock.InBody, Spawned(d)), Left(ready, o, p))
  {
    var ready := w.(record := Recorded(d));
    CanLeave(ready, o, p);
    BodyMove(ready, o, p, Spawned(d), SeeReady(o), ready, Finished, Left(ready, o, p));
    OneMove(Holding(w, o, p, LaunchLock.InBody, Spawned(d)), DaemonRecords(d),
            Holding(ready, o, p, LaunchLock.InBody, Spawned(d)), Left(ready, o, p));
  }

  /** With the data root cleared a daemon is spawned, records itself and is seen to be ready. */
  lemma CanSpawn(w: Root, o: Owner, p: Pid, d: Daemon)
    requires p in w.lock.alive && w.live == {} && w.record == NoRecord && d.port !in w.foreignPorts
    ensures CanReach(Holding(w, o, p, LaunchLock.InBody, Cleared), Left(w.(record := Recorded(d), live := {d}), o, p))
  {
    var spawned := w.(live := {d});
    var ready := spawned.(record := Recorded(d));
    CanRecord(spawned, o, p, d);
    assert ready == w.(record := Recorded(d), live := {d});
    BodyMove(w, o, p, Cleared, Spawn(o, d), spawned, Spawned(d), Left(ready, o, p));
  }

  /**
   The guards do not rule the work out: a newcomer to a free lock can start a daemon where none is alive,
   whatever stale record is there, as long as its port is free, and leave it recorded and the lock free.
   */
  lemma StartSucceeds(w: Root, o: Owner, p: Pid, d: Daemon)
    requires w.lock.file == Missing && Newcomer(w.lock, o, p) && w.live == {} && d.port !in w.foreignPorts
    requires w.record.Recorded? ==> w.record.daemon.port !in w.foreignPorts
    requires w.record.Unusable? ==> w.record.port.Some? && w.record.port.value !in w.foreignPorts
    ensures CanReach(w, Left(w.(record := Recorded(d), live := {d}), o, p))
  {
    var goal := Left(w.(record := Recorded(d), live := {d}), o, p);
    var clear := w.(record := NoRecord);
    CanSpawn(clear, o, p, d);
    if w.record == NoRecord {
      BodyMove(w, o, p, Looked(w.record), ProbePort(o), w, Cleared, goal);
    } else {
      BodyMove(w, o, p, PortFree(w.record), RemoveRecord(o), clear, Cleared, goal);
      BodyMove(w, o, p, Looked(w.record), ProbePort(o), w, PortFree(w.record), goal);
    }
    BodyMove(w, o, p, Fresh, Look(o), w, Looked(w.record), goal);
    CanEnter(w, o, p, goal);
  }

  lemma CanForget(w: Root, o: Owner, p: Pid, d: Daemon, goal: Root)
    requires p in w.lock.alive && w.live == {} && w.record == Recorded(d)
    requires CanReach(Holding(w.(record := NoRecord), o, p, LaunchLock.InBody, Cleared), goal)
    ensures CanReach(Holding(w, o, p, LaunchLock.InBody, Signalled(d)), goal)
  {
    BodyMove(w, o, p, Gone(d), ForgetRecord(o), w.(record := NoRecord), Cleared, goal);
    BodyMove(w, o, p, Signalled(d), SeeGone(o), w, Gone(d), goal);
  }

  /** A body that found a record naming no port ends there and touches nothing. */
  lemma UnlocatableStays(w: Root, m: Move, o: Owner)
    requires Enabled(w, m) && ByBody(m, o) && w.bodies[o] == Looked(Unusable(None))
    ensures Apply(w, m).bodies[o] == Finished && Apply(w, m).record == w.record && Apply(w, m).live == w.live
  {
  }

  /** The recorded daemon can be stopped; then neither it nor its record is left. */
  lemma CanStop(w: Root, o: Owner, p: Pid, d: Daemon, goal: Root)
    requires p in w.lock.alive && w.live == {d} && w.record == Recorded(d)
    requires CanReach(Holding(w.(record := NoRecord, live := {}), o, p, LaunchLock.InBody, Cleared), goal)
    ensures CanReach(Holding(w, o, p, LaunchLock.InBody, Fresh), goal)
  {
    var dead := w.(live := {});
    CanForget(dead, o, p, d, goal);
    OneMove(Holding(w, o, p, LaunchLock.InBody, Signalled(d)), DaemonDies(d),
            Holding(dead, o, p, LaunchLock.InBody, Signalled(d)), goal);
    BodyMove(w, o, p, Attached(d), Signal(o), w, Signalled(d), goal);
    BodyMove(w, o, p, Looked(w.record), Attach(o), w, Attached(d), goal);
    BodyMove(w, o, p, Fresh, Look(o), w, Looked(w.record), goal);
  }

  /** So a newcomer can stop it, or replace it by one on another port. */
  lemma StopSucceeds(w: Root, o: Owner, p: Pid, d: Daemon)
    requires w.lock.file == Missing && Newcomer(w.lock, o, p) && w.live == {d} && w.record == Recorded(d)
    ensures CanReach(w, Left(w.(record := NoRecord, live := {}), o, p))
  {
    var clear := w.(record := NoRecord, live := {});
    CanLeave(clear, o, p);
    BodyMove(clear, o, p, Cleared, Finish(o), clear, Finished, Left(clear, o, p));
    CanStop(w, o, p, d, Left(clear, o, p));
    CanEnter(w, o, p, Left(clear, o, p));
  }

  lemma ReplaceSucceeds(w: Root, o: Owner, p: Pid, d: Daemon, e: Daemon)
    requires w.lock.file == Missing && Newcomer(w.lock, o, p) && w.live == {d} && w.record == Recorded(d)
    requires e.port !in w.foreignPorts
    ensures CanReach(w, Left(w.(record := Recorded(e), live := {e}), o, p))
  {
    var clear := w.(record := NoRecord, live := {});
    var goal := Left(w.(record := Recorded(e), live := {e}), o, p);
    CanSpawn(clear, o, p, e);
    assert clear.(record := Recorded(e), live := {e}) == w.(record := Recorded(e), live := {e});
    CanStop(w, o, p, d, goal);
    CanEnter(w, o, p, goal);
  }
}
