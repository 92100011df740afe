/**
 Starting and stopping the local daemon while the launch lock is held, so that one body
 runs at a time.  The record on disk, the live daemons and the bound ports are the state;
 what an HTTP exchange or a spawned process does is given, within the limits below.
 */
module LocalDaemon {
  import opened Wrappers

  type Pid = nat
  type Port = nat

  datatype Daemon = Daemon(id: nat, pid: Pid, port: Port)

  /** The discovery record: none, one that is no managed daemon's, or a managed daemon's. */
  datatype Discovery = NoRecord | Unusable(port: Option<Port>) | Recorded(daemon: Daemon)

  datatype Inspection =
    | Absent
    | Invalid
    | Stale(state: Daemon)
    | Unreachable(state: Daemon)
    | Foreign(state: Daemon)
    | AuthProblem(state: Daemon)
    | IsReady(state: Daemon)

  /** What comes back when the recorded endpoint is asked: nothing, somebody else's answer, or the daemon's own. */
  datatype Reply = NoReply | NotOurs | Ours(accepted: bool)

  /** What a spawned server does within the deadline. */
  datatype Spawned = ExitsEarly | OnlyWritesRecord | GetsReady

  /** What happens to a start while it runs. */
  datatype Course = Course(found: Reply, first: Reply, again: Reply, signalled: bool, spawned: Spawned, pid: Pid,
                           running: Reply)

  datatype PortRequest = AnyPort | Preferred(port: Port) | Required(port: Port)

  datatype Failure =
    | DiscoveryInvalid | PortOccupied | CredentialProblem | PortUnavailable | StartFailed | StopFailed
    | OwnershipChanged | NotReady

  datatype Result<T> = Done(value: T) | Failed(failure: Failure)

  datatype StopOutcome = NothingThere | ConfirmationRequired(daemon: Daemon) | HasStopped(daemon: Daemon)

  class DataRoot {
    /** Whether live daemons answer, signals arrive and spawned daemons get ready. */
    const responsive: bool
    var record: Discovery
    /** The live managed daemons of this data root. */
    var live: set<Daemon>
    /** Ports and process ids held by processes that are none of ours. */
    var foreignPorts: set<Port>
    var foreignPids: set<Pid>
    var nextId: nat

    /** A live managed daemon keeps its record (and with it its port). */
    predicate Valid()
      reads this
    {
      && (forall d <- live :: record == Recorded(d))
      && (forall d <- live :: d.port !in foreignPorts && d.id < nextId)
    }

    predicate ProcessAlive(pid: Pid)
      reads this
    {
      pid in foreignPids || exists d <- live :: d.pid == pid
    }

    /** A port can be listened on if no process holds it. */
    predicate CanListen(port: Port)
      reads this
    {
      port !in foreignPorts && forall d <- live :: d.port != port
    }

    constructor (responsive: bool)
      ensures Valid() && live == {} && record == NoRecord && this.responsive == responsive
    {
      this.responsive := responsive;
      record, live, foreignPorts, foreignPids, nextId := NoRecord, {}, {}, {}, 0;
    }

    /** Only a live daemon can answer as itself, and one that is responsive does. */
    function Heard(d: Daemon, reply: Reply): Reply
      reads this
    {
      if d in live && responsive then Ours(true) else if d !in live && reply.Ours? then NotOurs else reply
    }

    /** Compare the record with the processes; only a live daemon's own handshake makes it ready. */
    method Inspect(verifyCredential: bool, reply: Reply) returns (r: Inspection)
      ensures r == Absent <==> record == NoRecord
      ensures r == Invalid <==> record.Unusable?
      ensures !r.Absent? && !r.Invalid? ==> record == Recorded(r.state)
      ensures r.Stale? <==> record.Recorded? && !ProcessAlive(record.daemon.pid)
      ensures r.AuthProblem? || r.IsReady? ==> r.state in live
      ensures record.Recorded? && ProcessAlive(record.daemon.pid) ==>
                match Heard(record.daemon, reply)
                case NoReply => r == Unreachable(record.daemon)
                case NotOurs => r == Foreign(record.daemon)
                case Ours(accepted) =>
                  r == if verifyCredential && !accepted then AuthProblem(record.daemon) else IsReady(record.daemon)
      ensures responsive ==> forall d <- live :: record == Recorded(d) ==> r == IsReady(d)
    {
      match record
      case NoRecord => return Absent;
      case Unusable(_) => return Invalid;
      case Recorded(d) =>
        if !ProcessAlive(d.pid) {
          return Stale(d);
        }
        var heard := Heard(d, reply);
        if heard.NoReply? {
          return Unreachable(d);
        }
        if heard.NotOurs? {
          return Foreign(d);
        }
        if verifyCredential && !heard.accepted {
          return AuthProblem(d);
        }
        return IsReady(d);
    }

    /** Clear away a record nobody serves any more, or refuse. */
    method ReconcileUnattachedRecord(existing: Inspection) returns (r: Result<()>)
      requires Valid() && existing != Absent && !existing.IsReady?
      requires existing == Invalid ==> record.Unusable?
      requires existing != Invalid ==> record == Recorded(existing.state)
      modifies this`record
      ensures Valid()
      ensures r.Failed? ==> record == old(record)
      ensures r.Done? ==> record == NoRecord && live == {}
      ensures r.Failed? ==> r.failure == if existing == Invalid && record.port.None? then DiscoveryInvalid
                                         else if existing.AuthProblem? then CredentialProblem else PortOccupied
      ensures r.Failed? <==> (existing == Invalid && old(record).port.None?) ||
                             !CanListen(if existing == Invalid then old(record).port.value else existing.state.port)
    {
      var port := if existing == Invalid then record.port else Some(existing.state.port);
      if port.None? {
        return Failed(DiscoveryInvalid);
      }
      if !CanListen(port.value) {
        if existing.AuthProblem? {
          return Failed(CredentialProblem);
        }
        return Failed(PortOccupied);
      }
      record := NoRecord;
      return Done(());
    }

    /** Stop the recorded daemon, with the lock held. */
    method StopLocked(confirm: bool, atFirst: Reply, atSecond: Reply, signalled: bool) returns (r: Result<StopOutcome>)
      requires Valid()
      modifies this`record, this`live
      ensures Valid()
      ensures r.Done? && !r.value.ConfirmationRequired? ==> live == {}
      ensures r.Done? && r.value.HasStopped? ==>
                confirm && old(live) == {r.value.daemon} && record == NoRecord
      ensures r.Failed? || r.value.ConfirmationRequired? || r.value.NothingThere? ==>
                live == old(live) && record == old(record)
      ensures r.Done? && r.value.ConfirmationRequired? ==> !confirm && r.value.daemon in live
      ensures r.Done? && r.value.NothingThere? ==> live == {}
      ensures old(record) == NoRecord ==> r == Done(NothingThere)
      ensures old(record).Unusable? ==> r == Failed(NotReady)
      ensures old(record).Recorded? && old(live) == {} ==>
                r == if old(record).daemon.pid in foreignPids then Failed(NotReady) else Done(NothingThere)
      ensures forall d <- old(live) ::
                r == if !old(Heard(d, atFirst)).Ours? then Failed(NotReady)
                     else if !old(Heard(d, atSecond)).Ours? then Failed(OwnershipChanged)
                     else if !confirm then Done(ConfirmationRequired(d))
                     else if signalled || responsive then Done(HasStopped(d))
                     else Failed(StopFailed)
    {
      var first := Inspect(false, atFirst);
      if first.Absent? || first.Stale? {
        return Done(NothingThere);
      }
      if !first.IsReady? {
        return Failed(NotReady);
      }
      var again := Inspect(false, atSecond);
      if !again.IsReady? || again.state != first.state {
        return Failed(OwnershipChanged);
      }
      var d := first.state;
      if !confirm {
        return Done(ConfirmationRequired(d));
      }
      if !signalled && !responsive {
        return Failed(StopFailed);
      }
      live := live - {d};
      if record == Recorded(d) {
        record := NoRecord;
      }
      return Done(HasStopped(d));
    }

    /** The port a new daemon is told to use; `offered` is what the system hands out when asked for any. */
    method ReservePort(requested: PortRequest, offered: Port) returns (r: Result<Port>)
      ensures r.Done? ==> CanListen(r.value)
      ensures !requested.AnyPort? && CanListen(requested.port) ==> r == Done(requested.port)
      ensures requested.Required? && !CanListen(requested.port) ==> r == Failed(PortUnavailable)
      ensures !requested.Required? && (requested.Preferred? ==> !CanListen(requested.port)) ==>
                r == if CanListen(offered) then Done(offered) else Failed(PortUnavailable)
    {
      if !requested.AnyPort? && CanListen(requested.port) {
        return Done(requested.port);
      }
      if requested.Required? {
        return Failed(PortUnavailable);
      }
      if CanListen(offered) {
        return Done(offered);
      }
      return Failed(PortUnavailable);
    }

    /**
     Spawn a daemon and wait for it.  It may exit early, with or without having written its
     record, or be terminated when it does not get ready; otherwise it lives and is recorded.
     */
    method SpawnAndWait(port: Port, pid: Pid, spawned: Spawned) returns (started: Option<Daemon>)
      requires Valid() && live == {} && port !in foreignPorts
      modifies this`record, this`live, this`nextId
      ensures Valid()
      ensures var d := Daemon(old(nextId), pid, port);
              && (started == if responsive || spawned.GetsReady? then Some(d) else None)
              && live == (if started.Some? then {d} else {})
              && record == if responsive || !spawned.ExitsEarly? then Recorded(d) else old(record)
    {
      var d := Daemon(nextId, pid, port);
      nextId := nextId + 1;
      if !spawned.ExitsEarly? || responsive {
        record := Recorded(d);
      }
      if spawned.GetsReady? || responsive {
        live := {d};
        return Some(d);
      }
      return None;
    }

    /** The port a start ends up with once no daemon is alive, if any. */
    function PortFor(requested: PortRequest, offered: Port): Option<Port>
      reads this
    {
      if !requested.AnyPort? && requested.port !in foreignPorts then Some(requested.port)
      else if !requested.Required? && offered !in foreignPorts then Some(offered)
      else None
    }

    /** The recorded port, if any, is one that somebody else holds. */
    predicate RecordedPortTaken()
      reads this
    {
      match record
      case NoRecord => false
      case Unusable(port) => port.Some? && port.value in foreignPorts
      case Recorded(d) => d.port in foreignPorts
    }

    /** The spawned daemon gets ready and is found so. */
    predicate SpawnsWell(course: Course) {
      responsive || (course.spawned.GetsReady? && course.running == Ours(true))
    }

    /** Start the daemon, or return the one already there, with the lock held. */
    method StartLocked(requested: PortRequest, offered: Port, course: Course) returns (r: Result<Daemon>)
      requires Valid()
      modifies this`record, this`live, this`nextId
      ensures Valid()
      ensures r.Done? ==> live == {r.value} && record == Recorded(r.value)
      ensures r.Done? && requested.Required? ==> r.value.port == requested.port
      ensures r.Done? ==> forall d <- old(live) :: requested.AnyPort? || d.port == requested.port ==> r.value == d
      ensures r.Failed? && requested.Required? && requested.port in old(foreignPorts) && old(live) != {} ==>
                live == old(live)
      ensures r.Done? && r.value !in old(live) ==> SpawnsWell(course)
      ensures forall d <- old(live) :: old(Heard(d, course.found)) != Ours(true) ==>
                && live == old(live) && record == old(record)
                && r == Failed(if course.found.Ours? then CredentialProblem else PortOccupied)
      ensures responsive ==> forall d <- old(live) ::
                if requested.AnyPort? || d.port == requested.port then r == Done(d)
                else if PortFor(requested, offered).Some?
                then r.Done? && r.value.port == PortFor(requested, offered).value && r.value != d
                else r == Failed(PortUnavailable) && (requested.Required? ==> live == old(live))
      ensures responsive && old(live) == {} && old(record) != Unusable(None) && !old(RecordedPortTaken()) ==>
                if PortFor(requested, offered).Some?
                then r.Done? && r.value.port == PortFor(requested, offered).value
                else r == Failed(PortUnavailable) && record == NoRecord
      ensures old(live) == {} && old(record) != Unusable(None) && !old(RecordedPortTaken()) ==>
                && (r.Done? <==> PortFor(requested, offered).Some? && SpawnsWell(course))
                && (r == Failed(StartFailed) <==>
                    PortFor(requested, offered).Some? && !responsive && !course.spawned.GetsReady?)
      ensures old(live) == {} && old(RecordedPortTaken()) ==> r == Failed(PortOccupied) && record == old(record)
      ensures old(record) == Unusable(None) ==> r == Failed(DiscoveryInvalid) && record == old(record)
    {
      var existing := Inspect(true, course.found);
      if existing.IsReady? {
        if requested.AnyPort? || existing.state.port == requested.port {
          return Done(existing.state);
        }
        if requested.Required? && !CanListen(requested.port) {
          return Failed(PortUnavailable);
        }
        var stopped := StopLocked(true, course.first, course.again, course.signalled);
        if stopped.Failed? {
          return Failed(stopped.failure);
        }
      } else if existing != Absent {
        var cleared := ReconcileUnattachedRecord(existing);
        if cleared.Failed? {
          return Failed(cleared.failure);
        }
      }
      if requested.Required? && !CanListen(requested.port) {
        return Failed(PortUnavailable);
      }
      var port := ReservePort(requested, offered);
      if port.Failed? {
        return Failed(port.failure);
      }
      var started := SpawnAndWait(port.value, course.pid, course.spawned);
      if started.None? {
        return Failed(StartFailed);
      }
      var running := Inspect(true, course.running);
      if !running.IsReady? {
        return Failed(NotReady);
      }
      return Done(running.state);
    }

    /**
     What may happen between two lock bodies: the daemon dies, others take ports, a record is
     overwritten when nobody owns it.
     */
    method Disturb(daemonDies: bool, takenPort: Port, pid: Pid, overwritten: Option<Discovery>)
      requires Valid()
      modifies this`live, this`record, this`foreignPorts, this`foreignPids
      ensures Valid() && live == if daemonDies then {} else old(live)
      ensures record == if live == {} && overwritten.Some? then overwritten.value else old(record)
      ensures !daemonDies && !old(CanListen(takenPort)) ==>
                foreignPorts == old(foreignPorts) && foreignPids == old(foreignPids)
      ensures old(CanListen(takenPort)) ==>
                foreignPorts == old(foreignPorts) + {takenPort} && foreignPids == old(foreignPids) + {pid}
    {
      if daemonDies {
        live := {};
      }
      if CanListen(takenPort) {
        foreignPorts, foreignPids := foreignPorts + {takenPort}, foreignPids + {pid};
      }
      if live == {} && overwritten.Some? {
        record := overwritten.value;
      }
    }
  }

  datatype Operation =
    | Start(requested: PortRequest, offered: Port, course: Course)
    | Stop(confirm: bool, atFirst: Reply, atSecond: Reply, signalled: bool)
    | Disturbance(daemonDies: bool, takenPort: Port, pid: Pid, overwritten: Option<Discovery>)

  /** Any sequence of starts, stops and outside events leaves at most one live managed daemon, the recorded one. */
  method Operate(root: DataRoot, operations: seq<Operation>)
    requires root.Valid()
    modifies root
    ensures root.Valid()
    ensures forall d, e :: d in root.live && e in root.live ==> d == e
    ensures forall d <- root.live :: root.record == Recorded(d)
  {
    for i := 0 to |operations|
      invariant root.Valid()
    {
      match operations[i]
      case Start(requested, offered, course) => var r := root.StartLocked(requested, offered, course);
      case Stop(confirm, atFirst, atSecond, signalled) =>
        var r := root.StopLocked(confirm, atFirst, atSecond, signalled);
      case Disturbance(dies, port, pid, overwritten) => root.Disturb(dies, port, pid, overwritten);
    }
  }
}
