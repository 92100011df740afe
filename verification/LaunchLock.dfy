/**
 The launch lock of the local daemon as a protocol between any number of contenders.
 Creating the file, writing it, reading it, testing the recorded process and removing
 the file are separate steps, and steps of different contenders interleave freely.
 */
module LaunchLock {
  import opened Wrappers

  type Owner = nat
  type Pid = nat

  datatype LockRecord = LockRecord(owner: Owner, pid: Pid)

  /** Created is the file between its exclusive creation and the end of the write: readers see no record in it. */
  datatype LockFile = Missing | Created(creator: Owner) | Written(record: LockRecord)

  /** Where a contender is in acquiring, holding and releasing the lock. */
  datatype Stage =
    | Trying
    | Writing
    | Reading
    | Judging(existing: Option<LockRecord>)
    | Removing
    | InBody
    | Releasing
    | Unlinking
    | Over

  datatype World = World(
    file: LockFile,
    stages: map<Owner, Stage>,
    pids: map<Owner, Pid>,
    alive: set<Pid>,
    recorded: set<Pid>)

  datatype Step =
    | Arrive(owner: Owner, pid: Pid)
    | Create(owner: Owner)
    | Write(owner: Owner)
    | WriteFails(owner: Owner)
    | Read(owner: Owner)
    | Test(owner: Owner)
    | GiveUp(owner: Owner)
    | Remove(owner: Owner)
    | LeaveBody(owner: Owner)
    | CheckOwner(owner: Owner)
    | Unlink(owner: Owner)
    | Exit(pid: Pid)

  predicate At(w: World, o: Owner, stage: Stage) {
    o in w.stages && o in w.pids && w.pids[o] in w.alive && w.stages[o] == stage
  }

  predicate Enabled(w: World, step: Step) {
    match step
    case Arrive(o, p) => o !in w.stages && o !in w.pids && p in w.alive
    case Create(o) => At(w, o, Trying)
    case Write(o) => At(w, o, Writing)
    case WriteFails(o) => At(w, o, Writing)
    case Read(o) => At(w, o, Reading)
    case Test(o) => o in w.stages && w.stages[o].Judging? && At(w, o, w.stages[o])
    case GiveUp(o) => o in w.stages && w.stages[o].Judging? && At(w, o, w.stages[o])
                      && (w.stages[o].existing.Some? ==> w.stages[o].existing.value.pid in w.alive)
    case Remove(o) => At(w, o, Removing)
    case LeaveBody(o) => At(w, o, InBody)
    case CheckOwner(o) => At(w, o, Releasing)
    case Unlink(o) => At(w, o, Unlinking)
    case Exit(_) => true
  }

  function Visible(file: LockFile): Option<LockRecord> {
    if file.Written? then Some(file.record) else None
  }

  function Goto(w: World, o: Owner, stage: Stage): World {
    w.(stages := w.stages[o := stage])
  }

  function Apply(w: World, step: Step): World
    requires Enabled(w, step)
  {
    match step
    case Arrive(o, p) => Goto(w, o, Trying).(pids := w.pids[o := p])
    case Create(o) =>
      if w.file == Missing then Goto(w, o, Writing).(file := Created(o)) else Goto(w, o, Reading)
    case Write(o) =>
      Goto(w, o, InBody).(
        file := if w.file == Created(o) then Written(LockRecord(o, w.pids[o])) else w.file,
        recorded := w.recorded + {w.pids[o]})
    case WriteFails(o) => Goto(w, o, Over)
    case Read(o) => Goto(w, o, Judging(Visible(w.file)))
    case Test(o) =>
      var seen := w.stages[o].existing;
      Goto(w, o, if seen.Some? && seen.value.pid !in w.alive then Removing else Trying)
    case GiveUp(o) => Goto(w, o, Over)
    case Remove(o) => Goto(w, o, Trying).(file := Missing)
    case LeaveBody(o) => Goto(w, o, Releasing)
    case CheckOwner(o) =>
      Goto(w, o, if w.file.Written? && w.file.record.owner == o then Unlinking else Over)
    case Unlink(o) => Goto(w, o, Over).(file := Missing)
    case Exit(p) => w.(alive := w.alive - {p})
  }

  predicate IsRun(w: World, steps: seq<Step>)
    decreases |steps|
  {
    steps == [] || (Enabled(w, steps[0]) && IsRun(Apply(w, steps[0]), steps[1..]))
  }

  function After(w: World, steps: seq<Step>): World
    requires IsRun(w, steps)
    decreases |steps|
  {
    if steps == [] then w else After(Apply(w, steps[0]), steps[1..])
  }

  /** No lock file, and nobody at it yet. */
  predicate Init(w: World) {
    w.file == Missing && w.stages == map[] && w.pids == map[] && w.recorded == {}
  }

  /** No process that had recorded its pid in the lock exits. */
  predicate RecordedProcessesStay(w: World, steps: seq<Step>)
    requires IsRun(w, steps)
    decreases |steps|
  {
    steps == [] || (
      && (steps[0].Exit? ==> steps[0].pid !in w.recorded)
      && RecordedProcessesStay(Apply(w, steps[0]), steps[1..]))
  }

  // ---------------------------------------------------------------------------
  // Mutual exclusion

  /** Between writing the record and unlinking it. */
  predicate Inside(w: World, o: Owner) {
    o in w.stages && w.stages[o] in {InBody, Releasing, Unlinking}
  }

  /** The lock file belongs to the one contender that writes it or is inside, and to nobody else. */
  predicate Exclusive(w: World) {
    && (forall o <- w.stages :: o in w.pids && AtItsFile(w, o))
    && (w.file.Written? ==> Inside(w, w.file.record.owner))
  }

  predicate AtItsFile(w: World, o: Owner) {
    o in w.stages && o in w.pids ==>
      && (Inside(w, o) ==> w.file == Written(LockRecord(o, w.pids[o])))
      && (w.stages[o] == Writing ==> w.file == Created(o))
      && w.stages[o] != Removing
  }

  /** Every record in the file, or read from it, names a recorded process, and those are alive. */
  predicate Witnessed(w: World) {
    && (w.file.Written? ==> w.file.record.pid in w.recorded)
    && (forall o <- w.stages :: w.stages[o].Judging? && w.stages[o].existing.Some? ==>
          w.stages[o].existing.value.pid in w.recorded)
    && w.recorded <= w.alive
  }

  predicate Inv(w: World) {
    Exclusive(w) && Witnessed(w)
  }

  lemma StepKeepsExclusive(w: World, step: Step)
    requires Inv(w) && Enabled(w, step)
    ensures Exclusive(Apply(w, step))
  {
    forall o <- Apply(w, step).stages
      ensures o in Apply(w, step).pids && AtItsFile(Apply(w, step), o)
    {
      assert o in w.stages ==> o in w.pids && AtItsFile(w, o);
    }
  }

  lemma StepKeepsWitnessed(w: World, step: Step)
    requires Witnessed(w) && Enabled(w, step) && (step.Exit? ==> step.pid !in w.recorded)
    ensures Witnessed(Apply(w, step))
  {
  }

  lemma {:induction false} RunKeepsInv(w: World, steps: seq<Step>)
    requires Inv(w) && IsRun(w, steps) && RecordedProcessesStay(w, steps)
    ensures Inv(After(w, steps))
    decreases |steps|
  {
    if steps != [] {
      StepKeepsExclusive(w, steps[0]);
      StepKeepsWitnessed(w, steps[0]);
      RunKeepsInv(Apply(w, steps[0]), steps[1..]);
    }
  }

  /**
   If no recorded process exits, lock bodies run one at a time; and whatever record is
   in the lock file belongs to a contender that is still inside.
   */
  lemma OneBodyAtATime(w: World, steps: seq<Step>, o1: Owner, o2: Owner)
    requires Init(w) && IsRun(w, steps) && RecordedProcessesStay(w, steps)
    ensures Inside(After(w, steps), o1) && Inside(After(w, steps), o2) ==> o1 == o2
    ensures After(w, steps).file.Written? ==> Inside(After(w, steps), After(w, steps).file.record.owner)
  {
    RunKeepsInv(w, steps);
  }

  lemma {:induction false} Concat(w: World, s1: seq<Step>, s2: seq<Step>)
    requires IsRun(w, s1) && IsRun(After(w, s1), s2)
    ensures IsRun(w, s1 + s2) && After(w, s1 + s2) == After(After(w, s1), s2)
    ensures RecordedProcessesStay(w, s1 + s2) ==> RecordedProcessesStay(After(w, s1), s2)
    decreases |s1|
  {
    if s1 == [] {
      assert s1 + s2 == s2;
    } else {
      assert (s1 + s2)[1..] == s1[1..] + s2;
      Concat(Apply(w, s1[0]), s1[1..], s2);
    }
  }

  lemma Then(w: World, steps: seq<Step>, step: Step) returns (longer: seq<Step>)
    requires IsRun(w, steps) && Enabled(After(w, steps), step)
    ensures longer == steps + [step] && IsRun(w, longer) && After(w, longer) == Apply(After(w, steps), step)
  {
    assert [step][1..] == [];
    Concat(w, steps, [step]);
    longer := steps + [step];
  }

  // ---------------------------------------------------------------------------
  // What a contender gets to

  predicate Newcomer(w: World, o: Owner, p: Pid) {
    o !in w.stages && o !in w.pids && p in w.alive
  }

  /** A newcomer takes a free lock, */
  lemma FreeLockIsTaken(w: World, o: Owner, p: Pid) returns (s: seq<Step>)
    requires w.file == Missing && Newcomer(w, o, p)
    ensures s == [Arrive(o, p), Create(o), Write(o)] && IsRun(w, s)
    ensures After(w, s) == w.(file := Written(LockRecord(o, p)), stages := w.stages[o := InBody],
                              pids := w.pids[o := p], recorded := w.recorded + {p})
  {
    s := Then(w, [], Arrive(o, p));
    s := Then(w, s, Create(o));
    s := Then(w, s, Write(o));
  }

  /** and whoever is inside leaves it free. */
  lemma LockIsReleased(w: World, o: Owner) returns (s: seq<Step>)
    requires At(w, o, InBody) && w.file == Written(LockRecord(o, w.pids[o]))
    ensures s == [LeaveBody(o), CheckOwner(o), Unlink(o)] && IsRun(w, s)
    ensures After(w, s) == w.(file := Missing, stages := w.stages[o := Over])
  {
    s := Then(w, [], LeaveBody(o));
    s := Then(w, s, CheckOwner(o));
    s := Then(w, s, Unlink(o));
  }

  /** A lock that another contender has taken meanwhile is left to it, on release as on a late write. */
  lemma OthersLockIsKept(w: World, o: Owner, step: Step)
    requires Enabled(w, step) && w.file != Missing && (step == CheckOwner(o) || step == Write(o))
    requires w.file.Created? ==> w.file.creator != o
    requires w.file.Written? ==> w.file.record.owner != o
    ensures Apply(w, step).file == w.file
    ensures step.CheckOwner? ==> Apply(w, step).stages[o] == Over
  {
  }

  /** The record of a process that is gone is seen to be stale, */
  lemma StaleLockIsSeen(w: World, o: Owner) returns (s: seq<Step>)
    requires At(w, o, Trying) && w.file.Written? && w.file.record.pid !in w.alive
    ensures s == [Create(o), Read(o), Test(o)] && IsRun(w, s)
    ensures After(w, s) == w.(stages := w.stages[o := Removing])
  {
    s := Then(w, [], Create(o));
    s := Then(w, s, Read(o));
    s := Then(w, s, Test(o));
  }

  /** and then removed, and the lock taken. */
  lemma StaleLockIsTakenOver(w: World, o: Owner) returns (s: seq<Step>)
    requires At(w, o, Removing)
    ensures s == [Remove(o), Create(o), Write(o)] && IsRun(w, s)
    ensures After(w, s) == w.(file := Written(LockRecord(o, w.pids[o])), stages := w.stages[o := InBody],
                              recorded := w.recorded + {w.pids[o]})
  {
    s := Then(w, [], Remove(o));
    s := Then(w, s, Create(o));
    s := Then(w, s, Write(o));
  }

  /** The lock of a live process, or one still being written, is left alone and tried again. */
  lemma HeldLockIsWaitedFor(w: World, o: Owner) returns (s: seq<Step>)
    requires At(w, o, Trying) && w.file != Missing && (w.file.Written? ==> w.file.record.pid in w.alive)
    ensures s == [Create(o), Read(o), Test(o)] && IsRun(w, s)
    ensures After(w, s) == w
  {
    s := Then(w, [], Create(o));
    s := Then(w, s, Read(o));
    s := Then(w, s, Test(o));
    assert w.stages[o := Trying] == w.stages;
  }

  // ---------------------------------------------------------------------------
  // When lock bodies exclude each other

  /** Only processes of the given set exit. */
  predicate ExitsWithin(steps: seq<Step>, exiting: set<Pid>) {
    forall step <- steps :: step.Exit? ==> step.pid in exiting
  }

  /** A contender whose process is alive is between writing the record and unlinking it. */
  predicate RunsBody(w: World, o: Owner) {
    Inside(w, o) && o in w.pids && w.pids[o] in w.alive
  }

  predicate OneRunsBody(w: World) {
    forall o1 <- w.stages, o2 <- w.stages :: RunsBody(w, o1) && RunsBody(w, o2) ==> o1 == o2
  }

  /** Every run from this world in which only the given processes may exit has one body at a time. */
  ghost predicate AlwaysExclusive(w: World, exiting: set<Pid>) {
    forall steps: seq<Step> :: IsRun(w, steps) && ExitsWithin(steps, exiting) ==> OneRunsBody(After(w, steps))
  }

  /** Processes that are not alive at the start have no part in the run, so their exits do no harm. */
  lemma {:induction false} OthersExit(w: World, steps: seq<Step>, exiting: set<Pid>, alive: set<Pid>)
    requires Inv(w) && IsRun(w, steps) && ExitsWithin(steps, exiting) && w.alive <= alive && exiting !! alive
    ensures RecordedProcessesStay(w, steps)
    decreases |steps|
  {
    if steps != [] {
      var step := steps[0];
      assert step in steps;
      StepKeepsExclusive(w, step);
      StepKeepsWitnessed(w, step);
      OthersExit(Apply(w, step), steps[1..], exiting, alive);
    }
  }

  /** A lone process has nobody to overlap with: after its exit nothing moves any more. */
  lemma {:induction false} AloneIsExclusive(w: World, steps: seq<Step>)
    requires IsRun(w, steps) && |w.alive| <= 1 && (Inv(w) || w.alive == {})
    ensures OneRunsBody(After(w, steps))
    decreases |steps|
  {
    if steps != [] {
      var step := steps[0];
      if w.alive != {} {
        StepKeepsExclusive(w, step);
        if step.Exit? && step.pid in w.recorded {
          assert |w.alive - {step.pid}| == |w.alive| - 1;
        } else {
          StepKeepsWitnessed(w, step);
          StillAlone(w, step);
        }
      }
      AloneIsExclusive(Apply(w, step), steps[1..]);
    }
  }

  lemma StillAlone(w: World, step: Step)
    requires Enabled(w, step) && |w.alive| <= 1
    ensures |Apply(w, step).alive| <= 1
  {
    if step.Exit? {
      assert w.alive - {step.pid} == w.alive || |w.alive - {step.pid}| == |w.alive| - 1;
    }
  }

  /** Contender 1 takes the lock with process p, and contender 2, of process q, reads its record. */
  lemma RecordIsSeen(w: World, p: Pid, q: Pid) returns (s: seq<Step>)
    requires Init(w) && p in w.alive && q in w.alive
    ensures IsRun(w, s) && ExitsWithin(s, {})
    ensures After(w, s) == w.(file := Written(LockRecord(1, p)),
                              stages := map[1 := InBody, 2 := Judging(Some(LockRecord(1, p)))],
                              pids := map[1 := p, 2 := q], recorded := {p})
  {
    s := FreeLockIsTaken(w, 1, p);
    s := Then(w, s, Arrive(2, q));
    s := Then(w, s, Create(2));
    s := Then(w, s, Read(2));
  }

  /** Contender 1 releases the lock and its process exits. */
  lemma OwnerLeaves(w: World, p: Pid, q: Pid) returns (s: seq<Step>)
    requires w.file == Written(LockRecord(1, p)) && p != q && p in w.alive && q in w.alive
    requires w.stages == map[1 := InBody, 2 := Judging(Some(LockRecord(1, p)))] && w.pids == map[1 := p, 2 := q]
    ensures IsRun(w, s) && ExitsWithin(s, {p})
    ensures After(w, s) == w.(file := Missing, stages := w.stages[1 := Over], alive := w.alive - {p})
  {
    s := LockIsReleased(w, 1);
    s := Then(w, s, Exit(p));
  }

  /** Contender 3 takes the free lock, and contender 2 finds process p gone. */
  lemma FreeLockTaken(w: World, p: Pid, q: Pid) returns (s: seq<Step>)
    requires w.file == Missing && p !in w.alive && q in w.alive
    requires w.stages == map[1 := Over, 2 := Judging(Some(LockRecord(1, p)))] && w.pids == map[1 := p, 2 := q]
    ensures IsRun(w, s) && ExitsWithin(s, {})
    ensures After(w, s) == w.(file := Written(LockRecord(3, q)), stages := map[1 := Over, 2 := Removing, 3 := InBody],
                              pids := map[1 := p, 2 := q, 3 := q], recorded := w.recorded + {q})
  {
    s := FreeLockIsTaken(w, 3, q);
    s := Then(w, s, Test(2));
  }

  /** Contender 2 removes the file, which is 3's by now, and enters beside it. */
  lemma TakeoverOfALiveLock(w: World, p: Pid, q: Pid) returns (s: seq<Step>)
    requires q in w.alive && w.stages == map[1 := Over, 2 := Removing, 3 := InBody] &&
             w.pids == map[1 := p, 2 := q, 3 := q]
    ensures IsRun(w, s) && ExitsWithin(s, {})
    ensures RunsBody(After(w, s), 2) && RunsBody(After(w, s), 3)
  {
    s := StaleLockIsTakenOver(w, 2);
  }

  /** If any process may exit beside another one, two bodies can overlap, though neither of their processes exits. */
  lemma ExitBreaksExclusion(w: World, p: Pid, q: Pid) returns (steps: seq<Step>)
    requires Init(w) && p != q && p in w.alive && q in w.alive
    ensures IsRun(w, steps) && ExitsWithin(steps, {p})
    ensures RunsBody(After(w, steps), 2) && RunsBody(After(w, steps), 3)
  {
    var first := RecordIsSeen(w, p, q);
    var seen := After(w, first);
    var second := OwnerLeaves(seen, p, q);
    var free := After(seen, second);
    var third := FreeLockTaken(free, p, q);
    var fourth := TakeoverOfALiveLock(After(free, third), p, q);
    Concat(free, third, fourth);
    Concat(seen, second, third + fourth);
    Concat(w, first, second + (third + fourth));
    steps := first + (second + (third + fourth));
  }

  /**
   Lock bodies run one at a time in every run in which only the given processes may exit,
   exactly if none of them is alive at the start, or no two processes are.
   */
  lemma ExclusionNeedsNoExit(w: World, exiting: set<Pid>)
    requires Init(w)
    ensures AlwaysExclusive(w, exiting) <==> exiting !! w.alive || |w.alive| <= 1
  {
    if exiting !! w.alive || |w.alive| <= 1 {
      forall steps: seq<Step> | IsRun(w, steps) && ExitsWithin(steps, exiting)
        ensures OneRunsBody(After(w, steps))
      {
        if |w.alive| <= 1 {
          AloneIsExclusive(w, steps);
        } else {
          OthersExit(w, steps, exiting, w.alive);
          RunKeepsInv(w, steps);
        }
      }
    } else {
      var p :| p in exiting && p in w.alive;
      assert w.alive == {p} + (w.alive - {p});
      var q :| q in w.alive - {p};
      var steps := ExitBreaksExclusion(w, p, q);
      assert ExitsWithin(steps, exiting) && !OneRunsBody(After(w, steps));
    }
  }
}
