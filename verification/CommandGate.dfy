/**
 The command gate of server startup: a readiness flag, a one-shot latch and a queue with
 one worker.  Callers, the worker and startup run as separate fibers, so each single
 read, write, offer or take is a step and any interleaving of steps is a run.
 */
module CommandGate {
  type CommandId = nat

  datatype Readiness = Pending | Ready | Failed

  /** A deferred can be completed once; later completions are ignored. */
  datatype Latch = Unset | Opened | Broken

  datatype Worker = Idle | Waiting(command: CommandId) | Running(command: CommandId)

  datatype Result = Ran(exit: int) | StartupFailed

  /** Where a call of enqueueCommand is: it has read "pending", or runs the command itself, or waits or is over. */
  datatype Caller = Deciding | RunningItself | Done

  /** The last seven fields record what has happened so far. */
  datatype Gate = Gate(
    readiness: Readiness,
    latch: Latch,
    queue: seq<CommandId>,
    worker: Worker,
    callers: map<CommandId, Caller>,
    signalled: bool,
    failed: bool,
    offered: seq<CommandId>,
    finished: seq<CommandId>,
    started: set<CommandId>,
    times: map<CommandId, nat>,
    result: map<CommandId, Result>)

  datatype Step =
    | SetReady | OpenLatch
    | SetFailed | BreakLatch
    | Call(command: CommandId)
    | Offer(command: CommandId)
    | FinishItself(command: CommandId, exit: int)
    | Take
    | Begin
    | Refuse
    | Finish(exit: int)

  const INITIAL := Gate(Pending, Unset, [], Idle, map[], false, false, [], [], {}, map[], map[])

  predicate Enabled(g: Gate, step: Step) {
    match step
    case SetReady => true
    case OpenLatch => g.signalled
    case SetFailed => true
    case BreakLatch => g.failed
    case Call(c) => c !in g.callers
    case Offer(c) => c in g.callers && g.callers[c] == Deciding
    case FinishItself(c, _) => c in g.callers && g.callers[c] == RunningItself
    case Take => g.worker == Idle && g.queue != []
    case Begin => g.worker.Waiting? && g.latch == Opened
    case Refuse => g.worker.Waiting? && g.latch == Broken
    case Finish(_) => g.worker.Running?
  }

  /** How often a caller has been given a result. */
  function Times(g: Gate, c: CommandId): nat {
    if c in g.times then g.times[c] else 0
  }

  /** Complete the deferred a caller awaits. */
  function Settle(g: Gate, c: CommandId, result: Result): Gate {
    g.(times := g.times[c := Times(g, c) + 1], result := g.result[c := result], callers := g.callers[c := Done])
  }

  /** The worker settles the command it holds. */
  function WorkerSettles(g: Gate, result: Result): Gate
    requires !g.worker.Idle?
  {
    Settle(g, g.worker.command, result).(worker := Idle, finished := g.finished + [g.worker.command])
  }

  function Apply(g: Gate, step: Step): Gate
    requires Enabled(g, step)
  {
    match step
    case SetReady => g.(readiness := Ready, signalled := true)
    case OpenLatch => g.(latch := if g.latch == Unset then Opened else g.latch)
    case SetFailed => g.(readiness := Failed, failed := true)
    case BreakLatch => g.(latch := if g.latch == Unset then Broken else g.latch)
    case Call(c) =>
      (match g.readiness
       case Ready => g.(callers := g.callers[c := RunningItself], started := g.started + {c})
       case Failed => Settle(g, c, StartupFailed)
       case Pending => g.(callers := g.callers[c := Deciding]))
    case Offer(c) => g.(callers := g.callers[c := Done], queue := g.queue + [c], offered := g.offered + [c])
    case FinishItself(c, exit) => Settle(g, c, Ran(exit))
    case Take => g.(worker := Waiting(g.queue[0]), queue := g.queue[1..])
    case Begin => g.(worker := Running(g.worker.command), started := g.started + {g.worker.command})
    case Refuse => WorkerSettles(g, StartupFailed)
    case Finish(exit) => WorkerSettles(g, Ran(exit))
  }

  predicate IsRun(g: Gate, steps: seq<Step>)
    decreases |steps|
  {
    steps == [] || (Enabled(g, steps[0]) && IsRun(Apply(g, steps[0]), steps[1..]))
  }

  function After(g: Gate, steps: seq<Step>): Gate
    requires IsRun(g, steps)
    decreases |steps|
  {
    if steps == [] then g else After(Apply(g, steps[0]), steps[1..])
  }

  /** Steps of a caller. */
  predicate ByCaller(step: Step) {
    step.Call? || step.Offer? || step.FinishItself?
  }

  /** Steps of the worker by which it settles the command it holds. */
  predicate BySettling(step: Step) {
    step.Refuse? || step.Finish?
  }

  // ---------------------------------------------------------------------------
  // The invariant

  /** The command the worker has taken and not yet settled, if any. */
  function InHand(w: Worker): seq<CommandId> {
    if w.Idle? then [] else [w.command]
  }

  /** A command has been settled once if it is over, and not at all before. */
  predicate Over(g: Gate, c: CommandId) {
    c in g.callers && g.callers[c] == Done && (c in g.offered ==> c in g.finished)
  }

  ghost predicate SettledOnce(g: Gate) {
    forall c :: Times(g, c) == if Over(g, c) then 1 else 0
  }

  /** The latch and the flag tell what was signalled, and nothing starts before. */
  predicate Gated(g: Gate) {
    && (g.latch == Opened ==> g.signalled) && (g.latch == Broken ==> g.failed)
    && (g.readiness == Ready ==> g.signalled)
    && (!g.signalled ==> g.started == {})
    && (g.worker.Running? ==> g.latch == Opened && g.worker.command in g.started)
  }

  /** A queued command has started only once the latch was open. */
  predicate InTurn(g: Gate, c: CommandId) {
    && (c in g.started ==> c in g.callers && g.callers[c] != Deciding && (c in g.offered ==> g.latch == Opened))
    && (c in g.callers && g.callers[c] == RunningItself ==> c in g.started)
  }

  ghost predicate StartedInTurn(g: Gate) {
    forall c :: InTurn(g, c)
  }

  ghost predicate Signals(g: Gate) {
    Gated(g) && StartedInTurn(g)
  }

  predicate Partitioned(g: Gate) {
    g.offered == g.finished + InHand(g.worker) + g.queue
  }

  predicate OfferedOnce(g: Gate) {
    && (forall i, j :: 0 <= i < j < |g.offered| ==> g.offered[i] != g.offered[j])
    && (forall c <- g.offered :: c in g.callers && g.callers[c] == Done)
  }

  predicate InOrder(g: Gate) {
    Partitioned(g) && OfferedOnce(g)
  }

  /** What the worker settled a command with tells how startup went. */
  predicate ResultsFit(g: Gate) {
    forall c <- g.finished :: c in g.result && g.latch != Unset && (g.result[c] == StartupFailed <==> g.latch == Broken)
  }

  ghost predicate Inv(g: Gate) {
    Signals(g) && InOrder(g) && SettledOnce(g) && ResultsFit(g)
  }

  lemma StepKeepsResults(g: Gate, step: Step)
    requires Signals(g) && InOrder(g) && ResultsFit(g) && Enabled(g, step)
    ensures ResultsFit(Apply(g, step))
  {
    forall c | c in Apply(g, step).finished
      ensures c in Apply(g, step).result && Apply(g, step).latch != Unset
      ensures Apply(g, step).result[c] == StartupFailed <==> Apply(g, step).latch == Broken
    {
      if c in g.finished {
        FinishedWereOffered(g, c);
      }
    }
  }

  lemma StepKeepsGated(g: Gate, step: Step)
    requires Gated(g) && StartedInTurn(g) && Enabled(g, step)
    ensures Gated(Apply(g, step))
  {
    if step.FinishItself? {
      assert InTurn(g, step.command);
    }
  }

  lemma CallerStaysInTurn(g: Gate, step: Step, c: CommandId)
    requires InTurn(g, c) && Enabled(g, step) && ByCaller(step)
    requires c in g.offered ==> c in g.callers && g.callers[c] == Done
    ensures InTurn(Apply(g, step), c)
  {
  }

  lemma SettledStaysInTurn(g: Gate, step: Step, c: CommandId)
    requires InTurn(g, c) && Enabled(g, step) && BySettling(step)
    ensures InTurn(Apply(g, step), c)
  {
  }

  /** One command of those a step may start. */
  lemma StaysInTurn(g: Gate, step: Step, c: CommandId)
    requires InTurn(g, c) && Enabled(g, step)
    requires c in g.offered ==> c in g.callers && g.callers[c] == Done
    requires !g.worker.Idle? && g.worker.command == c ==> c in g.offered
    ensures InTurn(Apply(g, step), c)
  {
    if ByCaller(step) {
      CallerStaysInTurn(g, step, c);
    } else if BySettling(step) {
      SettledStaysInTurn(g, step, c);
    }
  }

  lemma StepKeepsStarted(g: Gate, step: Step)
    requires StartedInTurn(g) && InOrder(g) && Enabled(g, step)
    ensures StartedInTurn(Apply(g, step))
  {
    if !g.worker.Idle? {
      HeldIsNotFinished(g);
    }
    forall c
      ensures InTurn(Apply(g, step), c)
    {
      StaysInTurn(g, step, c);
    }
  }

  lemma StepKeepsSignals(g: Gate, step: Step)
    requires Signals(g) && InOrder(g) && Enabled(g, step)
    ensures Signals(Apply(g, step))
  {
    StepKeepsGated(g, step);
    StepKeepsStarted(g, step);
  }

  lemma StepKeepsPartition(g: Gate, step: Step)
    requires Partitioned(g) && Enabled(g, step)
    ensures Partitioned(Apply(g, step))
  {
    if step.Take? {
      assert g.queue == [g.queue[0]] + g.queue[1..];
    } else if step.Offer? {
      assert g.offered + [step.command] == g.finished + InHand(g.worker) + (g.queue + [step.command]);
    } else if BySettling(step) {
      assert g.offered == (g.finished + [g.worker.command]) + [] + g.queue;
    } else {
      assert InHand(Apply(g, step).worker) == InHand(g.worker);
    }
  }

  lemma StepKeepsOffered(g: Gate, step: Step)
    requires OfferedOnce(g) && Enabled(g, step)
    ensures OfferedOnce(Apply(g, step))
  {
  }

  lemma StepKeepsOrder(g: Gate, step: Step)
    requires InOrder(g) && Enabled(g, step)
    ensures InOrder(Apply(g, step))
  {
    StepKeepsPartition(g, step);
    StepKeepsOffered(g, step);
  }

  lemma HeldIsNotFinished(g: Gate)
    requires InOrder(g) && !g.worker.Idle?
    ensures g.worker.command !in g.finished && g.worker.command in g.offered
  {
    assert g.offered[|g.finished|] == g.worker.command;
    assert forall i :: 0 <= i < |g.finished| ==> g.offered[i] == g.finished[i];
  }

  lemma FinishedWereOffered(g: Gate, c: CommandId)
    requires InOrder(g) && c in g.finished
    ensures c in g.offered
  {
    var i :| 0 <= i < |g.finished| && g.finished[i] == c;
    assert g.offered[i] == c;
  }

  lemma CallSettlesOnce(g: Gate, step: Step, c: CommandId)
    requires Enabled(g, step) && step.Call? && Times(g, c) == if Over(g, c) then 1 else 0
    requires c in g.offered ==> c in g.callers && g.callers[c] == Done
    ensures Times(Apply(g, step), c) == if Over(Apply(g, step), c) then 1 else 0
  {
  }

  lemma OfferSettlesOnce(g: Gate, step: Step, c: CommandId)
    requires Enabled(g, step) && step.Offer? && Times(g, c) == if Over(g, c) then 1 else 0
    requires c in g.offered ==> c in g.callers && g.callers[c] == Done
    requires c in g.finished ==> c in g.offered
    ensures Times(Apply(g, step), c) == if Over(Apply(g, step), c) then 1 else 0
  {
  }

  lemma RunSettlesOnce(g: Gate, step: Step, c: CommandId)
    requires Enabled(g, step) && step.FinishItself? && Times(g, c) == if Over(g, c) then 1 else 0
    requires c in g.offered ==> c in g.callers && g.callers[c] == Done
    ensures Times(Apply(g, step), c) == if Over(Apply(g, step), c) then 1 else 0
  {
  }

  lemma SettlingSettlesOnce(g: Gate, step: Step, c: CommandId)
    requires Enabled(g, step) && BySettling(step) && Times(g, c) == if Over(g, c) then 1 else 0
    requires c in g.offered ==> c in g.callers && g.callers[c] == Done
    requires g.worker.command == c ==> c in g.offered && c !in g.finished
    ensures Times(Apply(g, step), c) == if Over(Apply(g, step), c) then 1 else 0
  {
    if g.worker.command != c {
      assert Over(Apply(g, step), c) == Over(g, c) && Times(Apply(g, step), c) == Times(g, c);
    }
  }

  /** One command of those a step may settle. */
  lemma StaysSettledOnce(g: Gate, step: Step, c: CommandId)
    requires Enabled(g, step) && Times(g, c) == if Over(g, c) then 1 else 0
    requires c in g.offered ==> c in g.callers && g.callers[c] == Done
    requires c in g.finished ==> c in g.offered
    requires !g.worker.Idle? && g.worker.command == c ==> c in g.offered && c !in g.finished
    ensures Times(Apply(g, step), c) == if Over(Apply(g, step), c) then 1 else 0
  {
    if step.Call? {
      CallSettlesOnce(g, step, c);
    } else if step.Offer? {
      OfferSettlesOnce(g, step, c);
    } else if step.FinishItself? {
      RunSettlesOnce(g, step, c);
    } else if BySettling(step) {
      SettlingSettlesOnce(g, step, c);
    } else {
      assert Over(Apply(g, step), c) == Over(g, c) && Times(Apply(g, step), c) == Times(g, c);
    }
  }

  lemma StepKeepsSettled(g: Gate, step: Step)
    requires InOrder(g) && SettledOnce(g) && Enabled(g, step)
    ensures SettledOnce(Apply(g, step))
  {
    if !g.worker.Idle? {
      HeldIsNotFinished(g);
    }
    forall c
      ensures Times(Apply(g, step), c) == if Over(Apply(g, step), c) then 1 else 0
    {
      if c in g.finished {
        FinishedWereOffered(g, c);
      }
      StaysSettledOnce(g, step, c);
    }
  }

  lemma StepKeepsInv(g: Gate, step: Step)
    requires Inv(g) && Enabled(g, step)
    ensures Inv(Apply(g, step))
  {
    StepKeepsSignals(g, step);
    StepKeepsOrder(g, step);
    StepKeepsSettled(g, step);
    StepKeepsResults(g, step);
  }

  lemma {:induction false} RunKeepsInv(g: Gate, steps: seq<Step>)
    requires Inv(g) && IsRun(g, steps)
    ensures Inv(After(g, steps))
    decreases |steps|
  {
    if steps != [] {
      StepKeepsInv(g, steps[0]);
      RunKeepsInv(Apply(g, steps[0]), steps[1..]);
    }
  }

  // ---------------------------------------------------------------------------
  // What holds of every run

  /** The start of a queued command lies after the ready signal, and no command of any kind runs before it. */
  lemma NothingRunsBeforeReady(steps: seq<Step>)
    requires IsRun(INITIAL, steps)
    ensures var g := After(INITIAL, steps);
            && (!g.signalled ==> g.started == {})
            && (forall c <- g.offered :: c in g.started ==> g.latch == Opened)
  {
    RunKeepsInv(INITIAL, steps);
    OfferedStartInTurn(After(INITIAL, steps));
  }

  lemma OfferedStartInTurn(g: Gate)
    requires Inv(g)
    ensures forall c <- g.offered :: c in g.started ==> g.latch == Opened
  {
    forall c <- g.offered
      ensures c in g.started ==> g.latch == Opened
    {
      assert InTurn(g, c);
    }
  }

  /** A command called after the ready signal runs at once, past the queue, and gets its own exit. */
  lemma CalledWhenReady(g: Gate, c: CommandId, exit: int)
    requires Inv(g) && g.readiness == Ready && c !in g.callers
    ensures IsRun(g, [Call(c), FinishItself(c, exit)])
    ensures c in Apply(g, Call(c)).started
    ensures var g' := After(g, [Call(c), FinishItself(c, exit)]);
            && c in g'.started && c in g'.result && g'.result[c] == Ran(exit) && Times(g', c) == 1
            && g'.queue == g.queue && g'.worker == g.worker && c !in g'.offered
  {
    assert Times(g, c) == if Over(g, c) then 1 else 0;
    TwoSteps(g, Call(c), FinishItself(c, exit));
  }

  /** One called after startup failed gets the startup error and is never run or queued. */
  lemma CalledWhenFailed(g: Gate, c: CommandId)
    requires Inv(g) && g.readiness == Failed && c !in g.callers
    ensures Enabled(g, Call(c))
    ensures var g' := Apply(g, Call(c));
            && c in g'.result && g'.result[c] == StartupFailed && Times(g', c) == 1
            && g'.started == g.started && c !in g'.started && g'.queue == g.queue && g'.offered == g.offered
  {
    assert Times(g, c) == if Over(g, c) then 1 else 0;
    assert InTurn(g, c);
  }

  /** One called while startup is pending joins the queue at its end, and has no result yet. */
  lemma CalledWhenPending(g: Gate, c: CommandId)
    requires Inv(g) && g.readiness == Pending && c !in g.callers
    ensures IsRun(g, [Call(c), Offer(c)])
    ensures var g' := After(g, [Call(c), Offer(c)]);
            && g'.queue == g.queue + [c] && g'.offered == g.offered + [c] && Times(g', c) == 0
            && g'.started == g.started && g'.latch == g.latch
  {
    assert Times(g, c) == if Over(g, c) then 1 else 0;
    TwoSteps(g, Call(c), Offer(c));
  }

  /** Whichever of the two signals comes first decides the latch; the flag shows the last one. */
  lemma SignalsDecide(g: Gate)
    ensures IsRun(g, [SetReady, OpenLatch]) && IsRun(g, [SetFailed, BreakLatch])
    ensures var g' := After(g, [SetReady, OpenLatch]);
            g'.readiness == Ready && g'.latch == if g.latch == Unset then Opened else g.latch
    ensures var g' := After(g, [SetFailed, BreakLatch]);
            g'.readiness == Failed && g'.latch == if g.latch == Unset then Broken else g.latch
  {
    TwoSteps(g, SetReady, OpenLatch);
    TwoSteps(g, SetFailed, BreakLatch);
  }

  lemma TwoSteps(g: Gate, s1: Step, s2: Step)
    requires Enabled(g, s1) && Enabled(Apply(g, s1), s2)
    ensures IsRun(g, [s1, s2]) && After(g, [s1, s2]) == Apply(Apply(g, s1), s2)
  {
    var next, done := Apply(g, s1), Apply(Apply(g, s1), s2);
    assert [s1, s2][1..] == [s2];
    assert [s2][1..] == [];
    assert IsRun(done, []) && After(done, []) == done;
    assert IsRun(next, [s2]) && After(next, [s2]) == done;
  }

  /** If the latch is broken first, no queued command ever runs, even if readiness is signalled afterwards. */
  lemma {:induction false} BrokenStaysBroken(g: Gate, steps: seq<Step>)
    requires Inv(g) && IsRun(g, steps) && g.latch == Broken
    ensures var g' := After(g, steps);
            g'.latch == Broken && forall c <- g'.offered :: c !in g'.started
    decreases |steps|
  {
    RunKeepsInv(g, steps);
    OfferedStartInTurn(After(g, steps));
    if steps != [] {
      StepKeepsInv(g, steps[0]);
      BrokenStaysBroken(Apply(g, steps[0]), steps[1..]);
    }
  }

  /** Startup that fails without ever signalling readiness runs nothing at all. */
  lemma FailureWithoutReady(steps: seq<Step>)
    requires IsRun(INITIAL, steps) && SetReady !in steps
    ensures After(INITIAL, steps).started == {}
  {
    OnlySetReadySignals(INITIAL, steps);
    RunKeepsInv(INITIAL, steps);
  }

  lemma {:induction false} OnlySetReadySignals(g: Gate, steps: seq<Step>)
    requires IsRun(g, steps) && SetReady !in steps
    ensures After(g, steps).signalled == g.signalled
    decreases |steps|
  {
    if steps != [] {
      assert steps[0] in steps && forall x <- steps[1..] :: x in steps;
      OnlySetReadySignals(Apply(g, steps[0]), steps[1..]);
    }
  }

  /** The worker takes and settles commands in the order they arrived, and settles none twice. */
  lemma ArrivalOrder(steps: seq<Step>, c: CommandId)
    requires IsRun(INITIAL, steps)
    ensures var g := After(INITIAL, steps);
            && g.finished + InHand(g.worker) <= g.offered
            && Times(g, c) <= 1 && (Times(g, c) == 1 <==> Over(g, c))
            && (c in g.finished ==> c in g.result && (g.result[c] == StartupFailed <==> g.latch == Broken))
  {
    RunKeepsInv(INITIAL, steps);
  }

  /** What the worker does on its own, once the latch is decided, with the exits its commands will have. */
  function Drain(g: Gate, exits: CommandId -> int): seq<Step>
    requires g.latch != Unset && (g.worker.Running? ==> g.latch == Opened)
    decreases |g.queue|, (match g.worker case Idle => 0 case Waiting(_) => 2 case Running(_) => 1)
  {
    match g.worker
    case Idle => if g.queue == [] then [] else [Take] + Drain(Apply(g, Take), exits)
    case Waiting(c) =>
      if g.latch == Opened then [Begin] + Drain(Apply(g, Begin), exits) else [Refuse] + Drain(Apply(g, Refuse), exits)
    case Running(c) => [Finish(exits(c))] + Drain(Apply(g, Finish(exits(c))), exits)
  }

  /** Once startup has succeeded or failed, the worker alone settles every queued command. */
  lemma {:induction false} DrainSettlesAll(g: Gate, exits: CommandId -> int)
    requires Inv(g) && g.latch != Unset
    ensures IsRun(g, Drain(g, exits))
    ensures var g' := After(g, Drain(g, exits));
            && g'.finished == g.offered == g'.offered && g'.latch == g.latch
            && forall c <- g.offered :: Times(g', c) == 1
    decreases |g.queue|, (match g.worker case Idle => 0 case Waiting(_) => 2 case Running(_) => 1)
  {
    var steps := Drain(g, exits);
    if steps == [] {
      assert g.offered == g.finished;
    } else {
      assert Enabled(g, steps[0]) && steps[1..] == Drain(Apply(g, steps[0]), exits);
      StepKeepsInv(g, steps[0]);
      DrainSettlesAll(Apply(g, steps[0]), exits);
    }
  }
  /** The result the worker gives a command it has not settled yet. */
  function Answer(latch: Latch, exit: int): Result {
    if latch == Opened then Ran(exit) else StartupFailed
  }

  /** A command the worker has settled, holds, or will take. */
  predicate Offered(g: Gate, c: CommandId) {
    c in g.finished || c in InHand(g.worker) || c in g.queue
  }

  /** What the worker answers it, when it has not yet; and that it runs it if the latch is open. */
  predicate AnsweredAs(g: Gate, c: CommandId, g': Gate, exit: int) {
    && c in g'.result
    && (c in g.finished ==> c in g.result && g'.result[c] == g.result[c])
    && (c !in g.finished ==> g'.result[c] == Answer(g.latch, exit))
    && (c in g.started || (c !in g.finished && g.latch == Opened) ==> c in g'.started)
  }

  lemma WorkerKeepsOffered(g: Gate, step: Step, c: CommandId)
    requires Inv(g) && Enabled(g, step) && (step.Take? || step.Begin? || BySettling(step)) && Offered(g, c)
    ensures Offered(Apply(g, step), c)
  {
    if step.Take? {
      assert g.queue == [g.queue[0]] + g.queue[1..];
    } else if BySettling(step) {
      assert g.worker.command in g.finished + [g.worker.command];
    }
  }

  /** One step of the worker towards that answer. */
  lemma WorkerAnswers(g: Gate, step: Step, c: CommandId, g': Gate, exit: int)
    requires Inv(g) && Enabled(g, step) && Offered(g, c)
    requires step.Take? || step.Begin? || step.Refuse? ||
             (step.Finish? && (c == g.worker.command ==> step.exit == exit))
    requires AnsweredAs(Apply(g, step), c, g', exit)
    ensures AnsweredAs(g, c, g', exit)
  {
    if BySettling(step) {
      HeldIsNotFinished(g);
    }
    if c in g.finished {
      FinishedWereOffered(g, c);
    }
  }

  /**
   A command in hand or queued once startup is decided gets its own exit, having been run, or
   the startup error; one the worker has settled keeps its result.
   */
  lemma {:induction false} DrainAnswers(g: Gate, exits: CommandId -> int, c: CommandId)
    requires Inv(g) && g.latch != Unset && Offered(g, c)
    ensures IsRun(g, Drain(g, exits)) && AnsweredAs(g, c, After(g, Drain(g, exits)), exits(c))
    decreases |g.queue|, (match g.worker case Idle => 0 case Waiting(_) => 2 case Running(_) => 1)
  {
    var steps := Drain(g, exits);
    DrainSettlesAll(g, exits);
    if steps != [] {
      assert Enabled(g, steps[0]) && steps[1..] == Drain(Apply(g, steps[0]), exits);
      StepKeepsInv(g, steps[0]);
      WorkerKeepsOffered(g, steps[0], c);
      DrainAnswers(Apply(g, steps[0]), exits, c);
      WorkerAnswers(g, steps[0], c, After(g, steps), exits(c));
    }
  }
}
