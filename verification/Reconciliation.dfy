/**
 Startup reconciliation of provider sessions.  Two stores describe a thread: the session
 directory (bindings) and the projected sessions (threads).  They are written one after the
 other, and the server may die between the two writes.
 */
module Reconciliation {
  import opened Wrappers

  type ThreadId = nat
  type TurnId = nat
  type ProjectId = nat

  /** A field of a JSON payload: missing, null, something unusable, or a value. */
  datatype Field<T> = Absent | Null | Junk | Is(value: T)

  /** The fields of the runtime payload that matter here; a payload that is no record has all of them absent. */
  datatype Payload = Payload(marker: Field<TurnId>, prepared: Field<bool>, activeTurn: Field<TurnId>)

  datatype BindingStatus = BindingStarting | BindingRunning | BindingReady | BindingStopped | BindingError

  datatype Binding = Binding(status: BindingStatus, resumable: bool, payload: Payload)

  datatype SessionStatus = Idle | Starting | Running | Ready | Interrupted | Stopped | Error

  datatype SessionError = DidNotSurvive | CouldNotContinue | OtherError(code: nat)

  datatype Session = Session(status: SessionStatus, activeTurn: Option<TurnId>, lastError: Option<SessionError>)

  datatype Thread = Thread(project: ProjectId, archived: bool, deleted: bool, session: Option<Session>)

  /** One thread as both stores see it. */
  datatype Slot = Slot(thread: Thread, binding: Option<Binding>)

  // ---------------------------------------------------------------------------
  // Reading the markers

  function ContinuationTurn(b: Option<Binding>): Option<TurnId> {
    if b.Some? && b.value.payload.marker.Is? then Some(b.value.payload.marker.value) else None
  }

  predicate MarkerPresent(b: Option<Binding>) {
    b.Some? && !b.value.payload.marker.Absent?
  }

  /** A continuation prepared by an earlier start whose turn was never sent. */
  predicate PreparedUnsent(b: Option<Binding>) {
    ContinuationTurn(b).Some? && b.value.payload.activeTurn == Null && b.value.payload.prepared == Is(true)
  }

  predicate Orphaned(slot: Slot, live: bool) {
    && slot.thread.session.Some? && !live
    && var s := slot.thread.session.value;
       || s.status == Starting || s.status == Running || s.activeTurn.Some?
       || (s.status == Ready && PreparedUnsent(slot.binding))
  }

  predicate ContinuationMarked(s: Session, b: Option<Binding>) {
    var turn := ContinuationTurn(b);
    && turn.Some?
    && (s.activeTurn == None || s.activeTurn == turn)
    && (s.activeTurn.Some? || b.value.payload.activeTurn in {Absent, Null, Is(turn.value)})
  }

  predicate PreparedWhileReady(s: Session, b: Option<Binding>) {
    s.status == Ready && s.activeTurn == None && ContinuationMarked(s, b) && PreparedUnsent(b)
  }

  /** The server stopped in the middle of a turn and the project wants such turns continued. */
  predicate InterruptedByRestart(s: Session, b: Option<Binding>, wanted: bool) {
    wanted && s.status == Running && s.activeTurn.Some? && b.Some? && b.value.status == BindingRunning &&
      b.value.resumable
  }

  /** Reconciliation prepares this orphan to continue, rather than settling it as an error. */
  predicate Continues(slot: Slot, wanted: bool) {
    && slot.thread.session.Some? && slot.binding.Some?
    && var s := slot.thread.session.value;
       && (ContinuationMarked(s, slot.binding) || InterruptedByRestart(s, slot.binding, wanted))
       && (s.status == Running || s.status == Starting || PreparedWhileReady(s, slot.binding))
       && slot.binding.value.resumable && !slot.thread.archived && !slot.thread.deleted
  }

  /** The turn that gets recorded for continuation. */
  function TurnToContinue(slot: Slot, wanted: bool): TurnId
    requires Continues(slot, wanted)
  {
    var s := slot.thread.session.value;
    if s.activeTurn.Some? then s.activeTurn.value else ContinuationTurn(slot.binding).value
  }

  // ---------------------------------------------------------------------------
  // What reconciliation makes of one thread

  function PreparedBinding(slot: Slot, wanted: bool): Binding
    requires Continues(slot, wanted)
  {
    slot.binding.value.(status := BindingStarting,
                        payload := Payload(Is(TurnToContinue(slot, wanted)), Is(true), Null))
  }

  function PreparedSession(s: Session): Session {
    s.(status := Starting, activeTurn := None, lastError := None)
  }

  function SettledBinding(b: Binding, clearMarker: bool): Binding {
    b.(status := BindingStopped,
       payload := if clearMarker then Payload(Null, Null, Null) else b.payload.(activeTurn := Null))
  }

  function SettledSession(s: Session, error: SessionError): Session {
    s.(status := Error, activeTurn := None, lastError := Some(error))
  }

  function WithSession(t: Thread, s: Session): Thread {
    t.(session := Some(s))
  }

  function Prepared(slot: Slot, wanted: bool): Slot
    requires Continues(slot, wanted)
  {
    Slot(WithSession(slot.thread, PreparedSession(slot.thread.session.value)), Some(PreparedBinding(slot, wanted)))
  }

  function Settled(slot: Slot, wanted: bool): Slot
    requires slot.thread.session.Some?
  {
    var s := slot.thread.session.value;
    var clearMarker := MarkerPresent(slot.binding) || InterruptedByRestart(s, slot.binding, wanted);
    Slot(WithSession(slot.thread, SettledSession(s, DidNotSurvive)),
         if slot.binding.Some? then Some(SettledBinding(slot.binding.value, clearMarker)) else None)
  }

  /** The outcome for one thread when no store fails. */
  function Reconciled(slot: Slot, live: bool, wanted: bool): Slot {
    if !Orphaned(slot, live) then slot
    else if Continues(slot, wanted) then Prepared(slot, wanted)
    else Settled(slot, wanted)
  }

  /** Starting again with a durable note of the turn to continue. */
  predicate AwaitsContinuation(slot: Slot, turn: TurnId) {
    && slot.thread.session.Some? && slot.binding.Some?
    && slot.thread.session.value == Session(Starting, None, None)
    && slot.binding.value.status == BindingStarting && slot.binding.value.payload == Payload(Is(turn), Is(true), Null)
    && slot.binding.value.resumable && !slot.thread.archived && !slot.thread.deleted
  }

  /** Settled as an error, with nothing left that a later start could continue. */
  predicate IsSettled(slot: Slot) {
    && slot.thread.session.Some?
    && slot.thread.session.value.status == Error && slot.thread.session.value.activeTurn == None
    && slot.thread.session.value.lastError.Some?
    && ContinuationTurn(slot.binding) == None
    && (slot.binding.Some? ==> slot.binding.value.status == BindingStopped)
    && (slot.binding.Some? ==> slot.binding.value.payload.activeTurn == Null)
  }

  /** What reconciliation may leave of an orphan when reads and writes can fail. */
  predicate MayBecome(before: Slot, after: Slot, wanted: bool)
    requires before.thread.session.Some?
  {
    || (Continues(before, wanted) && after == Prepared(before, wanted))
    || (&& (after.thread == before.thread || after.thread == Settled(before, wanted).thread)
        && (after.binding == before.binding || after.binding == Settled(before, wanted).binding ||
            (Continues(before, wanted) && after.binding == Some(PreparedBinding(before, wanted)))))
  }

  /** What it may leave of any thread. */
  predicate MayBeLeftAs(before: Slot, after: Slot, wanted: bool) {
    after == before || (before.thread.session.Some? && MayBecome(before, after, wanted))
  }

  /** The session is starting, running or in a turn, though it is not live. */
  predicate InProgress(t: Thread, live: bool) {
    && !live && t.session.Some?
    && (t.session.value.status in {Starting, Running} || t.session.value.activeTurn.Some?)
  }

  /** With so few failures the thread does not stay as it was: it is prepared, as far as both stores go, or settled. */
  predicate Done(before: Slot, after: Slot, wanted: bool, faults: nat)
    requires before.thread.session.Some?
  {
    && (Continues(before, wanted) && faults <= 2 ==>
          after == Prepared(before, wanted) || after.thread == Settled(before, wanted).thread)
    && (!Continues(before, wanted) && faults <= 1 ==> after.thread == Settled(before, wanted).thread)
  }

  /** What it leaves of a thread, by whether the thread is live and how many failures there may be. */
  predicate LeftBy(before: Slot, after: Slot, live: bool, wanted: bool, faults: nat) {
    && MayBeLeftAs(before, after, wanted)
    && (!Orphaned(before, live) ==> after == before)
    && (faults == 0 ==> after == Reconciled(before, live, wanted))
    && (InProgress(before.thread, live) && faults <= 1 ==> Done(before, after, wanted, 1))
  }

  /** Even then no other turn is noted, and a session starts again only with its turn noted. */
  lemma FailuresNoteNoOtherTurn(before: Slot, after: Slot, wanted: bool)
    requires before.thread.session.Some? && MayBecome(before, after, wanted)
    ensures ContinuationTurn(after.binding) in {None, ContinuationTurn(before.binding)} ||
            (Continues(before, wanted) && ContinuationTurn(after.binding) == Some(TurnToContinue(before, wanted)))
    ensures after.thread != before.thread && after.thread.session.Some? &&
            after.thread.session.value.status == Starting ==>
              Continues(before, wanted) && AwaitsContinuation(after, TurnToContinue(before, wanted))
  {
  }

  /** Every orphan ends up awaiting exactly the turn that was interrupted, or settled; the rest is untouched. */
  lemma ReconciledOutcome(slot: Slot, live: bool, wanted: bool)
    ensures !Orphaned(slot, live) ==> Reconciled(slot, live, wanted) == slot
    ensures Orphaned(slot, live) && Continues(slot, wanted) ==>
              AwaitsContinuation(Reconciled(slot, live, wanted), TurnToContinue(slot, wanted))
    ensures Orphaned(slot, live) && !Continues(slot, wanted) ==>
              && IsSettled(Reconciled(slot, live, wanted))
              && Reconciled(slot, live, wanted).thread.session.value.lastError == Some(DidNotSurvive)
  {
  }

  /** A session that was running a turn when the server died, with nothing noted about it. */
  predicate CutOff(slot: Slot, turn: TurnId) {
    && slot.thread.session.Some? && slot.binding.Some? && ContinuationTurn(slot.binding) == None
    && slot.thread.session.value.status == Running && slot.thread.session.value.activeTurn == Some(turn)
  }

  /** A thread that could be taken up again. */
  predicate CanResume(slot: Slot) {
    slot.binding.Some? && slot.binding.value.resumable && !slot.thread.archived && !slot.thread.deleted
  }

  /** A turn cut off without a marker is continued exactly if that is wanted, it was admitted, and it can be resumed. */
  lemma CutOffTurn(slot: Slot, turn: TurnId, wanted: bool)
    requires CutOff(slot, turn)
    ensures if wanted && slot.binding.value.status == BindingRunning && CanResume(slot)
            then AwaitsContinuation(Reconciled(slot, false, wanted), turn)
            else IsSettled(Reconciled(slot, false, wanted))
  {
  }

  /** A turn that was marked is continued whether wanted or not, if the thread can be resumed. */
  lemma MarkedTurn(slot: Slot, turn: TurnId, wanted: bool)
    requires slot.thread.session.Some? && slot.thread.session.value.status in {Starting, Running}
    requires slot.thread.session.value.activeTurn == Some(turn) && ContinuationTurn(slot.binding) == Some(turn)
    ensures if CanResume(slot) then AwaitsContinuation(Reconciled(slot, false, wanted), turn)
            else IsSettled(Reconciled(slot, false, wanted))
  {
  }

  /** A marker for another turn than the one shown counts for nothing. */
  lemma MarkerForAnotherTurn(slot: Slot, shown: TurnId, marked: TurnId, wanted: bool)
    requires slot.thread.session.Some? && slot.thread.session.value.activeTurn == Some(shown)
    requires ContinuationTurn(slot.binding) == Some(marked) && marked != shown
    ensures if wanted && slot.thread.session.value.status == Running && slot.binding.value.status == BindingRunning &&
               CanResume(slot)
            then AwaitsContinuation(Reconciled(slot, false, wanted), shown)
            else IsSettled(Reconciled(slot, false, wanted))
  {
  }

  /** A session that shows no turn goes by its marker alone, if the binding names no other turn. */
  lemma MarkedWithoutTurn(slot: Slot, turn: TurnId, wanted: bool)
    requires slot.thread.session.Some? && slot.thread.session.value.status in {Starting, Running}
    requires slot.thread.session.value.activeTurn == None && ContinuationTurn(slot.binding) == Some(turn)
    ensures if CanResume(slot) && slot.binding.value.payload.activeTurn in {Absent, Null, Is(turn)}
            then AwaitsContinuation(Reconciled(slot, false, wanted), turn)
            else IsSettled(Reconciled(slot, false, wanted))
  {
  }

  /**
   A ready session is taken up exactly if its continuation was prepared and not sent; other
   idle ones are left alone.
   */
  lemma IdleSession(slot: Slot, wanted: bool)
    requires slot.thread.session.Some? && slot.thread.session.value.activeTurn == None
    requires slot.thread.session.value.status !in {Starting, Running}
    ensures slot.thread.session.value.status == Ready && PreparedUnsent(slot.binding) && CanResume(slot) ==>
              AwaitsContinuation(Reconciled(slot, false, wanted), ContinuationTurn(slot.binding).value)
    ensures slot.thread.session.value.status == Ready && PreparedUnsent(slot.binding) && !CanResume(slot) ==>
              IsSettled(Reconciled(slot, false, wanted))
    ensures slot.thread.session.value.status != Ready || !PreparedUnsent(slot.binding) ==>
              Reconciled(slot, false, wanted) == slot
  {
  }

  /** A turn left on a session that neither starts nor runs is settled, and so is a start that was never noted. */
  lemma StraySession(slot: Slot, wanted: bool)
    requires slot.thread.session.Some?
    requires || (slot.thread.session.value.activeTurn.Some? && slot.thread.session.value.status !in {Starting, Running})
             || (slot.thread.session.value.status == Starting && ContinuationTurn(slot.binding) == None)
    ensures IsSettled(Reconciled(slot, false, wanted))
  {
  }

  /** Settling forgets the turn and, if there was any, the marker; what else the binding says is kept. */
  lemma SettledPayload(slot: Slot, wanted: bool)
    requires Orphaned(slot, false) && !Continues(slot, wanted) && slot.binding.Some?
    ensures var before, after := slot.binding.value.payload, Reconciled(slot, false, wanted).binding.value.payload;
            && after.activeTurn == Null
            && (before.marker.Is? ==> after.marker == Null && after.prepared == Null)
            && (before.marker.Absent? && !wanted ==> after == before.(activeTurn := Null))
    ensures Reconciled(slot, false, wanted).binding.value.resumable == slot.binding.value.resumable
    ensures Reconciled(slot, false, wanted).thread.archived == slot.thread.archived
    ensures Reconciled(slot, false, wanted).thread.deleted == slot.thread.deleted
  {
  }

  /** What PreparedUnsent means of the payload. */
  lemma PreparedUnsentPayload(b: Binding, turn: TurnId)
    ensures b.payload == Payload(Is(turn), Is(true), Null) ==>
              PreparedUnsent(Some(b)) && ContinuationTurn(Some(b)) == Some(turn)
    ensures PreparedUnsent(Some(b)) ==> b.payload == Payload(Is(ContinuationTurn(Some(b)).value), Is(true), Null)
    ensures !PreparedUnsent(None) && ContinuationTurn(None) == None
  {
  }

  /** Before any turn is sent, reconciling again changes nothing, whatever the preference says by then. */
  lemma ReconcilingTwice(slot: Slot, live: bool, wanted: bool, wantedLater: bool)
    ensures Reconciled(Reconciled(slot, live, wanted), live, wantedLater) == Reconciled(slot, live, wanted)
  {
  }

  // ---------------------------------------------------------------------------
  // A thread through any number of server lives

  /** What the binding of a running, resumable thread becomes before a server update. */
  function MarkedBinding(b: Binding, turn: TurnId): Binding {
    b.(payload := b.payload.(marker := Is(turn), prepared := Null))
  }

  function ClearedBinding(b: Binding): Binding {
    b.(payload := b.payload.(marker := Null, prepared := Null))
  }

  /** The turn to mark before an update, if the thread is running one that can be resumed. */
  function TurnToMark(slot: Slot): Option<TurnId> {
    if !slot.thread.archived && !slot.thread.deleted && slot.thread.session.Some? &&
       slot.thread.session.value.status == Running && slot.binding.Some? && slot.binding.value.resumable
    then slot.thread.session.value.activeTurn else None
  }

  function AfterMarking(slot: Slot): Option<Binding> {
    if TurnToMark(slot).Some? then Some(MarkedBinding(slot.binding.value, TurnToMark(slot).value)) else slot.binding
  }

  /** A thread as both stores see it, and the turn its provider session is in while the server lives. */
  datatype Life = Life(slot: Slot, provider: Option<TurnId>)

  /** What can happen to one thread. */
  datatype LifeStep =
    | WriteBinding(wanted: bool)               // a reconciliation continues the thread: first write
    | WriteSession                             // second write
    | SettleBinding(wanted: bool)              // a reconciliation settles it: first write
    | SettleSession(error: SessionError)       // second write
    | Accept(turn: TurnId)                     // the provider takes a turn
    | Admit(turn: TurnId, resumable: bool)     // which is recorded, and consumes the markers
    | ProjectTurn(turn: TurnId)                // the projection learns of a running turn
    | EndTurn(ended: SessionStatus)            // or of its end
    | ProviderIdle                             // the provider's turn is over
    | SessionReady                             // the provider reports ready
    | BindingRefreshed(status: BindingStatus)  // the provider session is recorded
    | MarkForUpdate                            // before a server update
    | StopMarking                              // the server stops in a turn that is to be continued
    | ProviderStopped                          // the server stops
    | SessionStopped                           // the user stops the session
    | ClearMarkers                             // after the turn of a continuation was sent
    | Restart                                  // the server dies, or ends, and starts again

  predicate CanHappen(l: Life, step: LifeStep) {
    var slot := l.slot;
    match step
    case WriteBinding(wanted) => Orphaned(slot, false) && Continues(slot, wanted)
    case WriteSession => slot.thread.session.Some?
    case SettleBinding(_) => slot.thread.session.Some? && slot.binding.Some?
    case SettleSession(_) => slot.thread.session.Some?
    case Accept(_) => true
    case Admit(turn, _) => slot.binding.Some?
    case ProjectTurn(_) => slot.thread.session.Some?
    case EndTurn(_) => slot.thread.session.Some?
    case ProviderIdle => true
    case SessionReady => slot.thread.session.Some?
    case BindingRefreshed(_) => slot.binding.Some?
    case MarkForUpdate => TurnToMark(slot).Some?
    case StopMarking => slot.binding.Some? && l.provider.Some?
    case ProviderStopped => slot.binding.Some?
    case SessionStopped => slot.binding.Some?
    case ClearMarkers => slot.binding.Some?
    case Restart => true
  }

  function FieldOf(turn: Option<TurnId>): Field<TurnId> {
    if turn.Some? then Is(turn.value) else Null
  }

  function WithBinding(slot: Slot, status: BindingStatus, payload: Payload): Slot
    requires slot.binding.Some?
  {
    slot.(binding := Some(slot.binding.value.(status := status, payload := payload)))
  }

  /** The two stores after a step. */
  function SlotAfter(l: Life, step: LifeStep): Slot
    requires CanHappen(l, step)
  {
    var slot := l.slot;
    match step
    case WriteBinding(wanted) => slot.(binding := Some(PreparedBinding(slot, wanted)))
    case WriteSession => slot.(thread := WithSession(slot.thread, PreparedSession(slot.thread.session.value)))
    case SettleBinding(wanted) =>
      var clear := MarkerPresent(slot.binding) || InterruptedByRestart(slot.thread.session.value, slot.binding, wanted);
      slot.(binding := Some(SettledBinding(slot.binding.value, clear)))
    case SettleSession(error) =>
      slot.(thread := WithSession(slot.thread, SettledSession(slot.thread.session.value, error)))
    case Accept(_) => slot
    case Admit(turn, resumable) =>
      var admitted := WithBinding(slot, BindingRunning, Payload(Null, Null, Is(turn)));
      admitted.(binding := Some(admitted.binding.value.(resumable := resumable)))
    case ProjectTurn(turn) =>
      slot.(thread := WithSession(slot.thread, slot.thread.session.value.(status := Running, activeTurn := Some(turn))))
    case EndTurn(status) =>
      slot.(thread := WithSession(slot.thread, slot.thread.session.value.(status := status, activeTurn := None)))
    case ProviderIdle => slot
    case SessionReady =>
      slot.(thread := WithSession(slot.thread, slot.thread.session.value.(status := Ready, activeTurn := None)))
    case BindingRefreshed(status) =>
      WithBinding(slot, status, slot.binding.value.payload.(activeTurn := FieldOf(l.provider)))
    case MarkForUpdate => slot.(binding := AfterMarking(slot))
    case StopMarking =>
      var turn := Is(l.provider.value);
      WithBinding(slot, BindingRunning, slot.binding.value.payload.(marker := turn, activeTurn := turn))
    case ProviderStopped => WithBinding(slot, BindingStopped, slot.binding.value.payload.(activeTurn := Null))
    case SessionStopped => WithBinding(slot, BindingStopped, Payload(Null, Null, Null))
    case ClearMarkers => slot.(binding := Some(ClearedBinding(slot.binding.value)))
    case Restart => slot
  }

  function Happen(l: Life, step: LifeStep): Life
    requires CanHappen(l, step)
  {
    Life(SlotAfter(l, step),
         match step
         case Accept(turn) => Some(turn)
         case ProviderIdle => None
         case ProviderStopped => None
         case SessionStopped => None
         case Restart => None
         case _ => l.provider)
  }

  predicate IsLife(l: Life, steps: seq<LifeStep>)
    decreases |steps|
  {
    steps == [] || (CanHappen(l, steps[0]) && IsLife(Happen(l, steps[0]), steps[1..]))
  }

  function AfterLife(l: Life, steps: seq<LifeStep>): Life
    requires IsLife(l, steps)
    decreases |steps|
  {
    if steps == [] then l else AfterLife(Happen(l, steps[0]), steps[1..])
  }

  // ---------------------------------------------------------------------------
  // Where a marker comes from

  /** This step writes a marker for a turn the session, or its provider, is in at that moment. */
  predicate WritesMarkerFor(l: Life, step: LifeStep, turn: TurnId)
    requires CanHappen(l, step)
  {
    match step
    case WriteBinding(_) => l.slot.thread.session.value.activeTurn == Some(turn)
    case MarkForUpdate => l.slot.thread.session.value.activeTurn == Some(turn)
    case StopMarking => l.provider == Some(turn)
    case _ => false
  }

  /** Step i of a life does. */
  predicate MarksAt(l: Life, steps: seq<LifeStep>, i: nat, turn: TurnId)
    requires IsLife(l, steps) && i < |steps|
    decreases i
  {
    if i == 0 then WritesMarkerFor(l, steps[0], turn) else MarksAt(Happen(l, steps[0]), steps[1..], i - 1, turn)
  }

  predicate NoneAdmitted(steps: seq<LifeStep>) {
    forall step <- steps :: !step.Admit?
  }

  /** Step i writes a marker for the turn, and no turn is admitted after it. */
  predicate Origin(l: Life, steps: seq<LifeStep>, i: nat, turn: TurnId)
    requires IsLife(l, steps)
  {
    i < |steps| && MarksAt(l, steps, i, turn) && NoneAdmitted(steps[i + 1..])
  }

  /** A marker is either kept by a step that admits nothing, or written by it for the turn in progress. */
  lemma MarkerAfterStep(l: Life, step: LifeStep, turn: TurnId)
    requires CanHappen(l, step) && ContinuationTurn(Happen(l, step).slot.binding) == Some(turn)
    ensures WritesMarkerFor(l, step, turn) || (ContinuationTurn(l.slot.binding) == Some(turn) && !step.Admit?)
  {
  }

  /**
   Over every life: a marker that names a turn was there from the start, with no turn admitted
   since, or was written while that turn was in progress, with no turn admitted since.
   */
  lemma {:induction false} MarkerHasOrigin(l: Life, steps: seq<LifeStep>, turn: TurnId)
    requires IsLife(l, steps) && ContinuationTurn(AfterLife(l, steps).slot.binding) == Some(turn)
    ensures || (ContinuationTurn(l.slot.binding) == Some(turn) && NoneAdmitted(steps))
            || exists i: nat :: Origin(l, steps, i, turn)
    decreases |steps|
  {
    if steps != [] {
      var next, rest := Happen(l, steps[0]), steps[1..];
      MarkerHasOrigin(next, rest, turn);
      if i: nat :| Origin(next, rest, i, turn) {
        assert steps[i + 2..] == rest[i + 1..];
        assert Origin(l, steps, i + 1, turn);
      } else {
        MarkerAfterStep(l, steps[0], turn);
        assert WritesMarkerFor(l, steps[0], turn) ==> Origin(l, steps, 0, turn);
      }
    }
  }

  /**
   The marker is never applied to the wrong turn: from a thread without a marker, whatever
   happens, reconciliation continues only the turn the session is in, or one that was in
   progress when its marker was written and after which no turn has been admitted.
   */
  lemma NeverTheWrongTurn(l: Life, steps: seq<LifeStep>, wanted: bool)
    requires IsLife(l, steps) && ContinuationTurn(l.slot.binding) == None
    requires Continues(AfterLife(l, steps).slot, wanted)
    ensures var slot := AfterLife(l, steps).slot;
            var turn := TurnToContinue(slot, wanted);
            || slot.thread.session.value.activeTurn == Some(turn)
            || exists i: nat :: Origin(l, steps, i, turn)
  {
    var slot := AfterLife(l, steps).slot;
    if slot.thread.session.value.activeTurn == None {
      MarkerHasOrigin(l, steps, TurnToContinue(slot, wanted));
    }
  }

  /**
   Once a turn is admitted, no earlier marker is left: unless one is written later, an idle thread is
   not continued.
   */
  lemma SentIsNotReplayed(l: Life, steps: seq<LifeStep>, a: nat, wanted: bool)
    requires IsLife(l, steps) && a < |steps| && steps[a].Admit?
    requires forall i: nat, turn :: a < i < |steps| ==> !MarksAt(l, steps, i, turn)
    requires AfterLife(l, steps).slot.thread.session.Some?
    requires AfterLife(l, steps).slot.thread.session.value.activeTurn == None
    ensures ContinuationTurn(AfterLife(l, steps).slot.binding) == None && !Continues(AfterLife(l, steps).slot, wanted)
  {
    var marker := ContinuationTurn(AfterLife(l, steps).slot.binding);
    if marker.Some? {
      MarkerHasOrigin(l, steps, marker.value);
      AdmitMarksNothing(l, steps, a, marker.value);
      OriginIsLater(l, steps, a, marker.value);
    }
  }

  lemma OriginIsLater(l: Life, steps: seq<LifeStep>, a: nat, turn: TurnId)
    requires IsLife(l, steps) && a < |steps| && steps[a].Admit?
    ensures !NoneAdmitted(steps) && forall i: nat :: Origin(l, steps, i, turn) ==> a <= i
  {
    forall i: nat | Origin(l, steps, i, turn)
      ensures a <= i
    {
      assert forall k: nat :: i < k < |steps| ==> steps[i + 1..][k - i - 1] == steps[k];
    }
  }

  lemma {:induction false} AdmitMarksNothing(l: Life, steps: seq<LifeStep>, a: nat, turn: TurnId)
    requires IsLife(l, steps) && a < |steps| && steps[a].Admit?
    ensures !MarksAt(l, steps, a, turn)
    decreases a
  {
    if a > 0 {
      AdmitMarksNothing(Happen(l, steps[0]), steps[1..], a - 1, turn);
    }
  }

  // ---------------------------------------------------------------------------
  // What was recorded is continued

  /** The continuation of a turn is recorded and not yet sent: what both stores then say, in every phase. */
  predicate Recorded(slot: Slot, turn: TurnId) {
    && slot.thread.session.Some? && slot.binding.Some?
    && slot.binding.value.payload == Payload(Is(turn), Is(true), Null)
    && slot.binding.value.resumable && !slot.thread.archived && !slot.thread.deleted
    && var s := slot.thread.session.value;
       && s.status in {Starting, Running, Ready}
       && (s.activeTurn == None || (s.activeTurn == Some(turn) && s.status != Ready))
  }

  lemma TwoSteps(l: Life, s1: LifeStep, s2: LifeStep)
    requires CanHappen(l, s1) && CanHappen(Happen(l, s1), s2)
    ensures IsLife(l, [s1, s2]) && AfterLife(l, [s1, s2]) == Happen(Happen(l, s1), s2)
  {
    var next, done := Happen(l, s1), Happen(Happen(l, s1), s2);
    assert [s1, s2][1..] == [s2];
    assert [s2][1..] == [];
    assert IsLife(done, []) && AfterLife(done, []) == done;
    assert IsLife(next, [s2]) && AfterLife(next, [s2]) == done;
  }

  /** The two writes together are the preparation; a death between them leaves the first alone in place. */
  lemma TwoWritesPrepare(l: Life, wanted: bool)
    requires Orphaned(l.slot, false) && Continues(l.slot, wanted)
    ensures IsLife(l, [WriteBinding(wanted), WriteSession])
    ensures AfterLife(l, [WriteBinding(wanted), WriteSession]).slot == Prepared(l.slot, wanted)
  {
    TwoSteps(l, WriteBinding(wanted), WriteSession);
  }

  /** The other two writes together are the settlement. */
  lemma TwoWritesSettle(l: Life, wanted: bool)
    requires Orphaned(l.slot, false) && !Continues(l.slot, wanted) && l.slot.binding.Some?
    ensures IsLife(l, [SettleBinding(wanted), SettleSession(DidNotSurvive)])
    ensures AfterLife(l, [SettleBinding(wanted), SettleSession(DidNotSurvive)]).slot ==
            Reconciled(l.slot, false, wanted)
  {
    TwoSteps(l, SettleBinding(wanted), SettleSession(DidNotSurvive));
  }

  /** An admitted turn, once projected, is one that can be cut off, and is continued after a death if that is wanted. */
  lemma AdmittedIsContinued(l: Life, turn: TurnId)
    requires l.slot.thread.session.Some? && l.slot.binding.Some? && !l.slot.thread.archived && !l.slot.thread.deleted
    ensures IsLife(l, [Admit(turn, true), ProjectTurn(turn)])
    ensures var now := AfterLife(l, [Admit(turn, true), ProjectTurn(turn)]).slot;
            CutOff(now, turn) && AwaitsContinuation(Reconciled(now, false, true), turn) &&
            IsSettled(Reconciled(now, false, false))
  {
    TwoSteps(l, Admit(turn, true), ProjectTurn(turn));
  }

  /** A turn the server stops in, when it is to be continued, is continued whatever the preference says by then. */
  lemma StoppedTurnIsContinued(l: Life, turn: TurnId, wanted: bool)
    requires l.slot.thread.session.Some? && l.slot.thread.session.value.status == Running && CanResume(l.slot)
    requires l.slot.thread.session.value.activeTurn == Some(turn)
    ensures var accepted := Happen(l, Accept(turn));
            && IsLife(accepted, [StopMarking, ProviderStopped])
            && AwaitsContinuation(Reconciled(AfterLife(accepted, [StopMarking, ProviderStopped]).slot, false, wanted),
                                  turn)
  {
    TwoSteps(Happen(l, Accept(turn)), StopMarking, ProviderStopped);
  }

  /** One the server stops in without that is not, */
  lemma StoppedTurnIsSettled(l: Life, turn: TurnId, wanted: bool)
    requires CutOff(l.slot, turn)
    ensures IsLife(l, [ProviderStopped, Restart])
    ensures IsSettled(Reconciled(AfterLife(l, [ProviderStopped, Restart]).slot, false, wanted))
  {
    TwoSteps(l, ProviderStopped, Restart);
  }

  /** unless it was marked before an update; and such a mark is not yet a preparation. */
  lemma UpdateMarkIsContinued(l: Life, turn: TurnId, wanted: bool)
    requires l.slot.thread.session.Some? && l.slot.thread.session.value.status == Running && CanResume(l.slot)
    requires l.slot.thread.session.value.activeTurn == Some(turn)
    ensures IsLife(l, [MarkForUpdate, ProviderStopped])
    ensures var now := AfterLife(l, [MarkForUpdate, ProviderStopped]).slot;
            AwaitsContinuation(Reconciled(now, false, wanted), turn) && !PreparedUnsent(now.binding)
  {
    TwoSteps(l, MarkForUpdate, ProviderStopped);
  }

  /** A turn that ended, or whose session got ready again, leaves nothing to reconcile. */
  lemma EndedIsLeftAlone(l: Life, turn: TurnId, step: LifeStep, wanted: bool)
    requires CutOff(l.slot, turn) && (step.EndTurn? || step.SessionReady?)
    requires step.EndTurn? ==> step.ended !in {Starting, Running}
    ensures var now := Happen(l, step).slot;
            && now.thread.session.value.status == (if step.EndTurn? then step.ended else Ready)
            && Reconciled(now, false, wanted) == now && now.binding == l.slot.binding
  {
  }

  /**
   A start whose provider is at another turn than the one noted is not taken up again once the binding was
   refreshed; at the noted turn, or at none, it is.
   */
  lemma RefreshedStart(l: Life, turn: TurnId, wanted: bool)
    requires AwaitsContinuation(l.slot, turn)
    ensures var now := Happen(l, BindingRefreshed(BindingRunning)).slot;
            if l.provider in {None, Some(turn)} then AwaitsContinuation(Reconciled(now, false, wanted), turn)
            else IsSettled(Reconciled(now, false, wanted))
  {
  }

  /** A session the user stopped, or whose turn was sent, has no note left. */
  lemma StoppedHasNoMarker(l: Life, step: LifeStep)
    requires CanHappen(l, step) && (step.SessionStopped? || step.ClearMarkers?)
    ensures ContinuationTurn(Happen(l, step).slot.binding) == None && !PreparedUnsent(Happen(l, step).slot.binding)
    ensures Happen(l, step).slot.binding.value.payload.prepared == Null
    ensures step.ClearMarkers? ==>
              && Happen(l, step).slot.binding.value.status == l.slot.binding.value.status
              && Happen(l, step).slot.binding.value.payload.activeTurn == l.slot.binding.value.payload.activeTurn
    ensures step.SessionStopped? ==> Happen(l, step).slot.binding.value.status == BindingStopped
    ensures Happen(l, step).slot.thread == l.slot.thread
  {
  }

  /** The first write of a reconciliation records the continuation. */
  lemma FirstWriteRecords(l: Life, wanted: bool)
    requires Orphaned(l.slot, false) && Continues(l.slot, wanted)
    ensures Recorded(Happen(l, WriteBinding(wanted)).slot, TurnToContinue(l.slot, wanted))
  {
  }

  /**
   What can happen to a thread until the turn of its continuation is admitted, unless the user
   stops the session or a reconciliation gives it up.
   */
  predicate UntilSent(step: LifeStep) {
    !step.Admit? && !step.ClearMarkers? && !step.SessionStopped? && !step.SettleBinding? && !step.SettleSession?
  }

  /** Some continuation is noted, though not necessarily the one recorded first. */
  predicate Held(slot: Slot) {
    && slot.thread.session.Some? && slot.binding.Some?
    && slot.binding.value.resumable && !slot.thread.archived && !slot.thread.deleted
    && var s, payload := slot.thread.session.value, slot.binding.value.payload;
       && payload.marker.Is? && (payload.prepared == Is(true) || payload.prepared == Null)
       && (payload.activeTurn == Null || payload.activeTurn.Is?)
       && (s.activeTurn.Some? ==> s.status in {Starting, Running})
  }

  /** The next reconciliation prepares this turn. */
  predicate Prepares(slot: Slot, turn: TurnId, wanted: bool) {
    Orphaned(slot, false) && Continues(slot, wanted) && TurnToContinue(slot, wanted) == turn
  }

  /**
   The turn is still the one in progress: the session shows no other, and where it shows none
   the marker names the turn and the binding no other, and none at all if the session is ready.
   */
  predicate InPlace(slot: Slot, turn: TurnId, wanted: bool)
    requires Held(slot)
  {
    var s, b := slot.thread.session.value, slot.binding.value;
    match s.activeTurn
    case Some(shown) =>
      shown == turn && (b.payload.marker == Is(turn) || (wanted && s.status == Running && b.status == BindingRunning))
    case None =>
      b.payload.marker == Is(turn) &&
      if s.status == Ready then b.payload.activeTurn == Null && b.payload.prepared == Is(true)
      else s.status in {Starting, Running} && (b.payload.activeTurn == Null || b.payload.activeTurn == Is(turn))
  }

  /** Some continuation stays noted through every step before one is sent. */
  lemma StepKeepsHeld(l: Life, step: LifeStep)
    requires Held(l.slot) && CanHappen(l, step) && UntilSent(step)
    ensures Held(Happen(l, step).slot)
  {
  }

  /**
   Wherever the server dies or stops after recording a continuation and before its turn is
   admitted, and however often, even while the provider is already at a turn: the next
   reconciliation prepares the recorded turn exactly if it is still the one in progress.
   */
  lemma {:induction false} ContinuationSurvives(l: Life, steps: seq<LifeStep>, turn: TurnId, wanted: bool)
    requires Held(l.slot) && IsLife(l, steps) && forall step <- steps :: UntilSent(step)
    ensures var now := AfterLife(l, steps).slot;
            Held(now) && (Prepares(now, turn, wanted) <==> InPlace(now, turn, wanted))
    decreases |steps|
  {
    if steps != [] {
      assert UntilSent(steps[0]) && forall step <- steps[1..] :: step in steps;
      StepKeepsHeld(l, steps[0]);
      ContinuationSurvives(Happen(l, steps[0]), steps[1..], turn, wanted);
    }
  }

  /**
   A life in which the note of the turn is left alone: no marker is written for another turn,
   the binding is refreshed only while the provider is at no turn, and the projection shows
   turns but not that the session failed or ended.
   */
  predicate LeavesNote(l: Life, steps: seq<LifeStep>, turn: TurnId)
    requires IsLife(l, steps)
    decreases |steps|
  {
    steps == [] || (
      && UntilSent(steps[0])
      && (match steps[0]
          case WriteBinding(_) => l.slot.thread.session.value.activeTurn in {None, Some(turn)}
          case MarkForUpdate => false
          case StopMarking => false
          case BindingRefreshed(_) => l.provider == None
          case EndTurn(ended) => ended in {Starting, Running, Ready}
          case _ => true)
      && LeavesNote(Happen(l, steps[0]), steps[1..], turn))
  }

  /** The note of the turn is there, whatever turn the session shows. */
  predicate Noted(slot: Slot, turn: TurnId) {
    && Held(slot) && slot.binding.value.payload == Payload(Is(turn), Is(true), Null)
    && slot.thread.session.value.status in {Starting, Running, Ready}
  }

  /**
   In such a life the same turn is prepared exactly if the session does not show another one:
   so a turn the provider has taken does no harm until it is projected.
   */
  lemma {:induction false} ContinuedUnlessProjected(l: Life, steps: seq<LifeStep>, turn: TurnId, wanted: bool)
    requires Noted(l.slot, turn) && IsLife(l, steps) && LeavesNote(l, steps, turn)
    ensures var now := AfterLife(l, steps).slot;
            && Noted(now, turn)
            && (Prepares(now, turn, wanted) <==> now.thread.session.value.activeTurn in {None, Some(turn)})
    decreases |steps|
  {
    if steps != [] {
      StepKeepsNote(l, steps[0], turn);
      ContinuedUnlessProjected(Happen(l, steps[0]), steps[1..], turn, wanted);
    }
  }

  lemma StepKeepsNote(l: Life, step: LifeStep, turn: TurnId)
    requires Noted(l.slot, turn) && CanHappen(l, step) && UntilSent(step)
    requires step.WriteBinding? ==> l.slot.thread.session.value.activeTurn in {None, Some(turn)}
    requires !step.MarkForUpdate? && !step.StopMarking? && (step.BindingRefreshed? ==> l.provider == None)
    requires step.EndTurn? ==> step.ended in {Starting, Running, Ready}
    ensures Noted(Happen(l, step).slot, turn)
  {
  }

  /** Recording a continuation leaves such a note. */
  lemma RecordedIsNoted(slot: Slot, turn: TurnId)
    requires Recorded(slot, turn)
    ensures Noted(slot, turn) && InPlace(slot, turn, false)
  {
  }

  /**
   With another turn shown, the noted one is lost: the other is prepared if it was interrupted
   and such turns are to be continued, else the thread is settled.
   */
  lemma DisplacedOutcome(slot: Slot, turn: TurnId, other: TurnId, wanted: bool)
    requires Noted(slot, turn) && other != turn && slot.thread.session.value.activeTurn == Some(other)
    ensures if wanted && slot.thread.session.value.status == Running && slot.binding.value.status == BindingRunning
            then AwaitsContinuation(Reconciled(slot, false, wanted), other)
            else IsSettled(Reconciled(slot, false, wanted))
  {
  }

  /** The provider reports the start of its turn, and the server dies before sending it has returned. */
  function TurnStartsUnadmitted(other: TurnId): seq<LifeStep> {
    [SessionReady, BindingRefreshed(BindingRunning), Accept(other), ProjectTurn(other), Restart]
  }

  /** This life loses the noted turn: the new turn is projected, and nothing is admitted. */
  lemma ProjectedTurnDisplaces(l: Life, turn: TurnId, other: TurnId, wanted: bool)
    requires Recorded(l.slot, turn) && l.provider == None && other != turn
    ensures IsLife(l, TurnStartsUnadmitted(other)) && NoneAdmitted(TurnStartsUnadmitted(other))
    ensures var now := AfterLife(l, TurnStartsUnadmitted(other)).slot;
            && !Prepares(now, turn, wanted)
            && if wanted then AwaitsContinuation(Reconciled(now, false, wanted), other)
               else IsSettled(Reconciled(now, false, wanted))
  {
    var l1 := Happen(l, SessionReady);
    var l2 := Happen(l1, BindingRefreshed(BindingRunning));
    var l3 := Happen(l2, Accept(other));
    var l4 := Happen(l3, ProjectTurn(other));
    var l5 := Happen(l4, Restart);
    assert Noted(l5.slot, turn) && l5.slot.binding.value.status == BindingRunning by {
      assert Noted(l1.slot, turn);
      assert Noted(l2.slot, turn);
    }
    FiveSteps(l, TurnStartsUnadmitted(other), l1, l2, l3, l4, l5);
    DisplacedOutcome(l5.slot, turn, other, wanted);
  }

  lemma FiveSteps(l: Life, steps: seq<LifeStep>, l1: Life, l2: Life, l3: Life, l4: Life, l5: Life)
    requires |steps| == 5 && CanHappen(l, steps[0]) && l1 == Happen(l, steps[0])
    requires CanHappen(l1, steps[1]) && l2 == Happen(l1, steps[1])
    requires CanHappen(l2, steps[2]) && l3 == Happen(l2, steps[2])
    requires CanHappen(l3, steps[3]) && l4 == Happen(l3, steps[3])
    requires CanHappen(l4, steps[4]) && l5 == Happen(l4, steps[4])
    ensures IsLife(l, steps) && AfterLife(l, steps) == l5
  {
    assert IsLife(l5, steps[5..]) && AfterLife(l5, steps[5..]) == l5;
    assert steps[4..][1..] == steps[5..];
    assert IsLife(l4, steps[4..]) && AfterLife(l4, steps[4..]) == l5;
    assert steps[3..][1..] == steps[4..];
    assert IsLife(l3, steps[3..]) && AfterLife(l3, steps[3..]) == l5;
    assert steps[2..][1..] == steps[3..];
    assert IsLife(l2, steps[2..]) && AfterLife(l2, steps[2..]) == l5;
    assert steps[1..][1..] == steps[2..];
    assert IsLife(l1, steps[1..]) && AfterLife(l1, steps[1..]) == l5;
  }

  // ---------------------------------------------------------------------------
  // The two stores and the loops over them

  /**
   A thread marked before an update is continued with that very turn after it, even if continuing is
   not preferred.
   */
  lemma MarkedIsContinued(slot: Slot, wanted: bool)
    requires slot.thread.session.Some? && slot.thread.session.value.status == Running
    requires slot.thread.session.value.activeTurn.Some? && CanResume(slot)
    ensures var marked := slot.(binding := AfterMarking(slot));
            AwaitsContinuation(Reconciled(marked, false, wanted), slot.thread.session.value.activeTurn.value)
  {
  }

  /** A thread that is not running a turn, or cannot be resumed, is not marked. */
  lemma NothingToMark(slot: Slot)
    requires !CanResume(slot) || slot.thread.session.None? ||
             slot.thread.session.value.status != Running || slot.thread.session.value.activeTurn == None
    ensures AfterMarking(slot) == slot.binding && TurnToMark(slot) == None
  {
  }

  /** How the attempt to send the turn of a continuation ended. */
  datatype SendOutcome = Sent | ServerStops | NotSent

  class Stores {
    /** How many reads and writes may still fail, at most. */
    var faults: nat
    var directory: map<ThreadId, Binding>
    var threads: map<ThreadId, Thread>

    constructor (faults: nat, directory: map<ThreadId, Binding>, threads: map<ThreadId, Thread>)
      ensures this.faults == faults && this.directory == directory && this.threads == threads
    {
      this.faults, this.directory, this.threads := faults, directory, threads;
    }

    /** One more read or write, and whether it succeeds. */
    method Attempt() returns (ok: bool)
      modifies this`faults
      ensures ok ==> faults == old(faults)
      ensures !ok ==> faults + 1 == old(faults)
    {
      var fails := *;
      ok := !fails || faults == 0;
      if !ok {
        faults := faults - 1;
      }
    }

    function BindingOf(id: ThreadId): Option<Binding>
      reads this
    {
      if id in directory then Some(directory[id]) else None
    }

    function SlotOf(id: ThreadId): Slot
      requires id in threads
      reads this
    {
      Slot(threads[id], BindingOf(id))
    }

    /** Only thread `id` may differ from the given stores. */
    predicate OthersKept(id: ThreadId, directory': map<ThreadId, Binding>, threads': map<ThreadId, Thread>)
      reads this
    {
      directory - {id} == directory' - {id} && threads - {id} == threads' - {id} && threads.Keys == threads'.Keys
    }

    /** Reading a binding may fail, which reads as there being none. */
    method GetBinding(id: ThreadId) returns (ok: bool, b: Option<Binding>)
      modifies this`faults
      ensures faults == if ok then old(faults) else old(faults) - 1
      ensures b == if ok then BindingOf(id) else None
    {
      ok := Attempt();
      b := if ok then BindingOf(id) else None;
    }

    method Upsert(id: ThreadId, b: Binding) returns (ok: bool)
      modifies this`directory, this`faults
      ensures faults == if ok then old(faults) else old(faults) - 1
      ensures directory == if ok then old(directory)[id := b] else old(directory)
    {
      ok := Attempt();
      if ok {
        directory := directory[id := b];
      }
    }

    method SetSession(id: ThreadId, s: Session) returns (ok: bool)
      requires id in threads
      modifies this`threads, this`faults
      ensures faults == if ok then old(faults) else old(faults) - 1
      ensures threads == if ok then old(threads)[id := WithSession(old(threads[id]), s)] else old(threads)
    {
      ok := Attempt();
      if ok {
        threads := threads[id := WithSession(threads[id], s)];
      }
    }

    /**
     Try the two writes of a settlement.  A binding that cannot be written does not hold up the session, whose
     write is tried twice.
     */
    method SettleAsError(id: ThreadId, s: Session, b: Option<Binding>, wanted: bool, error: SessionError)
      requires id in threads
      modifies this`directory, this`threads, this`faults
      ensures faults <= old(faults)
      ensures OthersKept(id, old(directory), old(threads))
      ensures threads[id] == old(threads[id]) || threads[id] == WithSession(old(threads[id]), SettledSession(s, error))
      ensures BindingOf(id) == old(BindingOf(id)) ||
              (b.Some? && BindingOf(id) ==
                 Some(SettledBinding(b.value, MarkerPresent(b) || InterruptedByRestart(s, b, wanted))))
      ensures old(faults) <= 1 ==>
                threads == old(threads)[id := WithSession(old(threads[id]), SettledSession(s, error))]
      ensures b.None? ==> directory == old(directory)
      ensures old(faults) == 0 && b.Some? ==>
                directory == old(directory)[id := SettledBinding(b.value, MarkerPresent(b) ||
                  InterruptedByRestart(s, b, wanted))]
    {
      if b.Some? {
        var written := Upsert(id, SettledBinding(b.value, MarkerPresent(b) || InterruptedByRestart(s, b, wanted)));
      }
      var stored := SetSession(id, SettledSession(s, error));
      if !stored {
        stored := SetSession(id, SettledSession(s, error));
      }
    }

    /** The two writes that prepare a continuation, the binding first; tried at most twice. */
    method Prepare(id: ThreadId, slot: Slot, wanted: bool) returns (ok: bool, attempts: nat)
      requires id in threads && slot.thread == threads[id] && Continues(slot, wanted)
      modifies this`directory, this`threads, this`faults
      ensures faults <= old(faults)
      ensures OthersKept(id, old(directory), old(threads))
      ensures 1 <= attempts <= 2 && (!ok ==> attempts == 2 && faults + 2 <= old(faults))
      ensures ok ==> SlotOf(id) == Prepared(slot, wanted)
      ensures !ok ==> threads == old(threads)
      ensures !ok ==> BindingOf(id) in {old(BindingOf(id)), Some(PreparedBinding(slot, wanted))}
      ensures threads[id] != old(threads[id]) ==> BindingOf(id) == Some(PreparedBinding(slot, wanted))
    {
      attempts := 0;
      ok := false;
      while !ok && attempts < 2
        invariant OthersKept(id, old(directory), old(threads))
        invariant attempts <= 2 && (attempts == 0 ==> !ok)
        invariant faults <= old(faults) && (!ok ==> faults + attempts <= old(faults))
        invariant !ok ==> threads == old(threads)
        invariant !ok ==> BindingOf(id) in {old(BindingOf(id)), Some(PreparedBinding(slot, wanted))}
        invariant ok ==> SlotOf(id) == Prepared(slot, wanted)
        decreases 2 - attempts
      {
        attempts := attempts + 1;
        ok := Upsert(id, PreparedBinding(slot, wanted));
        if ok {
          ok := SetSession(id, PreparedSession(slot.thread.session.value));
        }
      }
    }

    /** Reconcile one orphaned thread.  One failure, or two if it is to be continued, do not leave it hanging. */
    method ReconcileThread(id: ThreadId, wanted: bool)
      requires id in threads && threads[id].session.Some? && (faults == 0 ==> Orphaned(SlotOf(id), false))
      modifies this`directory, this`threads, this`faults
      ensures faults <= old(faults)
      ensures OthersKept(id, old(directory), old(threads))
      ensures MayBecome(old(SlotOf(id)), SlotOf(id), wanted)
      ensures old(faults) == 0 ==> SlotOf(id) == Reconciled(old(SlotOf(id)), false, wanted)
      ensures Done(old(SlotOf(id)), SlotOf(id), wanted, old(faults))
    {
      var ok, b := GetBinding(id);
      var slot := Slot(threads[id], b);
      var session := threads[id].session.value;
      if Continues(slot, wanted) {
        var prepared, _ := Prepare(id, slot, wanted);
        if !prepared {
          SettleAsError(id, session, b, wanted, DidNotSurvive);
        }
      } else {
        SettleAsError(id, session, b, wanted, DidNotSurvive);
      }
    }

    /**
     The continuation of a prepared thread, with the slot reconciliation had read: once sent
     its markers go, if the server is stopping meanwhile everything stays, else it is settled.
     */
    method ContinueThread(id: ThreadId, slot: Slot, wanted: bool, outcome: SendOutcome)
      requires id in threads && Continues(slot, wanted)
      modifies this`directory, this`threads, this`faults
      ensures faults <= old(faults)
      ensures OthersKept(id, old(directory), old(threads))
      ensures outcome == ServerStops ==> SlotOf(id) == old(SlotOf(id))
      ensures outcome == Sent ==> threads == old(threads)
      ensures old(faults) == 0 && outcome == Sent && id in old(directory) ==>
                id in directory && directory[id] == ClearedBinding(old(directory[id]))
      ensures old(faults) == 0 && outcome == NotSent ==> IsSettled(SlotOf(id)) && !Orphaned(SlotOf(id), false)
      ensures old(faults) <= 1 && outcome == NotSent ==>
                threads[id].session == Some(SettledSession(slot.thread.session.value, CouldNotContinue))
    {
      match outcome
      case Sent =>
        var cleared := ClearContinuationMarkers([id]);
        assert directory - {id} == old(directory) - {id};
        assert id in [id];
      case ServerStops =>
      case NotSent =>
        SettleAsError(id, slot.thread.session.value, slot.binding, wanted, CouldNotContinue);
    }

    /** A thread whose session is ready and not live. */
    predicate IsIdle(id: ThreadId, live: set<ThreadId>)
      requires id in threads
      reads this`threads
    {
      threads[id].session.Some? && threads[id].session.value.status == Ready && id !in live
    }

    /**
     The threads with a prepared but unsent continuation; if they cannot be listed, ready threads are
     asked one by one, and the others do not matter.
     */
    method PreparedThreads(ids: seq<ThreadId>, live: set<ThreadId>, listable: bool) returns (found: set<ThreadId>)
      requires forall id <- ids :: id in threads
      modifies this`faults
      ensures faults <= old(faults)
      ensures forall id <- found :: PreparedUnsent(BindingOf(id))
      ensures listable ==> faults == old(faults) && forall id <- ids :: id in found <==> PreparedUnsent(BindingOf(id))
      ensures !listable ==> forall id <- found :: id in ids && IsIdle(id, live)
      ensures old(faults) == 0 ==> forall id <- ids :: IsIdle(id, live) ==>
                (id in found <==> PreparedUnsent(BindingOf(id)))
    {
      if listable {
        found := set id | id in directory && PreparedUnsent(BindingOf(id));
      } else {
        found := {};
        for i := 0 to |ids|
          invariant faults <= old(faults)
          invariant forall id <- found :: PreparedUnsent(BindingOf(id)) && id in ids && IsIdle(id, live)
          invariant old(faults) == 0 ==> forall k :: 0 <= k < i && IsIdle(ids[k], live) ==>
                      (ids[k] in found <==> PreparedUnsent(BindingOf(ids[k])))
        {
          var t := threads[ids[i]];
          if t.session.Some? && t.session.value.status == Ready && ids[i] !in live {
            var ok, b := GetBinding(ids[i]);
            if PreparedUnsent(b) {
              found := found + {ids[i]};
            }
          }
        }
      }
    }

    /** Reconcile a thread unless it is live or idle. */
    method ReconcileIfOrphaned(id: ThreadId, isLive: bool, wanted: bool, isPrepared: bool, ghost most: nat)
      requires id in threads && (isPrepared ==> PreparedUnsent(BindingOf(id))) && faults <= most
      requires most == 0 && IsIdle(id, {}) && PreparedUnsent(BindingOf(id)) ==> isLive || isPrepared
      modifies this`directory, this`threads, this`faults
      ensures faults <= old(faults)
      ensures OthersKept(id, old(directory), old(threads))
      ensures LeftBy(old(SlotOf(id)), SlotOf(id), isLive, wanted, most)
    {
      var t := threads[id];
      if t.session.Some? && !isLive &&
         (t.session.value.status == Starting || t.session.value.status == Running ||
          t.session.value.activeTurn.Some? || (t.session.value.status == Ready && isPrepared)) {
        ReconcileThread(id, wanted);
      }
    }

    /**
     Reconcile all threads.  With no failure each thread ends as Reconciled says, also if the bindings cannot be
     listed; in any case threads that are live, or not orphaned, are left alone, and others end as they may.
     One failure leaves no session starting, running or in a turn, but for those taken up again.
     */
    method ReconcileProviderSessions(ids: seq<ThreadId>, live: set<ThreadId>, wanted: set<ProjectId>, listable: bool)
      requires forall id :: id in ids <==> id in threads
      requires forall i, j :: 0 <= i < j < |ids| ==> ids[i] != ids[j]
      modifies this`directory, this`threads, this`faults
      ensures faults <= old(faults)
      ensures threads.Keys == old(threads.Keys)
      ensures forall id <- ids :: !old(Orphaned(SlotOf(id), id in live)) ==> SlotOf(id) == old(SlotOf(id))
      ensures forall id <- ids :: MayBeLeftAs(old(SlotOf(id)), SlotOf(id), old(threads[id]).project in wanted)
      ensures old(faults) <= 1 ==> forall id <- ids ::
                old(InProgress(threads[id], id in live)) ==>
                  Done(old(SlotOf(id)), SlotOf(id), old(threads[id]).project in wanted, 1)
      ensures old(faults) == 0 ==> forall id <- ids ::
                SlotOf(id) == Reconciled(old(SlotOf(id)), id in live, old(threads[id]).project in wanted)
    {
      var prepared := PreparedThreads(ids, live, listable);
      var directory0, threads0 := directory, threads;
      for i := 0 to |ids|
        invariant threads.Keys == threads0.Keys && faults <= old(faults)
        invariant forall k :: i <= k < |ids| ==> SlotOf(ids[k]) == old(SlotOf(ids[k]))
        invariant forall k :: 0 <= k < i ==>
                    LeftBy(old(SlotOf(ids[k])), SlotOf(ids[k]), ids[k] in live,
                           threads0[ids[k]].project in wanted, old(faults))
      {
        var id := ids[i];
        assert SlotOf(id) == old(SlotOf(id));
        label before:
        ReconcileIfOrphaned(id, id in live, threads[id].project in wanted, id in prepared, old(faults));
        forall k | 0 <= k < |ids| && k != i
          ensures SlotOf(ids[k]) == old@before(SlotOf(ids[k]))
        {
          KeptElsewhere(directory, old@before(directory), id, ids[k]);
          KeptElsewhere(threads, old@before(threads), id, ids[k]);
        }
      }
    }

    /** Clear the markers of the given threads; stops at the first failure. */
    method ClearContinuationMarkers(ids: seq<ThreadId>) returns (ok: bool)
      modifies this`directory, this`faults
      ensures faults <= old(faults)
      ensures directory.Keys == old(directory.Keys)
      ensures forall id <- directory :: directory[id] == old(directory[id]) ||
                                        (id in ids && directory[id] == ClearedBinding(old(directory[id])))
      ensures ok ==> forall id <- ids :: id in directory ==> directory[id] == ClearedBinding(old(directory[id]))
      ensures old(faults) == 0 ==> ok
    {
      ok := true;
      for i := 0 to |ids|
        invariant ok && directory.Keys == old(directory.Keys) && faults == old(faults)
        invariant forall id <- directory :: directory[id] == if id in ids[..i] then ClearedBinding(old(directory[id]))
                                                             else old(directory[id])
      {
        var b;
        ok, b := GetBinding(ids[i]);
        if !ok {
          return;
        }
        if b.Some? {
          ok := Upsert(ids[i], ClearedBinding(b.value));
          if !ok {
            return;
          }
        }
        assert ids[..i + 1] == ids[..i] + [ids[i]];
      }
      assert ids[..|ids|] == ids;
    }

    /** Note the running turn of a thread that can resume. */
    method MarkRunningSession(id: ThreadId) returns (ok: bool, noted: bool)
      requires id in threads
      modifies this`directory, this`faults
      ensures faults == if ok then old(faults) else old(faults) - 1
      ensures noted ==> ok
      ensures ok ==> noted == old(TurnToMark(SlotOf(id))).Some?
      ensures directory == if noted then old(directory)[id := AfterMarking(old(SlotOf(id))).value] else old(directory)
    {
      var t := threads[id];
      ok, noted := true, false;
      if !t.archived && !t.deleted && t.session.Some? && t.session.value.status == Running &&
         t.session.value.activeTurn.Some? {
        var b;
        ok, b := GetBinding(id);
        if b.Some? && b.value.resumable {
          ok := Upsert(id, MarkedBinding(b.value, t.session.value.activeTurn.value));
          noted := ok;
        }
      }
    }

    /**
     Before a server update, note the running turn of every thread that can resume.  A failure
     takes the notes back, unless there is another one.
     */
    method MarkRunningSessions(ids: seq<ThreadId>) returns (ok: bool, marked: seq<ThreadId>, takenBack: bool)
      requires forall id <- ids :: id in threads
      requires forall i, j :: 0 <= i < j < |ids| ==> ids[i] != ids[j]
      modifies this`directory, this`faults
      ensures directory.Keys == old(directory.Keys)
      ensures old(faults) == 0 ==> ok
      ensures old(faults) <= 1 && !ok ==> takenBack
      ensures forall id <- marked :: id in ids && old(TurnToMark(SlotOf(id))).Some?
      ensures ok ==> forall id <- ids :: id in marked <==> old(TurnToMark(SlotOf(id))).Some?
      ensures ok ==> forall id <- ids :: BindingOf(id) == AfterMarking(old(SlotOf(id)))
      ensures forall id :: id !in marked ==> BindingOf(id) == old(BindingOf(id))
      ensures !ok ==> forall id <- marked :: BindingOf(id) == AfterMarking(old(SlotOf(id))) ||
                                             BindingOf(id) == Some(ClearedBinding(AfterMarking(old(SlotOf(id))).value))
      ensures takenBack ==> !ok && forall id <- marked :: ContinuationTurn(BindingOf(id)) == None
    {
      marked, takenBack := [], false;
      for i := 0 to |ids|
        invariant directory.Keys == old(directory.Keys) && !takenBack && faults == old(faults)
        invariant forall id <- marked :: id in ids[..i]
        invariant forall id <- ids[..i] :: id in marked <==> old(TurnToMark(SlotOf(id))).Some?
        invariant forall id <- marked :: BindingOf(id) == AfterMarking(old(SlotOf(id)))
        invariant forall id :: id !in marked ==> BindingOf(id) == old(BindingOf(id))
      {
        var id := ids[i];
        assert ids[..i + 1] == ids[..i] + [id];
        var done, noted := MarkRunningSession(id);
        if noted {
          marked := marked + [id];
        }
        if !done {
          ok := false;
          takenBack := ClearContinuationMarkers(marked);
          return;
        }
      }
      assert ids[..|ids|] == ids;
      ok := true;
    }
  }

  lemma KeptElsewhere<T>(m: map<ThreadId, T>, m': map<ThreadId, T>, id: ThreadId, other: ThreadId)
    requires m - {id} == m' - {id} && other != id
    ensures other in m <==> other in m'
    ensures other in m ==> m[other] == m'[other]
  {
    assert other in m <==> other in m - {id};
    assert other in m' <==> other in m' - {id};
    if other in m {
      assert m[other] == (m - {id})[other] == (m' - {id})[other] == m'[other];
    }
  }
}
