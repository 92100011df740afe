/**
 The stream of environment themes: a sequenced state refreshed under a semaphore, and a
 sliding buffer of one set per subscriber.  Reading the directory, updating the state,
 publishing and receiving are separate steps that interleave with those of others.
 */
module EnvironmentTheme {
  import opened Wrappers

  type SubscriberId = nat

  /** A complete set of themes; only its identity matters. */
  type Themes = nat

  datatype Published = Published(seqno: nat, themes: Themes)

  /** The refresh that holds the semaphore; a subscriber's first refresh reports back to it. */
  datatype Refresh =
    | Started(caller: Option<SubscriberId>)
    | HasRead(caller: Option<SubscriberId>, themes: Themes)
    | Publishing(caller: Option<SubscriberId>)
    | Finishing(caller: Option<SubscriberId>)

  /** A subscription: its buffer, the snapshot its refresh returned, and what its stream has emitted. */
  datatype Subscriber = Subscriber(
    asked: bool,
    snapshot: Option<Published>,
    buffer: Option<Published>,
    received: seq<Published>)

  datatype World = World(
    directory: Themes,
    published: Published,
    refresh: Option<Refresh>,
    subscribers: map<SubscriberId, Subscriber>)

  datatype Step =
    | DirectoryChanges(themes: Themes)
    | Subscribe(id: SubscriberId)
    | BeginRefresh(caller: Option<SubscriberId>)
    | ReadDirectory
    | Compare
    | Publish
    | EndRefresh
    | EmitSnapshot(id: SubscriberId)
    | TakeNext(id: SubscriberId)

  predicate Enabled(w: World, step: Step) {
    match step
    case DirectoryChanges(_) => true
    case Subscribe(id) => id !in w.subscribers
    case BeginRefresh(caller) =>
      && w.refresh == None
      && (caller.Some? ==> caller.value in w.subscribers && !w.subscribers[caller.value].asked)
    case ReadDirectory => w.refresh.Some? && w.refresh.value.Started?
    case Compare => w.refresh.Some? && w.refresh.value.HasRead?
    case Publish => w.refresh.Some? && w.refresh.value.Publishing?
    case EndRefresh =>
      && w.refresh.Some? && w.refresh.value.Finishing?
      && (w.refresh.value.caller.Some? ==> w.refresh.value.caller.value in w.subscribers)
    case EmitSnapshot(id) =>
      id in w.subscribers && w.subscribers[id].snapshot.Some? && w.subscribers[id].received == []
    case TakeNext(id) =>
      id in w.subscribers && w.subscribers[id].received != [] && w.subscribers[id].buffer.Some?
      && w.subscribers[id].snapshot.Some?
  }

  function Apply(w: World, step: Step): World
    requires Enabled(w, step)
  {
    match step
    case DirectoryChanges(themes) => w.(directory := themes)
    case Subscribe(id) => w.(subscribers := w.subscribers[id := Subscriber(false, None, None, [])])
    case BeginRefresh(caller) =>
      w.(refresh := Some(Started(caller)),
         subscribers := if caller.None? then w.subscribers
                        else w.subscribers[caller.value := w.subscribers[caller.value].(asked := true)])
    case ReadDirectory => w.(refresh := Some(HasRead(w.refresh.value.caller, w.directory)))
    case Compare =>
      var r := w.refresh.value;
      if r.themes == w.published.themes then w.(refresh := Some(Finishing(r.caller)))
      else w.(published := Published(w.published.seqno + 1, r.themes), refresh := Some(Publishing(r.caller)))
    case Publish =>
      w.(refresh := Some(Finishing(w.refresh.value.caller)),
         subscribers := map id | id in w.subscribers :: w.subscribers[id].(buffer := Some(w.published)))
    case EndRefresh =>
      var caller := w.refresh.value.caller;
      w.(refresh := None,
         subscribers := if caller.None? then w.subscribers
                        else w.subscribers[caller.value := w.subscribers[caller.value].(snapshot := Some(w.published))])
    case EmitSnapshot(id) =>
      var s := w.subscribers[id];
      w.(subscribers := w.subscribers[id := s.(received := [s.snapshot.value])])
    case TakeNext(id) =>
      var s := w.subscribers[id];
      w.(subscribers := w.subscribers[id := s.(
        buffer := None,
        received := s.received + if s.buffer.value.seqno > s.snapshot.value.seqno then [s.buffer.value] else [])])
  }

  predicate IsRun(w: World, steps: seq<Step>)
    decreases |steps|
  {
    steps == [] || (Enabled(w, steps[0]) && IsRun(Apply(w, steps[0]), steps[1..]))
  }

  function After(w: World, steps: seq<Step>): World
    requires IsRun(w, steps)
    decreases |steps|
  {
    if steps == [] then w else After(Apply(w, steps[0]), steps[1..])
  }

  /** The service when it is made: nothing published, nobody subscribed. */
  function Initial(directory: Themes, none: Themes): World {
    World(directory, Published(0, none), None, map[])
  }

  // ---------------------------------------------------------------------------
  // The invariant of one subscriber

  /** The state was updated but subscribers have not been told yet. */
  predicate Telling(w: World) {
    w.refresh.Some? && w.refresh.value.Publishing?
  }

  /** A set some subscriber holds: never ahead of the published one, and behind it while that is being told. */
  predicate Held(current: Published, telling: bool, p: Published) {
    && p.seqno <= current.seqno
    && (p.seqno == current.seqno ==> p == current && !telling)
  }

  /** What the subscriber has, or has waiting, is the published set. */
  predicate UpToDate(current: Published, s: Subscriber) {
    || s.buffer == Some(current)
    || (if s.received == [] then s.snapshot == Some(current) else s.received[|s.received|-1] == current)
  }

  predicate Increasing(received: seq<Published>) {
    forall i, j :: 0 <= i < j < |received| ==> received[i].seqno < received[j].seqno
  }

  predicate SubscriberInv(current: Published, telling: bool, s: Subscriber) {
    && (s.snapshot.Some? ==> Held(current, telling, s.snapshot.value))
    && (s.buffer.Some? ==> Held(current, telling, s.buffer.value))
    && (s.received != [] ==>
          && s.snapshot == Some(s.received[0])
          && Held(current, telling, s.received[|s.received|-1])
          && (s.buffer.Some? ==>
                || s.buffer.value.seqno > s.received[|s.received|-1].seqno
                || (s.buffer.value.seqno <= s.received[0].seqno && |s.received| == 1)))
    && Increasing(s.received)
    && (s.snapshot.Some? && !telling ==> UpToDate(current, s))
  }

  /** A subscriber's snapshot comes from its own refresh, which it asks for once. */
  predicate CallersAsked(w: World) {
    && (forall id <- w.subscribers :: !w.subscribers[id].asked ==> w.subscribers[id].snapshot == None)
    && (w.refresh.Some? && w.refresh.value.caller.Some? ==>
          && w.refresh.value.caller.value in w.subscribers
          && w.subscribers[w.refresh.value.caller.value].asked
          && w.subscribers[w.refresh.value.caller.value].snapshot == None)
  }

  predicate Inv(w: World) {
    (forall id <- w.subscribers :: SubscriberInv(w.published, Telling(w), w.subscribers[id])) && CallersAsked(w)
  }

  lemma TakingKeeps(w: World, id: SubscriberId)
    requires Inv(w) && Enabled(w, TakeNext(id))
    ensures SubscriberInv(w.published, Telling(w), Apply(w, TakeNext(id)).subscribers[id])
  {
    var s := w.subscribers[id];
    assert SubscriberInv(w.published, Telling(w), s);
    assert s.received[0].seqno <= s.received[|s.received|-1].seqno;
  }

  /** Updating the published state, telling everyone, and finishing keep what a subscriber relies on. */
  lemma RefreshingKeeps(w: World, step: Step, s: Subscriber)
    requires Enabled(w, step) && (step.Compare? || step.Publish? || step.EndRefresh?) &&
             SubscriberInv(w.published, Telling(w), s)
    ensures SubscriberInv(Apply(w, step).published, Telling(Apply(w, step)),
                          if step.Publish? then s.(buffer := Some(w.published)) else s)
  {
  }

  lemma AnsweringKeeps(w: World, s: Subscriber)
    requires Enabled(w, EndRefresh) && SubscriberInv(w.published, Telling(w), s) && s.snapshot == None
    ensures SubscriberInv(Apply(w, EndRefresh).published, Telling(Apply(w, EndRefresh)),
                          s.(snapshot := Some(w.published)))
  {
  }

  lemma EmittingKeeps(w: World, s: Subscriber)
    requires SubscriberInv(w.published, Telling(w), s) && s.snapshot.Some? && s.received == []
    ensures SubscriberInv(w.published, Telling(w), s.(received := [s.snapshot.value]))
  {
  }

  lemma StepKeepsSubscribers(w: World, step: Step, id: SubscriberId)
    requires Inv(w) && Enabled(w, step) && id in Apply(w, step).subscribers
    ensures SubscriberInv(Apply(w, step).published, Telling(Apply(w, step)), Apply(w, step).subscribers[id])
  {
    match step
    case Subscribe(_) =>
    case BeginRefresh(_) =>
    case DirectoryChanges(_) =>
    case ReadDirectory =>
    case Compare => RefreshingKeeps(w, step, w.subscribers[id]);
    case Publish => RefreshingKeeps(w, step, w.subscribers[id]);
    case EndRefresh =>
      RefreshingKeeps(w, step, w.subscribers[id]);
      if w.refresh.value.caller == Some(id) {
        AnsweringKeeps(w, w.subscribers[id]);
      }
    case EmitSnapshot(i) =>
      if i == id {
        EmittingKeeps(w, w.subscribers[id]);
      }
    case TakeNext(i) =>
      if i == id {
        TakingKeeps(w, id);
      }
  }

  lemma StepKeepsRest(w: World, step: Step)
    requires Inv(w) && Enabled(w, step)
    ensures CallersAsked(Apply(w, step))
  {
  }

  lemma StepKeepsInv(w: World, step: Step)
    requires Inv(w) && Enabled(w, step)
    ensures Inv(Apply(w, step))
  {
    StepKeepsRest(w, step);
    forall id | id in Apply(w, step).subscribers
      ensures SubscriberInv(Apply(w, step).published, Telling(Apply(w, step)), Apply(w, step).subscribers[id])
    {
      StepKeepsSubscribers(w, step, id);
    }
  }

  lemma {:induction false} RunKeepsInv(w: World, steps: seq<Step>)
    requires Inv(w) && IsRun(w, steps)
    ensures Inv(After(w, steps))
    decreases |steps|
  {
    if steps != [] {
      StepKeepsInv(w, steps[0]);
      RunKeepsInv(Apply(w, steps[0]), steps[1..]);
    }
  }

  // ---------------------------------------------------------------------------
  // What holds of every interleaving

  /** A subscriber first receives its snapshot, then sets with strictly increasing sequence numbers. */
  lemma NeverStepsBackwards(directory: Themes, none: Themes, steps: seq<Step>, id: SubscriberId)
    requires IsRun(Initial(directory, none), steps) && id in After(Initial(directory, none), steps).subscribers
    ensures var s := After(Initial(directory, none), steps).subscribers[id];
            Increasing(s.received) && (s.received != [] ==> s.snapshot == Some(s.received[0]))
  {
    RunKeepsInv(Initial(directory, none), steps);
  }

  /**
   With its buffer drained and no refresh in flight, the last set a subscriber received is
   the published one, although the buffer holds a single set and slides.
   */
  lemma NeverLosesTheNewest(directory: Themes, none: Themes, steps: seq<Step>, id: SubscriberId)
    requires IsRun(Initial(directory, none), steps)
    requires var w := After(Initial(directory, none), steps);
             && id in w.subscribers && w.refresh == None
             && w.subscribers[id].buffer == None && w.subscribers[id].received != []
    ensures var w := After(Initial(directory, none), steps);
            var s := w.subscribers[id];
            s.received[|s.received|-1] == w.published
  {
    RunKeepsInv(Initial(directory, none), steps);
  }

  lemma {:induction false} Then(w: World, steps: seq<Step>, step: Step) returns (longer: seq<Step>)
    requires IsRun(w, steps) && Enabled(After(w, steps), step)
    ensures longer == steps + [step] && IsRun(w, longer) && After(w, longer) == Apply(After(w, steps), step)
    decreases |steps|
  {
    longer := steps + [step];
    if steps == [] {
      assert longer[1..] == [];
    } else {
      var rest := Then(Apply(w, steps[0]), steps[1..], step);
      assert longer[1..] == rest;
    }
  }

  /** A refresh that runs alone publishes what the directory holds, under a new number only if it differs. */
  lemma RefreshAlone(w: World) returns (steps: seq<Step>)
    requires w.refresh == None
    ensures IsRun(w, steps)
    ensures var w' := After(w, steps);
            && w'.refresh == None && w'.published.themes == w.directory
            && (if w.published.themes == w.directory then w' == w
                else && w'.published.seqno == w.published.seqno + 1 && w'.subscribers.Keys == w.subscribers.Keys
                     && forall id <- w.subscribers ::
                          w'.subscribers[id] == w.subscribers[id].(buffer := Some(w'.published)))
  {
    steps := Then(w, [], BeginRefresh(None));
    steps := Then(w, steps, ReadDirectory);
    steps := Then(w, steps, Compare);
    if w.published.themes != w.directory {
      steps := Then(w, steps, Publish);
    }
    steps := Then(w, steps, EndRefresh);
  }
  /** The steps of a refresh that runs alone in this world. */
  function RefreshSteps(w: World, caller: Option<SubscriberId>): seq<Step> {
    [BeginRefresh(caller), ReadDirectory, Compare] +
    (if w.published.themes == w.directory then [] else [Publish]) + [EndRefresh]
  }

  /** What is published after a refresh that runs alone. */
  function Refreshed(w: World): Published {
    if w.published.themes == w.directory then w.published else Published(w.published.seqno + 1, w.directory)
  }

  /** A subscriber's own first refresh, alone, hands it the published set as its snapshot. */
  lemma FirstRefresh(w: World, id: SubscriberId)
    requires w.refresh == None && id in w.subscribers && !w.subscribers[id].asked
    ensures IsRun(w, RefreshSteps(w, Some(id)))
    ensures var w' := After(w, RefreshSteps(w, Some(id)));
            && w'.refresh == None && w'.directory == w.directory && w'.published == Refreshed(w)
            && id in w'.subscribers && w'.subscribers[id].snapshot == Some(w'.published)
            && w'.subscribers[id].received == w.subscribers[id].received
  {
    var s := Then(w, [], BeginRefresh(Some(id)));
    s := Then(w, s, ReadDirectory);
    s := Then(w, s, Compare);
    if w.published.themes != w.directory {
      s := Then(w, s, Publish);
    }
    s := Then(w, s, EndRefresh);
    assert s == RefreshSteps(w, Some(id));
  }

  lemma {:induction false} Concat(w: World, s1: seq<Step>, s2: seq<Step>)
    requires IsRun(w, s1) && IsRun(After(w, s1), s2)
    ensures IsRun(w, s1 + s2) && After(w, s1 + s2) == After(After(w, s1), s2)
    decreases |s1|
  {
    if s1 == [] {
      assert s1 + s2 == s2;
    } else {
      assert (s1 + s2)[1..] == s1[1..] + s2;
      Concat(Apply(w, s1[0]), s1[1..], s2);
    }
  }

  /** The first thing a new subscriber receives is the set the directory holds, by then the published one. */
  lemma SubscriberIsTold(w: World, id: SubscriberId) returns (steps: seq<Step>)
    requires w.refresh == None && id !in w.subscribers
    ensures IsRun(w, steps)
    ensures var w' := After(w, steps);
            && w'.refresh == None && w'.directory == w.directory && w'.published == Refreshed(w)
            && w'.published.themes == w.directory
            && id in w'.subscribers && w'.subscribers[id].received == [w'.published]
            && w'.subscribers[id].snapshot == Some(w'.published)
  {
    var w1 := Apply(w, Subscribe(id));
    FirstRefresh(w1, id);
    var first := Then(w, [], Subscribe(id));
    Concat(w, first, RefreshSteps(w1, Some(id)));
    steps := Then(w, first + RefreshSteps(w1, Some(id)), EmitSnapshot(id));
  }

  /** A later change of the directory, once refreshed and taken, is received next. */
  lemma ChangeIsTold(w: World, id: SubscriberId, themes: Themes) returns (steps: seq<Step>)
    requires Inv(w) && w.refresh == None && themes != w.published.themes
    requires id in w.subscribers && w.subscribers[id].received != [] && w.subscribers[id].snapshot.Some?
    ensures IsRun(w, steps)
    ensures var w' := After(w, steps);
            && w'.refresh == None && w'.published == Published(w.published.seqno + 1, themes)
            && id in w'.subscribers && w'.subscribers[id].received == w.subscribers[id].received + [w'.published]
            && w'.subscribers[id].buffer == None
  {
    assert SubscriberInv(w.published, Telling(w), w.subscribers[id]);
    steps := Then(w, [], DirectoryChanges(themes));
    var w1 := After(w, steps);
    var refresh := RefreshAlone(w1);
    Concat(w, steps, refresh);
    assert After(w1, refresh).subscribers[id] ==
           w1.subscribers[id].(buffer := Some(After(w1, refresh).published));
    steps := Then(w, steps + refresh, TakeNext(id));
  }
}
