/**
 The queue of themed confirmations: one request shown at a time, the others waiting in
 order, and all of them answered "no" when the last host that could show them goes away.
 The hosts are known by the index of their registration.
 */
module ConfirmDialog {
  import opened Wrappers

  datatype Variant = Default | Destructive

  /** A request is told apart from another with the same text by its number. */
  datatype Request = Request(number: nat, message: string, variant: Variant)

  datatype State =
    | Idle
    | Confirming(message: string, variant: Variant)
    | Closing(message: string, variant: Variant)

  datatype Answer = Answer(request: Request, confirmed: bool)

  datatype Event =
    | Register
    | Unregister(host: nat)
    | Ask(message: string, variant: Variant)
    | Respond(confirmed: bool)
    | CompleteClose

  function Asked(answers: seq<Answer>): (requests: seq<Request>)
    ensures |requests| == |answers|
  {
    seq(|answers|, i requires 0 <= i < |answers| => answers[i].request)
  }

  function Declined(requests: seq<Request>): (answers: seq<Answer>)
    ensures |answers| == |requests|
  {
    seq(|requests|, i requires 0 <= i < |requests| => Answer(requests[i], false))
  }

  function OutstandingOf(active: Option<Request>, queued: seq<Request>): seq<Request> {
    (if active.Some? then [active.value] else []) + queued
  }

  function Max(a: int, b: int): int {
    if a < b then b else a
  }

  /** How many hosts are registered. */
  function Live(registered: seq<bool>): nat {
    if registered == [] then 0 else Live(registered[..|registered|-1]) + if registered[|registered|-1] then 1 else 0
  }

  lemma {:induction false} LiveWithout(registered: seq<bool>, host: nat)
    requires host < |registered| && registered[host]
    ensures Live(registered) == Live(registered[host := false]) + 1
  {
    var n := |registered| - 1;
    if host < n {
      LiveWithout(registered[..n], host);
      assert registered[host := false][..n] == registered[..n][host := false];
    } else {
      assert registered[host := false][..n] == registered[..n];
    }
  }

  lemma {:induction false} NoneLive(registered: seq<bool>)
    ensures Live(registered) == 0 <==> true !in registered
  {
    if registered != [] {
      var n := |registered| - 1;
      NoneLive(registered[..n]);
      assert registered == registered[..n] + [registered[n]];
    }
  }

  /** Requests are numbered in the order they were accepted. */
  ghost predicate Numbered(accepted: seq<Request>) {
    forall i :: 0 <= i < |accepted| ==> accepted[i].number == i
  }

  /** Answers in request order, followed by what is outstanding: so no request is answered twice. */
  lemma AnsweredOnce(accepted: seq<Request>, answers: seq<Answer>, outstanding: seq<Request>, i: nat, j: nat)
    requires Numbered(accepted) && accepted == Asked(answers) + outstanding
    requires i < |answers| && j < |answers| && answers[i].request == answers[j].request
    ensures i == j && answers[i].request !in outstanding
  {
    assert accepted[i] == answers[i].request && accepted[j] == answers[j].request;
    forall k | 0 <= k < |outstanding|
      ensures outstanding[k] != answers[i].request
    {
      assert outstanding[k] == accepted[|answers| + k];
    }
  }

  class Dialog {
    var state: State
    var active: Option<Request>
    var queued: seq<Request>
    var registeredHostCount: int
    var registered: seq<bool>

    // What callers got: the promises handed out and the promises settled, in order.
    var accepted: seq<Request>
    var answers: seq<Answer>

    ghost function Outstanding(): seq<Request>
      reads this
    {
      OutstandingOf(active, queued)
    }

    ghost predicate Valid()
      reads this
    {
      && (state.Confirming? <==> active.Some?)
      && (active.Some? ==> state == Confirming(active.value.message, active.value.variant))
      && (state.Idle? ==> queued == [])
      && (registeredHostCount == 0 ==> state.Idle?)
      && registeredHostCount == Live(registered)
      && Numbered(accepted)
      && accepted == Asked(answers) + Outstanding()
    }

    constructor ()
      ensures Valid() && state == Idle && registered == [] && accepted == []
    {
      state, active, queued := Idle, None, [];
      registeredHostCount, registered := 0, [];
      accepted, answers := [], [];
    }

    /** Answer what is shown and then what is waiting, in order. */
    method ResolvePending(confirmed: bool)
      modifies this`active, this`queued, this`answers
      ensures active == None && queued == []
      ensures Asked(answers) == Asked(old(answers)) + old(Outstanding())
      ensures |answers| == |old(answers)| + |old(Outstanding())| && answers[..|old(answers)|] == old(answers)
      ensures forall i :: |old(answers)| <= i < |answers| ==> answers[i].confirmed == confirmed
    {
      ghost var before, outstanding := answers, Outstanding();
      if active.Some? {
        answers := answers + [Answer(active.value, confirmed)];
      }
      ghost var first := |answers|;
      for i := 0 to |queued|
        invariant queued == old(queued) && active == old(active)
        invariant |answers| == first + i
        invariant answers[..|before|] == before
        invariant Asked(answers) == Asked(before) + OutstandingOf(active, queued[..i])
        invariant forall k :: |before| <= k < |answers| ==> answers[k].confirmed == confirmed
      {
        ghost var sofar := answers;
        answers := answers + [Answer(queued[i], confirmed)];
        assert Asked(answers) == Asked(sofar) + [queued[i]];
        assert queued[..i+1] == queued[..i] + [queued[i]];
      }
      assert queued[..|queued|] == queued;
      active, queued := None, [];
    }

    method RegisterHost() returns (host: nat)
      requires Valid()
      modifies this`registeredHostCount, this`registered
      ensures Valid() && registered == old(registered) + [true] && host == |old(registered)|
    {
      host := |registered|;
      registeredHostCount := registeredHostCount + 1;
      registered := registered + [true];
    }

    /**
     The clean-up of one registration: only its first call does anything.  With the last
     host gone every outstanding request is answered "no", in order.
     */
    method UnregisterHost(host: nat)
      requires Valid() && host < |registered|
      modifies this
      ensures Valid() && registered == old(registered)[host := false] && accepted == old(accepted)
      ensures !old(registered)[host] || true in registered ==>
                state == old(state) && active == old(active) && queued == old(queued) && answers == old(answers)
      ensures old(registered)[host] && true !in registered ==>
                && state == Idle && answers == old(answers) + Declined(old(Outstanding()))
                && Asked(answers) == accepted
    {
      NoneLive(registered);
      if !registered[host] {
        return;
      }
      LiveWithout(registered, host);
      registered := registered[host := false];
      registeredHostCount := Max(0, registeredHostCount - 1);
      NoneLive(registered);
      if registeredHostCount == 0 {
        ResolvePending(false);
        state := Idle;
        ghost var kept := |old(answers)|;
        forall i | kept <= i < |answers|
          ensures answers[i] == Declined(old(Outstanding()))[i - kept]
        {
          assert Asked(answers)[i] == old(Outstanding())[i - kept];
        }
        assert answers == answers[..kept] + answers[kept..];
      }
    }

    /** Ask for a confirmation: refused without a host, shown at once if nothing is shown, else queued. */
    method RequestConfirm(message: string, variant: Variant) returns (accepts: bool)
      requires Valid()
      modifies this
      ensures Valid() && registered == old(registered) && answers == old(answers)
      ensures accepts == (true in registered)
      ensures !accepts ==> accepted == old(accepted) && state == old(state)
      ensures accepts ==>
                && accepted == old(accepted) + [Request(|old(accepted)|, message, variant)]
                && Outstanding() == old(Outstanding()) + [Request(|old(accepted)|, message, variant)]
                && state == if old(state).Idle? then Confirming(message, variant) else old(state)
    {
      NoneLive(registered);
      if registeredHostCount == 0 {
        return false;
      }
      var pending := Request(|accepted|, message, variant);
      accepted := accepted + [pending];
      if active.Some? || state.Closing? {
        queued := queued + [pending];
        return true;
      }
      active := Some(pending);
      state := Confirming(message, variant);
      return true;
    }

    /** Answer the request that is shown. */
    method RespondToConfirm(confirmed: bool)
      requires Valid()
      modifies this`state, this`active, this`answers
      ensures Valid()
      ensures old(state).Confirming? ==>
                && answers == old(answers) + [Answer(old(Outstanding())[0], confirmed)]
                && Outstanding() == old(Outstanding())[1..]
                && state == Closing(old(state).message, old(state).variant)
      ensures !old(state).Confirming? ==> answers == old(answers) && state == old(state) && active == old(active)
    {
      if !state.Confirming? || active.None? {
        return;
      }
      var confirmation := active.value;
      active := None;
      answers := answers + [Answer(confirmation, confirmed)];
      assert Asked(answers) == Asked(old(answers)) + [confirmation];
      state := Closing(state.message, state.variant);
    }

    /** Once the dialog has closed, show the next request that waits. */
    method CompleteClosing()
      requires Valid()
      modifies this`state, this`active, this`queued
      ensures Valid() && Outstanding() == old(Outstanding())
      ensures !old(state).Closing? ==> state == old(state)
      ensures old(state).Closing? ==> (state.Confirming? <==> old(Outstanding()) != [])
      ensures state.Closing? ==> !old(state).Closing?
    {
      if !state.Closing? {
        return;
      }
      if queued == [] {
        state := Idle;
        return;
      }
      var next := queued[0];
      queued := queued[1..];
      active := Some(next);
      state := Confirming(next.message, next.variant);
    }

    /**
     Any sequence of events: answers already given stand, none is given twice, and with no
     host left at the end every request ever accepted has been answered, in request order.
     */
    method Run(events: seq<Event>)
      requires Valid()
      modifies this
      ensures Valid()
      ensures old(answers) <= answers && old(accepted) <= accepted
      ensures true !in registered ==> Asked(answers) == accepted
      ensures forall i, j :: 0 <= i < j < |answers| ==> answers[i].request != answers[j].request
    {
      for i := 0 to |events|
        invariant Valid()
        invariant old(answers) <= answers && old(accepted) <= accepted
      {
        match events[i] {
          case Register =>
            var _ := RegisterHost();
          case Unregister(host) =>
            if host < |registered| {
              UnregisterHost(host);
            }
          case Ask(message, variant) =>
            var _ := RequestConfirm(message, variant);
          case Respond(confirmed) =>
            RespondToConfirm(confirmed);
          case CompleteClose =>
            CompleteClosing();
        }
      }
      NoneLive(registered);
      forall i, j | 0 <= i < j < |answers|
        ensures answers[i].request != answers[j].request
      {
        if answers[i].request == answers[j].request {
          AnsweredOnce(accepted, answers, Outstanding(), i, j);
        }
      }
    }
  }
}
