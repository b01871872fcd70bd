/** Calls from the server to a client method of the connected client: slots, ids, responses and the final close. */
module ConnectedClient {
  import opened Wrappers

  datatype Outcome = Replied(body: nat) | ConnectionClosed | SendFailed | TimedOut | Cancelled

  datatype Future = Pending | Settled(outcome: Outcome)

  /** A call waits for a slot, sends its frame, awaits the response and is done. */
  datatype Phase = Queued | Sending | Awaiting | Done(outcome: Outcome)

  datatype Call = Call(phase: Phase, response: Future)

  datatype Response = Response(id: nat, body: nat)

  /**
   `free` is the value of the semaphore and `pending` the key set of the table of the source. `calls` holds every
   call that got an id and a frame; `received` is history.
   */
  datatype State = State(
    maxConcurrency: nat, free: nat, nextId: nat, calls: map<nat, Call>, pending: set<nat>, closed: bool,
    droppedResponses: nat, received: seq<Response>)

  function Init(maxConcurrency: nat): State {
    State(maxConcurrency, maxConcurrency, 0, map[], {}, false, 0, [])
  }

  /** A message as `_resolve` looks at it: not a response at all, or one with some id. */
  datatype Incoming = NotAResponse | Answer(id: Option<nat>, body: nat)

  datatype Event =
    | Begin(framed: bool)          // `framed` is false when the frame cannot be built or is too big
    | Acquire(call: nat)
    | SendReturns(call: nat)
    | SendRaises(call: nat)
    | Receive(message: Incoming)
    | Resume(call: nat)
    | GiveUp(call: nat, outcome: Outcome)
    | Close

  predicate Registered(s: State, c: nat) {
    c in s.calls && (s.calls[c].phase == Sending || s.calls[c].phase == Awaiting)
  }

  predicate Enabled(s: State, e: Event) {
    match e
    case Begin(_) => true
    case Acquire(c) => c in s.calls && s.calls[c].phase == Queued && s.free > 0
    case SendReturns(c) => c in s.calls && s.calls[c].phase == Sending
    case SendRaises(c) => c in s.calls && s.calls[c].phase == Sending
    case Receive(_) => true
    case Resume(c) => Registered(s, c) && s.calls[c].response.Settled?
    case GiveUp(c, outcome) => c in s.calls && !s.calls[c].phase.Done? && (outcome == TimedOut || outcome == Cancelled)
    case Close => true
  }

  function SetPhase(s: State, c: nat, phase: Phase): State
    requires c in s.calls
  {
    s.(calls := s.calls[c := s.calls[c].(phase := phase)])
  }

  /** The call returns: its slot is free again and its entry is gone. */
  function Leave(s: State, c: nat, outcome: Outcome): State
    requires c in s.calls
  {
    var freed := if Registered(s, c) then 1 else 0;
    SetPhase(s, c, Done(outcome)).(pending := s.pending - {c}, free := s.free + freed)
  }

  function BeginCall(s: State, framed: bool): State {
    if s.closed then s
    else if !framed then s.(nextId := s.nextId + 1)
    else s.(nextId := s.nextId + 1, calls := s.calls[s.nextId + 1 := Call(Queued, Pending)])
  }

  /** A call that gets its slot after the close never registers. */
  function AcquireSlot(s: State, c: nat): State
    requires c in s.calls && s.free > 0
  {
    if s.closed then SetPhase(s, c, Done(ConnectionClosed))
    else SetPhase(s, c, Sending).(pending := s.pending + {c}, free := s.free - 1)
  }

  function Resolve(s: State, message: Incoming): State {
    match message
    case NotAResponse => s
    case Answer(id, body) =>
      if id.Some? && id.value in s.pending && id.value in s.calls && s.calls[id.value].response == Pending
      then s.(calls := s.calls[id.value := s.calls[id.value].(response := Settled(Replied(body)))],
              received := s.received + [Response(id.value, body)])
      else s.(droppedResponses := s.droppedResponses + 1)
  }

  function CloseAll(s: State): State {
    if s.closed then s
    else s.(closed := true, calls := map c | c in s.calls ::
      if c in s.pending && s.calls[c].response == Pending then s.calls[c].(response := Settled(ConnectionClosed)) else s.calls[c])
  }

  function Step(s: State, e: Event): State
    requires Enabled(s, e)
  {
    match e
    case Begin(framed) => BeginCall(s, framed)
    case Acquire(c) => AcquireSlot(s, c)
    case SendReturns(c) => SetPhase(s, c, Awaiting)
    case SendRaises(c) => Leave(s, c, SendFailed)
    case Receive(message) => Resolve(s, message)
    case Resume(c) => Leave(s, c, s.calls[c].response.outcome)
    case GiveUp(c, outcome) => Leave(s, c, outcome)
    case Close => CloseAll(s)
  }

  predicate IsRun(s: State, events: seq<Event>)
    decreases |events|
  {
    events == [] || (Enabled(s, events[0]) && IsRun(Step(s, events[0]), events[1..]))
  }

  function After(s: State, events: seq<Event>): State
    requires IsRun(s, events)
    decreases |events|
  {
    if events == [] then s else After(Step(s, events[0]), events[1..])
  }

  // ----- the invariant -----

  /** The table holds the calls between their registration and their return. */
  ghost predicate Table(s: State) {
    && (forall c :: c in s.pending <==> Registered(s, c))
    && (forall c :: c in s.calls ==> 0 < c <= s.nextId)
  }

  /** Each call in the table holds one slot. */
  ghost predicate Slots(s: State) {
    Table(s) && s.free + |s.pending| == s.maxConcurrency
  }

  /** After the close every registered call is settled; before, only responses settle. */
  ghost predicate ClosedSettles(s: State) {
    && (s.closed ==> forall c :: c in s.pending && c in s.calls ==> s.calls[c].response.Settled?)
    && (forall c :: c in s.calls && s.calls[c].phase == Queued ==> s.calls[c].response == Pending)
  }

  /** A reply comes from a received response with the id of the call. */
  ghost predicate Truthful(s: State) {
    forall c :: c in s.calls ==>
      && (s.calls[c].response.Settled? && s.calls[c].response.outcome.Replied? ==>
            Response(c, s.calls[c].response.outcome.body) in s.received)
      && (s.calls[c].phase.Done? && s.calls[c].phase.outcome.Replied? ==>
            Response(c, s.calls[c].phase.outcome.body) in s.received)
  }

  ghost predicate Inv(s: State) {
    Slots(s) && ClosedSettles(s) && Truthful(s)
  }

  lemma LeaveKeepsSlots(s: State, c: nat, outcome: Outcome)
    requires Slots(s) && c in s.calls
    ensures Slots(Leave(s, c, outcome))
  {
    if c !in s.pending {
      assert s.pending - {c} == s.pending;
    }
  }

  lemma AcquireKeepsSlots(s: State, c: nat)
    requires Slots(s) && c in s.calls && s.calls[c].phase == Queued && s.free > 0
    ensures Slots(AcquireSlot(s, c))
  {
    assert c !in s.pending;
  }

  /** The table and the slots depend on the phases only. */
  lemma SamePhasesKeepSlots(s: State, t: State)
    requires Slots(s) && t.pending == s.pending && t.free == s.free && t.maxConcurrency == s.maxConcurrency && s.nextId <= t.nextId
    requires forall c :: c in t.calls ==> 0 < c <= t.nextId
    requires forall c :: Registered(t, c) <==> Registered(s, c)
    ensures Slots(t)
  {
  }

  lemma KeepsSlots(s: State, e: Event)
    requires Slots(s) && Enabled(s, e)
    ensures Slots(Step(s, e))
  {
    hide Leave, AcquireSlot;
    match e
    case Acquire(c) => AcquireKeepsSlots(s, c);
    case SendRaises(c) => LeaveKeepsSlots(s, c, SendFailed);
    case Resume(c) => LeaveKeepsSlots(s, c, s.calls[c].response.outcome);
    case GiveUp(c, outcome) => LeaveKeepsSlots(s, c, outcome);
    case _ => SamePhasesKeepSlots(s, Step(s, e));
  }

  lemma KeepsClosedSettles(s: State, e: Event)
    requires Table(s) && ClosedSettles(s) && Enabled(s, e)
    ensures ClosedSettles(Step(s, e))
  {
  }

  lemma KeepsTruthful(s: State, e: Event)
    requires Table(s) && Truthful(s) && Enabled(s, e)
    ensures Truthful(Step(s, e))
  {
  }

  lemma StepKeeps(s: State, e: Event)
    requires Inv(s) && Enabled(s, e)
    ensures Inv(Step(s, e)) && Step(s, e).maxConcurrency == s.maxConcurrency
  {
    assert Table(s);
    hide Slots, Table, ClosedSettles, Truthful;
    KeepsSlots(s, e);
    KeepsClosedSettles(s, e);
    KeepsTruthful(s, e);
  }

  lemma {:induction false} RunKeeps(s: State, events: seq<Event>)
    requires Inv(s) && IsRun(s, events)
    ensures Inv(After(s, events)) && After(s, events).maxConcurrency == s.maxConcurrency
    decreases |events|
  {
    hide Inv, Enabled, Step;
    if events != [] {
      StepKeeps(s, events[0]);
      RunKeeps(Step(s, events[0]), events[1..]);
    }
  }

  // ----- over all runs -----

  /**
   In every run: at most `maxConcurrency` calls are registered, and each of them holds one slot; a reply comes from a
   received response with the id of the call; and after the close every registered call is settled.
   */
  lemma CallsAreBoundedAndAnswered(maxConcurrency: nat, events: seq<Event>, c: nat)
    requires IsRun(Init(maxConcurrency), events)
    ensures var s := After(Init(maxConcurrency), events);
      && |s.pending| <= maxConcurrency && s.free == maxConcurrency - |s.pending|
      && (c in s.pending <==> Registered(s, c))
      && (s.closed && c in s.pending ==> s.calls[c].response.Settled?)
      && (c in s.calls && s.calls[c].phase.Done? && s.calls[c].phase.outcome.Replied? ==>
            Response(c, s.calls[c].phase.outcome.body) in s.received)
  {
    RunKeeps(Init(maxConcurrency), events);
    var s := After(Init(maxConcurrency), events);
    assert Truthful(s) && Slots(s) && ClosedSettles(s);
  }

  /** A new call gets an id no call had before. */
  lemma IdsAreNew(s: State)
    requires Inv(s) && !s.closed
    ensures s.nextId + 1 !in s.calls && s.nextId + 1 in Step(s, Begin(true)).calls
  {
  }

  /** A response changes at most the call with its id, and only once; any other response is only counted. */
  lemma ResponseSettlesOnlyItsCall(s: State, message: Incoming, c: nat)
    requires Inv(s) && c in s.calls
    ensures var t := Step(s, Receive(message));
      && c in t.calls
      && (t.calls[c] != s.calls[c] ==> message.Answer? && message.id == Some(c) && s.calls[c].response == Pending)
      && (message.Answer? && t.calls == s.calls ==> t.droppedResponses == s.droppedResponses + 1)
  {
    if message.Answer? && message.id.Some? && message.id.value in s.calls && s.calls[message.id.value].response == Pending
       && message.id.value in s.pending {
      assert Step(s, Receive(message)).calls[message.id.value].response != s.calls[message.id.value].response;
    }
  }

  /** A response with the id of a waiting registered call settles it with its body; any other response is counted. */
  lemma ResponseReachesItsCall(s: State, id: Option<nat>, body: nat)
    requires Inv(s)
    ensures var t := Step(s, Receive(Answer(id, body)));
      if id.Some? && Registered(s, id.value) && s.calls[id.value].response == Pending then
        t == s.(calls := s.calls[id.value := s.calls[id.value].(response := Settled(Replied(body)))],
                received := s.received + [Response(id.value, body)])
      else t == s.(droppedResponses := s.droppedResponses + 1)
    ensures Step(s, Receive(NotAResponse)) == s
  {
  }

  /** A call returns the reply it got, what ended it otherwise, or that the connection had closed; its slot is free again. */
  lemma CallReturnsItsOutcome(s: State, e: Event)
    requires Inv(s) && Enabled(s, e) && (e.Resume? || e.SendRaises? || e.GiveUp? || e.Acquire?)
    ensures var t := Step(s, e);
      && e.call in t.calls
      && (e.Resume? ==> t.calls[e.call].phase == Done(s.calls[e.call].response.outcome))
      && (e.SendRaises? ==> t.calls[e.call].phase == Done(SendFailed))
      && (e.GiveUp? ==> t.calls[e.call].phase == Done(e.outcome))
      && (e.Acquire? ==> t.calls[e.call].phase == if s.closed then Done(ConnectionClosed) else Sending)
      && (forall c :: c in s.calls && c != e.call ==> c in t.calls && t.calls[c] == s.calls[c])
      && t.free == s.free + (if e.Acquire? then (if s.closed then 0 else -1) else if Registered(s, e.call) then 1 else 0)
  {
  }

  /** A call on an open connection whose frame can be built queues for a slot; any other call has no entry. */
  lemma NewCallQueues(s: State, framed: bool)
    requires Inv(s)
    ensures var t := Step(s, Begin(framed));
      if framed && !s.closed then t.calls == s.calls[t.nextId := Call(Queued, Pending)] && t.nextId !in s.calls && t.pending == s.pending
      else t.calls == s.calls && t.pending == s.pending
  {
  }

  /** The close tells every registered call that still waits, and no other. */
  lemma CloseTellsTheWaiting(s: State, c: nat)
    requires Inv(s) && c in s.calls
    ensures var t := Step(s, Close);
      t.closed && c in t.calls
      && t.calls[c] == if !s.closed && Registered(s, c) && s.calls[c].response == Pending
                       then s.calls[c].(response := Settled(ConnectionClosed)) else s.calls[c]
  {
  }

  lemma KeepsReply(s: State, e: Event, c: nat, body: nat)
    requires Enabled(s, e) && c in s.calls && c <= s.nextId && s.calls[c].response == Settled(Replied(body))
    requires e != SendRaises(c) && !(e.GiveUp? && e.call == c)
    requires s.calls[c].phase == Sending || s.calls[c].phase == Awaiting || s.calls[c].phase == Done(Replied(body))
    ensures var t := Step(s, e);
      c in t.calls && t.calls[c].response == Settled(Replied(body))
      && (t.calls[c].phase == Sending || t.calls[c].phase == Awaiting || t.calls[c].phase == Done(Replied(body)))
      && (e == Resume(c) || s.calls[c].phase.Done? ==> t.calls[c].phase.Done?)
  {
  }

  /**
   A reply that reached a waiting call is what the call returns: whatever follows, the close of the connection included,
   it is resumed with it, unless it gives up by itself or its own frame cannot be sent.
   */
  lemma {:induction false} FirstReplyIsReturned(s: State, c: nat, body: nat, rest: seq<Event>)
    requires Inv(s) && IsRun(s, rest) && c in s.calls && s.calls[c].response == Settled(Replied(body))
    requires s.calls[c].phase == Sending || s.calls[c].phase == Awaiting || s.calls[c].phase == Done(Replied(body))
    requires SendRaises(c) !in rest && GiveUp(c, TimedOut) !in rest && GiveUp(c, Cancelled) !in rest
    ensures var t := After(s, rest);
      && c in t.calls && t.calls[c].response == Settled(Replied(body))
      && (t.calls[c].phase == Sending || t.calls[c].phase == Awaiting || t.calls[c].phase == Done(Replied(body)))
      && (Resume(c) in rest || s.calls[c].phase.Done? ==> t.calls[c].phase == Done(Replied(body)))
    decreases |rest|
  {
    if rest != [] {
      assert rest[0].GiveUp? ==> rest[0].outcome == TimedOut || rest[0].outcome == Cancelled;
      assert Table(s);
      hide Inv, Step, Enabled;
      StepKeeps(s, rest[0]);
      KeepsReply(s, rest[0], c, body);
      FirstReplyIsReturned(Step(s, rest[0]), c, body, rest[1..]);
    }
  }

  /** After the close no call registers any more, and the registered ones only leave. */
  lemma NothingRegistersAfterClose(s: State, e: Event)
    requires Inv(s) && Enabled(s, e) && s.closed
    ensures Step(s, e).closed && Step(s, e).pending <= s.pending
    ensures forall c :: c in s.pending ==> c in Step(s, e).calls && Step(s, e).calls[c].response == s.calls[c].response
  {
  }

  // ----- the client in the form of the source -----

  class RpcConnectedClient {
    const maxConcurrency: nat
    var free: nat
    var nextId: nat
    var calls: map<nat, Call>
    var pending: set<nat>
    var closed: bool
    var droppedResponses: nat
    var received: seq<Response>

    function Model(): State
      reads this
    {
      State(maxConcurrency, free, nextId, calls, pending, closed, droppedResponses, received)
    }

    ghost predicate Valid()
      reads this
    {
      Inv(Model())
    }

    constructor (maxConcurrency: nat)
      ensures Valid() && Model() == Init(maxConcurrency)
    {
      this.maxConcurrency, free, nextId, calls, pending := maxConcurrency, maxConcurrency, 0, map[], {};
      closed, droppedResponses, received := false, 0, [];
    }

    /** A call up to its wait for a slot; `id` is none when it fails at once. */
    method BeginCalling(framed: bool) returns (id: Option<nat>)
      requires Valid()
      modifies this
      ensures Valid() && Model() == Step(old(Model()), Begin(framed))
      ensures id.Some? <==> !old(closed) && framed
      ensures id.Some? ==> id.value !in old(calls) && id.value in calls
    {
      if !closed {
        IdsAreNew(Model());
      }
      hide Inv;
      StepKeeps(Model(), Begin(framed));
      id := None;
      if !closed {
        nextId := nextId + 1;
        if framed {
          calls := calls[nextId := Call(Queued, Pending)];
          id := Some(nextId);
        }
      }
    }

    /** The call got its slot. */
    method Register(c: nat)
      requires Valid() && Enabled(Model(), Acquire(c))
      modifies this
      ensures Valid() && Model() == Step(old(Model()), Acquire(c))
    {
      hide Inv;
      StepKeeps(Model(), Acquire(c));
      if closed {
        calls := calls[c := calls[c].(phase := Done(ConnectionClosed))];
      } else {
        free := free - 1;
        pending := pending + {c};
        calls := calls[c := calls[c].(phase := Sending)];
      }
    }

    /** A message of the peer; `taken` says that it was a response. */
    method ResolveMessage(message: Incoming) returns (taken: bool)
      requires Valid()
      modifies this
      ensures Valid() && Model() == Step(old(Model()), Receive(message))
      ensures taken <==> message.Answer?
    {
      hide Inv;
      StepKeeps(Model(), Receive(message));
      if message.NotAResponse? {
        return false;
      }
      if message.id.Some? && message.id.value in pending && message.id.value in calls
         && calls[message.id.value].response == Pending {
        var c := message.id.value;
        calls := calls[c := calls[c].(response := Settled(Replied(message.body)))];
        received := received + [Response(c, message.body)];
      } else {
        droppedResponses := droppedResponses + 1;
      }
      taken := true;
    }

    /** The call returns or raises: the `finally` clause and the release of the slot. */
    method Return(c: nat, e: Event)
      requires Valid() && Enabled(Model(), e) && (e == SendRaises(c) || e == Resume(c) || (e.GiveUp? && e.call == c))
      modifies this
      ensures Valid() && Model() == Step(old(Model()), e)
    {
      hide Inv;
      StepKeeps(Model(), e);
      var outcome := if e.SendRaises? then SendFailed else if e.Resume? then calls[c].response.outcome else e.outcome;
      if Registered(Model(), c) {
        free := free + 1;
      }
      pending := pending - {c};
      calls := calls[c := calls[c].(phase := Done(outcome))];
    }

    /** The connection closes: every registered call that still waits is told. */
    method CloseClient()
      requires Valid()
      modifies this
      ensures Valid() && Model() == Step(old(Model()), Close)
      ensures forall c :: c in pending && c in calls ==> calls[c].response.Settled?
    {
      assert closed ==> ClosedSettles(Model());
      hide Inv;
      StepKeeps(Model(), Close);
      assert Step(Model(), Close) == CloseAll(Model());
      hide Step;
      if !closed {
        closed := true;
        FailAll();
      }
    }

    /** Settles the calls in the table that still wait. */
    method FailAll()
      modifies this`calls
      ensures calls == CloseAll(old(Model()).(closed := false)).calls
    {
      var todo := pending;
      while todo != {}
        invariant todo <= pending
        invariant calls.Keys == old(calls).Keys
        invariant forall c :: c in calls && (c !in pending || c in todo) ==> calls[c] == old(calls)[c]
        invariant forall c :: c in calls && c in pending && c !in todo ==>
          calls[c] == if old(calls)[c].response == Pending then old(calls)[c].(response := Settled(ConnectionClosed)) else old(calls)[c]
        decreases |todo|
      {
        var c :| c in todo;
        if c in calls && calls[c].response == Pending {
          calls := calls[c := calls[c].(response := Settled(ConnectionClosed))];
        }
        todo := todo - {c};
      }
    }
  }
}
