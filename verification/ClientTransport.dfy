/**
 The request path of the generated WebSocket transport: id correlation, settlement of pending requests,
 the `sent` flag and the cancel frames, for any number of concurrent requests.
 */
module ClientTransport {

  /** How a request ends for its caller. `Lost(sent)` is the connection loss error with its delivery flag. */
  datatype Outcome = Result(value: int) | RemoteError(code: int) | Lost(sent: bool) | ProtocolError | TimedOut | Cancelled

  /** The future that the reader and the failure paths settle. */
  datatype Future = Waiting | Settled(outcome: Outcome)

  /** `Retiring` waits for the transport to close before it raises. */
  datatype Phase = Sending | Awaiting | Retiring(outcome: Outcome) | Done(outcome: Outcome)

  datatype Request = Request(tag: nat, future: Future, phase: Phase)

  /** The socket's view: a frame is handed to `send`, `send` returns, a cancel frame is handed over. */
  datatype Wire = Started(id: nat, tag: nat) | Completed(id: nat) | CancelFrame(id: nat)

  datatype Response = Response(id: nat, outcome: Outcome)

  const MAX_CANCEL_SENDS := 128

  /**
   `pending` and `sent` are the key sets of the two tables of the source. `requests` holds every request that
   ever got an id; `cancels` and `finishing` are the cancel tasks before and after they handed over their
   frame; `wire` and `received` are history. `tag` is the logical call a request belongs to.
   */
  datatype State = State(
    nextId: nat, requests: map<nat, Request>, pending: set<nat>, sent: set<nat>, cancels: set<nat>, finishing: set<nat>,
    closed: bool, readerAlive: bool, wire: seq<Wire>, received: seq<Response>)

  function Init(): State {
    State(1, map[], {}, {}, {}, {}, false, true, [], [])
  }

  datatype Event =
    | Begin(tag: nat, serializable: bool)
    | SendReturns(id: nat)
    | SendRaises(id: nat)
    | Receive(response: Response)
    | ReaderFails(lost: bool)        // a lost connection, or a frame that violates the protocol
    | TimeOut(id: nat)
    | CallerCancels(id: nat)
    | Resume(id: nat)                // a settled or retiring request returns to its caller
    | SendCancel(id: nat)
    | CancelSent(id: nat)
    | BeginClose
    | EndClose

  predicate Enabled(s: State, e: Event) {
    match e
    case Begin(_, _) => !s.closed
    case SendReturns(id) => id in s.requests && s.requests[id].phase == Sending
    case SendRaises(id) => id in s.requests && s.requests[id].phase == Sending
    case Receive(r) => s.readerAlive && (r.outcome.Result? || r.outcome.RemoteError?)
    case ReaderFails(_) => s.readerAlive
    case TimeOut(id) => id in s.requests && (s.requests[id].phase == Sending || s.requests[id].phase == Awaiting)
    case CallerCancels(id) => id in s.requests && !s.requests[id].phase.Done?
    case Resume(id) =>
      id in s.requests && ((s.requests[id].phase == Awaiting && s.requests[id].future.Settled?) || s.requests[id].phase.Retiring?)
    case SendCancel(id) => id in s.cancels
    case CancelSent(id) => id in s.finishing
    case BeginClose => !s.closed
    case EndClose => s.closed
  }

  // ----- settling -----

  /** What a waiting request is told when the transport fails: losses carry the request's own flag. */
  function FailureFor(s: State, id: nat, lost: bool): Outcome {
    if lost then Lost(id in s.sent) else ProtocolError
  }

  function FailPending(s: State, lost: bool): State {
    s.(requests := map id | id in s.requests ::
         if id in s.pending && s.requests[id].future == Waiting
         then s.requests[id].(future := Settled(FailureFor(s, id, lost))) else s.requests[id],
       pending := {}, sent := {})
  }

  function SetPhase(s: State, id: nat, phase: Phase): State
    requires id in s.requests
  {
    s.(requests := s.requests[id := s.requests[id].(phase := phase)])
  }

  /** The request coroutine leaves: its entries are dropped, and a future still waiting is cancelled. */
  function Leave(s: State, id: nat, outcome: Outcome): State
    requires id in s.requests
  {
    var future := if s.requests[id].future == Waiting then Settled(Cancelled) else s.requests[id].future;
    s.(requests := s.requests[id := s.requests[id].(future := future, phase := Done(outcome))],
       pending := s.pending - {id}, sent := s.sent - {id})
  }

  /** A failed send retires the transport: everything pending fails and the transport closes. */
  function Retire(s: State, id: nat, outcome: Outcome): State
    requires id in s.requests
  {
    SetPhase(FailPending(s, true), id, Retiring(outcome)).(closed := true, cancels := {}, finishing := {})
  }

  function ScheduleCancel(s: State, id: nat): State {
    if s.closed || |s.cancels| + |s.finishing| >= MAX_CANCEL_SENDS then s else s.(cancels := s.cancels + {id})
  }

  /** Timeout and cancellation: an unfinished send retires the transport, a sent request is cancelled on the wire. */
  function GiveUp(s: State, id: nat, outcome: Outcome): State
    requires id in s.requests
  {
    if s.requests[id].phase == Sending then Retire(s, id, outcome)
    else if s.requests[id].phase == Awaiting && s.requests[id].future == Waiting then Leave(ScheduleCancel(s, id), id, outcome)
    else Leave(s, id, outcome)
  }

  function BeginRequest(s: State, tag: nat, serializable: bool): State {
    if !serializable then s.(nextId := s.nextId + 1)
    else
      var id := s.nextId;
      s.(nextId := id + 1, requests := s.requests[id := Request(tag, Waiting, Sending)],
         pending := s.pending + {id}, sent := s.sent + {id}, wire := s.wire + [Started(id, tag)])
  }

  function Resolve(s: State, r: Response): State {
    if r.id in s.pending && r.id in s.requests && s.requests[r.id].future == Waiting
    then s.(requests := s.requests[r.id := s.requests[r.id].(future := Settled(r.outcome))])
    else s
  }

  function Step(s: State, e: Event): State
    requires Enabled(s, e)
  {
    match e
    case Begin(tag, serializable) => BeginRequest(s, tag, serializable)
    case SendReturns(id) => SetPhase(s, id, Awaiting).(wire := s.wire + [Completed(id)])
    case SendRaises(id) => Retire(s, id, Lost(true))
    case Receive(r) => Resolve(s, r).(received := s.received + [r])
    case ReaderFails(lost) => FailPending(s, lost).(closed := true, cancels := {}, finishing := {}, readerAlive := false)
    case TimeOut(id) => GiveUp(s, id, TimedOut)
    case CallerCancels(id) => GiveUp(s, id, Cancelled)
    case Resume(id) =>
      var request := s.requests[id];
      Leave(s, id, if request.phase.Retiring? then request.phase.outcome else request.future.outcome)
    case SendCancel(id) =>
      if s.closed then s.(cancels := s.cancels - {id})
      else s.(cancels := s.cancels - {id}, finishing := s.finishing + {id}, wire := s.wire + [CancelFrame(id)])
    case CancelSent(id) => s.(finishing := s.finishing - {id})
    case BeginClose => s.(closed := true, cancels := {}, finishing := {})
    case EndClose => FailPending(s, true).(readerAlive := false)
  }

  predicate IsRun(s: State, events: seq<Event>)
    decreases |events|
  {
    events == [] || (Enabled(s, events[0]) && IsRun(Step(s, events[0]), events[1..]))
  }

  function After(s: State, events: seq<Event>): State
    requires IsRun(s, events)
    decreases |events|
  {
    if events == [] then s else After(Step(s, events[0]), events[1..])
  }

  // ----- the invariant -----

  /** At every suspension point the two tables have the same keys: unfinished requests of an unfailed transport. */
  ghost predicate Tables(s: State) {
    && s.sent == s.pending
    && (forall id :: id in s.pending ==> id in s.requests && (s.requests[id].phase == Sending || s.requests[id].phase == Awaiting))
    && (forall id :: id in s.requests ==> 0 < id < s.nextId)
    && 0 < s.nextId
    && (s.closed ==> s.cancels == {} && s.finishing == {})
  }

  ghost predicate FromResponse(s: State, id: nat, outcome: Outcome) {
    Response(id, outcome) in s.received
  }

  /** Losses of a request that was handed to the socket say so, and results come from a response with its id. */
  ghost predicate Truthful(s: State, id: nat, outcome: Outcome) {
    (outcome.Lost? ==> outcome.sent) && (outcome.Result? || outcome.RemoteError? ==> FromResponse(s, id, outcome))
  }

  ghost predicate Outcomes(s: State) {
    forall id :: id in s.requests ==>
      var request := s.requests[id];
      && (request.future.Settled? ==> Truthful(s, id, request.future.outcome))
      && (request.phase.Done? || request.phase.Retiring? ==> Truthful(s, id, request.phase.outcome))
      && (request.future == Waiting ==> id in s.pending)
  }

  /** How often request `id` was handed to the socket, and how often a cancel frame for it was. */
  function Starts(wire: seq<Wire>, id: nat): nat {
    if wire == [] then 0
    else Starts(wire[..|wire| - 1], id) + if wire[|wire| - 1].Started? && wire[|wire| - 1].id == id then 1 else 0
  }

  function CancelFrames(wire: seq<Wire>, id: nat): nat {
    if wire == [] then 0
    else CancelFrames(wire[..|wire| - 1], id) + if wire[|wire| - 1] == CancelFrame(id) then 1 else 0
  }

  ghost predicate WireStarts(s: State) {
    && (forall id: nat :: Starts(s.wire, id) == if id in s.requests then 1 else 0)
    && (forall i :: 0 <= i < |s.wire| && s.wire[i].Started? ==>
          s.wire[i].id in s.requests && s.requests[s.wire[i].id].tag == s.wire[i].tag)
  }

  /** A cancel frame, sent or about to be, belongs to a request that has left after its own frame was complete. */
  ghost predicate WireCancels(s: State) {
    && (forall id: nat :: CancelFrames(s.wire, id) + (if id in s.cancels then 1 else 0) <= 1)
    && (forall id: nat :: CancelFrames(s.wire, id) == 1 || id in s.cancels ==>
          id in s.requests && s.requests[id].phase.Done? && Completed(id) in s.wire)
    && (forall id :: id in s.requests && s.requests[id].phase == Awaiting ==> Completed(id) in s.wire)
    && (forall i :: 0 <= i < |s.wire| && s.wire[i].CancelFrame? ==> Completed(s.wire[i].id) in s.wire[..i])
  }

  ghost predicate Inv(s: State) {
    Tables(s) && Outcomes(s) && WireStarts(s) && WireCancels(s)
  }

  // ----- every step keeps it -----

  lemma KeepsTables(s: State, e: Event)
    requires Tables(s) && Enabled(s, e)
    ensures Tables(Step(s, e))
  {
  }

  lemma FailPendingKeeps(s: State, lost: bool)
    requires Tables(s) && Outcomes(s)
    ensures Tables(FailPending(s, lost)) && Outcomes(FailPending(s, lost))
  {
  }

  lemma LeaveKeeps(s: State, id: nat, outcome: Outcome)
    requires Tables(s) && Outcomes(s) && id in s.requests && Truthful(s, id, outcome)
    ensures Tables(Leave(s, id, outcome)) && Outcomes(Leave(s, id, outcome))
  {
  }

  lemma RetireKeeps(s: State, id: nat, outcome: Outcome)
    requires Tables(s) && Outcomes(s) && id in s.requests && Truthful(s, id, outcome)
    ensures Tables(Retire(s, id, outcome)) && Outcomes(Retire(s, id, outcome))
  {
    FailPendingKeeps(s, true);
    var t := FailPending(s, true);
    assert t.requests[id].future.Settled?;
  }

  lemma GiveUpKeeps(s: State, id: nat, outcome: Outcome)
    requires Tables(s) && Outcomes(s) && id in s.requests && Truthful(s, id, outcome)
    ensures Tables(GiveUp(s, id, outcome)) && Outcomes(GiveUp(s, id, outcome))
  {
    hide Retire, Leave;
    if s.requests[id].phase == Sending {
      RetireKeeps(s, id, outcome);
    } else {
      var t := ScheduleCancel(s, id);
      assert Tables(t) && Outcomes(t);
      LeaveKeeps(t, id, outcome);
      LeaveKeeps(s, id, outcome);
    }
  }

  lemma SimpleKeepsOutcomes(s: State, e: Event)
    requires Tables(s) && Outcomes(s) && Enabled(s, e)
    requires e.Begin? || e.SendReturns? || e.Receive? || e.SendCancel? || e.CancelSent? || e.BeginClose?
    ensures Outcomes(Step(s, e))
  {
  }

  lemma KeepsOutcomes(s: State, e: Event)
    requires Tables(s) && Outcomes(s) && Enabled(s, e)
    ensures Outcomes(Step(s, e))
  {
    hide Retire, Leave, FailPending, GiveUp, BeginRequest, Resolve;
    match e
    case SendRaises(id) => RetireKeeps(s, id, Lost(true));
    case ReaderFails(lost) => FailPendingKeeps(s, lost);
    case EndClose => FailPendingKeeps(s, true);
    case TimeOut(id) => GiveUpKeeps(s, id, TimedOut);
    case CallerCancels(id) => GiveUpKeeps(s, id, Cancelled);
    case Resume(id) =>
      LeaveKeeps(s, id, if s.requests[id].phase.Retiring? then s.requests[id].phase.outcome else s.requests[id].future.outcome);
    case _ => SimpleKeepsOutcomes(s, e);
  }

  lemma WireGrows(wire: seq<Wire>, last: Wire)
    ensures forall id :: Starts(wire + [last], id) == Starts(wire, id) + if last.Started? && last.id == id then 1 else 0
    ensures forall id :: CancelFrames(wire + [last], id) == CancelFrames(wire, id) + if last == CancelFrame(id) then 1 else 0
  {
    assert (wire + [last])[..|wire|] == wire;
  }

  /** The requests are the same ones, and none that has left comes back. */
  ghost predicate SameRequests(s: State, t: State) {
    && t.requests.Keys == s.requests.Keys
    && (forall id :: id in s.requests ==> t.requests[id].tag == s.requests[id].tag)
    && (forall id :: id in s.requests && s.requests[id].phase.Done? ==> t.requests[id].phase.Done?)
  }

  /** Nothing is handed over or scheduled, and no request comes back to an earlier phase. */
  ghost predicate Quiet(s: State, t: State) {
    && t.wire == s.wire && t.cancels <= s.cancels && SameRequests(s, t)
    && (forall id :: id in t.requests && t.requests[id].phase == Awaiting ==> s.requests[id].phase == Awaiting)
  }

  lemma FailPendingQuiet(s: State, lost: bool)
    ensures Quiet(s, FailPending(s, lost))
  {
    hide Starts, CancelFrames;
  }

  lemma LeaveQuiet(s: State, id: nat, outcome: Outcome)
    requires id in s.requests
    ensures Quiet(s, Leave(s, id, outcome))
  {
    hide Starts, CancelFrames;
  }

  lemma RetireQuiet(s: State, id: nat, outcome: Outcome)
    requires id in s.requests && !s.requests[id].phase.Done?
    ensures Quiet(s, Retire(s, id, outcome))
  {
    hide Starts, CancelFrames, FailPending;
    FailPendingQuiet(s, true);
  }

  lemma QuietKeepsRequests(s: State, t: State)
    requires Quiet(s, t)
    ensures SameRequests(s, t)
  {
  }

  lemma GiveUpQuiet(s: State, id: nat, outcome: Outcome)
    requires id in s.requests && !s.requests[id].phase.Done?
    ensures SameRequests(s, GiveUp(s, id, outcome))
    ensures !(s.requests[id].phase == Awaiting && s.requests[id].future == Waiting) ==> Quiet(s, GiveUp(s, id, outcome))
  {
    hide Retire, Leave, Quiet;
    if s.requests[id].phase == Sending {
      RetireQuiet(s, id, outcome);
      QuietKeepsRequests(s, Retire(s, id, outcome));
    } else {
      LeaveQuiet(s, id, outcome);
      LeaveQuiet(ScheduleCancel(s, id), id, outcome);
      QuietKeepsRequests(s, Leave(s, id, outcome));
      QuietKeepsRequests(ScheduleCancel(s, id), Leave(ScheduleCancel(s, id), id, outcome));
    }
  }

  lemma StepKeepsRequests(s: State, e: Event)
    requires Enabled(s, e) && !e.Begin?
    ensures SameRequests(s, Step(s, e))
  {
    hide Starts, CancelFrames, FailPending, Retire, Leave, GiveUp;
    match e
    case SendRaises(id) => RetireQuiet(s, id, Lost(true));
    case ReaderFails(lost) => FailPendingQuiet(s, lost);
    case EndClose => FailPendingQuiet(s, true);
    case TimeOut(id) => GiveUpQuiet(s, id, TimedOut);
    case CallerCancels(id) => GiveUpQuiet(s, id, Cancelled);
    case Resume(id) =>
      LeaveQuiet(s, id, if s.requests[id].phase.Retiring? then s.requests[id].phase.outcome else s.requests[id].future.outcome);
    case _ =>
  }

  lemma KeepsWireStarts(s: State, e: Event)
    requires Tables(s) && WireStarts(s) && Enabled(s, e)
    ensures WireStarts(Step(s, e))
  {
    if e.Begin? {
      BeginKeepsWireStarts(s, e.tag, e.serializable);
    } else {
      hide Tables, WireStarts, SameRequests;
      StepKeepsRequests(s, e);
      StepAddsNoStart(s, e);
      StartsStay(s, Step(s, e));
    }
  }

  lemma BeginKeepsWireStarts(s: State, tag: nat, serializable: bool)
    requires Tables(s) && WireStarts(s) && Enabled(s, Begin(tag, serializable))
    ensures WireStarts(Step(s, Begin(tag, serializable)))
  {
    WireGrows(s.wire, Started(s.nextId, tag));
  }

  lemma StepAddsNoStart(s: State, e: Event)
    requires Enabled(s, e) && !e.Begin?
    ensures var t := Step(s, e);
      t.wire == s.wire || (|t.wire| == |s.wire| + 1 && t.wire[..|s.wire|] == s.wire && !t.wire[|s.wire|].Started?)
  {
  }

  lemma StartsStay(s: State, t: State)
    requires WireStarts(s) && SameRequests(s, t)
    requires t.wire == s.wire || (|t.wire| == |s.wire| + 1 && t.wire[..|s.wire|] == s.wire && !t.wire[|s.wire|].Started?)
    ensures WireStarts(t)
  {
    if t.wire != s.wire {
      WireGrows(s.wire, t.wire[|s.wire|]);
      assert t.wire == s.wire + [t.wire[|s.wire|]];
    }
  }

  /** A step that adds no cancel frame and schedules none. */
  lemma CancelsStay(s: State, t: State)
    requires WireCancels(s) && SameRequests(s, t) && t.cancels <= s.cancels
    requires t.wire == s.wire || (|t.wire| == |s.wire| + 1 && t.wire[..|s.wire|] == s.wire && !t.wire[|s.wire|].CancelFrame?)
    requires forall id :: id in t.requests && t.requests[id].phase == Awaiting ==>
      s.requests[id].phase == Awaiting || Completed(id) in t.wire
    ensures WireCancels(t)
  {
    if t.wire != s.wire {
      WireGrows(s.wire, t.wire[|s.wire|]);
      assert t.wire == s.wire + [t.wire[|s.wire|]];
      assert forall i :: 0 <= i < |s.wire| ==> t.wire[..i] == s.wire[..i];
    }
  }

  lemma BeginKeepsCancels(s: State, tag: nat, serializable: bool)
    requires Tables(s) && WireCancels(s)
    ensures WireCancels(BeginRequest(s, tag, serializable))
  {
    var t := BeginRequest(s, tag, serializable);
    WireGrows(s.wire, Started(s.nextId, tag));
    assert forall i :: 0 <= i < |s.wire| ==> t.wire[..i] == s.wire[..i];
  }

  lemma SendCancelKeepsCancels(s: State, id: nat)
    requires WireCancels(s) && id in s.cancels && !s.closed
    ensures WireCancels(Step(s, SendCancel(id)))
  {
    var t := Step(s, SendCancel(id));
    WireGrows(s.wire, CancelFrame(id));
    assert forall i :: 0 <= i <= |s.wire| ==> t.wire[..i] == s.wire[..i];
    assert Completed(id) in s.wire[..|s.wire|];
  }

  lemma AbandonKeepsCancels(s: State, id: nat, outcome: Outcome)
    requires WireCancels(s) && id in s.requests && s.requests[id].phase == Awaiting
    ensures WireCancels(Leave(ScheduleCancel(s, id), id, outcome))
  {
    var t := Leave(ScheduleCancel(s, id), id, outcome);
    assert t.wire == s.wire && t.requests.Keys == s.requests.Keys;
    assert id !in s.cancels && CancelFrames(s.wire, id) == 0 && Completed(id) in s.wire;
    forall i: nat ensures CancelFrames(t.wire, i) + (if i in t.cancels then 1 else 0) <= 1 {
      assert CancelFrames(s.wire, i) + (if i in s.cancels then 1 else 0) <= 1;
    }
    forall i: nat | CancelFrames(t.wire, i) == 1 || i in t.cancels
      ensures i in t.requests && t.requests[i].phase.Done? && Completed(i) in t.wire
    {
      assert i == id || CancelFrames(s.wire, i) == 1 || i in s.cancels;
    }
  }

  lemma GiveUpKeepsCancels(s: State, id: nat, outcome: Outcome)
    requires WireCancels(s) && id in s.requests && !s.requests[id].phase.Done?
    ensures WireCancels(GiveUp(s, id, outcome))
  {
    hide WireCancels, Leave, Retire, ScheduleCancel;
    if s.requests[id].phase == Awaiting && s.requests[id].future == Waiting {
      AbandonKeepsCancels(s, id, outcome);
    } else {
      hide GiveUp;
      GiveUpQuiet(s, id, outcome);
      CancelsStay(s, GiveUp(s, id, outcome));
    }
  }

  lemma KeepsWireCancels(s: State, e: Event)
    requires Tables(s) && WireCancels(s) && Enabled(s, e)
    ensures WireCancels(Step(s, e))
  {
    match e
    case Begin(tag, serializable) => BeginKeepsCancels(s, tag, serializable);
    case TimeOut(id) => GiveUpKeepsCancels(s, id, TimedOut);
    case CallerCancels(id) => GiveUpKeepsCancels(s, id, Cancelled);
    case SendCancel(id) => SendCancelKeepsCancels(s, id);
    case _ => OthersKeepCancels(s, e);
  }

  lemma OthersKeepCancels(s: State, e: Event)
    requires WireCancels(s) && Enabled(s, e) && !e.Begin? && !e.TimeOut? && !e.CallerCancels? && !e.SendCancel?
    ensures WireCancels(Step(s, e))
  {
    var t := Step(s, e);
    StepKeepsRequests(s, e);
    assert t.cancels <= s.cancels;
    CancelsStay(s, t);
  }

  lemma StepKeeps(s: State, e: Event)
    requires Inv(s) && Enabled(s, e)
    ensures Inv(Step(s, e))
  {
    hide Step, Tables, Outcomes, WireStarts, WireCancels;
    KeepsTables(s, e);
    KeepsOutcomes(s, e);
    KeepsWireStarts(s, e);
    KeepsWireCancels(s, e);
  }

  lemma {:induction false} RunKeeps(s: State, events: seq<Event>)
    requires Inv(s) && IsRun(s, events)
    ensures Inv(After(s, events))
    decreases |events|
  {
    if events != [] {
      StepKeeps(s, events[0]);
      RunKeeps(Step(s, events[0]), events[1..]);
    }
  }

  // ----- over all runs -----

  /** A future is settled once, and a request that has returned to its caller does not change any more. */
  lemma SettledOnce(s: State, e: Event, id: nat)
    requires Tables(s) && Enabled(s, e) && id in s.requests
    ensures id in Step(s, e).requests
    ensures s.requests[id].future.Settled? ==> Step(s, e).requests[id].future == s.requests[id].future
    ensures s.requests[id].phase.Done? && s.requests[id].future.Settled? ==> Step(s, e).requests[id] == s.requests[id]
  {
  }

  /** When the transport has failed, no request is left waiting. */
  lemma FailureSettlesAll(s: State, e: Event, id: nat)
    requires Inv(s) && Enabled(s, e) && (e.ReaderFails? || e.EndClose? || e.SendRaises?)
    ensures id in Step(s, e).requests ==> Step(s, e).requests[id].future.Settled?
    ensures Step(s, e).pending == {}
  {
    StepKeeps(s, e);
  }

  /**
   In every run: ids are never reused, so each was handed to the socket exactly once; the tables of pending and sent
   requests have the same keys; a result or a remote error comes from a received response with the id of the
   request; a request that was handed to the socket never ends with `sent` false; at most one cancel frame is sent for
   an id, after the frame of the request was complete; and a closed transport has none left to send.
   */
  lemma RequestsAreSettledTruthfully(events: seq<Event>, id: nat)
    requires IsRun(Init(), events)
    ensures var s := After(Init(), events);
      && s.sent == s.pending
      && Starts(s.wire, id) == (if id in s.requests then 1 else 0)
      && CancelFrames(s.wire, id) <= 1
      && (s.closed ==> s.cancels == {})
      && (id in s.requests && s.requests[id].phase.Done? ==>
            var outcome := s.requests[id].phase.outcome;
            id !in s.pending && s.requests[id].future.Settled? && outcome != Lost(false)
            && (outcome.Result? || outcome.RemoteError? ==> Response(id, outcome) in s.received))
      && (forall i :: 0 <= i < |s.wire| && s.wire[i] == CancelFrame(id) ==> Completed(id) in s.wire[..i])
  {
    RunKeeps(Init(), events);
  }

  // ----- what each event tells the callers -----

  /** A response settles the waiting request with its id and changes no other; late and unknown ids are only recorded. */
  lemma ResponseReachesItsRequest(s: State, r: Response)
    requires Inv(s) && Enabled(s, Receive(r))
    ensures var t := Step(s, Receive(r));
      && t == s.(requests := t.requests, received := s.received + [r]) && t.requests.Keys == s.requests.Keys
      && forall id :: id in s.requests ==>
           t.requests[id] == if id == r.id && s.requests[id].future == Waiting
                             then s.requests[id].(future := Settled(r.outcome)) else s.requests[id]
  {
  }

  /** Request `id` has its outcome, and returns it, or will. */
  predicate Has(s: State, id: nat, outcome: Outcome) {
    id in s.requests && s.requests[id].future == Settled(outcome)
    && (s.requests[id].phase == Sending || s.requests[id].phase == Awaiting || s.requests[id].phase == Done(outcome))
  }

  lemma KeepsOutcome(s: State, e: Event, id: nat, outcome: Outcome)
    requires Tables(s) && Enabled(s, e) && Has(s, id, outcome)
    requires e != TimeOut(id) && e != CallerCancels(id) && e != SendRaises(id)
    ensures Has(Step(s, e), id, outcome)
    ensures s.requests[id].phase.Done? || e == Resume(id) ==> Step(s, e).requests[id].phase.Done?
  {
    hide Starts, CancelFrames;
  }

  lemma {:induction false} RunKeepsOutcome(s: State, events: seq<Event>, id: nat, outcome: Outcome)
    requires Inv(s) && IsRun(s, events) && Has(s, id, outcome)
    requires TimeOut(id) !in events && CallerCancels(id) !in events && SendRaises(id) !in events
    ensures Has(After(s, events), id, outcome)
    ensures s.requests[id].phase.Done? || Resume(id) in events ==> After(s, events).requests[id].phase.Done?
    decreases |events|
  {
    hide Step, Enabled, Inv;
    if events != [] {
      assert Tables(s) by { InvHasTables(s); }
      StepKeeps(s, events[0]);
      KeepsOutcome(s, events[0], id, outcome);
      RunKeepsOutcome(Step(s, events[0]), events[1..], id, outcome);
    }
  }

  lemma InvHasTables(s: State)
    requires Inv(s)
    ensures Tables(s)
  {
  }

  /**
   The first response that finds a request waiting is what its caller gets: whatever follows, failures of the transport
   and further responses included, the caller is resumed with it, unless the request itself times out, is cancelled or
   cannot be sent.
   */
  lemma FirstResponseIsReturned(s: State, r: Response, rest: seq<Event>)
    requires Inv(s) && Enabled(s, Receive(r)) && IsRun(Step(s, Receive(r)), rest)
    requires r.id in s.requests && s.requests[r.id].future == Waiting
    requires TimeOut(r.id) !in rest && CallerCancels(r.id) !in rest && SendRaises(r.id) !in rest
    ensures var t := After(Step(s, Receive(r)), rest);
      && r.id in t.requests && t.requests[r.id].future == Settled(r.outcome)
      && (t.requests[r.id].phase == Done(r.outcome) <==> Resume(r.id) in rest)
      && (t.requests[r.id].phase == Awaiting ==>
            Enabled(t, Resume(r.id)) && r.id in Step(t, Resume(r.id)).requests
            && Step(t, Resume(r.id)).requests[r.id].phase == Done(r.outcome))
  {
    var t := Step(s, Receive(r));
    StepKeeps(s, Receive(r));
    RunKeepsOutcome(t, rest, r.id, r.outcome);
    if Resume(r.id) !in rest {
      StaysLive(t, rest, r.id, r.outcome);
    }
  }

  lemma OnlyResumeReturns(s: State, e: Event, id: nat)
    requires Enabled(s, e) && id in s.requests && !s.requests[id].phase.Done? && s.nextId > id
    requires e != TimeOut(id) && e != CallerCancels(id) && e != SendRaises(id) && e != Resume(id)
    ensures id in Step(s, e).requests && !Step(s, e).requests[id].phase.Done?
  {
    hide Starts, CancelFrames;
  }

  lemma {:induction false} StaysLive(s: State, events: seq<Event>, id: nat, outcome: Outcome)
    requires Inv(s) && IsRun(s, events) && Has(s, id, outcome) && !s.requests[id].phase.Done?
    requires TimeOut(id) !in events && CallerCancels(id) !in events && SendRaises(id) !in events && Resume(id) !in events
    ensures id in After(s, events).requests && !After(s, events).requests[id].phase.Done?
    decreases |events|
  {
    if events != [] {
      OnlyResumeReturns(s, events[0], id);
      hide Step, Enabled, Inv;
      assert Tables(s) by { InvHasTables(s); }
      StepKeeps(s, events[0]);
      KeepsOutcome(s, events[0], id, outcome);
      StaysLive(Step(s, events[0]), events[1..], id, outcome);
    }
  }

  /** A failing transport tells every waiting request that it was lost after it was sent, or that the protocol was violated. */
  lemma FailureTellsWhy(s: State, e: Event, id: nat)
    requires Inv(s) && Enabled(s, e) && id in s.requests && s.requests[id].future == Waiting
    requires e.ReaderFails? || e.EndClose? || e.SendRaises? || ((e.TimeOut? || e.CallerCancels?) && s.requests[e.id].phase == Sending)
    ensures var t := Step(s, e);
      && id in t.requests
      && t.requests[id].future == Settled(if e.ReaderFails? && !e.lost then ProtocolError else Lost(true))
      && t.closed && t.cancels <= s.cancels && (!e.EndClose? ==> t.cancels == {})
  {
    hide Starts, CancelFrames;
  }

  /** A request whose sending fails, that times out or that is cancelled ends with just that; an unsent one retires first. */
  lemma GivesUpAsTold(s: State, e: Event)
    requires Inv(s) && Enabled(s, e) && (e.SendRaises? || e.TimeOut? || e.CallerCancels?) && !s.requests[e.id].phase.Retiring?
    ensures var t := Step(s, e);
      var outcome := match e case SendRaises(_) => Lost(true) case TimeOut(_) => TimedOut case _ => Cancelled;
      && e.id in t.requests
      && (s.requests[e.id].phase == Sending ==>
            t.requests[e.id].phase == Retiring(outcome)
            && Enabled(t, Resume(e.id)) && e.id in Step(t, Resume(e.id)).requests
            && Step(t, Resume(e.id)).requests[e.id].phase == Done(outcome))
      && (s.requests[e.id].phase == Awaiting ==> t.requests[e.id].phase == Done(outcome) && t.closed == s.closed)
  {
    hide Starts, CancelFrames, Outcomes, WireStarts, WireCancels;
  }

  /** The peer is told of an abandoned request exactly when that was sent, is unanswered, and the transport has room and is open. */
  lemma AbandonedRequestIsCancelled(s: State, e: Event)
    requires Inv(s) && Enabled(s, e) && (e.TimeOut? || e.CallerCancels?)
    ensures var t := Step(s, e);
      var told := s.requests[e.id].phase == Awaiting && s.requests[e.id].future == Waiting && !s.closed
                  && |s.cancels| + |s.finishing| < 128;
      && (e.id in t.cancels <==> told)
      && (told ==> t.wire == s.wire && Step(t, SendCancel(e.id)).wire == s.wire + [CancelFrame(e.id)])
  {
    assert WireCancels(s);
    GiveUpSchedules(s, e.id, if e.TimeOut? then TimedOut else Cancelled);
    hide Inv, WireCancels, GiveUp;
  }

  lemma GiveUpSchedules(s: State, id: nat, outcome: Outcome)
    requires id in s.requests && id !in s.cancels
    ensures var t := GiveUp(s, id, outcome);
      var told := s.requests[id].phase == Awaiting && s.requests[id].future == Waiting && !s.closed
                  && |s.cancels| + |s.finishing| < 128;
      (id in t.cancels <==> told) && t.wire == s.wire && (told ==> !t.closed)
  {
  }

  /** What may give request `id` this outcome. */
  predicate Causes(e: Event, id: nat, outcome: Outcome) {
    match outcome
    case Result(_) => e == Receive(Response(id, outcome))
    case RemoteError(_) => e == Receive(Response(id, outcome))
    case TimedOut => e == TimeOut(id)
    case Cancelled => e == CallerCancels(id)
    case ProtocolError => e == ReaderFails(false)
    case Lost(sent) =>
      sent && (e == ReaderFails(true) || e.EndClose? || e.SendRaises? || e.TimeOut? || e.CallerCancels?)
  }

  /** Request `id` returns the outcome, or will. */
  predicate Owns(requests: map<nat, Request>, id: nat, outcome: Outcome) {
    id in requests
    && ((requests[id].future == Settled(outcome) && !requests[id].phase.Done?)
        || ((requests[id].phase.Done? || requests[id].phase.Retiring?) && requests[id].phase.outcome == outcome))
  }

  lemma FailPendingGives(s: State, lost: bool, id: nat, outcome: Outcome)
    requires Tables(s) && Owns(FailPending(s, lost).requests, id, outcome) && !Owns(s.requests, id, outcome)
    ensures outcome == if lost then Lost(true) else ProtocolError
  {
  }

  lemma LeaveGives(s: State, i: nat, given: Outcome, id: nat, outcome: Outcome)
    requires i in s.requests && Owns(Leave(s, i, given).requests, id, outcome) && !Owns(s.requests, id, outcome)
    ensures id == i && outcome == given
  {
  }

  lemma RetireGives(s: State, i: nat, given: Outcome, id: nat, outcome: Outcome)
    requires Tables(s) && i in s.requests && !s.requests[i].phase.Done?
    requires Owns(Retire(s, i, given).requests, id, outcome) && !Owns(s.requests, id, outcome)
    ensures outcome == Lost(true) || (id == i && outcome == given)
  {
    var failed := FailPending(s, true);
    assert Retire(s, i, given).requests == failed.requests[i := failed.requests[i].(phase := Retiring(given))];
    hide FailPending, Retire, Tables;
    if Owns(failed.requests, id, outcome) {
      FailPendingGives(s, true, id, outcome);
    }
  }

  lemma GiveUpGives(s: State, i: nat, given: Outcome, id: nat, outcome: Outcome)
    requires Tables(s) && i in s.requests && Owns(GiveUp(s, i, given).requests, id, outcome) && !Owns(s.requests, id, outcome)
    ensures outcome == Lost(true) || (id == i && outcome == given)
  {
    hide Tables, Owns, Retire, Leave;
    if s.requests[i].phase == Sending {
      RetireGives(s, i, given, id, outcome);
    } else if s.requests[i].phase == Awaiting && s.requests[i].future == Waiting {
      LeaveGives(ScheduleCancel(s, i), i, given, id, outcome);
    } else {
      LeaveGives(s, i, given, id, outcome);
    }
  }

  lemma OthersGive(s: State, e: Event, id: nat, outcome: Outcome)
    requires Enabled(s, e) && Owns(Step(s, e).requests, id, outcome) && !Owns(s.requests, id, outcome)
    requires !e.ReaderFails? && !e.EndClose? && !e.SendRaises? && !e.TimeOut? && !e.CallerCancels?
    ensures Causes(e, id, outcome)
  {
  }

  lemma OnlyCausesGive(s: State, e: Event, id: nat, outcome: Outcome)
    requires Tables(s) && Enabled(s, e) && Owns(Step(s, e).requests, id, outcome) && !Owns(s.requests, id, outcome)
    ensures Causes(e, id, outcome)
  {
    hide Owns, FailPending, Retire, Leave, GiveUp, Tables;
    match e
    case ReaderFails(lost) => FailPendingGives(s, lost, id, outcome);
    case EndClose => FailPendingGives(s, true, id, outcome);
    case SendRaises(i) => RetireGives(s, i, Lost(true), id, outcome);
    case TimeOut(i) => GiveUpGives(s, i, TimedOut, id, outcome);
    case CallerCancels(i) => GiveUpGives(s, i, Cancelled, id, outcome);
    case _ => OthersGive(s, e, id, outcome);
  }

  lemma {:induction false} OutcomeWasCaused(s: State, events: seq<Event>, id: nat, outcome: Outcome)
    requires Tables(s) && IsRun(s, events) && Owns(After(s, events).requests, id, outcome) && !Owns(s.requests, id, outcome)
    ensures exists i :: 0 <= i < |events| && Causes(events[i], id, outcome)
    decreases |events|
  {
    hide Step, Enabled, Owns, Causes, Tables;
    if events != [] {
      var t := Step(s, events[0]);
      KeepsTables(s, events[0]);
      if Owns(t.requests, id, outcome) {
        OnlyCausesGive(s, events[0], id, outcome);
      } else {
        OutcomeWasCaused(t, events[1..], id, outcome);
        var i :| 0 <= i < |events| - 1 && Causes(events[1..][i], id, outcome);
        assert events[i + 1] == events[1..][i];
      }
    }
  }

  /**
   In every run, the outcome a caller got has its cause in the run: a response with the id and this very outcome, the
   timeout or the cancellation of this very request, a violation of the protocol, or a failure of the transport.
   */
  lemma EveryOutcomeHasItsCause(events: seq<Event>, id: nat)
    requires IsRun(Init(), events) && id in After(Init(), events).requests && After(Init(), events).requests[id].phase.Done?
    ensures exists i :: 0 <= i < |events| && Causes(events[i], id, After(Init(), events).requests[id].phase.outcome)
  {
    OutcomeWasCaused(Init(), events, id, After(Init(), events).requests[id].phase.outcome);
  }

  lemma IdIsNew(s: State)
    requires Inv(s)
    ensures s.nextId !in s.requests
  {
  }

  // ----- the transport in the form of the source -----

  class WebSocketTransport {
    var nextRequestId: nat
    var requests: map<nat, Request>
    var pending: set<nat>
    var sent: set<nat>
    var cancellations: set<nat>
    var finishing: set<nat>
    var closed: bool
    var readerAlive: bool
    var wire: seq<Wire>
    var received: seq<Response>

    function Model(): State
      reads this
    {
      State(nextRequestId, requests, pending, sent, cancellations, finishing, closed, readerAlive, wire, received)
    }

    ghost predicate Valid()
      reads this
    {
      Inv(Model())
    }

    constructor ()
      ensures Valid() && Model() == Init()
    {
      nextRequestId, requests, pending, sent := 1, map[], {}, {};
      cancellations, finishing, closed, readerAlive := {}, {}, false, true;
      wire, received := [], [];
    }

    /** Registers the request and hands its frame to the socket. */
    method HandOver(tag: nat, serializable: bool) returns (id: nat)
      requires Valid() && !closed
      modifies this
      ensures Valid() && Model() == Step(old(Model()), Begin(tag, serializable))
      ensures id == old(nextRequestId) && id !in old(requests)
    {
      hide Inv;
      IdIsNew(Model());
      assert Step(Model(), Begin(tag, serializable)) == BeginRequest(Model(), tag, serializable);
      hide Step;
      StepKeeps(Model(), Begin(tag, serializable));
      id := nextRequestId;
      nextRequestId := nextRequestId + 1;
      if serializable {
        pending, sent := pending + {id}, sent + {id};
        requests := requests[id := Request(tag, Waiting, Sending)];
        wire := wire + [Started(id, tag)];
      }
    }

    /** Every pending future still waiting is settled with the failure; both tables are cleared. */
    method FailAllPending(lost: bool)
      modifies this`requests, this`pending, this`sent
      ensures Model() == FailPending(old(Model()), lost)
    {
      var todo := pending;
      while todo != {}
        invariant todo <= pending && pending == old(pending) && sent == old(sent)
        invariant requests.Keys == old(requests).Keys
        invariant forall id :: id in requests && (id !in pending || id in todo) ==> requests[id] == old(requests)[id]
        invariant forall id :: id in requests && id in pending && id !in todo ==>
          requests[id] == FailPending(old(Model()), lost).requests[id]
        decreases |todo|
      {
        var id :| id in todo;
        if id in requests && requests[id].future == Waiting {
          requests := requests[id := requests[id].(future := Settled(if lost then Lost(id in sent) else ProtocolError))];
        }
        todo := todo - {id};
      }
      pending, sent := {}, {};
    }

    /** The socket refused the frame: the transport is retired before the request raises. */
    method SendFails(id: nat)
      requires Valid() && Enabled(Model(), SendRaises(id))
      modifies this
      ensures Valid() && Model() == Step(old(Model()), SendRaises(id))
    {
      hide Inv;
      StepKeeps(Model(), SendRaises(id));
      FailAllPending(true);
      requests := requests[id := requests[id].(phase := Retiring(Lost(true)))];
      closed, cancellations, finishing := true, {}, {};
    }

    /** One response frame: unknown and late ids are ignored. */
    method ResolveResponse(r: Response)
      requires Valid() && Enabled(Model(), Receive(r))
      modifies this
      ensures Valid() && Model() == Step(old(Model()), Receive(r))
      ensures r.id in old(requests) && old(requests)[r.id].future == Waiting ==>
        r.id in requests && requests[r.id].future == Settled(r.outcome)
    {
      ResponseReachesItsRequest(Model(), r);
      hide Inv;
      StepKeeps(Model(), Receive(r));
      if r.id in pending && r.id in requests && requests[r.id].future == Waiting {
        requests := requests[r.id := requests[r.id].(future := Settled(r.outcome))];
      }
      received := received + [r];
    }

    /** The reader fails: the transport closes and every pending request is told. */
    method ReceiveFails(lost: bool)
      requires Valid() && readerAlive
      modifies this
      ensures Valid() && Model() == Step(old(Model()), ReaderFails(lost))
    {
      hide Inv;
      StepKeeps(Model(), ReaderFails(lost));
      assert FailPending(Model().(closed := true), lost).requests == FailPending(Model(), lost).requests;
      closed := true;
      FailAllPending(lost);
      cancellations, finishing, readerAlive := {}, {}, false;
    }

    /** Drops the entries of a request that returns to its caller. */
    method LeaveRequest(id: nat, outcome: Outcome)
      requires id in requests
      modifies this`requests, this`pending, this`sent
      ensures Model() == Leave(old(Model()), id, outcome)
    {
      pending, sent := pending - {id}, sent - {id};
      var request := requests[id];
      if request.future == Waiting {
        request := request.(future := Settled(Cancelled));
      }
      requests := requests[id := request.(phase := Done(outcome))];
    }

    /** The request timeout expires. */
    method TimesOut(id: nat)
      requires Valid() && Enabled(Model(), TimeOut(id))
      modifies this
      ensures Valid() && Model() == Step(old(Model()), TimeOut(id))
    {
      hide Inv;
      StepKeeps(Model(), TimeOut(id));
      if requests[id].phase == Sending {
        FailAllPending(true);
        requests := requests[id := requests[id].(phase := Retiring(TimedOut))];
        closed, cancellations, finishing := true, {}, {};
      } else {
        if requests[id].future == Waiting && !closed && |cancellations| + |finishing| < MAX_CANCEL_SENDS {
          cancellations := cancellations + {id};
        }
        LeaveRequest(id, TimedOut);
      }
    }

    /** The cancel task hands over its frame unless the transport has closed. */
    method SendCancellation(id: nat)
      requires Valid() && id in cancellations
      modifies this
      ensures Valid() && Model() == Step(old(Model()), SendCancel(id))
    {
      hide Inv;
      StepKeeps(Model(), SendCancel(id));
      cancellations := cancellations - {id};
      if !closed {
        finishing := finishing + {id};
        wire := wire + [CancelFrame(id)];
      }
    }
  }
}
