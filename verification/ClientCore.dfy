/**
 Logical calls of the generated client: the retry loop of the core over any number of transports, and how often
 the frame of one call is handed to a socket. The pool that supplies the transports may answer an acquisition
 with any transport, old or new, or with any error.
 */
module ClientCore {
  import opened Wrappers
  import T = ClientTransport

  /** `Lost(sent)` and `TimedOut` are the errors the retry loop looks at; `Fatal` stands for every other one. */
  datatype Error = Lost(sent: bool) | TimedOut | Fatal

  /** `expired` says that the attempt timeout has cancelled the request on the transport. */
  datatype Phase =
    | Acquiring
    | InFlight(transport: nat, id: nat, expired: bool)
    | Backoff
    | Succeeded
    | Failed(error: Error)
    | Abandoned

  datatype Call = Call(idempotent: bool, attempt: nat, phase: Phase)

  datatype World = World(retryAttempts: nat, closed: bool, transports: seq<T.State>, calls: seq<Call>)

  function Init(retryAttempts: nat): World {
    World(retryAttempts, false, [], [])
  }

  datatype Event =
    | NewTransport
    | OfTransport(transport: nat, transportEvent: T.Event)
    | NewCall(idempotent: bool)
    | Acquired(call: nat, transport: nat, serializable: bool)
    | AcquireFails(call: nat, error: Error)
    | AttemptTimesOut(call: nat)
    | AttemptEnds(call: nat)
    | BackoffOver(call: nat)
    | Abandon(call: nat)       // logical timeout, or the caller cancels
    | Interrupt(call: nat)     // closing the client cancels the running attempt
    | Close

  predicate Enabled(w: World, e: Event) {
    match e
    case NewTransport => true
    case OfTransport(t, te) => t < |w.transports| && T.Enabled(w.transports[t], te) && !te.Begin?
    case NewCall(_) => true
    case Acquired(c, t, _) => c < |w.calls| && w.calls[c].phase == Acquiring && t < |w.transports|
    case AcquireFails(c, _) => c < |w.calls| && w.calls[c].phase == Acquiring
    case AttemptTimesOut(c) =>
      c < |w.calls| && (w.calls[c].phase == Acquiring || (CanCancel(w, w.calls[c].phase) && !w.calls[c].phase.expired))
    case AttemptEnds(c) => c < |w.calls| && EndOf(w, w.calls[c].phase).Some?
    case BackoffOver(c) => c < |w.calls| && w.calls[c].phase == Backoff
    case Abandon(c) => c < |w.calls| && (w.calls[c].phase == Acquiring || w.calls[c].phase == Backoff || CanCancel(w, w.calls[c].phase))
    case Interrupt(c) =>
      w.closed && c < |w.calls| && (w.calls[c].phase == Acquiring || (CanCancel(w, w.calls[c].phase) && !w.calls[c].phase.expired))
    case Close => true
  }

  /** The request of an attempt is still running on its transport. */
  predicate CanCancel(w: World, phase: Phase) {
    phase.InFlight? && phase.transport < |w.transports| && T.Enabled(w.transports[phase.transport], T.CallerCancels(phase.id))
  }

  /** The outcome of the request of an attempt, once it has returned. */
  function EndOf(w: World, phase: Phase): Option<T.Outcome> {
    if phase.InFlight? && phase.transport < |w.transports| && phase.id in w.transports[phase.transport].requests
       && w.transports[phase.transport].requests[phase.id].phase.Done?
    then Some(w.transports[phase.transport].requests[phase.id].phase.outcome) else None
  }

  function SetPhase(w: World, c: nat, phase: Phase): World
    requires c < |w.calls|
  {
    w.(calls := w.calls[c := w.calls[c].(phase := phase)])
  }

  function SetTransport(w: World, t: nat, state: T.State): World
    requires t < |w.transports|
  {
    w.(transports := w.transports[t := state])
  }

  /** The error filter of the retry loop. */
  predicate MayRetry(closed: bool, retryAttempts: nat, idempotent: bool, attempt: nat, error: Error) {
    !closed && attempt <= retryAttempts && !error.Fatal? && ((error.Lost? && !error.sent) || idempotent)
  }

  predicate Retries(w: World, call: Call, error: Error) {
    MayRetry(w.closed, w.retryAttempts, call.idempotent, call.attempt, error)
  }

  function AttemptFails(w: World, c: nat, error: Error): World
    requires c < |w.calls|
  {
    SetPhase(w, c, if Retries(w, w.calls[c], error) then Backoff else Failed(error))
  }

  function ErrorOf(outcome: T.Outcome, expired: bool): Error {
    if expired then TimedOut
    else match outcome
      case Lost(sent) => Lost(sent)
      case TimedOut => TimedOut
      case _ => Fatal
  }

  /** The source returned a live transport: the request starts on it without a suspension in between. */
  function StartAttempt(w: World, c: nat, t: nat, serializable: bool): World
    requires c < |w.calls| && t < |w.transports|
  {
    if w.closed then SetPhase(w, c, Failed(Lost(false)))
    else if w.transports[t].closed then AttemptFails(w, c, Lost(false))
    else
      var started := SetTransport(w, t, T.Step(w.transports[t], T.Begin(c, serializable)));
      SetPhase(started, c, if serializable then InFlight(t, w.transports[t].nextId, false) else Failed(Fatal))
  }

  function CancelRequest(w: World, phase: Phase): World {
    if CanCancel(w, phase)
    then SetTransport(w, phase.transport, T.Step(w.transports[phase.transport], T.CallerCancels(phase.id)))
    else w
  }

  function Step(w: World, e: Event): World
    requires Enabled(w, e)
  {
    match e
    case NewTransport => w.(transports := w.transports + [T.Init()])
    case OfTransport(t, te) => SetTransport(w, t, T.Step(w.transports[t], te))
    case NewCall(idempotent) =>
      w.(calls := w.calls + [Call(idempotent, 1, if w.closed then Failed(Lost(false)) else Acquiring)])
    case Acquired(c, t, serializable) => StartAttempt(w, c, t, serializable)
    case AcquireFails(c, error) => AttemptFails(w, c, error)
    case AttemptTimesOut(c) =>
      if w.calls[c].phase == Acquiring then AttemptFails(w, c, TimedOut)
      else SetPhase(CancelRequest(w, w.calls[c].phase), c, w.calls[c].phase.(expired := true))
    case AttemptEnds(c) =>
      var outcome := EndOf(w, w.calls[c].phase).value;
      if outcome.Result? && !w.calls[c].phase.expired then SetPhase(w, c, Succeeded)
      else AttemptFails(w, c, ErrorOf(outcome, w.calls[c].phase.expired))
    case BackoffOver(c) =>
      if w.closed then SetPhase(w, c, Failed(Lost(false)))
      else w.(calls := w.calls[c := w.calls[c].(attempt := w.calls[c].attempt + 1, phase := Acquiring)])
    case Abandon(c) => SetPhase(CancelRequest(w, w.calls[c].phase), c, Abandoned)
    case Interrupt(c) => SetPhase(CancelRequest(w, w.calls[c].phase), c, Failed(Lost(w.calls[c].phase.InFlight?)))
    case Close => w.(closed := true)
  }

  predicate IsRun(w: World, events: seq<Event>)
    decreases |events|
  {
    events == [] || (Enabled(w, events[0]) && IsRun(Step(w, events[0]), events[1..]))
  }

  function After(w: World, events: seq<Event>): World
    requires IsRun(w, events)
    decreases |events|
  {
    if events == [] then w else After(Step(w, events[0]), events[1..])
  }

  // ----- how often a call was handed to a socket -----

  function WireSends(wire: seq<T.Wire>, c: nat): nat {
    if wire == [] then 0
    else WireSends(wire[..|wire| - 1], c) + if wire[|wire| - 1].Started? && wire[|wire| - 1].tag == c then 1 else 0
  }

  /** Frames of call `c` over all transports. */
  function Sends(transports: seq<T.State>, c: nat): nat {
    if transports == [] then 0
    else Sends(transports[..|transports| - 1], c) + WireSends(transports[|transports| - 1].wire, c)
  }

  lemma {:induction false} SendsOfUpdate(transports: seq<T.State>, t: nat, state: T.State, c: nat)
    requires t < |transports|
    ensures Sends(transports[t := state], c) == Sends(transports, c) - WireSends(transports[t].wire, c) + WireSends(state.wire, c)
  {
    var last := |transports| - 1;
    if t == last {
      assert transports[t := state][..last] == transports[..last];
    } else {
      assert transports[t := state][..last] == transports[..last][t := state];
      SendsOfUpdate(transports[..last], t, state, c);
    }
  }

  lemma WireSendsGrow(wire: seq<T.Wire>, last: T.Wire, c: nat)
    ensures WireSends(wire + [last], c) == WireSends(wire, c) + if last.Started? && last.tag == c then 1 else 0
  {
    assert (wire + [last])[..|wire|] == wire;
  }

  lemma WireOfStep(s: T.State, e: T.Event)
    requires T.Enabled(s, e)
    ensures T.Step(s, e).wire == s.wire
      || exists last: T.Wire :: T.Step(s, e).wire == s.wire + [last] && (last.Started? ==> e.Begin?)
    ensures e.Begin? ==> T.Step(s, e).wire == if e.serializable then s.wire + [T.Started(s.nextId, e.tag)] else s.wire
  {
    hide WireSends;
    if e.SendReturns? {
      assert T.Step(s, e).wire == s.wire + [T.Completed(e.id)];
    } else if e.SendCancel? && !s.closed {
      assert T.Step(s, e).wire == s.wire + [T.CancelFrame(e.id)];
    }
  }

  /** Only starting a request hands a request frame to a socket. */
  lemma TransportSteps(s: T.State, e: T.Event, c: nat)
    requires T.Enabled(s, e)
    ensures WireSends(T.Step(s, e).wire, c) == WireSends(s.wire, c) + (if e.Begin? && e.serializable && e.tag == c then 1 else 0)
  {
    hide T.Step, T.Enabled;
    WireOfStep(s, e);
    if e.Begin? {
      WireSendsGrow(s.wire, T.Started(s.nextId, e.tag), c);
    } else if T.Step(s, e).wire != s.wire {
      var last :| T.Step(s, e).wire == s.wire + [last] && !last.Started?;
      WireSendsGrow(s.wire, last, c);
    }
  }

  // ----- the invariant -----

  /** No attempt of the call may follow one that was handed to a socket. */
  predicate SendsOnce(w: World, call: Call) {
    !call.idempotent || w.retryAttempts == 0
  }

  /** What the phase of a call says about its attempts and the frames handed to sockets so far. */
  ghost predicate CallInv(w: World, c: nat)
    requires c < |w.calls|
  {
    var call, sends := w.calls[c], Sends(w.transports, c);
    && 1 <= call.attempt <= w.retryAttempts + 1
    && sends <= call.attempt
    && (call.phase == Acquiring ==> sends < call.attempt)
    && (call.phase == Backoff ==> call.attempt <= w.retryAttempts)
    && (call.phase.InFlight? ==>
          call.phase.transport < |w.transports| && call.phase.id in w.transports[call.phase.transport].requests)
    && (SendsOnce(w, call) ==>
          sends <= 1 && (call.phase == Acquiring || call.phase == Backoff || call.phase == Failed(Lost(false)) ==> sends == 0))
  }

  ghost predicate TransportsInv(transports: seq<T.State>) {
    forall t :: 0 <= t < |transports| ==> T.Inv(transports[t])
  }

  ghost predicate Inv(w: World) {
    && TransportsInv(w.transports)
    && (forall c: nat :: c < |w.calls| ==> CallInv(w, c))
    && (forall c: nat :: c >= |w.calls| ==> Sends(w.transports, c) == 0)
  }

  // ----- every step keeps it -----

  /** The transports keep their requests, and no frame of call `c` was handed over. */
  ghost predicate NoSend(w: World, v: World, c: nat) {
    && |w.transports| <= |v.transports|
    && (forall t :: 0 <= t < |w.transports| ==> w.transports[t].requests.Keys <= v.transports[t].requests.Keys)
    && Sends(v.transports, c) == Sends(w.transports, c)
  }

  /** What a step on one transport does to the frame counts. */
  lemma TransportMoves(w: World, t: nat, e: T.Event, c: nat)
    requires TransportsInv(w.transports) && t < |w.transports| && T.Enabled(w.transports[t], e)
    ensures var v := SetTransport(w, t, T.Step(w.transports[t], e));
      && TransportsInv(v.transports)
      && Sends(v.transports, c) == Sends(w.transports, c) + (if e.Begin? && e.serializable && e.tag == c then 1 else 0)
      && (forall k :: 0 <= k < |w.transports| ==> w.transports[k].requests.Keys <= v.transports[k].requests.Keys)
  {
    hide T.Inv, T.Step, T.Enabled;
    T.StepKeeps(w.transports[t], e);
    TransportSteps(w.transports[t], e, c);
    SendsOfUpdate(w.transports, t, T.Step(w.transports[t], e), c);
    RequestsStay(w.transports[t], e);
  }

  lemma RequestsStay(s: T.State, e: T.Event)
    requires T.Enabled(s, e)
    ensures s.requests.Keys <= T.Step(s, e).requests.Keys
  {
    hide T.Starts, T.CancelFrames;
  }

  lemma CancelMoves(w: World, phase: Phase, c: nat)
    requires TransportsInv(w.transports)
    ensures TransportsInv(CancelRequest(w, phase).transports) && NoSend(w, CancelRequest(w, phase), c)
    ensures CancelRequest(w, phase).(transports := w.transports) == w && (CanCancel(w, phase) ==> phase.InFlight?)
  {
    hide T.Inv, T.Step, T.Enabled;
    if CanCancel(w, phase) {
      TransportMoves(w, phase.transport, T.CallerCancels(phase.id), c);
    }
  }

  /** Calls that the step leaves alone. */
  lemma OthersStay(w: World, v: World, c: nat)
    requires c < |w.calls| <= |v.calls| && CallInv(w, c)
    requires NoSend(w, v, c) && v.calls[c] == w.calls[c] && v.retryAttempts == w.retryAttempts
    ensures CallInv(v, c)
  {
  }

  /** A request that was handed to a socket is never reported as lost before it was sent. */
  lemma EndsAreTruthful(w: World, phase: Phase)
    requires TransportsInv(w.transports) && EndOf(w, phase).Some?
    ensures EndOf(w, phase).value != T.Lost(false)
  {
    var s := w.transports[phase.transport];
    assert T.Inv(s);
    assert T.Truthful(s, phase.id, s.requests[phase.id].phase.outcome);
  }

  lemma StartKeeps(w: World, c: nat, t: nat, serializable: bool, k: nat)
    requires TransportsInv(w.transports) && Enabled(w, Acquired(c, t, serializable)) && (k < |w.calls| ==> CallInv(w, k))
    ensures var v := StartAttempt(w, c, t, serializable);
      && TransportsInv(v.transports) && |v.calls| == |w.calls|
      && (k < |w.calls| ==> CallInv(v, k))
      && (k >= |w.calls| ==> Sends(v.transports, k) == Sends(w.transports, k))
  {
    hide T.Inv, T.Step;
    var s := w.transports[t];
    if !w.closed && !s.closed && serializable {
      TransportMoves(w, t, T.Begin(c, serializable), k);
      BeginAdds(s, c, serializable);
    } else if !w.closed && !s.closed {
      TransportMoves(w, t, T.Begin(c, serializable), k);
    }
  }

  lemma BeginAdds(s: T.State, c: nat, serializable: bool)
    requires !s.closed && serializable
    ensures s.nextId in T.Step(s, T.Begin(c, serializable)).requests
  {
  }

  /** The events of one call other than starting an attempt: at most the running request is cancelled. */
  predicate IsCallEvent(e: Event) {
    e.AcquireFails? || e.AttemptTimesOut? || e.AttemptEnds? || e.BackoffOver? || e.Abandon? || e.Interrupt?
  }

  lemma CallStepFrame(w: World, e: Event, k: nat)
    requires TransportsInv(w.transports) && Enabled(w, e) && IsCallEvent(e)
    ensures var v := Step(w, e);
      && TransportsInv(v.transports) && NoSend(w, v, k) && |v.calls| == |w.calls| && v.retryAttempts == w.retryAttempts
      && (k < |w.calls| && k != e.call ==> v.calls[k] == w.calls[k])
  {
    hide T.Inv, T.Step, T.Enabled, CancelRequest, CanCancel, Sends, TransportsInv, EndOf;
    CancelMoves(w, w.calls[e.call].phase, k);
  }

  lemma OwnStepKeeps(w: World, e: Event)
    requires TransportsInv(w.transports) && Enabled(w, e) && IsCallEvent(e) && CallInv(w, e.call)
    requires NoSend(w, Step(w, e), e.call)
    ensures e.call < |Step(w, e).calls| && CallInv(Step(w, e), e.call)
  {
    hide T.Inv, T.Step, T.Enabled, CancelRequest, CanCancel, Sends, TransportsInv, EndOf;
    CancelMoves(w, w.calls[e.call].phase, e.call);
    if e.AttemptEnds? {
      EndsAreTruthful(w, w.calls[e.call].phase);
    }
  }

  lemma CallStepKeeps(w: World, e: Event, k: nat)
    requires TransportsInv(w.transports) && Enabled(w, e) && (k < |w.calls| ==> CallInv(w, k)) && IsCallEvent(e)
    ensures var v := Step(w, e);
      && TransportsInv(v.transports) && |v.calls| == |w.calls|
      && (k < |w.calls| ==> CallInv(v, k))
      && (k >= |w.calls| ==> Sends(v.transports, k) == Sends(w.transports, k))
  {
    hide CallInv, Step, Sends, TransportsInv;
    CallStepFrame(w, e, k);
    if k < |w.calls| && k != e.call {
      OthersStay(w, Step(w, e), k);
    } else if k < |w.calls| {
      OwnStepKeeps(w, e);
    }
  }

  lemma WorldStepKeeps(w: World, e: Event, k: nat)
    requires TransportsInv(w.transports) && Enabled(w, e) && (k < |w.calls| ==> CallInv(w, k))
    requires k >= |w.calls| ==> Sends(w.transports, k) == 0
    requires e.NewTransport? || e.OfTransport? || e.NewCall? || e.Close?
    ensures var v := Step(w, e);
      && TransportsInv(v.transports)
      && (k < |v.calls| ==> CallInv(v, k))
      && (k >= |v.calls| ==> Sends(v.transports, k) == 0)
  {
    hide T.Inv, T.Step, T.Enabled, Sends;
    match e
    case NewTransport => FreshTransport(w.transports, k);
    case OfTransport(t, te) => TransportMoves(w, t, te, k);
    case NewCall(_) =>
    case Close =>
  }

  lemma FreshTransport(transports: seq<T.State>, c: nat)
    ensures T.Inv(T.Init()) && Sends(transports + [T.Init()], c) == Sends(transports, c)
  {
    assert (transports + [T.Init()])[..|transports|] == transports;
  }

  lemma StepKeepsCall(w: World, e: Event, k: nat)
    requires TransportsInv(w.transports) && Enabled(w, e) && (k < |w.calls| ==> CallInv(w, k))
    requires k >= |w.calls| ==> Sends(w.transports, k) == 0
    ensures var v := Step(w, e);
      && TransportsInv(v.transports)
      && (k < |v.calls| ==> CallInv(v, k))
      && (k >= |v.calls| ==> Sends(v.transports, k) == 0)
  {
    hide T.Inv, T.Enabled, T.Step, TransportsInv, CallInv, Sends, StartAttempt, AttemptFails;
    if e.NewTransport? || e.OfTransport? || e.NewCall? || e.Close? {
      WorldStepKeeps(w, e, k);
    } else if e.Acquired? {
      StartKeeps(w, e.call, e.transport, e.serializable, k);
    } else {
      CallStepKeeps(w, e, k);
    }
  }

  lemma StepKeeps(w: World, e: Event)
    requires Inv(w) && Enabled(w, e)
    ensures Inv(Step(w, e))
  {
    hide T.Inv, T.Enabled, T.Step, TransportsInv, CallInv, Sends, Enabled, Step;
    StepKeepsCall(w, e, 0);
    forall k: nat
      ensures k < |Step(w, e).calls| ==> CallInv(Step(w, e), k)
      ensures k >= |Step(w, e).calls| ==> Sends(Step(w, e).transports, k) == 0
    {
      StepKeepsCall(w, e, k);
    }
  }

  lemma {:induction false} RunKeeps(w: World, events: seq<Event>)
    requires Inv(w) && IsRun(w, events)
    ensures Inv(After(w, events)) && After(w, events).retryAttempts == w.retryAttempts
    decreases |events|
  {
    hide Inv;
    if events != [] {
      StepKeeps(w, events[0]);
      RunKeeps(Step(w, events[0]), events[1..]);
    }
  }

  // ----- what each event decides -----

  /** A loss before the send may always be tried again, a timeout or a later loss only when the call is idempotent. */
  predicate Transient(error: Error, idempotent: bool) {
    match error
    case Lost(sent) => !sent || idempotent
    case TimedOut => idempotent
    case Fatal => false
  }

  /** Only the call `c` may differ, and in its phase and attempt at that. */
  predicate OnlyCall(w: World, v: World, c: nat) {
    && |v.calls| == |w.calls| && c < |w.calls| && v.closed == w.closed && v.retryAttempts == w.retryAttempts
    && (forall k :: 0 <= k < |w.calls| && k != c ==> v.calls[k] == w.calls[k])
  }

  /** The call fails with this error on an attempt: it waits for the next one, or raises the error. */
  predicate FailsWith(w: World, v: World, c: nat, error: Error)
    requires c < |w.calls| && c < |v.calls|
  {
    var open, left := !w.closed, w.calls[c].attempt <= w.retryAttempts;
    && (open && left && (error == TimedOut || error == Lost(true)) ==>
          v.calls[c].phase == if w.calls[c].idempotent then Backoff else Failed(error))
    && (open && left && error == Lost(false) ==> v.calls[c].phase == Backoff)
    && (!open || !left || error == Fatal ==> v.calls[c].phase == Failed(error))
    && v.calls[c] == w.calls[c].(phase := v.calls[c].phase)
  }

  /**
   An error of an attempt, on the way to a transport or on it, ends the call or sends it into its backoff; an attempt
   that timed out counts as a timeout whatever its transport reports.
   */
  lemma FailureDecides(w: World, e: Event)
    requires Enabled(w, e) && (e.AcquireFails? || e.AttemptEnds? || (e.AttemptTimesOut? && w.calls[e.call].phase == Acquiring))
    ensures var v := Step(w, e);
      && OnlyCall(w, v, e.call) && v.transports == w.transports
      && (e.AcquireFails? ==> FailsWith(w, v, e.call, e.error))
      && (e.AttemptTimesOut? ==> FailsWith(w, v, e.call, TimedOut))
      && (e.AttemptEnds? ==>
            var phase := w.calls[e.call].phase;
            && phase.InFlight? && phase.transport < |w.transports| && phase.id in w.transports[phase.transport].requests
            && w.transports[phase.transport].requests[phase.id].phase.Done?
            && var outcome := w.transports[phase.transport].requests[phase.id].phase.outcome;
            if phase.expired then FailsWith(w, v, e.call, TimedOut)
            else match outcome
              case Result(_) => v.calls[e.call] == w.calls[e.call].(phase := Succeeded)
              case Lost(sent) => FailsWith(w, v, e.call, Lost(sent))
              case TimedOut => FailsWith(w, v, e.call, TimedOut)
              case _ => FailsWith(w, v, e.call, Fatal))
  {
    hide T.Enabled, T.Step;
  }

  /** An open client starts the request on a live transport at once: one frame more of this call, and of no other. */
  lemma AttemptStarts(w: World, c: nat, t: nat, serializable: bool, k: nat)
    requires Inv(w) && Enabled(w, Acquired(c, t, serializable))
    ensures var v := Step(w, Acquired(c, t, serializable));
      && OnlyCall(w, v, c)
      && (w.closed ==> v.calls[c].phase == Failed(Lost(false)))
      && (!w.closed && w.transports[t].closed ==> FailsWith(w, v, c, Lost(false)))
      && (!w.closed && !w.transports[t].closed ==>
            v.calls[c].phase == if serializable then InFlight(t, w.transports[t].nextId, false) else Failed(Fatal))
      && Sends(v.transports, k)
         == Sends(w.transports, k) + (if !w.closed && !w.transports[t].closed && serializable && k == c then 1 else 0)
  {
    hide T.Inv, T.Step, Sends;
    if !w.closed && !w.transports[t].closed {
      TransportMoves(w, t, T.Begin(c, serializable), k);
    }
  }

  /** A new call of an open client starts with its first attempt, and one of a closed client ends as unsent. */
  lemma NewCallDecides(w: World, idempotent: bool)
    ensures Step(w, NewCall(idempotent)) ==
      w.(calls := w.calls + [Call(idempotent, 1, if w.closed then Failed(Lost(false)) else Acquiring)])
    ensures Step(w, Close) == w.(closed := true)
  {
  }

  /** After its backoff a call of an open client makes its next attempt, and one of a closed client ends as unsent. */
  lemma BackoffDecides(w: World, c: nat)
    requires Enabled(w, BackoffOver(c))
    ensures var v := Step(w, BackoffOver(c));
      OnlyCall(w, v, c) && v.transports == w.transports
      && v.calls[c] == if w.closed then w.calls[c].(phase := Failed(Lost(false)))
                       else w.calls[c].(attempt := w.calls[c].attempt + 1, phase := Acquiring)
  {
  }

  /**
   A call that stops waiting, because its attempt timed out, its caller left or the client closes, cancels the request it
   has in flight; one that the closing client interrupts reports whether it had one.
   */
  lemma LeavingCancelsTheRequest(w: World, e: Event)
    requires Enabled(w, e) && (e.Abandon? || e.Interrupt? || e.AttemptTimesOut?)
    ensures var v, phase := Step(w, e), w.calls[e.call].phase;
      && OnlyCall(w, v, e.call)
      && (e.Abandon? ==> v.calls[e.call].phase == Abandoned)
      && (e.Interrupt? ==> v.calls[e.call].phase == Failed(Lost(phase.InFlight?)))
      && (e.AttemptTimesOut? && phase.InFlight? ==> v.calls[e.call].phase == phase.(expired := true))
      && (if phase.InFlight? then
            phase.transport < |w.transports| && T.Enabled(w.transports[phase.transport], T.CallerCancels(phase.id))
            && v.transports == w.transports[phase.transport := T.Step(w.transports[phase.transport], T.CallerCancels(phase.id))]
          else v.transports == w.transports)
  {
    hide T.Enabled, T.Step;
  }

  /** A call that ended with an error it might have retried has used up its attempts, or the client is closed. */
  predicate GaveUpRightly(w: World, call: Call) {
    call.phase.Failed? && Transient(call.phase.error, call.idempotent) ==> w.closed || call.attempt > w.retryAttempts
  }

  lemma StepGivesUpRightly(w: World, e: Event, c: nat)
    requires Enabled(w, e) && (c < |w.calls| ==> GaveUpRightly(w, w.calls[c]))
    ensures c < |Step(w, e).calls| ==> GaveUpRightly(Step(w, e), Step(w, e).calls[c])
    ensures Step(w, e).retryAttempts == w.retryAttempts
  {
    hide T.Step, T.Enabled, EndOf, ErrorOf;
  }

  lemma {:induction false} RunGivesUpRightly(w: World, events: seq<Event>, c: nat)
    requires IsRun(w, events) && (c < |w.calls| ==> GaveUpRightly(w, w.calls[c]))
    ensures c < |After(w, events).calls| ==> GaveUpRightly(After(w, events), After(w, events).calls[c])
    ensures After(w, events).retryAttempts == w.retryAttempts
    decreases |events|
  {
    hide Step, Enabled, GaveUpRightly;
    if events != [] {
      StepGivesUpRightly(w, events[0], c);
      RunGivesUpRightly(Step(w, events[0]), events[1..], c);
    }
  }

  // ----- over all runs -----

  /**
   In every run, while the client is open: a call raises a loss before the send, or, when it is idempotent, a timeout or
   any loss, only after the last of its `retryAttempts + 1` attempts.
   */
  lemma EveryAttemptIsUsed(retryAttempts: nat, events: seq<Event>, c: nat)
    requires IsRun(Init(retryAttempts), events)
    requires var w := After(Init(retryAttempts), events); c < |w.calls| && !w.closed && w.calls[c].phase.Failed?
    ensures var call := After(Init(retryAttempts), events).calls[c];
      && (call.phase.error == Lost(false) ==> call.attempt == retryAttempts + 1)
      && (call.idempotent && (call.phase.error == Lost(true) || call.phase.error == TimedOut) ==> call.attempt == retryAttempts + 1)
  {
    RunGivesUpRightly(Init(retryAttempts), events, c);
    AtMostOnce(retryAttempts, events, c);
  }

  /**
   In every run of retries, reconnects, closes and timeouts, the frame of call `c` is handed to a socket at most
   once per attempt and there are at most `retryAttempts + 1` attempts. A call that is not idempotent is handed
   over at most once in all, and when it is reported as lost before it was sent, it was never handed over.
   */
  lemma AtMostOnce(retryAttempts: nat, events: seq<Event>, c: nat)
    requires IsRun(Init(retryAttempts), events)
    requires c < |After(Init(retryAttempts), events).calls|
    ensures var w := After(Init(retryAttempts), events);
      var call, sends := w.calls[c], Sends(w.transports, c);
      && w.retryAttempts == retryAttempts && sends <= call.attempt <= retryAttempts + 1
      && (!call.idempotent ==> sends <= 1)
      && (SendsOnce(w, call) && call.phase == Failed(Lost(false)) ==> sends == 0)
  {
    assert TransportsInv([]);
    assert Inv(Init(retryAttempts));
    RunKeeps(Init(retryAttempts), events);
    assert CallInv(After(Init(retryAttempts), events), c);
  }

  /** The documented meaning of the flag: a call reported as lost before it was sent was never handed to a socket. */
  ghost predicate UnsentMeansUnsent(retryAttempts: nat, idempotent: bool) {
    forall events, c: nat | IsRun(Init(retryAttempts), events) && c < |After(Init(retryAttempts), events).calls| ::
      var w := After(Init(retryAttempts), events);
      w.calls[c].idempotent == idempotent && w.calls[c].phase == Failed(Lost(false)) ==> Sends(w.transports, c) == 0
  }

  /** The first attempt is handed over and lost, and the client is closed while it waits to retry. */
  const LOST_THEN_CLOSED := [
    NewTransport, NewCall(true), Acquired(0, 0, true), OfTransport(0, T.SendRaises(1)), OfTransport(0, T.Resume(1)),
    AttemptEnds(0), Close, BackoffOver(0)]

  /** `worlds` are the states a run goes through. */
  ghost predicate Traces(worlds: seq<World>, events: seq<Event>) {
    && |worlds| == |events| + 1
    && (forall i :: 0 <= i < |events| ==> Enabled(worlds[i], events[i]) && Step(worlds[i], events[i]) == worlds[i + 1])
  }

  lemma {:induction false} TraceIsRun(worlds: seq<World>, events: seq<Event>)
    requires Traces(worlds, events)
    ensures IsRun(worlds[0], events) && After(worlds[0], events) == worlds[|events|]
    decreases |events|
  {
    hide Enabled, Step;
    if events != [] {
      TraceIsRun(worlds[1..], events[1..]);
    }
  }

  /** The transport of that run when its request has phase `phase`. */
  function LossStage(future: T.Future, phase: T.Phase): T.State {
    T.State(2, map[1 := T.Request(0, future, phase)], if future == T.Waiting then {1} else {},
            if future == T.Waiting then {1} else {}, {}, {}, future != T.Waiting, true, [T.Started(1, 0)], [])
  }

  lemma LossStages()
    ensures T.Step(T.Init(), T.Begin(0, true)) == LossStage(T.Waiting, T.Sending)
    ensures var lost := T.Lost(true); var sending := LossStage(T.Waiting, T.Sending);
      var retiring := LossStage(T.Settled(lost), T.Retiring(lost));
      && T.Enabled(sending, T.SendRaises(1)) && T.Step(sending, T.SendRaises(1)) == retiring
      && T.Enabled(retiring, T.Resume(1)) && T.Step(retiring, T.Resume(1)) == LossStage(T.Settled(lost), T.Done(lost))
  {
  }

  /** The states of that run. */
  function LossWorld(n: nat, i: nat): World {
    var lost := T.Lost(true);
    var ended := LossStage(T.Settled(lost), T.Done(lost));
    var flying, waiting := Call(true, 1, InFlight(0, 1, false)), Call(true, 1, Backoff);
    match i
    case 0 => Init(n)
    case 1 => World(n, false, [T.Init()], [])
    case 2 => World(n, false, [T.Init()], [Call(true, 1, Acquiring)])
    case 3 => World(n, false, [LossStage(T.Waiting, T.Sending)], [flying])
    case 4 => World(n, false, [LossStage(T.Settled(lost), T.Retiring(lost))], [flying])
    case 5 => World(n, false, [ended], [flying])
    case 6 => World(n, false, [ended], [waiting])
    case 7 => World(n, true, [ended], [waiting])
    case _ => World(n, true, [ended], [Call(true, 1, Failed(Lost(false)))])
  }

  lemma LossSteps(n: nat, i: nat)
    requires n > 0 && i < 8
    ensures Enabled(LossWorld(n, i), LOST_THEN_CLOSED[i]) && Step(LossWorld(n, i), LOST_THEN_CLOSED[i]) == LossWorld(n, i + 1)
  {
    hide T.Step, T.Enabled;
    LossStages();
  }

  lemma LostThenClosed(n: nat)
    requires n > 0
    ensures IsRun(Init(n), LOST_THEN_CLOSED)
    ensures var w := After(Init(n), LOST_THEN_CLOSED);
      |w.calls| == 1 && w.calls[0] == Call(true, 1, Failed(Lost(false))) && Sends(w.transports, 0) == 1
  {
    hide T.Step, Enabled, Step, IsRun, After;
    var worlds := seq(9, i requires 0 <= i => LossWorld(n, i));
    forall i | 0 <= i < 8
      ensures Enabled(worlds[i], LOST_THEN_CLOSED[i]) && Step(worlds[i], LOST_THEN_CLOSED[i]) == worlds[i + 1]
    {
      LossSteps(n, i);
    }
    TraceIsRun(worlds, LOST_THEN_CLOSED);
  }

  /**
   The flag means what is documented exactly for calls that are not idempotent and for clients without retries: an
   idempotent call that is retried may be reported as unsent although an earlier attempt was handed over.
   */
  lemma UnsentMeansUnsentExactly(retryAttempts: nat, idempotent: bool)
    ensures UnsentMeansUnsent(retryAttempts, idempotent) <==> !idempotent || retryAttempts == 0
  {
    if !idempotent || retryAttempts == 0 {
      forall events, c: nat | IsRun(Init(retryAttempts), events) && c < |After(Init(retryAttempts), events).calls|
        ensures var w := After(Init(retryAttempts), events);
          w.calls[c].idempotent == idempotent && w.calls[c].phase == Failed(Lost(false)) ==> Sends(w.transports, c) == 0
      {
        AtMostOnce(retryAttempts, events, c);
      }
    } else {
      LostThenClosed(retryAttempts);
    }
  }

  // ----- the retry loop in the form of the source -----

  datatype End = Returns(value: int) | Raises(error: Error)

  /**
   What happens to one attempt: how it ends, whether its frame is handed over, and whether the client is closed
   while it runs or in the backoff behind it.
   */
  datatype Attempt = Attempt(end: End, sent: bool, closedMeanwhile: bool, closedInBackoff: bool)

  function SentCount(attempts: seq<Attempt>): nat {
    if attempts == [] then 0 else SentCount(attempts[..|attempts| - 1]) + if attempts[|attempts| - 1].sent then 1 else 0
  }

  class RpcClientCore {
    const retryAttempts: nat
    var closed: bool

    constructor (retryAttempts: nat)
      ensures this.retryAttempts == retryAttempts && !closed
    {
      this.retryAttempts, closed := retryAttempts, false;
    }

    /**
     One logical call over the attempts that `script` foresees; `made` of them are made. An attempt is followed by
     another one exactly when the error filter allows it and the client stays open.
     */
    method Request(idempotent: bool, script: seq<Attempt>) returns (end: End, made: nat)
      requires |script| == retryAttempts + 1
      requires forall k :: 0 <= k < |script| && script[k].end == Raises(Lost(false)) ==> !script[k].sent
      modifies this
      ensures made <= |script| && (made == 0 <==> old(closed))
      ensures forall k :: 0 <= k < made - 1 ==> !script[k].closedMeanwhile && !script[k].closedInBackoff
      ensures forall k :: 0 <= k < made - 1 ==>
        script[k].end == Raises(Lost(false))
        || (idempotent && (script[k].end == Raises(Lost(true)) || script[k].end == Raises(TimedOut)))
      ensures made > 0 ==>
        var last := script[made - 1];
        var again := last.end == Raises(Lost(false))
                     || (idempotent && (last.end == Raises(Lost(true)) || last.end == Raises(TimedOut)));
        if again && !last.closedMeanwhile && made <= retryAttempts
        then last.closedInBackoff && end == Raises(Lost(false)) else end == last.end
      ensures old(closed) ==> end == Raises(Lost(false))
      ensures !idempotent ==> SentCount(script[..made]) <= 1
      ensures !idempotent && end == Raises(Lost(false)) ==> SentCount(script[..made]) == 0
    {
      made := 0;
      assert script[..0] == [];
      while true
        invariant 0 <= made <= retryAttempts
        invariant made == 0 ==> closed == old(closed)
        invariant made > 0 ==> !closed && !old(closed)
        invariant forall k :: 0 <= k < made ==>
          script[k].end.Raises? && MayRetry(script[k].closedMeanwhile, retryAttempts, idempotent, k + 1, script[k].end.error)
          && !script[k].closedInBackoff
        invariant !idempotent ==> SentCount(script[..made]) == 0
        decreases retryAttempts - made
      {
        if closed {
          return Raises(Lost(false)), made;
        }
        var attempt := script[made];
        assert script[..made + 1][..made] == script[..made];
        closed := closed || attempt.closedMeanwhile;
        made := made + 1;
        if attempt.end.Returns? || !MayRetry(closed, retryAttempts, idempotent, made, attempt.end.error) {
          return attempt.end, made;
        }
        closed := attempt.closedInBackoff;
        if closed {
          return Raises(Lost(false)), made;
        }
      }
    }
  }
}
