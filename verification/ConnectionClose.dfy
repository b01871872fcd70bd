/**
 How an accepted socket is closed: the close request of the three runners, credential expiry, the drain's stop, and
 the nested cleanup paths that call `socket.close`. One machine covers the RPC, binary stream and raw socket runner.
 */
module ConnectionClose {
  import opened Wrappers

  datatype Code = Normal | Shutdown | ServiceRestart | PolicyViolation | InternalError | Other(id: nat)

  datatype Reason = Empty | CredentialsExpired | ServerRestarting | Text(id: nat)

  datatype Close = Close(code: Code, reason: Reason)

  const EXPIRED := Close(PolicyViolation, CredentialsExpired)

  datatype Kind = Rpc | Stream | Raw

  /** Where `socket.close` is awaited: the runner's cancellation handler, its `finally`, or the one around it. */
  datatype Site = InHandler | InRunner | InAccepted

  /** How a block was left. */
  datatype Exit = Returned | Failed | Cancelled

  /** `Cleanup` awaits the generator of a stream in the runner's `finally`, when an earlier attempt was cut short. */
  datatype Phase = Starting | Setup | Serving | Cleanup | Closing(site: Site) | Done

  /**
   `event`, `value` and `peerClosed` are the runner's latch, its close value and its `client_closed`; `code`, `reason`
   and `marked` are fields of the connection. `closes` is what `socket.close` was called with.
   */
  datatype State = State(
    kind: Kind, phase: Phase, exit: Exit, handler: bool, event: bool, value: Close, peerClosed: bool,
    code: Option<Code>, reason: Reason, marked: bool, closes: seq<Close>)

  function Init(kind: Kind): State {
    State(kind, Starting, Returned, false, false, Close(Normal, Empty), false, None, Empty, false, [])
  }

  datatype Event =
    | Enter                           // the runner starts and registers its close request
    | Serve                           // startup is over, the runner waits for its close event
    | Request(close: Close)
    | PeerCloses(close: Close)
    | Expire
    | DrainStops
    // `error` is the close an exception maps to; `unclosed` says that a cancelled stream left its generator open.
    | Leave(exit: Exit, error: Close, unclosed: bool)
    | CleanupEnds(failure: Option<Close>)
    | CleanupInterrupted
    | CloseReturns
    | CloseInterrupted

  predicate Enabled(s: State, e: Event) {
    match e
    case Enter => s.phase == Starting
    case Serve => s.phase == Setup
    case Request(_) => s.handler
    case PeerCloses(_) => s.phase == Serving || (s.phase == Setup && s.kind == Raw)
    case Expire => !s.marked
    case DrainStops => s.phase != Done
    case Leave(exit, _, unclosed) =>
      && (unclosed ==> s.kind == Stream && s.phase == Serving && exit == Cancelled)
      && (if exit == Returned then s.phase == Serving && s.event else s.phase == Starting || s.phase == Setup || s.phase == Serving)
    case CleanupEnds(_) => s.phase == Cleanup
    case CleanupInterrupted => s.phase == Cleanup
    case CloseReturns => s.phase.Closing?
    case CloseInterrupted => s.phase.Closing?
  }

  /** The runners' `request_close`: the first request counts; a stream or raw socket may turn normal into abnormal. */
  function RequestClose(s: State, c: Close): State {
    if !s.event || (s.kind != Rpc && !s.peerClosed && s.value.code == Normal && c.code != Normal)
    then s.(value := c, code := Some(c.code), reason := c.reason, event := true) else s
  }

  function ExpireNow(s: State): State {
    if s.marked || s.code.Some? then s
    else if s.handler then RequestClose(s, EXPIRED)
    else s.(code := Some(EXPIRED.code), reason := EXPIRED.reason)
  }

  function RegisterHandler(s: State): State {
    var registered := s.(handler := true, phase := Setup);
    if s.reason == CredentialsExpired then RequestClose(registered, EXPIRED) else registered
  }

  function Mark(s: State): State {
    s.(marked := true)
  }

  function CallClose(s: State, site: Site, c: Close): State {
    s.(phase := Closing(site), closes := s.closes + [c])
  }

  function CodeOr(code: Option<Code>, default: Code): Code {
    if code.Some? then code.value else default
  }

  /** The `except` and `finally` clauses of `_accepted`. */
  function LeaveAccepted(s: State): State {
    var coded := if s.marked || s.code.Some? || s.exit == Returned then s
      else s.(code := Some(if s.exit == Cancelled then Shutdown else InternalError));
    if s.marked then s.(phase := Done) else CallClose(coded, InAccepted, Close(CodeOr(coded.code, Normal), coded.reason))
  }

  /** The end of the runner's `finally` clause. */
  function LeaveRunner(s: State): State {
    if s.peerClosed || (s.kind == Rpc && s.marked) then LeaveAccepted(Mark(s)) else CallClose(s, InRunner, s.value)
  }

  /** The runner's `except` clauses: a cancellation fixes the value; streams and raw sockets map an exception. */
  function CatchExit(s: State, exit: Exit, error: Close): State {
    if exit == Cancelled then
      var code := CodeOr(s.code, Shutdown);
      s.(value := Close(code, s.reason), code := Some(code), exit := Cancelled)
    else if exit == Failed && s.kind != Rpc then RequestClose(s, error).(exit := Returned)
    else s.(exit := exit)
  }

  function LeaveBody(s: State, exit: Exit, error: Close, unclosed: bool): State {
    var caught := CatchExit(s, exit, error);
    if s.kind == Rpc && exit == Cancelled then
      if s.peerClosed then LeaveRunner(Mark(caught)) else CallClose(caught, InHandler, caught.value)
    else if s.kind == Stream && unclosed then caught.(phase := Cleanup)
    else LeaveRunner(caught)
  }

  function CloseDone(s: State): State
    requires s.phase.Closing?
  {
    match s.phase.site
    case InHandler => LeaveRunner(Mark(s))
    case InRunner => LeaveAccepted(Mark(s))
    case InAccepted => Mark(s).(phase := Done)
  }

  /** A cancellation that arrives while `socket.close` is awaited skips the mark behind it. */
  function CloseCut(s: State): State
    requires s.phase.Closing?
  {
    match s.phase.site
    case InHandler => LeaveRunner(s.(exit := Cancelled))
    case InRunner => LeaveAccepted(s.(exit := Cancelled))
    case InAccepted => s.(phase := Done)
  }

  function Step(s: State, e: Event): State
    requires Enabled(s, e)
  {
    match e
    case Enter => RegisterHandler(s)
    case Serve => s.(phase := Serving)
    case Request(c) => RequestClose(s, c)
    case PeerCloses(c) => RequestClose(s.(peerClosed := true), c)
    case Expire => ExpireNow(s)
    case DrainStops => if s.code.None? then s.(code := Some(ServiceRestart), reason := ServerRestarting) else s
    case Leave(exit, error, unclosed) =>
      if s.phase == Starting then LeaveAccepted(s.(exit := exit)) else LeaveBody(s, exit, error, unclosed)
    case CleanupEnds(failure) => LeaveRunner(if failure.Some? then RequestClose(s, failure.value) else s)
    case CleanupInterrupted => LeaveAccepted(s.(exit := Cancelled))
    case CloseReturns => CloseDone(s)
    case CloseInterrupted => CloseCut(s)
  }

  predicate IsRun(s: State, events: seq<Event>)
    decreases |events|
  {
    events == [] || (Enabled(s, events[0]) && IsRun(Step(s, events[0]), events[1..]))
  }

  function After(s: State, events: seq<Event>): State
    requires IsRun(s, events)
    decreases |events|
  {
    if events == [] then s else After(Step(s, events[0]), events[1..])
  }

  // ----- counting the calls of `socket.close` -----

  /** How many calls of `socket.close` a cancellation interrupted. */
  function Interruptions(events: seq<Event>): nat {
    if events == [] then 0 else (if events[0].CloseInterrupted? then 1 else 0) + Interruptions(events[1..])
  }

  /**
   With `cuts` interrupted calls so far and `skipped` saying that the runner's own close was skipped: how many calls
   there have been, phase by phase.
   */
  ghost predicate Counted(s: State, cuts: nat, skipped: bool) {
    match s.phase
    case Closing(site) =>
      && !s.marked && |s.closes| == cuts + 1 && (s.peerClosed ==> skipped)
      && (skipped ==> s.kind == Stream && site == InAccepted && cuts == 0)
      && (match site
          case InHandler => s.kind == Rpc && cuts == 0
          case InRunner => cuts == 0 || (s.kind == Rpc && cuts == 1)
          case InAccepted => cuts <= (if s.kind == Rpc then 2 else 1))
    case Done =>
      && |s.closes| <= (if s.kind == Rpc then 3 else 2)
      && (skipped ==> s.kind == Stream)
      && |s.closes| == cuts + (if s.marked && (s.peerClosed ==> skipped) then 1 else 0)
      && (s.peerClosed && !skipped ==> s.marked && cuts == 0)
      && (cuts == 0 ==> s.marked)
    case _ => !s.marked && s.closes == [] && cuts == 0 && !skipped && (s.phase == Starting ==> !s.peerClosed)
                && (s.phase == Cleanup ==> s.kind == Stream)
  }

  // ----- every step counts -----

  /** Only the close value, what the connection records of it, and the way out may differ. */
  predicate SameProgress(s: State, t: State) {
    t.kind == s.kind && t.phase == s.phase && t.peerClosed == s.peerClosed && t.marked == s.marked && t.closes == s.closes
  }

  lemma RequestsDoNotCount(s: State, c: Close)
    ensures SameProgress(s, RequestClose(s, c)) && SameProgress(s, ExpireNow(s))
  {
  }

  /** Before any close: the runner, or a failed start, is left for the first time. */
  ghost predicate NotClosing(s: State) {
    !s.phase.Closing? && s.phase != Done && Counted(s, 0, false)
  }

  lemma FirstLeaveAcceptedCounts(s: State)
    requires NotClosing(s)
    ensures s.phase == Cleanup ==> Counted(LeaveAccepted(s), 0, true)
    ensures !s.peerClosed ==> Counted(LeaveAccepted(s), 0, false)
  {
  }

  lemma FirstLeaveRunnerCounts(s: State)
    requires NotClosing(s)
    ensures Counted(LeaveRunner(s), 0, false)
  {
  }

  lemma MarkedLeaveCounts(s: State)
    requires NotClosing(s) && s.peerClosed
    ensures Counted(LeaveRunner(Mark(s)), 0, false)
  {
  }

  lemma LeaveBodyCounts(s: State, exit: Exit, error: Close, unclosed: bool)
    requires NotClosing(s) && s.phase != Starting
    ensures Counted(LeaveBody(s, exit, error, unclosed), 0, false)
  {
    hide LeaveRunner, RequestClose;
    RequestsDoNotCount(s, error);
    var caught := CatchExit(s, exit, error);
    assert SameProgress(s, caught);
    FirstLeaveRunnerCounts(caught);
    if s.kind == Rpc && exit == Cancelled && s.peerClosed {
      MarkedLeaveCounts(caught);
    }
  }

  lemma CloseDoneCounts(s: State, cuts: nat, skipped: bool)
    requires s.phase.Closing? && Counted(s, cuts, skipped)
    ensures Counted(CloseDone(s), cuts, skipped)
  {
  }

  lemma CloseCutCounts(s: State, cuts: nat, skipped: bool)
    requires s.phase.Closing? && Counted(s, cuts, skipped)
    ensures Counted(CloseCut(s), cuts + 1, skipped)
  {
  }

  lemma StepCounts(s: State, e: Event, cuts: nat, skipped: bool)
    requires Counted(s, cuts, skipped) && Enabled(s, e)
    ensures Counted(Step(s, e), cuts + (if e.CloseInterrupted? then 1 else 0), skipped || e.CleanupInterrupted?)
  {
    hide RequestClose, ExpireNow, LeaveAccepted, LeaveRunner, LeaveBody, CloseDone, CloseCut;
    match e
    case Leave(exit, error, unclosed) =>
      if s.phase == Starting {
        FirstLeaveAcceptedCounts(s.(exit := exit));
      } else {
        LeaveBodyCounts(s, exit, error, unclosed);
      }
    case CleanupEnds(failure) =>
      var t := if failure.Some? then RequestClose(s, failure.value) else s;
      assert SameProgress(s, t) by { RequestsDoNotCount(s, if failure.Some? then failure.value else s.value); }
      FirstLeaveRunnerCounts(t);
    case CleanupInterrupted => FirstLeaveAcceptedCounts(s.(exit := Cancelled));
    case CloseReturns => CloseDoneCounts(s, cuts, skipped);
    case CloseInterrupted => CloseCutCounts(s, cuts, skipped);
    case _ => OthersCount(s, e, cuts, skipped);
  }

  lemma OthersCount(s: State, e: Event, cuts: nat, skipped: bool)
    requires Counted(s, cuts, skipped) && Enabled(s, e)
    requires e.Enter? || e.Serve? || e.Request? || e.PeerCloses? || e.Expire? || e.DrainStops?
    ensures Counted(Step(s, e), cuts, skipped)
  {
  }

  // ----- the close value -----

  /** Once a close was requested, the connection records what the runner will close with. */
  ghost predicate Recorded(s: State) {
    s.event ==> s.code == Some(s.value.code) && s.reason == s.value.reason
  }

  /** How the value may move once it was requested. */
  predicate Escalates(kind: Kind, was: Close, now: Close) {
    now == was || (kind != Rpc && was.code == Normal && now.code != Normal)
  }

  /** What a step may do to the value, and to the calls of `socket.close`: at most one more, with the requested value. */
  ghost predicate Moves(s: State, t: State) {
    && t.kind == s.kind && Recorded(t) && (s.event ==> t.event && Escalates(s.kind, s.value, t.value))
    && (t.closes == s.closes
        || (|t.closes| == |s.closes| + 1 && t.closes[..|s.closes|] == s.closes && (t.event ==> t.closes[|s.closes|] == t.value)))
  }

  lemma MovesCompose(s: State, t: State, u: State)
    requires Moves(s, t) && t.closes == s.closes && Moves(t, u)
    ensures Moves(s, u)
  {
  }

  lemma RequestMoves(s: State, c: Close)
    requires Recorded(s)
    ensures Moves(s, RequestClose(s, c)) && RequestClose(s, c).closes == s.closes
    ensures Moves(s, ExpireNow(s)) && Moves(s, RegisterHandler(s))
  {
  }

  lemma LeaveMoves(s: State)
    requires Recorded(s)
    ensures Moves(s, LeaveAccepted(s)) && Moves(s, LeaveRunner(s))
  {
    assert Recorded(Mark(s));
  }

  lemma CatchMoves(s: State, exit: Exit, error: Close)
    requires Recorded(s)
    ensures Moves(s, CatchExit(s, exit, error)) && CatchExit(s, exit, error).closes == s.closes
  {
    hide RequestClose;
    RequestMoves(s, error);
  }

  lemma LeaveBodyMoves(s: State, exit: Exit, error: Close, unclosed: bool)
    requires Recorded(s)
    ensures Moves(s, LeaveBody(s, exit, error, unclosed))
  {
    hide LeaveRunner, CatchExit, Escalates;
    CatchMoves(s, exit, error);
    var caught := CatchExit(s, exit, error);
    LeaveMoves(caught);
    LeaveMoves(Mark(caught));
    if s.kind == Rpc && exit == Cancelled && s.peerClosed {
      MovesCompose(s, Mark(caught), LeaveRunner(Mark(caught)));
    } else if !(s.kind == Rpc && exit == Cancelled) && !(s.kind == Stream && unclosed) {
      MovesCompose(s, caught, LeaveRunner(caught));
    }
  }

  lemma StepMoves(s: State, e: Event)
    requires Recorded(s) && Enabled(s, e)
    ensures Moves(s, Step(s, e))
  {
    assert Escalates(s.kind, s.value, s.value);
    hide RequestClose, ExpireNow, RegisterHandler, LeaveAccepted, LeaveRunner, LeaveBody, CloseDone, CloseCut, Escalates;
    match e
    case Enter => RequestMoves(s, EXPIRED);
    case Request(c) => RequestMoves(s, c);
    case PeerCloses(c) => RequestMoves(s.(peerClosed := true), c);
    case Expire => RequestMoves(s, EXPIRED);
    case Leave(exit, error, unclosed) =>
      if s.phase == Starting {
        LeaveMoves(s.(exit := exit));
      } else {
        LeaveBodyMoves(s, exit, error, unclosed);
      }
    case CleanupEnds(failure) =>
      var t := if failure.Some? then RequestClose(s, failure.value) else s;
      if failure.Some? {
        RequestMoves(s, failure.value);
      }
      LeaveMoves(t);
      MovesCompose(s, t, LeaveRunner(t));
    case CleanupInterrupted => LeaveMoves(s.(exit := Cancelled));
    case CloseReturns => CloseEndMoves(s);
    case CloseInterrupted => CloseEndMoves(s);
    case _ =>
  }

  lemma CloseEndMoves(s: State)
    requires Recorded(s) && s.phase.Closing?
    ensures Moves(s, CloseDone(s)) && Moves(s, CloseCut(s))
  {
    var marked, cut := Mark(s), s.(exit := Cancelled);
    assert Moves(s, marked) && Moves(s, cut) && Moves(s, marked.(phase := Done)) && Moves(s, s.(phase := Done));
    hide LeaveAccepted, LeaveRunner, Moves;
    LeaveMoves(marked);
    LeaveMoves(cut);
    MovesCompose(s, marked, LeaveRunner(marked));
    MovesCompose(s, marked, LeaveAccepted(marked));
    MovesCompose(s, cut, LeaveRunner(cut));
    MovesCompose(s, cut, LeaveAccepted(cut));
  }

  /**
   After the first request the close value of an RPC connection never changes; that of a stream or raw socket changes
   at most once more, from normal to something else.
   */
  lemma {:induction false} ValueIsLatched(s: State, events: seq<Event>)
    requires Recorded(s) && s.event && IsRun(s, events)
    ensures Escalates(s.kind, s.value, After(s, events).value) && Recorded(After(s, events)) && After(s, events).event
    decreases |events|
  {
    hide Enabled, Step, Recorded;
    if events != [] {
      StepMoves(s, events[0]);
      assert Moves(s, Step(s, events[0]));
      ValueIsLatched(Step(s, events[0]), events[1..]);
    }
  }

  /** Every call of `socket.close` carries the requested value, when there is one. */
  lemma ClosesCarryTheValue(s: State, e: Event)
    requires Recorded(s) && Enabled(s, e) && Step(s, e).closes != s.closes
    ensures var t := Step(s, e);
      |t.closes| == |s.closes| + 1 && t.closes[..|s.closes|] == s.closes && (t.event ==> t.closes[|s.closes|] == t.value)
  {
    hide Step, Enabled;
    StepMoves(s, e);
  }

  // ----- what each event decides -----

  /**
   The first request for a close is taken, with its code and reason; later ones are ignored, but that a stream or raw
   socket whose peer is still there turns a normal close into any other.
   */
  lemma RequestDecides(s: State, c: Close)
    requires Enabled(s, Request(c))
    ensures var t := Step(s, Request(c));
      && (!s.event || (s.kind != Rpc && !s.peerClosed && s.value.code == Normal && c.code != Normal) ==>
            t == s.(event := true, value := c, code := Some(c.code), reason := c.reason))
      && (s.event && (s.kind == Rpc || s.peerClosed || s.value.code != Normal || c.code == Normal) ==> t == s)
  {
  }

  /** The peer's close is noted, and is the close value when nothing was requested before. */
  lemma PeerDecides(s: State, c: Close)
    requires Enabled(s, PeerCloses(c))
    ensures var t := Step(s, PeerCloses(c));
      t.peerClosed && t.event && t.value == (if s.event then s.value else c) && t.phase == s.phase && t.closes == s.closes
  {
  }

  /**
   Credentials that expire before anything was recorded close the connection as a policy violation: at once when its
   runner listens, and else as soon as the runner starts.
   */
  lemma ExpiryDecides(s: State)
    requires Recorded(s) && Enabled(s, Expire)
    ensures var t := Step(s, Expire);
      && (s.code.Some? ==> t == s)
      && (s.code.None? ==> t.code == Some(PolicyViolation) && t.reason == CredentialsExpired)
      && (s.code.None? && s.handler ==> t.event && t.value == Close(PolicyViolation, CredentialsExpired))
      && (s.code.None? && s.phase == Starting && !s.handler ==>
            Enabled(t, Enter) && Step(t, Enter).event && Step(t, Enter).value == Close(PolicyViolation, CredentialsExpired))
  {
  }

  /** A runner that nobody has asked to close starts without a request, and a drain only records its restart. */
  lemma StartAndDrainDecide(s: State)
    ensures Enabled(s, Enter) && s.reason != CredentialsExpired ==> Step(s, Enter) == s.(handler := true, phase := Setup)
    ensures Enabled(s, DrainStops) ==>
      Step(s, DrainStops) == if s.code.Some? then s else s.(code := Some(ServiceRestart), reason := ServerRestarting)
  {
  }

  /**
   How a runner leaves its body decides what the socket is closed with: a cancellation closes with the recorded code, or
   a shutdown; an exception of a stream or raw socket with the close it maps to, unless one was requested; anything else
   with the requested value.
   */
  lemma ExitDecides(s: State, exit: Exit, error: Close)
    requires Enabled(s, Leave(exit, error, false)) && s.phase != Starting && !s.peerClosed && !s.marked
    ensures var t := Step(s, Leave(exit, error, false));
      && t.phase.Closing? && |t.closes| == |s.closes| + 1
      && t.closes[|s.closes|] ==
         match exit
         case Cancelled => Close(if s.code.Some? then s.code.value else Shutdown, s.reason)
         case Failed =>
           if s.kind != Rpc && (!s.event || (s.value.code == Normal && error.code != Normal)) then error else s.value
         case Returned => s.value
  {
  }

  /** A connection that leaves before its runner starts closes with what was recorded, or with the code of its exit. */
  lemma EarlyExitDecides(s: State, exit: Exit, error: Close)
    requires Enabled(s, Leave(exit, error, false)) && s.phase == Starting && !s.marked
    ensures var t := Step(s, Leave(exit, error, false));
      && t.phase == Closing(InAccepted)
      && t.closes == s.closes + [Close(if s.code.Some? then s.code.value else if exit == Cancelled then Shutdown else InternalError, s.reason)]
  {
  }

  /**
   An interrupted close is tried again by the next clause out: with the same value by the runner's own, and with the
   recorded code, or else that of a shutdown, by the one around it.
   */
  lemma InterruptedCloseIsTriedAgain(s: State)
    requires Enabled(s, CloseInterrupted) && !s.marked && !s.peerClosed
    ensures var t := Step(s, CloseInterrupted);
      && (s.phase == Closing(InHandler) ==> t.phase == Closing(InRunner) && t.closes == s.closes + [s.value])
      && (s.phase == Closing(InRunner) ==>
            t.phase == Closing(InAccepted)
            && t.closes == s.closes + [Close(if s.code.Some? then s.code.value else Shutdown, s.reason)])
      && (s.phase == Closing(InAccepted) ==> t.phase == Done && t.closes == s.closes)
  {
  }

  // ----- over all runs -----

  predicate CleanupWasCut(events: seq<Event>) {
    CleanupInterrupted in events
  }

  lemma {:induction false} RunCounts(s: State, events: seq<Event>, cuts: nat, skipped: bool)
    requires Counted(s, cuts, skipped) && Recorded(s) && IsRun(s, events)
    ensures Counted(After(s, events), cuts + Interruptions(events), skipped || CleanupWasCut(events))
    ensures After(s, events).kind == s.kind
    decreases |events|
  {
    hide Counted, Recorded, Enabled, Step;
    if events != [] {
      var e := events[0];
      StepCounts(s, e, cuts, skipped);
      StepMoves(s, e);
      RunCounts(Step(s, e), events[1..], cuts + (if e.CloseInterrupted? then 1 else 0), skipped || e.CleanupInterrupted?);
      assert CleanupInterrupted in events <==> e == CleanupInterrupted || CleanupInterrupted in events[1..];
    }
  }

  /**
   The server closes an accepted socket exactly once, or not at all when the peer closed first, and leaves the
   connection marked closed, exactly when no cancellation interrupts a call of `socket.close` and none interrupts the
   generator cleanup of a stream whose peer has gone. Otherwise there are at most three calls, or two for streams and
   raw sockets.
   */
  lemma OneClose(kind: Kind, events: seq<Event>)
    requires IsRun(Init(kind), events) && After(Init(kind), events).phase == Done
    ensures var s := After(Init(kind), events);
      && |s.closes| <= (if kind == Rpc then 3 else 2)
      && ((|s.closes| == (if s.peerClosed then 0 else 1) && s.marked)
          <==> Interruptions(events) == 0 && !(s.peerClosed && CleanupWasCut(events)))
  {
    RunCounts(Init(kind), events, 0, false);
  }

  lemma RunGrows(s: State, e: Event, rest: seq<Event>)
    requires Enabled(s, e) && IsRun(Step(s, e), rest)
    ensures IsRun(s, [e] + rest) && After(s, [e] + rest) == After(Step(s, e), rest)
  {
    assert ([e] + rest)[1..] == rest;
  }

  const CUT_SHORT := [Enter, Serve, Leave(Cancelled, EXPIRED, false), CloseInterrupted, CloseInterrupted, CloseInterrupted]

  /** A cancelled RPC connection whose every close is interrupted: three calls, and the connection is never marked. */
  lemma ThreeCloses()
    ensures IsRun(Init(Rpc), CUT_SHORT)
    ensures var s := After(Init(Rpc), CUT_SHORT);
      s.phase == Done && s.closes == [Close(Shutdown, Empty), Close(Shutdown, Empty), Close(Shutdown, Empty)] && !s.marked
  {
    var s1 := Step(Init(Rpc), Enter);
    var s2 := Step(s1, Serve);
    var s3 := Step(s2, Leave(Cancelled, EXPIRED, false));
    var s4 := Step(s3, CloseInterrupted);
    var s5 := Step(s4, CloseInterrupted);
    RunGrows(s5, CloseInterrupted, []);
    RunGrows(s4, CloseInterrupted, [CloseInterrupted]);
    RunGrows(s3, CloseInterrupted, [CloseInterrupted, CloseInterrupted]);
    RunGrows(s2, Leave(Cancelled, EXPIRED, false), [CloseInterrupted, CloseInterrupted, CloseInterrupted]);
    RunGrows(s1, Serve, [Leave(Cancelled, EXPIRED, false), CloseInterrupted, CloseInterrupted, CloseInterrupted]);
    RunGrows(Init(Rpc), Enter, CUT_SHORT[1..]);
  }

  // ----- the paths in the form of the source -----

  /** The state of one accepted socket: the runner's variables and the fields of its connection. */
  class AcceptedSocket {
    const kind: Kind
    var phase: Phase
    var exit: Exit
    var handler: bool
    var event: bool
    var value: Close
    var peerClosed: bool
    var code: Option<Code>
    var reason: Reason
    var marked: bool
    var closes: seq<Close>

    function Model(): State
      reads this
    {
      State(kind, phase, exit, handler, event, value, peerClosed, code, reason, marked, closes)
    }

    constructor (kind: Kind)
      ensures Model() == Init(kind)
    {
      this.kind, phase, exit, handler, event, value := kind, Starting, Returned, false, false, Close(Normal, Empty);
      peerClosed, code, reason, marked, closes := false, None, Empty, false, [];
    }

    /** `request_close` of the runner. */
    method RequestToClose(c: Close)
      modifies this`event, this`value, this`code, this`reason
      ensures Model() == RequestClose(old(Model()), c)
    {
      if !event || (kind != Rpc && !peerClosed && value.code == Normal && c.code != Normal) {
        value, code, reason := c, Some(c.code), c.reason;
        event := true;
      }
    }

    method ClientDisconnected(c: Close)
      requires Enabled(Model(), PeerCloses(c))
      modifies this
      ensures Model() == Step(old(Model()), PeerCloses(c))
    {
      peerClosed := true;
      RequestToClose(c);
    }

    /** The expiry timer: nothing happens when a close is already recorded. */
    method CredentialsExpire()
      requires !marked
      modifies this
      ensures Model() == Step(old(Model()), Expire)
    {
      if code.None? {
        if handler {
          RequestToClose(EXPIRED);
        } else {
          code, reason := Some(EXPIRED.code), EXPIRED.reason;
        }
      }
    }

    /** Registers the close request; an expiry from before is replayed. */
    method SetCloseHandler()
      requires phase == Starting
      modifies this
      ensures Model() == Step(old(Model()), Enter)
    {
      handler, phase := true, Setup;
      if reason == CredentialsExpired {
        RequestToClose(EXPIRED);
      }
    }

    method CloseSocket(site: Site, c: Close)
      modifies this`phase, this`closes
      ensures Model() == CallClose(old(Model()), site, c)
    {
      phase, closes := Closing(site), closes + [c];
    }

    method ExitAccepted()
      modifies this`phase, this`code, this`closes
      ensures Model() == LeaveAccepted(old(Model()))
    {
      if marked {
        phase := Done;
      } else {
        if code.None? && exit != Returned {
          code := Some(if exit == Cancelled then Shutdown else InternalError);
        }
        CloseSocket(InAccepted, Close(if code.Some? then code.value else Normal, reason));
      }
    }

    method ExitRunner()
      modifies this`phase, this`code, this`closes, this`marked
      ensures Model() == LeaveRunner(old(Model()))
    {
      if peerClosed || (kind == Rpc && marked) {
        marked := true;
        ExitAccepted();
      } else {
        CloseSocket(InRunner, value);
      }
    }

    /** The `except` clauses: a cancellation fixes the value, an exception of a stream or raw socket is mapped. */
    method CatchException(how: Exit, error: Close)
      modifies this`exit, this`event, this`value, this`code, this`reason
      ensures Model() == CatchExit(old(Model()), how, error)
    {
      exit := how;
      if how == Cancelled {
        code := Some(if code.Some? then code.value else Shutdown);
        value := Close(code.value, reason);
      } else if how == Failed && kind != Rpc {
        RequestToClose(error);
        exit := Returned;
      }
    }

    /** The body of the runner is left: its `except` and `finally` clauses up to their first suspension. */
    method ExitBody(how: Exit, error: Close, unclosed: bool)
      requires Enabled(Model(), Leave(how, error, unclosed)) && phase != Starting
      modifies this
      ensures Model() == Step(old(Model()), Leave(how, error, unclosed))
    {
      hide CatchExit, LeaveRunner;
      ghost var before := Model();
      CatchException(how, error);
      if kind == Rpc && how == Cancelled {
        if peerClosed {
          marked := true;
          assert Model() == Mark(CatchExit(before, how, error));
          ExitRunner();
        } else {
          CloseSocket(InHandler, value);
        }
      } else if kind == Stream && unclosed {
        phase := Cleanup;
      } else {
        ExitRunner();
      }
    }

    /** `socket.close` returned, or a cancellation interrupted it before the connection was marked. */
    method CloseEnds(interrupted: bool)
      requires phase.Closing?
      modifies this
      ensures Model() == Step(old(Model()), if interrupted then CloseInterrupted else CloseReturns)
    {
      var site := phase.site;
      if interrupted {
        if site != InAccepted {
          exit := Cancelled;
        }
      } else {
        marked := true;
      }
      match site
      case InHandler => ExitRunner();
      case InRunner => ExitAccepted();
      case InAccepted => phase := Done;
    }
  }
}
