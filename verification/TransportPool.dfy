/**
 The connection pool of the generated client: single-flight connects, proactive recovery and closing. The source
 keeps one dictionary per field, keyed by server; here one `Server` record holds the fields of one server.
 */
module TransportPool {
  import opened Wrappers

  /** Why a connection or a connect ended. */
  datatype Cause = Clean | ClientClosed | Fault(id: nat, retryable: bool)

  datatype ConnectionState = Connecting | Connected | Reconnecting | Closed

  /** A transport some factory call returned: how its `closed` future ended, and whether `close` was called on it. */
  datatype Transport = Transport(result: Option<Cause>, callbackDue: bool, closeCalled: bool)

  datatype Outcome = Installed | Cancelled | Raised(cause: Cause)

  /** `delay` bounds the next backoff; `slept` is what the random fraction left of it. */
  datatype Phase =
    | Created
    | Calling(attempt: nat, delay: real)
    | Sleeping(attempt: nat, delay: real, slept: real)
    | Discarding
    | Finished(outcome: Outcome)

  /** One connect task. It is reaped when its done callback has run. */
  datatype Task = Task(phase: Phase, recovering: bool, reaped: bool)

  /** `drawMayRaise` says that the caller's random source may raise instead of returning a number. */
  datatype Config = Config(reconnect: bool, maxAttempts: Option<nat>, initialDelay: real, maxDelay: real, drawMayRaise: bool)

  /** What the constructor checks. */
  predicate ValidConfig(cfg: Config) {
    0.0 < cfg.initialDelay <= cfg.maxDelay
  }

  /**
   `current` and `registered` are the entries of the transport and connect dictionaries. `tasks` and `made` are all
   connect tasks and transports so far; `calls` counts the factory calls since the start, or, when `recovery` is
   set, since the connection was lost.
   */
  datatype Server = Server(
    state: ConnectionState, current: Option<nat>, registered: Option<nat>, everConnected: bool, failure: Option<Cause>,
    tasks: seq<Task>, made: seq<Transport>, calls: nat, recovery: bool)

  const FRESH := Server(Connecting, None, None, false, None, [], [], 0, false)

  /** The random source returns a number or raises. */
  datatype Draw = Fraction(value: real) | Raises

  datatype Event =
    | Get
    | Run(task: nat)
    | FactoryReturns(task: nat, ended: Option<Cause>)
    | FactoryRaises(task: nat, error: Cause, draw: Draw)
    | Wake(task: nat)
    | CancelTask(task: nat)
    | Discarded(task: nat)
    | Reap(task: nat)
    | TransportEnds(transport: nat, cause: Cause)
    | ClosedCallback(transport: nat)

  predicate Live(task: Task) {
    !task.phase.Finished?
  }

  predicate Enabled(cfg: Config, open: bool, s: Server, e: Event) {
    match e
    case Get => true
    case Run(i) => open && i < |s.tasks| && s.tasks[i].phase == Created
    case FactoryReturns(i, ended) => i < |s.tasks| && s.tasks[i].phase.Calling? && ended != Some(ClientClosed)
    case FactoryRaises(i, error, draw) =>
      i < |s.tasks| && s.tasks[i].phase.Calling? && error.Fault? && (draw == Raises ==> cfg.drawMayRaise)
    case Wake(i) => i < |s.tasks| && s.tasks[i].phase.Sleeping?
    case CancelTask(i) => !open && i < |s.tasks| && Live(s.tasks[i])
    case Discarded(i) => i < |s.tasks| && s.tasks[i].phase == Discarding
    case Reap(i) => i < |s.tasks| && s.tasks[i].phase.Finished? && !s.tasks[i].reaped
    case TransportEnds(t, cause) => t < |s.made| && s.made[t].result == None && cause != ClientClosed
    case ClosedCallback(t) => t < |s.made| && s.made[t].callbackDue && s.made[t].result.Some?
  }

  function Min(a: real, b: real): real {
    if a <= b then a else b
  }

  /** Full jitter: a random fraction of the current delay. */
  function Jitter(fraction: real, delay: real): (slept: real)
    ensures 0.0 <= fraction <= 1.0 && 0.0 < delay ==> 0.0 <= slept <= delay
  {
    fraction * delay
  }

  /** While the pool closes, a server can only become closed. */
  function Transition(open: bool, s: Server, state: ConnectionState): Server {
    if !open && state != Closed then s else s.(state := state)
  }

  function Terminal(s: Server, cause: Cause): Server {
    Transition(false, s.(failure := Some(cause)), Closed)
  }

  function SetTask(s: Server, i: nat, phase: Phase): Server
    requires i < |s.tasks|
  {
    s.(tasks := s.tasks[i := s.tasks[i].(phase := phase)])
  }

  /** Starts a connect unless one is in flight. */
  function StartConnect(s: Server): Server {
    if s.registered.Some? && s.registered.value < |s.tasks| && Live(s.tasks[s.registered.value]) then s
    else s.(tasks := s.tasks + [Task(Created, false, false)], registered := Some(|s.tasks|))
  }

  /** The close of transport `t`: ignored unless it is the current one. */
  function TransportClosed(cfg: Config, open: bool, s: Server, t: nat): Server
    requires t < |s.made| && s.made[t].result.Some?
  {
    if !open || s.current != Some(t) then s
    else
      var cause := s.made[t].result.value;
      var lost := s.(current := None, calls := 0, recovery := true);
      if !cause.Fault? || !cfg.reconnect || !cause.retryable || cfg.maxAttempts == Some(0) then Terminal(lost, cause)
      else StartConnect(Transition(open, lost, Reconnecting))
  }

  function GetTransport(cfg: Config, open: bool, s: Server): Server {
    if !open || s.failure.Some? then s
    else if s.current.Some? && s.current.value < |s.made| then
      if s.made[s.current.value].result.Some? then
        var closed := TransportClosed(cfg, open, s, s.current.value);
        if closed.failure.Some? then closed else StartConnect(closed)
      else s
    else StartConnect(s)
  }

  function RunTask(cfg: Config, s: Server, i: nat): Server
    requires i < |s.tasks|
  {
    var called := s.(tasks := s.tasks[i := Task(Calling(1, cfg.initialDelay), s.everConnected, false)], calls := s.calls + 1);
    if s.everConnected then called else Transition(true, called, Connecting)
  }

  function Install(open: bool, s: Server, i: nat, ended: Option<Cause>): Server
    requires i < |s.tasks|
  {
    if open then
      var installed := s.(made := s.made + [Transport(ended, ended.Some?, false)], current := Some(|s.made|), everConnected := true);
      Transition(open, SetTask(installed, i, Finished(Installed)), Connected)
    else SetTask(s, i, Discarding).(made := s.made + [Transport(ended, false, true)])
  }

  /** A connect may try again: it recovers a connection, the error is transient and attempts are left. */
  predicate TriesAgain(cfg: Config, task: Task, error: Cause)
    requires task.phase.Calling?
  {
    task.recovering && cfg.reconnect && error.Fault? && error.retryable
    && (cfg.maxAttempts.None? || task.phase.attempt < cfg.maxAttempts.value)
  }

  const INVALID_FRACTION := Fault(0, false)
  const DRAW_RAISED := Fault(1, false)

  /** What a failed attempt leads to: the failure to record, if any, and the next phase of the task. */
  datatype Verdict = Verdict(recorded: Option<Cause>, next: Phase)

  function Judge(cfg: Config, task: Task, error: Cause, draw: Draw): Verdict
    requires task.phase.Calling?
  {
    if !TriesAgain(cfg, task, error) then Verdict(Some(error), Finished(Raised(error)))
    else if draw == Raises then Verdict(None, Finished(Raised(DRAW_RAISED)))
    else if draw.value < 0.0 || draw.value > 1.0 then Verdict(Some(INVALID_FRACTION), Finished(Raised(INVALID_FRACTION)))
    else Verdict(None, Sleeping(task.phase.attempt, task.phase.delay, Jitter(draw.value, task.phase.delay)))
  }

  function ConnectFails(cfg: Config, s: Server, i: nat, error: Cause, draw: Draw): Server
    requires i < |s.tasks| && s.tasks[i].phase.Calling?
  {
    var verdict := Judge(cfg, s.tasks[i], error, draw);
    SetTask(if verdict.recorded.Some? then Terminal(s, verdict.recorded.value) else s, i, verdict.next)
  }

  function WakeTask(cfg: Config, open: bool, s: Server, i: nat): Server
    requires i < |s.tasks| && s.tasks[i].phase.Sleeping?
  {
    var phase := s.tasks[i].phase;
    if open then SetTask(s, i, Calling(phase.attempt + 1, Min(cfg.maxDelay, phase.delay * 2.0))).(calls := s.calls + 1)
    else SetTask(s, i, Finished(Raised(ClientClosed)))
  }

  /** The done callback: it clears its own registration and records an error nobody recorded. */
  function ReapTask(open: bool, s: Server, i: nat): Server
    requires i < |s.tasks| && s.tasks[i].phase.Finished?
  {
    var outcome := s.tasks[i].phase.outcome;
    var reaped := s.(tasks := s.tasks[i := s.tasks[i].(reaped := true)], registered := if s.registered == Some(i) then None else s.registered);
    if outcome.Raised? && s.failure.None? && open then Terminal(reaped, outcome.cause) else reaped
  }

  function Step(cfg: Config, open: bool, s: Server, e: Event): Server
    requires Enabled(cfg, open, s, e)
  {
    match e
    case Get => GetTransport(cfg, open, s)
    case Run(i) => RunTask(cfg, s, i)
    case FactoryReturns(i, ended) => Install(open, s, i, ended)
    case FactoryRaises(i, error, draw) => ConnectFails(cfg, s, i, error, draw)
    case Wake(i) => WakeTask(cfg, open, s, i)
    case CancelTask(i) => SetTask(s, i, Finished(Cancelled))
    case Discarded(i) => SetTask(s, i, Finished(Raised(ClientClosed)))
    case Reap(i) => ReapTask(open, s, i)
    case TransportEnds(t, cause) => s.(made := s.made[t := s.made[t].(result := Some(cause), callbackDue := true)])
    case ClosedCallback(t) =>
      TransportClosed(cfg, open, s.(made := s.made[t := s.made[t].(callbackDue := false)]), t)
  }

  // ----- what every step keeps -----

  /** At most one connect is in flight, and it is the registered one. */
  ghost predicate SingleFlight(s: Server) {
    && (s.registered.Some? ==> s.registered.value < |s.tasks|)
    && (forall i :: 0 <= i < |s.tasks| && Live(s.tasks[i]) ==> s.registered == Some(i))
  }

  /** Every transport is the current one, or reported itself closed, or had `close` called. */
  ghost predicate NoneForgotten(s: Server) {
    && (s.current.Some? ==> s.current.value < |s.made| && !ConnectInFlight(s))
    && (forall t :: 0 <= t < |s.made| ==> s.current == Some(t) || s.made[t].result.Some? || s.made[t].closeCalled)
  }

  predicate ConnectInFlight(s: Server) {
    s.registered.Some? && s.registered.value < |s.tasks| && Live(s.tasks[s.registered.value])
  }

  /** The states and the dictionaries agree while the pool is open. */
  ghost predicate Agree(s: Server) {
    && (s.state == Connected <==> s.current.Some?)
    && (s.state == Closed <==> s.failure.Some?)
    && (s.state == Reconnecting ==> ConnectInFlight(s) && s.everConnected)
    && (s.state == Connecting ==> !s.everConnected)
    && (s.state == Connected ==> s.everConnected)
    && (s.state == Connected || s.state == Closed ==> !ConnectInFlight(s))
  }

  function Pow2(n: nat): real {
    if n == 0 then 1.0 else 2.0 * Pow2(n - 1)
  }

  /** The bound of the backoff behind attempt `n`. */
  function DelayBound(cfg: Config, n: nat): real
    requires n > 0
  {
    Min(cfg.maxDelay, cfg.initialDelay * Pow2(n - 1))
  }

  ghost predicate Attempts(cfg: Config, s: Server, task: Task) {
    match task.phase
    case Created => s.calls == 0 && s.recovery == s.everConnected
    case Calling(n, delay) =>
      && n > 0 && s.calls == n && delay == DelayBound(cfg, n) && task.recovering == s.everConnected == s.recovery
      && (if task.recovering then cfg.maxAttempts.None? || n <= cfg.maxAttempts.value else n == 1)
    case Sleeping(n, delay, slept) =>
      && n > 0 && s.calls == n && delay == DelayBound(cfg, n) && task.recovering && s.everConnected && s.recovery
      && (cfg.maxAttempts.None? || n < cfg.maxAttempts.value) && 0.0 <= slept <= delay
    case Discarding => false
    case Finished(outcome) => outcome != Cancelled && (outcome.Raised? ==> s.failure.Some?)
  }

  /** The first connect calls the factory once; a recovery at most `maxAttempts` times. */
  ghost predicate CallsBounded(cfg: Config, s: Server) {
    if s.recovery then cfg.maxAttempts.Some? ==> s.calls <= cfg.maxAttempts.value else s.calls <= 1
  }

  ghost predicate Bookkeeping(cfg: Config, s: Server) {
    && CallsBounded(cfg, s)
    && (forall i :: 0 <= i < |s.tasks| ==> Attempts(cfg, s, s.tasks[i]))
    && (!ConnectInFlight(s) && s.state == Connecting ==> s.calls == 0 && !s.recovery)
    && (s.state == Reconnecting ==> cfg.maxAttempts != Some(0))
    && (s.state == Connecting ==> !s.recovery)
  }

  ghost predicate OpenInv(cfg: Config, s: Server) {
    SingleFlight(s) && NoneForgotten(s) && Agree(s) && Bookkeeping(cfg, s)
  }

  /** The caller's random source raises where a retry needs it: the connect task dies without recording a failure. */
  predicate Crashes(cfg: Config, s: Server, e: Event)
    requires Enabled(cfg, true, s, e)
  {
    e.FactoryRaises? && e.draw == Raises && TriesAgain(cfg, s.tasks[e.task], e.error)
  }

  /** Starting a connect, the only step that adds a task, finds none in flight. */
  lemma StartKeepsSingleFlight(s: Server)
    requires SingleFlight(s)
    ensures SingleFlight(StartConnect(s)) && ConnectInFlight(StartConnect(s))
  {
  }

  lemma TransportClosedKeepsSingleFlight(cfg: Config, open: bool, s: Server, t: nat)
    requires SingleFlight(s) && t < |s.made| && s.made[t].result.Some?
    ensures SingleFlight(TransportClosed(cfg, open, s, t))
  {
    hide StartConnect, ConnectInFlight;
    StartKeepsSingleFlight(s.(current := None, calls := 0, recovery := true, state := Reconnecting));
  }

  lemma GetKeepsSingleFlight(cfg: Config, open: bool, s: Server)
    requires SingleFlight(s)
    ensures SingleFlight(GetTransport(cfg, open, s))
  {
    hide StartConnect, TransportClosed, SingleFlight, ConnectInFlight;
    StartKeepsSingleFlight(s);
    if s.current.Some? && s.current.value < |s.made| && s.made[s.current.value].result.Some? {
      TransportClosedKeepsSingleFlight(cfg, open, s, s.current.value);
      StartKeepsSingleFlight(TransportClosed(cfg, open, s, s.current.value));
    }
  }

  lemma KeepsSingleFlight(cfg: Config, open: bool, s: Server, e: Event)
    requires SingleFlight(s) && Enabled(cfg, open, s, e)
    ensures SingleFlight(Step(cfg, open, s, e))
  {
    hide GetTransport, TransportClosed, ConnectInFlight, Judge;
    match e
    case Get => GetKeepsSingleFlight(cfg, open, s);
    case ClosedCallback(t) =>
      TransportClosedKeepsSingleFlight(cfg, open, s.(made := s.made[t := s.made[t].(callbackDue := false)]), t);
    case _ =>
  }

  lemma CloseKeepsNoneForgotten(cfg: Config, open: bool, s: Server, t: nat)
    requires NoneForgotten(s) && t < |s.made| && s.made[t].result.Some?
    ensures NoneForgotten(TransportClosed(cfg, open, s, t))
  {
  }

  lemma GetKeepsNoneForgotten(cfg: Config, open: bool, s: Server)
    requires NoneForgotten(s)
    ensures NoneForgotten(GetTransport(cfg, open, s))
  {
    if open && s.failure.None? && s.current.Some? && s.made[s.current.value].result.Some? {
      CloseKeepsNoneForgotten(cfg, open, s, s.current.value);
    }
  }

  lemma KeepsNoneForgotten(cfg: Config, open: bool, s: Server, e: Event)
    requires SingleFlight(s) && NoneForgotten(s) && Enabled(cfg, open, s, e)
    ensures NoneForgotten(Step(cfg, open, s, e))
  {
    hide GetTransport, TransportClosed, Install, NoneForgotten, ConnectInFlight;
    match e
    case Get => GetKeepsNoneForgotten(cfg, open, s);
    case ClosedCallback(t) =>
      var called := s.(made := s.made[t := s.made[t].(callbackDue := false)]);
      CalledBackKeeps(s, t);
      CloseKeepsNoneForgotten(cfg, open, called, t);
    case FactoryReturns(i, ended) => InstallKeepsNoneForgotten(open, s, i, ended);
    case _ =>
      hide Step;
      TaskStepsKeepTransports(cfg, open, s, e);
      NothingNewToForget(s, Step(cfg, open, s, e));
  }

  lemma CalledBackKeeps(s: Server, t: nat)
    requires NoneForgotten(s) && t < |s.made|
    ensures NoneForgotten(s.(made := s.made[t := s.made[t].(callbackDue := false)]))
  {
  }

  /** Transports stay closed, and no connect starts. */
  ghost predicate SameTransports(s: Server, t: Server) {
    && t.current == s.current && |t.made| == |s.made| && (ConnectInFlight(t) ==> ConnectInFlight(s))
    && (forall k :: 0 <= k < |s.made| ==>
          (s.made[k].result.Some? ==> t.made[k].result.Some?) && (s.made[k].closeCalled ==> t.made[k].closeCalled))
  }

  lemma TaskStepsKeepTransports(cfg: Config, open: bool, s: Server, e: Event)
    requires SingleFlight(s) && Enabled(cfg, open, s, e) && !e.Get? && !e.ClosedCallback? && !e.FactoryReturns?
    ensures SameTransports(s, Step(cfg, open, s, e))
  {
    hide Judge;
  }

  lemma NothingNewToForget(s: Server, t: Server)
    requires NoneForgotten(s) && SameTransports(s, t)
    ensures NoneForgotten(t)
  {
  }

  lemma InstallKeepsNoneForgotten(open: bool, s: Server, i: nat, ended: Option<Cause>)
    requires SingleFlight(s) && NoneForgotten(s) && i < |s.tasks| && s.tasks[i].phase.Calling?
    ensures NoneForgotten(Install(open, s, i, ended))
  {
  }

  lemma KeepsAgree(cfg: Config, s: Server, e: Event)
    requires OpenInv(cfg, s) && Enabled(cfg, true, s, e) && !Crashes(cfg, s, e)
    ensures Agree(Step(cfg, true, s, e))
  {
    hide ConnectFails, TransportClosed, GetTransport;
    match e
    case FactoryRaises(i, error, draw) => FailureKeepsAgree(cfg, s, i, error, draw);
    case Get => GetKeepsAgree(cfg, s);
    case ClosedCallback(t) => CloseKeepsAgree(cfg, s.(made := s.made[t := s.made[t].(callbackDue := false)]), t);
    case _ =>
  }

  lemma CloseKeepsAgree(cfg: Config, s: Server, t: nat)
    requires Agree(s) && t < |s.made| && s.made[t].result.Some?
    ensures Agree(TransportClosed(cfg, true, s, t))
  {
  }

  lemma GetKeepsAgree(cfg: Config, s: Server)
    requires Agree(s) && NoneForgotten(s)
    ensures Agree(GetTransport(cfg, true, s))
  {
    if s.failure.None? && s.current.Some? && s.made[s.current.value].result.Some? {
      CloseKeepsAgree(cfg, s, s.current.value);
    }
  }

  lemma FailureKeepsAgree(cfg: Config, s: Server, i: nat, error: Cause, draw: Draw)
    requires SingleFlight(s) && Agree(s) && i < |s.tasks| && s.tasks[i].phase.Calling?
    requires draw == Raises ==> !TriesAgain(cfg, s.tasks[i], error)
    ensures Agree(ConnectFails(cfg, s, i, error, draw))
  {
  }

  /** A step of the connect in flight: all other tasks have finished, and they only need the failure to stay. */
  lemma TaskStepKeeps(cfg: Config, s: Server, i: nat, t: Server)
    requires SingleFlight(s) && i < |s.tasks| && Live(s.tasks[i])
    requires forall k :: 0 <= k < |s.tasks| ==> Attempts(cfg, s, s.tasks[k])
    requires |t.tasks| == |s.tasks| && t.tasks == s.tasks[i := t.tasks[i]]
    requires (s.failure.Some? ==> t.failure.Some?) && Attempts(cfg, t, t.tasks[i])
    ensures forall k :: 0 <= k < |t.tasks| ==> Attempts(cfg, t, t.tasks[k])
  {
    hide DelayBound;
    forall k | 0 <= k < |t.tasks| && k != i ensures Attempts(cfg, t, t.tasks[k]) {
      assert t.tasks[k] == s.tasks[k] && !Live(s.tasks[k]);
    }
  }

  lemma DelayDoubles(cfg: Config, n: nat)
    requires ValidConfig(cfg) && n > 0
    ensures DelayBound(cfg, n + 1) == Min(cfg.maxDelay, DelayBound(cfg, n) * 2.0)
    ensures DelayBound(cfg, 1) == cfg.initialDelay && 0.0 < DelayBound(cfg, n)
  {
    PowersArePositive(n - 1);
    var p := cfg.initialDelay * Pow2(n - 1);
    assert cfg.initialDelay * Pow2(n) == p * 2.0;
    assert 0.0 < p;
  }

  lemma PowersArePositive(n: nat)
    ensures 0.0 < Pow2(n)
  {
  }

  lemma RunKeepsBookkeeping(cfg: Config, s: Server, i: nat)
    requires ValidConfig(cfg) && OpenInv(cfg, s) && i < |s.tasks| && s.tasks[i].phase == Created
    ensures Bookkeeping(cfg, RunTask(cfg, s, i))
  {
    hide DelayBound;
    DelayDoubles(cfg, 1);
    assert Attempts(cfg, s, s.tasks[i]);
    TaskStepKeeps(cfg, s, i, RunTask(cfg, s, i));
  }

  lemma InstallKeepsBookkeeping(cfg: Config, s: Server, i: nat, ended: Option<Cause>)
    requires OpenInv(cfg, s) && i < |s.tasks| && s.tasks[i].phase.Calling?
    ensures Bookkeeping(cfg, Install(true, s, i, ended))
  {
    hide DelayBound;
    TaskStepKeeps(cfg, s, i, Install(true, s, i, ended));
  }

  lemma FailureKeepsBookkeeping(cfg: Config, s: Server, i: nat, error: Cause, draw: Draw)
    requires ValidConfig(cfg) && OpenInv(cfg, s) && i < |s.tasks| && s.tasks[i].phase.Calling?
    requires draw == Raises ==> !TriesAgain(cfg, s.tasks[i], error)
    ensures Bookkeeping(cfg, ConnectFails(cfg, s, i, error, draw))
  {
    hide DelayBound;
    var phase := s.tasks[i].phase;
    assert Attempts(cfg, s, s.tasks[i]);
    DelayDoubles(cfg, phase.attempt);
    var t := ConnectFails(cfg, s, i, error, draw);
    if t.tasks[i].phase.Sleeping? {
      assert 0.0 <= Jitter(draw.value, phase.delay) <= phase.delay;
    } else {
      assert t.failure.Some?;
    }
    TaskStepKeeps(cfg, s, i, t);
  }

  lemma WakeKeepsBookkeeping(cfg: Config, s: Server, i: nat)
    requires ValidConfig(cfg) && OpenInv(cfg, s) && i < |s.tasks| && s.tasks[i].phase.Sleeping?
    ensures Bookkeeping(cfg, WakeTask(cfg, true, s, i))
  {
    hide DelayBound;
    assert Attempts(cfg, s, s.tasks[i]);
    DelayDoubles(cfg, s.tasks[i].phase.attempt);
    TaskStepKeeps(cfg, s, i, WakeTask(cfg, true, s, i));
  }

  lemma ReapKeepsBookkeeping(cfg: Config, s: Server, i: nat)
    requires OpenInv(cfg, s) && i < |s.tasks| && s.tasks[i].phase.Finished?
    ensures Bookkeeping(cfg, ReapTask(true, s, i)) && ReapTask(true, s, i).failure == s.failure
  {
    hide DelayBound;
    var t := ReapTask(true, s, i);
    assert Attempts(cfg, s, s.tasks[i]);
    forall k | 0 <= k < |t.tasks| ensures Attempts(cfg, t, t.tasks[k]) {
      assert Attempts(cfg, s, s.tasks[k]);
    }
  }

  /** With no connect in flight, all tasks have finished. */
  lemma AllFinished(s: Server)
    requires SingleFlight(s) && !ConnectInFlight(s)
    ensures forall k :: 0 <= k < |s.tasks| ==> s.tasks[k].phase.Finished?
  {
  }

  lemma StartKeepsBookkeeping(cfg: Config, s: Server)
    requires OpenInv(cfg, s) && s.failure.None? && s.current.None?
    ensures Bookkeeping(cfg, StartConnect(s))
  {
    hide DelayBound;
    if !ConnectInFlight(s) {
      AllFinished(s);
    }
  }

  lemma ClosedKeepsBookkeeping(cfg: Config, s: Server, t: nat)
    requires OpenInv(cfg, s) && t < |s.made| && s.made[t].result.Some?
    ensures Bookkeeping(cfg, TransportClosed(cfg, true, s, t))
  {
    hide DelayBound;
    if s.current == Some(t) {
      AllFinished(s);
    }
  }

  lemma GetKeepsBookkeeping(cfg: Config, s: Server)
    requires OpenInv(cfg, s)
    ensures Bookkeeping(cfg, GetTransport(cfg, true, s))
  {
    hide Bookkeeping, SingleFlight;
    if s.failure.None? && s.current.Some? && s.made[s.current.value].result.Some? {
      ClosedKeepsBookkeeping(cfg, s, s.current.value);
    } else if s.failure.None? && s.current.None? {
      StartKeepsBookkeeping(cfg, s);
    }
  }

  lemma NothingDiscarded(cfg: Config, s: Server)
    requires OpenInv(cfg, s)
    ensures forall k :: 0 <= k < |s.tasks| ==> s.tasks[k].phase != Discarding
  {
    forall k | 0 <= k < |s.tasks| ensures s.tasks[k].phase != Discarding {
      assert Attempts(cfg, s, s.tasks[k]);
    }
  }

  lemma KeepsBookkeeping(cfg: Config, s: Server, e: Event)
    requires ValidConfig(cfg) && OpenInv(cfg, s) && Enabled(cfg, true, s, e) && !Crashes(cfg, s, e)
    ensures Bookkeeping(cfg, Step(cfg, true, s, e))
  {
    hide Bookkeeping, OpenInv, GetTransport, TransportClosed, StartConnect, RunTask, Install, ConnectFails, WakeTask, ReapTask;
    NothingDiscarded(cfg, s);
    match e
    case Get => GetKeepsBookkeeping(cfg, s);
    case Run(i) => RunKeepsBookkeeping(cfg, s, i);
    case FactoryReturns(i, ended) => InstallKeepsBookkeeping(cfg, s, i, ended);
    case FactoryRaises(i, error, draw) => FailureKeepsBookkeeping(cfg, s, i, error, draw);
    case Wake(i) => WakeKeepsBookkeeping(cfg, s, i);
    case CancelTask(_) =>
    case Discarded(_) =>
    case Reap(i) => ReapKeepsBookkeeping(cfg, s, i);
    case TransportEnds(t, cause) => TransportStepKeeps(cfg, s, Step(cfg, true, s, e));
    case ClosedCallback(t) =>
      var called := s.(made := s.made[t := s.made[t].(callbackDue := false)]);
      TransportStepKeeps(cfg, s, called);
      ClosedKeepsBookkeeping(cfg, called, t);
  }

  lemma TransportStepKeeps(cfg: Config, s: Server, t: Server)
    requires OpenInv(cfg, s) && t == s.(made := t.made) && |t.made| == |s.made|
    requires forall k :: 0 <= k < |s.made| && s.made[k].result.Some? ==> t.made[k].result.Some?
    requires forall k :: 0 <= k < |s.made| && s.made[k].closeCalled ==> t.made[k].closeCalled
    ensures OpenInv(cfg, t)
  {
    forall k | 0 <= k < |t.tasks| ensures Attempts(cfg, t, t.tasks[k]) {
      assert Attempts(cfg, s, s.tasks[k]);
    }
  }

  lemma StepKeepsOpen(cfg: Config, s: Server, e: Event)
    requires ValidConfig(cfg) && OpenInv(cfg, s) && Enabled(cfg, true, s, e) && !Crashes(cfg, s, e)
    ensures OpenInv(cfg, Step(cfg, true, s, e))
  {
    hide SingleFlight, NoneForgotten, Agree, Bookkeeping, Step;
    KeepsSingleFlight(cfg, true, s, e);
    KeepsNoneForgotten(cfg, true, s, e);
    KeepsAgree(cfg, s, e);
    KeepsBookkeeping(cfg, s, e);
  }

  // ----- the whole pool -----

  /** `Returned` is reached when `close` has returned. */
  datatype Stage = Open | Closing | Returned

  datatype Pool = Pool(stage: Stage, servers: map<nat, Server>)

  datatype PoolEvent = OfServer(name: nat, event: Event) | Close | CloseCollects

  function InitPool(names: set<nat>): Pool {
    Pool(Open, map name | name in names :: FRESH)
  }

  predicate PoolEnabled(cfg: Config, p: Pool, e: PoolEvent) {
    match e
    case OfServer(name, event) => name in p.servers && Enabled(cfg, p.stage == Open, p.servers[name], event)
    case Close => p.stage == Open
    case CloseCollects => p.stage == Closing && forall name :: name in p.servers ==> !ConnectInFlight(p.servers[name])
  }

  /** `close` forgets the connect tasks it waited for and closes the current transport. */
  function Collect(s: Server): Server {
    var made := if s.current.Some? && s.current.value < |s.made|
      then s.made[s.current.value := s.made[s.current.value].(closeCalled := true)] else s.made;
    s.(registered := None, current := None, made := made)
  }

  function PoolStep(cfg: Config, p: Pool, e: PoolEvent): Pool
    requires PoolEnabled(cfg, p, e)
  {
    match e
    case OfServer(name, event) => p.(servers := p.servers[name := Step(cfg, p.stage == Open, p.servers[name], event)])
    case Close => Pool(Closing, map name | name in p.servers :: Transition(false, p.servers[name], Closed))
    case CloseCollects => Pool(Returned, map name | name in p.servers :: Collect(p.servers[name]))
  }

  predicate IsRun(cfg: Config, p: Pool, events: seq<PoolEvent>)
    decreases |events|
  {
    events == [] || (PoolEnabled(cfg, p, events[0]) && IsRun(cfg, PoolStep(cfg, p, events[0]), events[1..]))
  }

  function After(cfg: Config, p: Pool, events: seq<PoolEvent>): Pool
    requires IsRun(cfg, p, events)
    decreases |events|
  {
    if events == [] then p else After(cfg, PoolStep(cfg, p, events[0]), events[1..])
  }

  /** While the pool closes every state stays closed, and after `close` returned nothing is registered. */
  ghost predicate StageInv(stage: Stage, s: Server) {
    && SingleFlight(s) && NoneForgotten(s)
    && (stage != Open ==> s.state == Closed)
    && (stage == Returned ==> s.current == None && s.registered == None)
  }

  lemma KeepsStage(cfg: Config, stage: Stage, s: Server, e: Event)
    requires StageInv(stage, s) && Enabled(cfg, stage == Open, s, e)
    ensures StageInv(stage, Step(cfg, stage == Open, s, e))
  {
    hide SingleFlight, NoneForgotten;
    KeepsSingleFlight(cfg, stage == Open, s, e);
    KeepsNoneForgotten(cfg, stage == Open, s, e);
  }

  lemma CloseKeepsStage(s: Server)
    requires StageInv(Open, s)
    ensures StageInv(Closing, Transition(false, s, Closed))
  {
  }

  lemma CollectKeepsStage(s: Server)
    requires StageInv(Closing, s) && !ConnectInFlight(s)
    ensures StageInv(Returned, Collect(s))
  {
  }

  ghost predicate PoolInv(p: Pool) {
    forall name :: name in p.servers ==> StageInv(p.stage, p.servers[name])
  }

  lemma PoolStepKeeps(cfg: Config, p: Pool, e: PoolEvent)
    requires PoolInv(p) && PoolEnabled(cfg, p, e)
    ensures PoolInv(PoolStep(cfg, p, e)) && PoolStep(cfg, p, e).servers.Keys == p.servers.Keys
  {
    hide Step, Enabled, Collect, ConnectInFlight;
    match e
    case OfServer(name, event) => KeepsStage(cfg, p.stage, p.servers[name], event);
    case Close =>
      forall name | name in p.servers ensures StageInv(Closing, Transition(false, p.servers[name], Closed)) {
        CloseKeepsStage(p.servers[name]);
      }
    case CloseCollects =>
      forall name | name in p.servers ensures StageInv(Returned, Collect(p.servers[name])) {
        CollectKeepsStage(p.servers[name]);
      }
  }

  lemma {:induction false} RunKeeps(cfg: Config, p: Pool, events: seq<PoolEvent>)
    requires PoolInv(p) && IsRun(cfg, p, events)
    ensures PoolInv(After(cfg, p, events)) && After(cfg, p, events).servers.Keys == p.servers.Keys
    decreases |events|
  {
    hide PoolInv, PoolStep, PoolEnabled;
    if events != [] {
      PoolStepKeeps(cfg, p, events[0]);
      RunKeeps(cfg, PoolStep(cfg, p, events[0]), events[1..]);
    }
  }

  /** No step of the run is a crash of a connect task. */
  predicate CrashFree(cfg: Config, p: Pool, events: seq<PoolEvent>)
    requires IsRun(cfg, p, events)
    decreases |events|
  {
    events != [] ==>
      && (p.stage == Open && events[0].OfServer? ==> !Crashes(cfg, p.servers[events[0].name], events[0].event))
      && CrashFree(cfg, PoolStep(cfg, p, events[0]), events[1..])
  }

  ghost predicate OpenPoolInv(cfg: Config, p: Pool) {
    p.stage == Open ==> forall name :: name in p.servers ==> OpenInv(cfg, p.servers[name])
  }

  lemma {:induction false} RunKeepsOpen(cfg: Config, p: Pool, events: seq<PoolEvent>)
    requires ValidConfig(cfg) && OpenPoolInv(cfg, p) && IsRun(cfg, p, events) && CrashFree(cfg, p, events)
    ensures OpenPoolInv(cfg, After(cfg, p, events))
    decreases |events|
  {
    hide OpenInv, Step, Enabled, Crashes, Collect;
    if events != [] {
      if p.stage == Open && events[0].OfServer? {
        StepKeepsOpen(cfg, p.servers[events[0].name], events[0].event);
      }
      RunKeepsOpen(cfg, PoolStep(cfg, p, events[0]), events[1..]);
    }
  }

  // ----- over all runs -----

  /**
   After `close` has returned, in every run: no transport and no connect is registered, no connect task is left, and
   every transport a factory returned has reported itself closed or had `close` called. At any time at most one
   connect is in flight for a server.
   */
  lemma CloseLeavesNothing(cfg: Config, names: set<nat>, events: seq<PoolEvent>, name: nat)
    requires IsRun(cfg, InitPool(names), events) && name in names
    ensures var p := After(cfg, InitPool(names), events);
      && name in p.servers
      && var s := p.servers[name];
      && (forall i, j :: 0 <= i < j < |s.tasks| ==> !Live(s.tasks[i]) || !Live(s.tasks[j]))
      && (p.stage != Open ==> s.state == Closed)
      && (p.stage == Returned ==>
            && s.current == None && s.registered == None
            && (forall i :: 0 <= i < |s.tasks| ==> !Live(s.tasks[i]))
            && (forall t :: 0 <= t < |s.made| ==> s.made[t].result.Some? || s.made[t].closeCalled))
  {
    RunKeeps(cfg, InitPool(names), events);
  }

  /** What the pool's states promise: `Agree`, the bound on factory calls and the bound on every backoff. */
  ghost predicate Machine(cfg: Config, s: Server) {
    && Agree(s) && CallsBounded(cfg, s)
    && (forall i :: 0 <= i < |s.tasks| && s.tasks[i].phase.Sleeping? ==>
          var phase := s.tasks[i].phase;
          phase.attempt > 0 && 0.0 <= phase.slept <= DelayBound(cfg, phase.attempt))
  }

  /** While the pool is open, in every run without a crash, each server's states and dictionaries agree. */
  lemma StatesAgree(cfg: Config, names: set<nat>, events: seq<PoolEvent>, name: nat)
    requires ValidConfig(cfg) && IsRun(cfg, InitPool(names), events) && CrashFree(cfg, InitPool(names), events)
    requires name in After(cfg, InitPool(names), events).servers && After(cfg, InitPool(names), events).stage == Open
    ensures Machine(cfg, After(cfg, InitPool(names), events).servers[name])
  {
    RunKeepsOpen(cfg, InitPool(names), events);
    InvMeansMachine(cfg, After(cfg, InitPool(names), events).servers[name]);
  }

  lemma InvMeansMachine(cfg: Config, s: Server)
    requires OpenInv(cfg, s)
    ensures Machine(cfg, s)
  {
    hide DelayBound;
    forall i | 0 <= i < |s.tasks| && s.tasks[i].phase.Sleeping?
      ensures s.tasks[i].phase.attempt > 0 && 0.0 <= s.tasks[i].phase.slept <= DelayBound(cfg, s.tasks[i].phase.attempt)
    {
      assert Attempts(cfg, s, s.tasks[i]);
    }
  }

  /** A recorded failure stays, with its cause, and the server stays closed. */
  lemma FailureIsAbsorbing(cfg: Config, s: Server, e: Event)
    requires ValidConfig(cfg) && OpenInv(cfg, s) && s.failure.Some? && Enabled(cfg, true, s, e)
    ensures var t := Step(cfg, true, s, e);
      t.failure == s.failure && t.state == Closed && t.current == None && t.calls == s.calls && |t.tasks| == |s.tasks|
  {
    AllFinished(s);
  }

  /** The close of a transport that is not the current one changes nothing but its own callback flag. */
  lemma StaleCloseChangesNothing(cfg: Config, open: bool, s: Server, t: nat)
    requires Enabled(cfg, open, s, ClosedCallback(t)) && s.current != Some(t)
    ensures Step(cfg, open, s, ClosedCallback(t)).(made := s.made) == s
    ensures forall k :: 0 <= k < |s.made| && k != t ==> Step(cfg, open, s, ClosedCallback(t)).made[k] == s.made[k]
  {
  }

  /** Once a server has been connected, it never shows `Connecting` again. */
  lemma ConnectingNeverRecurs(cfg: Config, s: Server, e: Event)
    requires ValidConfig(cfg) && OpenInv(cfg, s) && Enabled(cfg, true, s, e) && !Crashes(cfg, s, e)
    ensures s.everConnected ==> Step(cfg, true, s, e).everConnected && Step(cfg, true, s, e).state != Connecting
  {
    hide Step;
    StepKeepsOpen(cfg, s, e);
    EverConnectedStays(cfg, s, e);
  }

  lemma EverConnectedStays(cfg: Config, s: Server, e: Event)
    requires Enabled(cfg, true, s, e)
    ensures s.everConnected ==> Step(cfg, true, s, e).everConnected
  {
  }

  /** The bound of the retry backoff that the client core asks the pool for; its exponent is capped at 30. */
  function RetryBound(cfg: Config, retry: nat): real
    requires retry > 0
  {
    Min(cfg.initialDelay * Pow2(if retry - 1 < 30 then retry - 1 else 30), cfg.maxDelay)
  }

  lemma {:induction false} PowersAdd(m: nat, n: nat)
    ensures Pow2(m + n) == Pow2(m) * Pow2(n)
  {
    if m > 0 {
      PowersAdd(m - 1, n);
      assert Pow2(m + n) == 2.0 * (Pow2(m - 1) * Pow2(n));
    }
  }

  lemma ThirtyDoublings()
    ensures Pow2(30) == 1073741824.0
  {
    assert Pow2(5) == 2.0 * (2.0 * (2.0 * (2.0 * (2.0 * Pow2(0)))));
    PowersAdd(5, 5);
    PowersAdd(10, 10);
    PowersAdd(20, 10);
  }

  lemma {:induction false} PowersGrow(m: nat, n: nat)
    requires m <= n
    ensures 0.0 < Pow2(m) <= Pow2(n)
  {
    if m < n {
      PowersGrow(m, n - 1);
    } else {
      PowersArePositive(n);
    }
  }

  /** The capped bound is the doubling one, unless the cap of 30 doublings comes before the maximal delay. */
  lemma RetryBoundDoubles(cfg: Config, retry: nat)
    requires ValidConfig(cfg) && retry > 0
    ensures RetryBound(cfg, retry) == DelayBound(cfg, retry) <==> retry <= 31 || cfg.initialDelay * Pow2(30) >= cfg.maxDelay
  {
    if retry > 31 {
      PowersGrow(31, retry - 1);
      PowersArePositive(30);
      assert cfg.initialDelay * Pow2(retry - 1) >= cfg.initialDelay * Pow2(31);
      assert Pow2(31) == 2.0 * Pow2(30);
      assert cfg.initialDelay * Pow2(31) == 2.0 * (cfg.initialDelay * Pow2(30));
    }
  }

  /** They differ for the default initial delay with a maximal delay of thirty years, from the 32nd retry on. */
  lemma BoundsDiffer(retry: nat)
    requires retry > 31
    ensures var cfg := Config(false, None, 0.25, 1000000000.0, false);
      ValidConfig(cfg) && RetryBound(cfg, retry) == 268435456.0 && RetryBound(cfg, retry) != DelayBound(cfg, retry)
  {
    ThirtyDoublings();
    RetryBoundDoubles(Config(false, None, 0.25, 1000000000.0, false), retry);
  }

  // ----- what each event decides -----

  /** The promise of a recovery: a pool that reconnects calls the factory again after a transient error, up to its limit. */
  ghost predicate MayRecover(cfg: Config, task: Task, error: Cause)
    requires task.phase.Calling?
  {
    match cfg.maxAttempts
    case None => task.recovering && cfg.reconnect && error.Fault? && error.retryable
    case Some(limit) => task.recovering && cfg.reconnect && error.Fault? && error.retryable && task.phase.attempt < limit
  }

  /** The task ends and the server is given up with this failure. */
  predicate GivenUp(s: Server, t: Server, i: nat, cause: Cause)
    requires i < |s.tasks|
  {
    t == s.(failure := Some(cause), state := Closed, tasks := s.tasks[i := s.tasks[i].(phase := Finished(Raised(cause)))])
  }

  /**
   After a failed factory call, a recovery that may go on sleeps, and nothing else changes; a fraction outside of [0, 1] gives the server up, a draw that raises ends the task with nothing
   recorded, and in every other case the server is given up with the error itself.
   */
  lemma FailureDecides(cfg: Config, open: bool, s: Server, i: nat, error: Cause, draw: Draw)
    requires Enabled(cfg, open, s, FactoryRaises(i, error, draw))
    ensures var t, task := Step(cfg, open, s, FactoryRaises(i, error, draw)), s.tasks[i];
      && (MayRecover(cfg, task, error) && draw.Fraction? && 0.0 <= draw.value <= 1.0 ==>
            t == s.(tasks := s.tasks[i := task.(phase :=
                   Sleeping(task.phase.attempt, task.phase.delay, Jitter(draw.value, task.phase.delay)))]))
      && (MayRecover(cfg, task, error) && draw.Fraction? && !(0.0 <= draw.value <= 1.0) ==> GivenUp(s, t, i, INVALID_FRACTION))
      && (MayRecover(cfg, task, error) && draw.Raises? ==>
            t == s.(tasks := s.tasks[i := task.(phase := Finished(Raised(DRAW_RAISED)))]))
      && (!MayRecover(cfg, task, error) ==> GivenUp(s, t, i, error))
  {
    JudgeDecides(cfg, s.tasks[i], error, draw);
    VerdictIsCarriedOut(cfg, open, s, i, error, draw);
    hide Step, Enabled, Judge, MayRecover, Jitter;
  }

  /** The sleep is the drawn fraction of the delay. */
  lemma SleepIsTheDrawnFraction(cfg: Config, open: bool, s: Server, i: nat, error: Cause, draw: Draw)
    requires Enabled(cfg, open, s, FactoryRaises(i, error, draw))
    ensures var phase := Step(cfg, open, s, FactoryRaises(i, error, draw)).tasks[i].phase;
      phase.Sleeping? ==> draw.Fraction? && phase.slept == draw.value * s.tasks[i].phase.delay
  {
    VerdictIsCarriedOut(cfg, open, s, i, error, draw);
    JudgeDecides(cfg, s.tasks[i], error, draw);
    hide Step, Enabled, Judge, MayRecover;
  }

  lemma VerdictIsCarriedOut(cfg: Config, open: bool, s: Server, i: nat, error: Cause, draw: Draw)
    requires Enabled(cfg, open, s, FactoryRaises(i, error, draw))
    ensures var t, verdict := Step(cfg, open, s, FactoryRaises(i, error, draw)), Judge(cfg, s.tasks[i], error, draw);
      if verdict.recorded.None? then t == s.(tasks := s.tasks[i := s.tasks[i].(phase := verdict.next)])
      else t == s.(failure := verdict.recorded, state := Closed, tasks := s.tasks[i := s.tasks[i].(phase := verdict.next)])
  {
    hide Judge;
  }

  lemma JudgeDecides(cfg: Config, task: Task, error: Cause, draw: Draw)
    requires task.phase.Calling?
    ensures Judge(cfg, task, error, draw) ==
      if !MayRecover(cfg, task, error) then Verdict(Some(error), Finished(Raised(error)))
      else match draw
        case Raises => Verdict(None, Finished(Raised(DRAW_RAISED)))
        case Fraction(value) =>
          if 0.0 <= value <= 1.0 then Verdict(None, Sleeping(task.phase.attempt, task.phase.delay, Jitter(value, task.phase.delay)))
          else Verdict(Some(INVALID_FRACTION), Finished(Raised(INVALID_FRACTION)))
    ensures draw.Fraction? ==> Jitter(draw.value, task.phase.delay) == draw.value * task.phase.delay
  {
  }

  /** While the pool is open, the next factory call follows the sleep with the next number and twice the delay, up to the maximum. */
  lemma SleepIsFollowedByACall(cfg: Config, open: bool, s: Server, i: nat)
    requires Enabled(cfg, open, s, Wake(i))
    ensures var t, phase := Step(cfg, open, s, Wake(i)), s.tasks[i].phase;
      if open then
        t == s.(calls := s.calls + 1, tasks := s.tasks[i := s.tasks[i].(phase :=
               Calling(phase.attempt + 1, if phase.delay + phase.delay < cfg.maxDelay then phase.delay + phase.delay else cfg.maxDelay))])
      else t == s.(tasks := s.tasks[i := s.tasks[i].(phase := Finished(Raised(ClientClosed)))])
  {
  }

  /**
   A server that lost its current connection for a transient reason recovers it, when the pool reconnects at all: it
   shows reconnecting and has a connect in flight. Otherwise it is given up with the cause.
   */
  lemma LossDecides(cfg: Config, s: Server, k: nat)
    requires OpenInv(cfg, s) && Enabled(cfg, true, s, ClosedCallback(k)) && s.current == Some(k)
    ensures var t, cause := Step(cfg, true, s, ClosedCallback(k)), s.made[k].result.value;
      && t.current == None && t.everConnected == s.everConnected
      && (if cfg.reconnect && cfg.maxAttempts != Some(0) && cause.Fault? && cause.retryable
          then t.state == Reconnecting && t.failure == None && ConnectInFlight(t) && t.calls == 0 && |t.tasks| == |s.tasks| + 1
          else t.state == Closed && t.failure == Some(cause) && !ConnectInFlight(t) && t.tasks == s.tasks)
  {
    hide Bookkeeping;
  }

  /** Asking for the transport of a server that is not given up leaves a live one, or a connect in flight. */
  lemma GetLeavesAWay(cfg: Config, s: Server)
    requires OpenInv(cfg, s)
    ensures var t := Step(cfg, true, s, Get);
      && (s.failure.Some? ==> t == s)
      && (t.failure.None? ==>
            ConnectInFlight(t) || (t.current.Some? && t.current.value < |t.made| && t.made[t.current.value].result.None?))
      && (t.failure != s.failure ==>
            s.current.Some? && s.current.value < |s.made| && t.failure == s.made[s.current.value].result)
      && (s.current.Some? && s.current.value < |s.made| && s.made[s.current.value].result.None? ==> t == s)
  {
    hide Bookkeeping, DelayBound;
  }

  /** A connect makes its first factory call with the initial delay; it recovers when the server was connected before. */
  lemma FirstCallDecides(cfg: Config, s: Server, i: nat)
    requires Enabled(cfg, true, s, Run(i))
    ensures Step(cfg, true, s, Run(i)) ==
      s.(calls := s.calls + 1, tasks := s.tasks[i := Task(Calling(1, cfg.initialDelay), s.everConnected, false)],
         state := if s.everConnected then s.state else Connecting)
  {
  }

  /**
   A connect that is cancelled or has to discard its transport ends as such; its done callback forgets its own registration
   only, and records an error that was not recorded, while the pool is open.
   */
  lemma EndOfConnectDecides(cfg: Config, open: bool, s: Server, e: Event)
    requires Enabled(cfg, open, s, e) && (e.CancelTask? || e.Discarded? || e.Reap?)
    ensures var t, task := Step(cfg, open, s, e), s.tasks[e.task];
      && t.current == s.current && t.made == s.made && t.calls == s.calls
      && (e.CancelTask? ==> t == s.(tasks := s.tasks[e.task := task.(phase := Finished(Cancelled))]))
      && (e.Discarded? ==> t == s.(tasks := s.tasks[e.task := task.(phase := Finished(Raised(ClientClosed)))]))
      && (e.Reap? ==>
            var unrecorded := open && s.failure.None? && task.phase.outcome.Raised?;
            && t.tasks == s.tasks[e.task := task.(reaped := true)]
            && t.registered == (if s.registered == Some(e.task) then None else s.registered)
            && t.failure == (if unrecorded then Some(task.phase.outcome.cause) else s.failure)
            && t.state == (if unrecorded then Closed else s.state))
  {
  }

  /** A transport that arrives in time becomes the current one; one that arrives while the pool closes is closed. */
  lemma ArrivalDecides(cfg: Config, open: bool, s: Server, i: nat, ended: Option<Cause>)
    requires Enabled(cfg, open, s, FactoryReturns(i, ended))
    ensures var t := Step(cfg, open, s, FactoryReturns(i, ended));
      && |t.made| == |s.made| + 1 && t.made[..|s.made|] == s.made && t.made[|s.made|].result == ended
      && t.failure == s.failure && t.calls == s.calls
      && (open ==> t.current == Some(|s.made|) && t.state == Connected && t.everConnected && !t.made[|s.made|].closeCalled
                   && (t.made[|s.made|].callbackDue <==> ended.Some?) && t.tasks[i].phase == Finished(Installed))
      && (!open ==> t.current == s.current && t.state == s.state && t.made[|s.made|].closeCalled && t.tasks[i].phase == Discarding)
  {
  }

  /**
   In every run without a crash, a failed factory call gives up a server that was connected before exactly when it was
   the last of the `maxAttempts` calls since the connection was lost: the error is transient, the pool reconnects, and
   the random source returns a fraction.
   */
  lemma RecoveryUsesEveryAttempt(cfg: Config, names: set<nat>, events: seq<PoolEvent>, name: nat, i: nat, error: Cause, fraction: real)
    requires ValidConfig(cfg) && cfg.reconnect && IsRun(cfg, InitPool(names), events) && CrashFree(cfg, InitPool(names), events)
    requires var p := After(cfg, InitPool(names), events);
      && p.stage == Open && name in p.servers && p.servers[name].everConnected
      && Enabled(cfg, true, p.servers[name], FactoryRaises(i, error, Fraction(fraction)))
    requires 0.0 <= fraction <= 1.0 && error.Fault? && error.retryable
    ensures var s := After(cfg, InitPool(names), events).servers[name];
      Step(cfg, true, s, FactoryRaises(i, error, Fraction(fraction))).failure.Some? <==> cfg.maxAttempts == Some(s.calls)
  {
    hide IsRun, After, CrashFree;
    RunKeepsOpen(cfg, InitPool(names), events);
    hide OpenInv;
    var s := After(cfg, InitPool(names), events).servers[name];
    CallsAreCounted(cfg, s, i);
    FailureDecides(cfg, true, s, i, error, Fraction(fraction));
  }

  lemma CallsAreCounted(cfg: Config, s: Server, i: nat)
    requires OpenInv(cfg, s) && i < |s.tasks| && s.tasks[i].phase.Calling?
    ensures s.calls == s.tasks[i].phase.attempt && s.tasks[i].recovering == s.everConnected && s.failure.None?
    ensures s.everConnected && cfg.maxAttempts.Some? ==> s.calls <= cfg.maxAttempts.value
  {
    hide DelayBound;
    assert Attempts(cfg, s, s.tasks[i]);
  }

  // ----- a random source that raises -----

  /** A recovery can fail for a reason that lets it try again, and the random source can raise there. */
  predicate MayCrash(cfg: Config) {
    cfg.drawMayRaise && cfg.reconnect && (cfg.maxAttempts.None? || cfg.maxAttempts.value >= 2)
  }

  ghost predicate MachineAlways(cfg: Config) {
    forall names: set<nat>, events, name: nat | IsRun(cfg, InitPool(names), events) ::
      var p := After(cfg, InitPool(names), events);
      p.stage == Open && name in p.servers ==> Machine(cfg, p.servers[name])
  }

  lemma {:induction false} NeverCrashes(cfg: Config, p: Pool, events: seq<PoolEvent>)
    requires ValidConfig(cfg) && OpenPoolInv(cfg, p) && IsRun(cfg, p, events) && !MayCrash(cfg)
    ensures CrashFree(cfg, p, events)
    decreases |events|
  {
    hide Step, Enabled, Collect, StageInv, OpenInv, Crashes;
    if events != [] {
      if p.stage == Open && events[0].OfServer? {
        var s := p.servers[events[0].name];
        NoCrash(cfg, s, events[0].event);
        StepKeepsOpen(cfg, s, events[0].event);
      }
      NeverCrashes(cfg, PoolStep(cfg, p, events[0]), events[1..]);
    }
  }

  lemma NoCrash(cfg: Config, s: Server, e: Event)
    requires OpenInv(cfg, s) && !MayCrash(cfg) && Enabled(cfg, true, s, e)
    ensures !Crashes(cfg, s, e)
  {
    if e.FactoryRaises? {
      assert Attempts(cfg, s, s.tasks[e.task]);
    }
  }

  const LOSS := Fault(7, true)

  /** The connection is lost, its recovery crashes, a second connect starts before the done callback of the first runs. */
  const CRASH_RUN := [
    Get, Run(0), FactoryReturns(0, None), TransportEnds(0, LOSS), ClosedCallback(0), Run(1), FactoryRaises(1, LOSS, Raises),
    Get, Reap(1), Run(2), FactoryReturns(2, None)]

  /** The states of that run. */
  function CrashState(delay: real, i: nat): Server {
    var open, lost := Transport(None, false, false), Transport(Some(LOSS), false, false);
    var crashed := Finished(Raised(DRAW_RAISED));
    var tasks := [Task(Finished(Installed), false, false), Task(crashed, true, false)];
    var reaped := [Task(Finished(Installed), false, false), Task(crashed, true, true)];
    match i
    case 0 => FRESH
    case 1 => Server(Connecting, None, Some(0), false, None, [Task(Created, false, false)], [], 0, false)
    case 2 => Server(Connecting, None, Some(0), false, None, [Task(Calling(1, delay), false, false)], [], 1, false)
    case 3 => Server(Connected, Some(0), Some(0), true, None, tasks[..1], [open], 1, false)
    case 4 => Server(Connected, Some(0), Some(0), true, None, tasks[..1], [Transport(Some(LOSS), true, false)], 1, false)
    case 5 => Server(Reconnecting, None, Some(1), true, None, tasks[..1] + [Task(Created, false, false)], [lost], 0, true)
    case 6 => Server(Reconnecting, None, Some(1), true, None, tasks[..1] + [Task(Calling(1, delay), true, false)], [lost], 1, true)
    case 7 => Server(Reconnecting, None, Some(1), true, None, tasks, [lost], 1, true)
    case 8 => Server(Reconnecting, None, Some(2), true, None, tasks + [Task(Created, false, false)], [lost], 1, true)
    case 9 => Server(Closed, None, Some(2), true, Some(DRAW_RAISED), reaped + [Task(Created, false, false)], [lost], 1, true)
    case 10 =>
      Server(Closed, None, Some(2), true, Some(DRAW_RAISED), reaped + [Task(Calling(1, delay), true, false)], [lost], 2, true)
    case _ =>
      Server(Connected, Some(1), Some(2), true, Some(DRAW_RAISED), reaped + [Task(Finished(Installed), true, false)],
             [lost, open], 2, true)
  }

  lemma CrashSteps(cfg: Config, i: nat)
    requires MayCrash(cfg) && i < |CRASH_RUN|
    ensures var s := CrashState(cfg.initialDelay, i);
      Enabled(cfg, true, s, CRASH_RUN[i]) && Step(cfg, true, s, CRASH_RUN[i]) == CrashState(cfg.initialDelay, i + 1)
  {
  }

  /** `pools` are the states a run goes through. */
  ghost predicate Traces(cfg: Config, pools: seq<Pool>, events: seq<PoolEvent>) {
    && |pools| == |events| + 1
    && (forall i :: 0 <= i < |events| ==> PoolEnabled(cfg, pools[i], events[i]) && PoolStep(cfg, pools[i], events[i]) == pools[i + 1])
  }

  lemma {:induction false} TraceIsRun(cfg: Config, pools: seq<Pool>, events: seq<PoolEvent>)
    requires Traces(cfg, pools, events)
    ensures IsRun(cfg, pools[0], events) && After(cfg, pools[0], events) == pools[|events|]
    decreases |events|
  {
    hide PoolEnabled, PoolStep;
    if events != [] {
      TraceIsRun(cfg, pools[1..], events[1..]);
    }
  }

  /** In that run the server ends connected although a failure is recorded. */
  lemma CrashBreaksTheMachine(cfg: Config)
    requires MayCrash(cfg)
    ensures var events := seq(|CRASH_RUN|, i requires 0 <= i < |CRASH_RUN| => OfServer(0, CRASH_RUN[i]));
      && IsRun(cfg, InitPool({0}), events)
      && var p := After(cfg, InitPool({0}), events);
      p.stage == Open && 0 in p.servers && p.servers[0].state == Connected && p.servers[0].failure == Some(DRAW_RAISED)
  {
    hide Step, Enabled, IsRun, After;
    var events := seq(|CRASH_RUN|, i requires 0 <= i < |CRASH_RUN| => OfServer(0, CRASH_RUN[i]));
    var pools := seq(|CRASH_RUN| + 1, i requires 0 <= i => Pool(Open, map[0 := CrashState(cfg.initialDelay, i)]));
    forall i | 0 <= i < |events|
      ensures PoolEnabled(cfg, pools[i], events[i]) && PoolStep(cfg, pools[i], events[i]) == pools[i + 1]
    {
      CrashSteps(cfg, i);
    }
    TraceIsRun(cfg, pools, events);
    assert pools[0] == InitPool({0});
  }

  lemma NotTheMachine(cfg: Config, s: Server)
    requires s.state == Connected && s.failure.Some?
    ensures !Machine(cfg, s)
  {
  }

  /** The machine keeps its promises in every run exactly when the random source cannot break a recovery. */
  lemma MachineAlwaysExactly(cfg: Config)
    requires ValidConfig(cfg)
    ensures MachineAlways(cfg) <==> !MayCrash(cfg)
  {
    hide IsRun, After, Machine;
    if MayCrash(cfg) {
      CrashBreaksTheMachine(cfg);
      var events := seq(|CRASH_RUN|, i requires 0 <= i < |CRASH_RUN| => OfServer(0, CRASH_RUN[i]));
      NotTheMachine(cfg, After(cfg, InitPool({0}), events).servers[0]);
    } else {
      forall names: set<nat>, events, name: nat | IsRun(cfg, InitPool(names), events)
        ensures var p := After(cfg, InitPool(names), events);
          p.stage == Open && name in p.servers ==> Machine(cfg, p.servers[name])
      {
        NeverCrashes(cfg, InitPool(names), events);
        var p := After(cfg, InitPool(names), events);
        if p.stage == Open && name in p.servers {
          StatesAgree(cfg, names, events, name);
        }
      }
    }
  }
}
