/**
 One RPC connection on the server as a state machine. Every stretch of code between two suspension
 points of the event loop is one step; what handlers, the peer, the socket, timers and cancellation
 do is an input of the step.
 */
module ConnectionRuntime {
  import opened Wrappers
  import opened Messages

  datatype CloseCode =
    | Normal | Shutdown | ServiceRestart | ProtocolError | PolicyViolation
    | MessageTooBig | InternalError | TryAgainLater | Other

  datatype Limits = Limits(maxPending: nat, maxQueue: nat, maxBatch: nat, subscriptionMethods: set<string>) {
    function MaxCollectors(): nat { maxPending + maxQueue }
    function MaxItems(): nat { if maxBatch == 0 then 1 else maxBatch }
  }

  /** How the task of a call ended: with its response, by cancellation, or with an exception. */
  datatype Ending = Answered(reply: Option<Reply>) | Interrupted | Crashed

  /** A task that is cancelled before its first step ends without having started. */
  datatype Phase = Created | Running | Ended(started: bool, ending: Ending)

  /**
   One admitted or refused item. `responded` says that the subscription session has queued the
   response itself. `home` is the index of the collector that waits for the call.
   */
  datatype Call = Call(message: Message, reserved: bool, invalid: bool, batch: bool, shuttingDown: bool,
                       phase: Phase, cancelRequested: bool, responded: bool, home: nat)

  datatype Frame = TooBig | NotUtf8 | NotJson | Single(item: Message) | Batch(items: seq<Message>)

  datatype Progress = Gathering | Sending(replies: seq<Reply>) | Finished(replies: seq<Reply>) | Failed

  /** The task that waits for the calls of one frame and sends the reply to it. */
  datatype Collector = Collector(frame: Frame, items: seq<nat>, controls: seq<Reply>, batch: bool, progress: Progress)

  /** What is in the outgoing queue. */
  datatype Sent =
    | FromCollector(collector: nat, replies: seq<Reply>, batch: bool)
    | FromSession(call: nat, id: ReplyId)
    | Unsolicited

  /** The progress of the graceful part of a drain. */
  datatype Graceful =
    | Idle
    | StoppingEvents
    | AwaitingCalls(collectors: set<nat>)
    | AwaitingSubscriptions(producers: set<nat>)
    | StoppingReader(collectors: set<nat>)
    | Flushing(queued: nat)
    | Flushed(queued: nat)
    | RestartRequested

  /**
   `closed` holds the latched close code; while it is `None` the connection is open.
   `calls`, `collectors` and `outgoing` are all there ever were; `callTasks`, `tasks`, `reservations`, `requests` and
   `subscriptions` are the live collections of the source.
   */
  datatype State = State(
    limits: Limits, calls: seq<Call>, collectors: seq<Collector>, callTasks: set<nat>, tasks: set<nat>,
    reservations: set<nat>, requests: map<Key, nat>, subscriptions: set<nat>, closed: Option<CloseCode>,
    readerAlive: bool, writerAlive: bool, outgoing: seq<Sent>, taken: nat, handed: nat, draining: bool, graceful: Graceful)

  function Init(limits: Limits): State {
    State(limits, [], [], {}, {}, {}, map[], {}, None, true, true, [], 0, 0, false, Idle)
  }

  /** Ways for the coroutine of a started call to end. */
  datatype How = Returned | HandlerFailed(code: int) | DeadlineExpired | CancelledByClient | TornDown | MiddlewareFailed

  datatype CallEvent =
    | Start                             // the task of the call takes its first step
    | SessionResponds(producing: bool)  // the subscription session queued the response
    | Finish(how: How)                  // the coroutine of the call ends
    | CancelUnstarted                   // the task was cancelled before its first step
    | CallDone                          // its done callback runs

  datatype CollectorEvent =
    | Gather         // every call of the frame has ended
    | Queue          // the reply entered the outgoing queue
    | QueueBlocked   // the queue stayed full for the send timeout
    | Interrupt      // the collector was cancelled while closing
    | CollectorDone  // its done callback runs

  datatype SocketEvent =
    | Emit                          // a notification or a call to the client is queued
    | Take                          // the writer takes the next frame
    | HandOver                      // the socket accepted it
    | WriterFails(code: CloseCode)
    | RequestClose(code: CloseCode)
    | ReaderEnds
    | SubscriptionEnds(call: nat)

  datatype DrainEvent =
    | BeginDrain | StopEvents | EventsStopped | CallsGathered | ProducersFinished
    | ReaderStopped | QueueJoined | RequestRestart

  datatype Event =
    | Receive(frame: Frame)
    | OfCall(call: nat, callEvent: CallEvent)
    | OfCollector(collector: nat, collectorEvent: CollectorEvent)
    | OfSocket(socketEvent: SocketEvent)
    | OfDrain(drainEvent: DrainEvent)

  // ----- the close latch -----

  /** Only the first request is recorded. */
  function Close(s: State, code: CloseCode): State {
    if s.closed == None then s.(closed := Some(code)) else s
  }

  // ----- the reader -----

  /** A well-formed cancel notification reaches a call that is admitted, not cancelled yet and not done. */
  predicate Cancellable(s: State, target: Option<Key>) {
    target.Some? && target.value in s.requests && s.requests[target.value] < |s.calls|
    && var call := s.calls[s.requests[target.value]]; call.reserved && !call.cancelRequested && !call.phase.Ended?
  }

  function CancelCall(s: State, target: Option<Key>): State {
    if !Cancellable(s, target) then s
    else
      var c := s.requests[target.value];
      s.(calls := s.calls[c := s.calls[c].(cancelRequested := true)])
  }

  predicate CollectorsFull(s: State) {
    |s.tasks| >= s.limits.MaxCollectors()
  }

  /** The reader's progress through the items of one frame. */
  datatype Scanned = Scanned(state: State, items: seq<nat>, controls: seq<Reply>, stopped: bool)

  /** The id of a valid call is in flight already. */
  predicate IsDuplicate(s: State, m: Message) {
    CallKey(m).Some? && CallKey(m).value in s.requests
  }

  /** A new call with its reservation, if there is one, its task and its entry in the request table. */
  function AddCall(s: State, m: Message, batch: bool): State {
    var c, key, invalid := |s.calls|, CallKey(m), IsInvalidCall(m);
    var reserved := !invalid && !s.draining && |s.reservations| < s.limits.maxPending;
    var call := Call(m, reserved, invalid, batch, !invalid && s.draining, Created, false, false, |s.collectors|);
    s.(calls := s.calls + [call],
       callTasks := s.callTasks + {c},
       reservations := if reserved then s.reservations + {c} else s.reservations,
       requests := if key.Some? then s.requests[key.value := c] else s.requests)
  }

  function Admit(a: Scanned, m: Message, batch: bool): Scanned {
    if IsDuplicate(a.state, m) then a.(state := Close(a.state, ProtocolError), stopped := true)
    else a.(items := a.items + [|a.state.calls|], state := AddCall(a.state, m, batch))
  }

  function ScanItem(a: Scanned, m: Message, batch: bool, full: bool): Scanned {
    if IsClientResponse(m) then a
    else if IsCancelNotification(m) then a.(state := CancelCall(a.state, CancelTarget(m)))
    else if IsPing(m) then
      (match PingReply(m)
       case None => a
       case Some(reply) => a.(controls := a.controls + [reply]))
    else if full then a.(state := Close(a.state, PolicyViolation), stopped := true)
    else Admit(a, m, batch)
  }

  function Scan(a: Scanned, ms: seq<Message>, batch: bool, full: bool): Scanned {
    if ms == [] then a
    else
      var before := Scan(a, ms[..|ms| - 1], batch, full);
      if before.stopped then before else ScanItem(before, ms[|ms| - 1], batch, full)
  }

  /** Creating a collector; when there are too many the connection closes and the reader stops. */
  function AddCollector(s: State, collector: Collector): State {
    if CollectorsFull(s) then Close(s, PolicyViolation).(readerAlive := false)
    else s.(collectors := s.collectors + [collector], tasks := s.tasks + {|s.collectors|})
  }

  function RefusedFrame(s: State, frame: Frame, error: ErrorCode): State {
    AddCollector(s, Collector(frame, [], [Failure(NullReplyId, error)], false, Gathering))
  }

  function ItemsOf(frame: Frame): seq<Message> {
    match frame
    case Single(m) => [m]
    case Batch(ms) => ms
    case _ => []
  }

  function ReceiveItems(s: State, frame: Frame): State {
    var a := Scan(Scanned(s, [], [], false), ItemsOf(frame), frame.Batch?, CollectorsFull(s));
    if a.stopped then a.state.(readerAlive := false)
    else if a.items == [] && a.controls == [] then a.state
    else AddCollector(a.state, Collector(frame, a.items, a.controls, frame.Batch?, Gathering))
  }

  predicate BadBatch(limits: Limits, frame: Frame) {
    frame.Batch? && (frame.items == [] || |frame.items| > limits.maxBatch)
  }

  function ReceiveFrame(s: State, frame: Frame): State {
    match frame
    case TooBig => Close(s, MessageTooBig).(readerAlive := false)
    case NotUtf8 => Close(s, ProtocolError).(readerAlive := false)
    case NotJson => RefusedFrame(s, frame, ParseError)
    case _ => if BadBatch(s.limits, frame) then RefusedFrame(s, frame, InvalidRequest) else ReceiveItems(s, frame)
  }

  // ----- the calls -----

  /** Single-frame requests of the subscription methods answer through the session. */
  predicate IsSessionCall(limits: Limits, call: Call) {
    call.reserved && !call.batch && call.message.Object? && call.message.name.Named?
    && call.message.name.name in limits.subscriptionMethods
  }

  /** What makes the collector of a call fail: it crashed, or it was torn down without a cancellation by the client. */
  predicate FailedEnding(call: Call) {
    call.phase.Ended?
    && (call.phase.ending == Crashed
        || (call.phase.ending == Interrupted && (call.phase.started || !call.cancelRequested)))
  }

  /** When one call of a frame fails, the collector cancels those that have not ended. */
  predicate SiblingFailed(s: State, call: Call) {
    exists d :: 0 <= d < |s.calls| && s.calls[d].home == call.home && FailedEnding(s.calls[d])
  }

  predicate CanFinish(s: State, call: Call, how: How) {
    match how
    case Returned => !IsSessionCall(s.limits, call) || call.responded || call.message.id == NoIdMember
    case HandlerFailed(_) => call.reserved && !IsSessionCall(s.limits, call)
    case DeadlineExpired => call.reserved
    case CancelledByClient => call.reserved && call.cancelRequested && s.closed == None
    case TornDown => s.closed.Some? || SiblingFailed(s, call)
    case MiddlewareFailed => true
  }

  function EndingOf(limits: Limits, call: Call, how: How): Ending {
    var m := call.message;
    if how.TornDown? then Interrupted
    else if how.MiddlewareFailed? then Crashed
    else if call.invalid then Answered(FailureReply(m, InvalidRequest))
    else if call.shuttingDown then Answered(FailureReply(m, ServerShuttingDown))
    else if !call.reserved then Answered(FailureReply(m, PendingLimit))
    else if IsSessionCall(limits, call) && (call.responded || how.Returned?) then Answered(None)
    else match how
      case HandlerFailed(code) => Answered(FailureReply(m, HandlerError(code)))
      case DeadlineExpired => Answered(FailureReply(m, RequestTimeout))
      case CancelledByClient => Answered(FailureReply(m, RequestCancelled))
      case _ => Answered(SuccessReply(m))
  }

  function SetPhase(s: State, c: nat, phase: Phase): State
    requires c < |s.calls|
  {
    s.(calls := s.calls[c := s.calls[c].(phase := phase)])
  }

  function RemoveRequest(s: State, c: nat): map<Key, nat>
    requires c < |s.calls|
  {
    var key := CallKey(s.calls[c].message);
    if key.Some? && key.value in s.requests && s.requests[key.value] == c
    then s.requests - {key.value} else s.requests
  }

  // ----- the collectors -----

  predicate AllEnded(s: State, items: seq<nat>) {
    forall i :: 0 <= i < |items| ==> items[i] < |s.calls| && s.calls[items[i]].phase.Ended?
  }

  predicate AnyFailed(s: State, items: seq<nat>)
    requires AllEnded(s, items)
  {
    exists i :: 0 <= i < |items| && FailedEnding(s.calls[items[i]])
  }

  /** What the collector gets from a call; a call cancelled before its first step is answered here. */
  function Collected(call: Call): Option<Reply> {
    match call.phase
    case Ended(_, Answered(reply)) => reply
    case Ended(false, Interrupted) => if call.cancelRequested then FailureReply(call.message, RequestCancelled) else None
    case _ => None
  }

  function Responses(calls: seq<Call>, items: seq<nat>): seq<Reply>
    requires forall i :: 0 <= i < |items| ==> items[i] < |calls|
  {
    if items == [] then []
    else
      var rest := Responses(calls, items[..|items| - 1]);
      var reply := Collected(calls[items[|items| - 1]]);
      if reply.Some? then rest + [reply.value] else rest
  }

  function SetProgress(s: State, k: nat, progress: Progress): State
    requires k < |s.collectors|
  {
    s.(collectors := s.collectors[k := s.collectors[k].(progress := progress)])
  }

  function GatherReplies(s: State, k: nat): State
    requires k < |s.collectors| && AllEnded(s, s.collectors[k].items)
  {
    var collector := s.collectors[k];
    if s.closed.Some? || AnyFailed(s, collector.items) then SetProgress(s, k, Failed)
    else
      var replies := collector.controls + Responses(s.calls, collector.items);
      SetProgress(s, k, if replies == [] then Finished([]) else Sending(replies))
  }

  // ----- the outgoing queue -----

  /** The writer has taken the first `taken` frames out of the bounded queue and sent the first `handed`. */
  predicate HasRoom(s: State) {
    |s.outgoing| < s.taken + s.limits.maxQueue
  }

  // ----- the machine -----

  predicate CallEnabled(s: State, c: nat, e: CallEvent) {
    c < |s.calls| &&
    match e
    case Start => s.calls[c].phase == Created
    case SessionResponds(_) =>
      s.calls[c].phase == Running && IsSessionCall(s.limits, s.calls[c])
      && !s.calls[c].responded && s.calls[c].message.id != NoIdMember && HasRoom(s)
    case Finish(how) => s.calls[c].phase == Running && CanFinish(s, s.calls[c], how)
    case CancelUnstarted =>
      s.calls[c].phase == Created && (s.calls[c].cancelRequested || s.closed.Some? || SiblingFailed(s, s.calls[c]))
    case CallDone => c in s.callTasks && s.calls[c].phase.Ended?
  }

  function CallStep(s: State, c: nat, e: CallEvent): State
    requires CallEnabled(s, c, e)
  {
    match e
    case Start => SetPhase(s, c, Running)
    case SessionResponds(producing) =>
      s.(calls := s.calls[c := s.calls[c].(responded := true)],
         outgoing := s.outgoing + [FromSession(c, RequestId(s.calls[c].message))],
         subscriptions := if producing then s.subscriptions + {c} else s.subscriptions)
    case Finish(how) =>
      SetPhase(s, c, Ended(true, EndingOf(s.limits, s.calls[c], how))).(reservations := s.reservations - {c})
    case CancelUnstarted => SetPhase(s, c, Ended(false, Interrupted))
    case CallDone =>
      s.(callTasks := s.callTasks - {c}, reservations := s.reservations - {c}, requests := RemoveRequest(s, c))
  }

  predicate CollectorEnabled(s: State, k: nat, e: CollectorEvent) {
    k < |s.collectors| &&
    match e
    case Gather => s.collectors[k].progress == Gathering && AllEnded(s, s.collectors[k].items)
    case Queue => s.collectors[k].progress.Sending? && HasRoom(s)
    case QueueBlocked => s.collectors[k].progress.Sending?
    case Interrupt => s.closed.Some? && (s.collectors[k].progress.Sending? || s.collectors[k].progress.Gathering?)
    case CollectorDone =>
      // Callbacks run in the order in which their tasks ended: those of the calls come first.
      k in s.tasks && (s.collectors[k].progress.Finished? || s.collectors[k].progress.Failed?)
      && forall i :: 0 <= i < |s.collectors[k].items| ==> s.collectors[k].items[i] !in s.callTasks
  }

  function CollectorStep(s: State, k: nat, e: CollectorEvent): State
    requires CollectorEnabled(s, k, e)
  {
    var collector := s.collectors[k];
    match e
    case Gather => GatherReplies(s, k)
    case Queue =>
      SetProgress(s, k, Finished(collector.progress.replies))
        .(outgoing := s.outgoing + [FromCollector(k, collector.progress.replies, collector.batch)])
    case QueueBlocked => Close(SetProgress(s, k, Failed), PolicyViolation)
    case Interrupt => SetProgress(s, k, Failed)
    case CollectorDone =>
      var t := s.(tasks := s.tasks - {k});
      if collector.progress == Failed then Close(t, InternalError) else t
  }

  predicate SocketEnabled(s: State, e: SocketEvent) {
    match e
    case Emit => HasRoom(s)
    case Take => s.writerAlive && s.taken == s.handed && s.taken < |s.outgoing|
    case HandOver => s.writerAlive && s.handed < s.taken
    case WriterFails(_) => s.writerAlive
    case RequestClose(_) => true
    case ReaderEnds => s.closed.Some?
    case SubscriptionEnds(c) => c in s.subscriptions
  }

  function SocketStep(s: State, e: SocketEvent): State {
    match e
    case Emit => s.(outgoing := s.outgoing + [Unsolicited])
    case Take => s.(taken := s.taken + 1)
    case HandOver => s.(handed := s.handed + 1)
    case WriterFails(code) => Close(s, code).(writerAlive := false)
    case RequestClose(code) => Close(s, code)
    case ReaderEnds => s.(readerAlive := false)
    case SubscriptionEnds(c) => s.(subscriptions := s.subscriptions - {c})
  }

  /** What the drain waits for is over once the done callbacks of the awaited tasks have run. */
  predicate DrainEnabled(s: State, e: DrainEvent) {
    match e
    case BeginDrain => true
    case StopEvents => s.draining && s.graceful == Idle
    case EventsStopped => s.graceful == StoppingEvents
    case CallsGathered => s.graceful.AwaitingCalls? && s.graceful.collectors !! s.tasks
    case ProducersFinished => s.graceful.AwaitingSubscriptions? && s.graceful.producers !! s.subscriptions
    case ReaderStopped => s.graceful.StoppingReader? && s.graceful.collectors !! s.tasks
    case QueueJoined => s.graceful.Flushing? && (s.handed == |s.outgoing| || !s.writerAlive)
    case RequestRestart => s.graceful.Flushed?
  }

  function DrainStep(s: State, e: DrainEvent): State {
    match e
    case BeginDrain => s.(draining := true)
    case StopEvents => s.(graceful := StoppingEvents)
    case EventsStopped => s.(graceful := AwaitingCalls(s.tasks))
    case CallsGathered => s.(graceful := AwaitingSubscriptions(s.subscriptions))
    case ProducersFinished => s.(graceful := StoppingReader(s.tasks), readerAlive := false)
    case ReaderStopped => s.(graceful := Flushing(|s.outgoing|))
    case QueueJoined => s.(graceful := Flushed(|s.outgoing|))
    case RequestRestart => Close(s, ServiceRestart).(graceful := RestartRequested)
  }

  predicate Enabled(s: State, e: Event) {
    match e
    case Receive(_) => s.readerAlive
    case OfCall(c, ce) => CallEnabled(s, c, ce)
    case OfCollector(k, ke) => CollectorEnabled(s, k, ke)
    case OfSocket(se) => SocketEnabled(s, se)
    case OfDrain(de) => DrainEnabled(s, de)
  }

  function Step(s: State, e: Event): State
    requires Enabled(s, e)
  {
    match e
    case Receive(frame) => ReceiveFrame(s, frame)
    case OfCall(c, ce) => CallStep(s, c, ce)
    case OfCollector(k, ke) => CollectorStep(s, k, ke)
    case OfSocket(se) => SocketStep(s, se)
    case OfDrain(de) => DrainStep(s, de)
  }

  // ----- runs -----

  predicate IsRun(s: State, events: seq<Event>)
    decreases |events|
  {
    events == [] || (Enabled(s, events[0]) && IsRun(Step(s, events[0]), events[1..]))
  }

  function After(s: State, events: seq<Event>): State
    requires IsRun(s, events)
    decreases |events|
  {
    if events == [] then s else After(Step(s, events[0]), events[1..])
  }
}
