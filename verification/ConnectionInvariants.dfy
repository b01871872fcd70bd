/** What every step of the connection runtime keeps. */
module ConnectionInvariants {
  import opened Wrappers
  import opened Messages
  import opened ConnectionRuntime

  // ----- admission accounting -----

  /** Whether call `c` holds a reservation: until its coroutine ends, or its callback ran if it never started. */
  predicate Holds(s: State, c: nat)
    requires c < |s.calls|
  {
    s.calls[c].reserved
    && (!s.calls[c].phase.Ended? || (!s.calls[c].phase.started && c in s.callTasks))
  }

  ghost predicate Reservations(s: State) {
    && (forall c: nat :: c in s.reservations <==> c < |s.calls| && Holds(s, c))
    && |s.reservations| <= s.limits.maxPending
  }

  ghost predicate LiveCalls(s: State) {
    && (forall c :: c in s.callTasks ==> c < |s.calls|)
    && (forall c: nat :: c < |s.calls| && !s.calls[c].phase.Ended? ==> c in s.callTasks)
  }

  ghost predicate Requests(s: State) {
    && (forall key :: key in s.requests ==>
          s.requests[key] in s.callTasks && s.requests[key] < |s.calls| && CallKey(s.calls[s.requests[key]].message) == Some(key))
    && (forall c :: c in s.callTasks && c < |s.calls| && CallKey(s.calls[c].message).Some? ==>
          CallKey(s.calls[c].message).value in s.requests && s.requests[CallKey(s.calls[c].message).value] == c)
  }

  ghost predicate WellFormedCall(limits: Limits, call: Call) {
    && !IsControl(call.message)
    && (call.invalid <==> IsInvalidCall(call.message))
    && (call.reserved ==> !call.invalid && !call.shuttingDown)
    && (call.cancelRequested ==> call.reserved)
    && (call.responded ==> IsSessionCall(limits, call) && call.message.id != NoIdMember && Ran(call))
    && GoodEnding(call)
  }

  predicate Ran(call: Call) {
    call.phase == Running || (call.phase.Ended? && call.phase.started)
  }

  /** An answer has the id of its call, and only notifications and calls the session answered have none. */
  ghost predicate GoodEnding(call: Call) {
    call.phase.Ended? && call.phase.ending.Answered? ==>
      var reply := call.phase.ending.reply;
      if call.responded then reply == None
      else (reply.Some? <==> !LooksLikeNotification(call.message)) && (reply.Some? ==> reply.value.id == RequestId(call.message))
  }

  ghost predicate Calls(s: State) {
    forall c :: 0 <= c < |s.calls| ==> WellFormedCall(s.limits, s.calls[c])
  }

  // ----- bounded work -----

  /** The collector with index `|s.collectors|` is the one the frame being read will get. */
  ghost predicate Homes(s: State, loose: seq<nat>) {
    forall c :: c in s.callTasks && c < |s.calls| ==>
      var home := s.calls[c].home;
      if home < |s.collectors| then home in s.tasks && c in s.collectors[home].items
      else home == |s.collectors| && c in loose
  }

  ghost predicate Work(s: State) {
    && (forall k :: k in s.tasks ==> k < |s.collectors|)
    && |s.tasks| <= s.limits.MaxCollectors()
    && (forall k: nat :: k < |s.collectors| ==> |s.collectors[k].items| <= s.limits.MaxItems())
    && (forall k: nat :: k < |s.collectors| && k !in s.tasks ==> s.collectors[k].progress.Finished?)
  }

  ghost predicate Queued(s: State) {
    s.handed <= s.taken <= |s.outgoing| && |s.outgoing| <= s.taken + s.limits.maxQueue
  }

  // ----- one reply for a frame -----

  ghost predicate Watches(s: State, items: seq<nat>, ms: seq<Message>) {
    && |items| == |ms|
    && (forall i :: 0 <= i < |items| ==> items[i] < |s.calls| && s.calls[items[i]].message == ms[i])
  }

  /** The collector was created for its frame: for a refused frame it only holds the refusal. */
  ghost predicate Faithful(s: State, k: nat)
    requires k < |s.collectors|
  {
    var collector := s.collectors[k];
    || (collector.items == [] && collector.controls == Refusal(collector.frame)
        && (collector.frame == NotJson || BadBatch(s.limits, collector.frame)))
    || ((collector.frame.Single? || collector.frame.Batch?) && !BadBatch(s.limits, collector.frame)
        && collector.batch == collector.frame.Batch?
        && Watches(s, collector.items, CallsOf(ItemsOf(collector.frame)))
        && collector.controls == PingReplies(ItemsOf(collector.frame))
        && (forall i :: 0 <= i < |collector.items| ==> s.calls[collector.items[i]].batch == collector.batch))
  }

  /** The answer to a frame that is no JSON text, or no batch of an allowed size. */
  function Refusal(frame: Frame): (replies: seq<Reply>)
    ensures Ids(replies) == [NullReplyId]
  {
    var replies := [Failure(NullReplyId, if frame == NotJson then ParseError else InvalidRequest)];
    assert replies[..0] == [];
    replies
  }

  ghost predicate AnySessionAnswer(s: State, items: seq<nat>) {
    exists i :: 0 <= i < |items| && items[i] < |s.calls| && s.calls[items[i]].responded
  }

  /** The replies a collector is about to send, or has sent. */
  ghost predicate RightReplies(s: State, k: nat, replies: seq<Reply>)
    requires k < |s.collectors|
  {
    && AllEnded(s, s.collectors[k].items) && !AnyFailed(s, s.collectors[k].items)
    && replies == s.collectors[k].controls + Responses(s.calls, s.collectors[k].items)
    && if AnySessionAnswer(s, s.collectors[k].items) then replies == []
       else Ids(replies) == OwedBy(s.limits, s.collectors[k].frame)
  }

  function OwedBy(limits: Limits, frame: Frame): seq<ReplyId> {
    if frame.Single? || (frame.Batch? && !BadBatch(limits, frame)) then ExpectedIds(ItemsOf(frame)) else [NullReplyId]
  }

  ghost predicate RightCollector(s: State, k: nat)
    requires k < |s.collectors|
  {
    var progress := s.collectors[k].progress;
    && Faithful(s, k)
    && (progress.Sending? || progress.Finished? ==> RightReplies(s, k, progress.replies))
  }

  ghost predicate Collectors(s: State) {
    forall k: nat :: k < |s.collectors| ==> RightCollector(s, k)
  }

  /** The frames of collector `k` in the outgoing queue, oldest first. */
  function FramesOf(out: seq<Sent>, k: nat): seq<Sent> {
    if out == [] then []
    else
      var rest := FramesOf(out[..|out| - 1], k);
      var last := out[|out| - 1];
      if last.FromCollector? && last.collector == k then rest + [last] else rest
  }

  /** The responses the subscription session queued for call `c`. */
  function SessionAnswers(out: seq<Sent>, c: nat): seq<Sent> {
    if out == [] then []
    else
      var rest := SessionAnswers(out[..|out| - 1], c);
      var last := out[|out| - 1];
      if last.FromSession? && last.call == c then rest + [last] else rest
  }

  function FramesDue(s: State, k: nat): seq<Sent> {
    if k < |s.collectors| && s.collectors[k].progress.Finished? && s.collectors[k].progress.replies != []
    then [FromCollector(k, s.collectors[k].progress.replies, s.collectors[k].batch)] else []
  }

  function SessionAnswersDue(s: State, c: nat): seq<Sent> {
    if c < |s.calls| && s.calls[c].responded then [FromSession(c, RequestId(s.calls[c].message))] else []
  }

  ghost predicate Outgoing(s: State) {
    && (forall k: nat :: FramesOf(s.outgoing, k) == FramesDue(s, k))
    && (forall c: nat :: SessionAnswers(s.outgoing, c) == SessionAnswersDue(s, c))
    && (forall k :: 0 <= k < |s.collectors| && s.collectors[k].progress.Sending? ==> s.collectors[k].progress.replies != [])
  }

  /** A call of the frame with this collector crashed. */
  ghost predicate CrashedAt(s: State, home: nat) {
    exists d :: 0 <= d < |s.calls| && s.calls[d].home == home && s.calls[d].phase.Ended? && s.calls[d].phase.ending == Crashed
  }

  /**
   While the connection is open a call ends without an answer only when its client cancelled it before it started, or
   when a call of the same frame crashed.
   */
  ghost predicate NoSilentEnd(s: State) {
    forall c :: 0 <= c < |s.calls| && s.calls[c].phase.Ended? && s.calls[c].phase.ending == Interrupted ==>
      (!s.calls[c].phase.started && s.calls[c].cancelRequested) || CrashedAt(s, s.calls[c].home)
  }

  // ----- draining -----

  ghost predicate NoAdmittedCallLive(s: State) {
    forall c :: 0 <= c < |s.calls| && s.calls[c].reserved ==> s.calls[c].phase.Ended?
  }

  /** All replies are among the first `n` frames of the queue. */
  ghost predicate RepliesWithin(s: State, n: nat) {
    n <= |s.outgoing| && forall i :: n <= i < |s.outgoing| ==> s.outgoing[i].Unsolicited?
  }

  ghost predicate Draining(s: State) {
    && (s.graceful != Idle ==> s.draining)
    && (forall c :: c in s.subscriptions ==> c < |s.calls| && s.calls[c].reserved)
    && match s.graceful
       case AwaitingCalls(ks) =>
         forall c :: 0 <= c < |s.calls| && s.calls[c].reserved && !s.calls[c].phase.Ended? ==> s.calls[c].home in ks
       case AwaitingSubscriptions(producers) => NoAdmittedCallLive(s) && s.subscriptions <= producers
       case StoppingReader(ks) => NoAdmittedCallLive(s) && s.subscriptions == {} && !s.readerAlive && s.tasks <= ks
       case Flushing(n) => Quiet(s) && RepliesWithin(s, n)
       case Flushed(n) => Quiet(s) && RepliesWithin(s, n) && (s.handed >= n || !s.writerAlive)
       case _ => true
  }

  /** Nothing is left that could answer anything. */
  ghost predicate Quiet(s: State) {
    NoAdmittedCallLive(s) && s.subscriptions == {} && !s.readerAlive && s.tasks == {}
  }

  // ----- how calls change -----

  /** A call keeps what it was admitted with, and nothing changes once its task has ended. */
  predicate SameCall(a: Call, b: Call) {
    b == a.(phase := b.phase, responded := b.responded, cancelRequested := b.cancelRequested)
    && (a.phase.Ended? ==> b == a)
  }

  ghost predicate Evolved(before: seq<Call>, after: seq<Call>) {
    |before| <= |after| && forall c :: 0 <= c < |before| ==> SameCall(before[c], after[c])
  }

  // ----- the invariant -----

  /** What holds in every reachable state, open or closed. */
  ghost predicate Always(s: State) {
    Reservations(s) && LiveCalls(s) && Requests(s) && Calls(s) && Queued(s) && Outgoing(s)
    && (!s.writerAlive ==> s.closed.Some?)
  }

  /** What holds while no close has been requested; `loose` are the calls of the frame being read. */
  ghost predicate WhileOpen(s: State, loose: seq<nat>) {
    Homes(s, loose) && Work(s) && Collectors(s) && NoSilentEnd(s) && Draining(s)
  }

  ghost predicate Inv(s: State) {
    Always(s) && (s.closed == None ==> WhileOpen(s, []))
  }
}
