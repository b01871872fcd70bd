/** Which answer a call gets: every answer of every run is explained by what was decided when the call was admitted. */
module ConnectionAnswers {
  import opened Wrappers
  import opened Messages
  import opened ConnectionRuntime
  import opened ConnectionInvariants
  import opened ConnectionReader
  import opened ConnectionSteps

  /** Why a call may be answered with this reply. */
  predicate Explains(call: Call, reply: Reply) {
    && (reply.Success? ==> call.reserved)
    && (reply.Failure? ==>
          && (reply.error == InvalidRequest <==> call.invalid)
          && (reply.error == ServerShuttingDown <==> !call.invalid && call.shuttingDown)
          && (reply.error == PendingLimit <==> !call.invalid && !call.shuttingDown && !call.reserved)
          && (reply.error == RequestCancelled ==> call.reserved && call.cancelRequested)
          && (reply.error == RequestTimeout || reply.error.HandlerError? ==> call.reserved)
          && reply.error != ParseError)
  }

  ghost predicate Fits(call: Call) {
    && (call.reserved ==> !call.invalid && !call.shuttingDown)
    && (call.phase.Ended? && call.phase.ending.Answered? && call.phase.ending.reply.Some? ==>
          Explains(call, call.phase.ending.reply.value))
  }

  ghost predicate AllFit(calls: seq<Call>) {
    forall c :: 0 <= c < |calls| ==> Fits(calls[c])
  }

  lemma CallStepFits(s: State, c: nat, e: CallEvent)
    requires AllFit(s.calls) && CallEnabled(s, c, e)
    ensures AllFit(CallStep(s, c, e).calls)
  {
  }

  lemma CancelFits(s: State, target: Option<Key>)
    requires AllFit(s.calls)
    ensures AllFit(CancelCall(s, target).calls)
  {
  }

  lemma AdmitFits(a: Scanned, m: Message, batch: bool)
    requires AllFit(a.state.calls)
    ensures AllFit(Admit(a, m, batch).state.calls)
  {
    hide IsInvalidCall, CallKey;
  }

  lemma ScanItemFits(a: Scanned, m: Message, batch: bool, full: bool)
    requires AllFit(a.state.calls)
    ensures AllFit(ScanItem(a, m, batch, full).state.calls)
  {
    hide AllFit, CancelCall, Admit;
    if IsCancelNotification(m) {
      CancelFits(a.state, CancelTarget(m));
    }
    AdmitFits(a, m, batch);
  }

  lemma {:induction false} ScanFits(a: Scanned, ms: seq<Message>, batch: bool, full: bool)
    requires AllFit(a.state.calls)
    ensures AllFit(Scan(a, ms, batch, full).state.calls)
  {
    if ms != [] {
      ScanFits(a, ms[..|ms| - 1], batch, full);
      ScanItemFits(Scan(a, ms[..|ms| - 1], batch, full), ms[|ms| - 1], batch, full);
    }
  }

  lemma ReceiveFits(s: State, frame: Frame)
    requires AllFit(s.calls)
    ensures AllFit(ReceiveFrame(s, frame).calls)
  {
    hide Scan, AllFit, BadBatch, AddCollector;
    ScanFits(Scanned(s, [], [], false), ItemsOf(frame), frame.Batch?, CollectorsFull(s));
    var a := Scan(Scanned(s, [], [], false), ItemsOf(frame), frame.Batch?, CollectorsFull(s));
    CollectorKeepsItsCalls(s, Collector(frame, [], [Failure(NullReplyId, ParseError)], false, Gathering));
    CollectorKeepsItsCalls(s, Collector(frame, [], [Failure(NullReplyId, InvalidRequest)], false, Gathering));
    CollectorKeepsItsCalls(a.state, Collector(frame, a.items, a.controls, frame.Batch?, Gathering));
  }

  lemma StepFits(s: State, e: Event)
    requires AllFit(s.calls) && Enabled(s, e)
    ensures AllFit(Step(s, e).calls)
  {
    hide CallStep, CallEnabled, CollectorStep, CollectorEnabled, SocketStep, SocketEnabled, ReceiveFrame, AllFit;
    match e
    case Receive(frame) => ReceiveFits(s, frame);
    case OfCall(c, ce) => CallStepFits(s, c, ce);
    case OfCollector(k, ke) => CollectorStepFrame(s, k, ke);
    case OfSocket(se) => SocketStepFrame(s, se);
    case OfDrain(_) =>
  }

  lemma {:induction false} RunFits(s: State, events: seq<Event>)
    requires AllFit(s.calls) && IsRun(s, events)
    ensures AllFit(After(s, events).calls)
    decreases |events|
  {
    hide Step, Enabled, AllFit;
    if events != [] {
      StepFits(s, events[0]);
      RunFits(Step(s, events[0]), events[1..]);
    }
  }

  /**
   In every run: a call is answered with success, a handler's error or a timeout only when it was admitted, with a
   cancellation only when its client cancelled it, and with each of the three refusals exactly when it was refused for
   that reason.
   */
  lemma AnswersAreExplained(limits: Limits, events: seq<Event>, c: nat)
    requires IsRun(Init(limits), events) && c < |After(Init(limits), events).calls|
    ensures var call := After(Init(limits), events).calls[c];
      call.phase.Ended? && call.phase.ending.Answered? && call.phase.ending.reply.Some? ==>
        Explains(call, call.phase.ending.reply.value)
  {
    RunFits(Init(limits), events);
    assert Fits(After(Init(limits), events).calls[c]);
  }

  // ----- what is sent -----

  /**
   The response a collector got from a call: the answer of the call itself, or the cancellation that the collector
   reports for a call that its client cancelled before it started.
   */
  predicate ExplainsCollected(call: Call, reply: Reply) {
    && call.phase.Ended? && reply.id == RequestId(call.message)
    && (if call.phase.ending.Answered? then call.phase.ending.reply == Some(reply) && Explains(call, reply)
        else reply.Failure? && reply.error == RequestCancelled && !call.phase.started && call.reserved && call.cancelRequested)
  }

  lemma CollectedIsExplained(limits: Limits, call: Call)
    requires WellFormedCall(limits, call) && Fits(call) && call.phase.Ended? && !FailedEnding(call) && Collected(call).Some?
    ensures ExplainsCollected(call, Collected(call).value)
  {
  }

  /** The replies that a finished collector owes: the refusal, or the ping responses and what it got from the calls. */
  function RepliesDue(s: State, k: nat): seq<Reply>
    requires k < |s.collectors|
    requires forall i :: 0 <= i < |s.collectors[k].items| ==> s.collectors[k].items[i] < |s.calls|
  {
    var frame := s.collectors[k].frame;
    if frame == NotJson || BadBatch(s.limits, frame) then Refusal(frame)
    else PingReplies(ItemsOf(frame)) + Responses(s.calls, s.collectors[k].items)
  }

  lemma FinishedMeansRight(s: State, k: nat)
    requires Inv(s) && s.closed == None && k < |s.collectors| && s.collectors[k].progress.Finished?
    ensures var collector := s.collectors[k];
      && Faithful(s, k) && AllEnded(s, collector.items) && !AnyFailed(s, collector.items)
      && collector.progress.replies == collector.controls + Responses(s.calls, collector.items)
      && FramesOf(s.outgoing, k) == FramesDue(s, k)
  {
    assert RightCollector(s, k);
  }

  /** The calls of a frame, and none for a batch of a size that is refused. */
  function CallsOfFrame(limits: Limits, frame: Frame): seq<Message> {
    if BadBatch(limits, frame) then [] else CallsOf(ItemsOf(frame))
  }

  lemma FaithfulMeansDue(s: State, k: nat)
    requires k < |s.collectors| && Faithful(s, k) && AllEnded(s, s.collectors[k].items)
    ensures Watches(s, s.collectors[k].items, CallsOfFrame(s.limits, s.collectors[k].frame))
    ensures RepliesDue(s, k) == s.collectors[k].controls + Responses(s.calls, s.collectors[k].items)
    ensures CallsOfFrame(s.limits, s.collectors[k].frame) != [] ==> s.collectors[k].batch == s.collectors[k].frame.Batch?
  {
    hide PingReplies;
  }

  /** A finished collector has sent exactly what is due, and nothing else. */
  lemma FinishedSendsWhatIsDue(s: State, k: nat)
    requires Inv(s) && s.closed == None && k < |s.collectors| && s.collectors[k].progress.Finished?
    ensures AllEnded(s, s.collectors[k].items)
    ensures Watches(s, s.collectors[k].items, CallsOfFrame(s.limits, s.collectors[k].frame))
    ensures FramesOf(s.outgoing, k)
      == if RepliesDue(s, k) == [] then [] else [FromCollector(k, RepliesDue(s, k), s.collectors[k].batch)]
    ensures CallsOfFrame(s.limits, s.collectors[k].frame) != [] ==> s.collectors[k].batch == s.collectors[k].frame.Batch?
  {
    FinishedMeansRight(s, k);
    hide Inv, Faithful, RepliesDue, Watches, Responses;
    FaithfulMeansDue(s, k);
  }

  lemma ItemIsExplained(s: State, k: nat, i: nat)
    requires Inv(s) && AllFit(s.calls) && s.closed == None && k < |s.collectors| && s.collectors[k].progress.Finished?
    requires i < |s.collectors[k].items| && s.collectors[k].items[i] < |s.calls|
    requires Collected(s.calls[s.collectors[k].items[i]]).Some?
    ensures ExplainsCollected(s.calls[s.collectors[k].items[i]], Collected(s.calls[s.collectors[k].items[i]]).value)
  {
    FinishedMeansRight(s, k);
    var call := s.calls[s.collectors[k].items[i]];
    assert WellFormedCall(s.limits, call) && Fits(call) && !FailedEnding(call);
    hide Inv, WellFormedCall, Fits, FailedEnding, Explains;
    CollectedIsExplained(s.limits, call);
  }

  /**
   While the connection is open, in every run: the calls a collector waits for are the calls of its frame, in item
   order. When it has finished, the frame it sent, if it owed any, holds exactly the refusal, or the responses to the
   pings and then the responses of those calls; and each of them is explained by its call.
   */
  lemma SentRepliesAreExplained(limits: Limits, events: seq<Event>, k: nat)
    requires IsRun(Init(limits), events) && After(Init(limits), events).closed == None
    requires k < |After(Init(limits), events).collectors|
    requires After(Init(limits), events).collectors[k].progress.Finished?
    ensures var s := After(Init(limits), events);
      var collector := s.collectors[k];
      && AllEnded(s, collector.items)
      && Watches(s, collector.items, CallsOfFrame(limits, collector.frame))
      && FramesOf(s.outgoing, k) == (if RepliesDue(s, k) == [] then [] else [FromCollector(k, RepliesDue(s, k), collector.batch)])
      && (CallsOfFrame(limits, collector.frame) != [] ==> collector.batch == collector.frame.Batch?)
      && (forall i :: 0 <= i < |collector.items| && Collected(s.calls[collector.items[i]]).Some? ==>
            ExplainsCollected(s.calls[collector.items[i]], Collected(s.calls[collector.items[i]]).value))
  {
    hide CallsOfFrame, Inv, AllFit, RepliesDue, Watches, Collected, ExplainsCollected, FramesOf, IsRun, After;
    EmptyFits(limits);
    InitHolds(limits);
    RunKeeps(Init(limits), events);
    RunFits(Init(limits), events);
    var s := After(Init(limits), events);
    FinishedSendsWhatIsDue(s, k);
    forall i | 0 <= i < |s.collectors[k].items| && Collected(s.calls[s.collectors[k].items[i]]).Some?
      ensures ExplainsCollected(s.calls[s.collectors[k].items[i]], Collected(s.calls[s.collectors[k].items[i]]).value)
    {
      ItemIsExplained(s, k, i);
    }
  }

  lemma EmptyFits(limits: Limits)
    ensures AllFit(Init(limits).calls)
  {
  }

  /**
   While the connection is open, in every run: a call ends with an answer or a crash, unless its client cancelled it
   before it started or a call of the same frame crashed.
   */
  lemma CallsEndForAReason(limits: Limits, events: seq<Event>, c: nat)
    requires IsRun(Init(limits), events) && After(Init(limits), events).closed == None
    requires c < |After(Init(limits), events).calls| && After(Init(limits), events).calls[c].phase.Ended?
    ensures var s := After(Init(limits), events);
      s.calls[c].phase.ending != Interrupted
      || (!s.calls[c].phase.started && s.calls[c].cancelRequested) || CrashedAt(s, s.calls[c].home)
  {
    InitHolds(limits);
    RunKeeps(Init(limits), events);
  }
}
