/** What holds over every run of the connection runtime. */
module ConnectionTheorems {
  import opened Wrappers
  import opened Messages
  import opened ConnectionRuntime
  import opened ConnectionInvariants
  import opened ConnectionSteps
  import opened ConnectionReader

  // ----- admission -----

  /**
   In every reachable state the reservations are exactly those of the admitted calls whose coroutine has not
   ended (for a call cancelled before its first step: whose callback has not run), never more than the limit.
   The request table maps each id to the one live call with it, and both are empty when no call is left.
   */
  lemma AdmissionAccounting(limits: Limits, events: seq<Event>)
    requires IsRun(Init(limits), events)
    ensures var s := After(Init(limits), events);
      && |s.reservations| <= limits.maxPending
      && (forall c: nat :: c in s.reservations <==>
            c < |s.calls| && s.calls[c].reserved
            && (!s.calls[c].phase.Ended? || (!s.calls[c].phase.started && c in s.callTasks)))
      && (forall key, c :: key in s.requests && s.requests[key] == c ==>
            c in s.callTasks && c < |s.calls| && CallKey(s.calls[c].message) == Some(key))
      && (forall c :: c in s.callTasks ==> c < |s.calls|)
      && (forall c :: c in s.callTasks && CallKey(s.calls[c].message).Some? ==>
            CallKey(s.calls[c].message).value in s.requests && s.requests[CallKey(s.calls[c].message).value] == c)
      && (s.callTasks == {} ==> s.reservations == {} && s.requests == map[])
  {
    InitHolds(limits);
    RunKeeps(Init(limits), events);
    var s := After(Init(limits), events);
    assert forall c: nat :: c in s.reservations ==> c < |s.calls| && Holds(s, c) && c in s.callTasks;
    assert forall key :: key in s.requests ==> s.requests[key] in s.callTasks;
  }

  // ----- bounded work -----

  lemma {:induction false} UnionIsSmall(collectors: seq<Collector>, ks: set<nat>, cs: set<nat>, bound: nat)
    requires forall k :: k in ks ==> k < |collectors| && |collectors[k].items| <= bound
    requires forall c :: c in cs ==> exists k :: k in ks && c in collectors[k].items
    ensures |cs| <= bound * |ks|
  {
    if ks == {} {
      assert cs == {};
    } else {
      var k :| k in ks;
      var mine := set c | c in cs && c in collectors[k].items;
      ElementsAreFew(collectors[k].items, mine);
      forall c | c in cs - mine ensures exists j :: j in ks - {k} && c in collectors[j].items {
        var j :| j in ks && c in collectors[j].items;
        assert j in ks - {k};
      }
      UnionIsSmall(collectors, ks - {k}, cs - mine, bound);
      assert |cs| == |mine| + |cs - mine|;
      assert |ks - {k}| == |ks| - 1;
      assert bound * |ks| == bound * (|ks| - 1) + bound;
    }
  }

  lemma {:induction false} ElementsAreFew(items: seq<nat>, cs: set<nat>)
    requires forall c :: c in cs ==> c in items
    ensures |cs| <= |items|
  {
    if items == [] {
      assert cs == {};
    } else {
      ElementsAreFew(items[1..], cs - {items[0]});
    }
  }

  /** For any input the live collectors, call tasks and queued frames are bounded by the configured limits. */
  lemma BoundedWork(limits: Limits, events: seq<Event>)
    requires IsRun(Init(limits), events)
    ensures var s := After(Init(limits), events);
      && |s.outgoing| - s.taken <= limits.maxQueue
      && (s.closed == None ==>
            && |s.tasks| <= limits.maxPending + limits.maxQueue
            && |s.callTasks| <= limits.MaxItems() * |s.tasks|)
  {
    InitHolds(limits);
    RunKeeps(Init(limits), events);
    var s := After(Init(limits), events);
    if s.closed == None {
      forall c | c in s.callTasks ensures exists k :: k in s.tasks && c in s.collectors[k].items {
        assert s.calls[c].home in s.tasks && c in s.collectors[s.calls[c].home].items;
      }
      UnionIsSmall(s.collectors, s.tasks, s.callTasks, limits.MaxItems());
    }
  }

  // ----- one reply for a frame -----

  /** Frames that need a task of their own: refused ones, and those with calls or answered pings. */
  predicate WantsCollector(limits: Limits, frame: Frame) {
    match frame
    case TooBig => false
    case NotUtf8 => false
    case NotJson => true
    case _ => BadBatch(limits, frame) || CallsOf(ItemsOf(frame)) != [] || PingIds(ItemsOf(frame)) != []
  }

  function FramesToAnswer(limits: Limits, events: seq<Event>): seq<Frame> {
    if events == [] then []
    else if events[0].Receive? && WantsCollector(limits, events[0].frame)
    then [events[0].frame] + FramesToAnswer(limits, events[1..])
    else FramesToAnswer(limits, events[1..])
  }

  function FramesCollected(s: State): seq<Frame> {
    seq(|s.collectors|, i requires 0 <= i < |s.collectors| => s.collectors[i].frame)
  }

  lemma AddCollectorCollects(s: State, collector: Collector)
    requires AddCollector(s, collector).closed == None
    ensures FramesCollected(AddCollector(s, collector)) == FramesCollected(s) + [collector.frame]
  {
  }

  lemma ItemsCollect(s: State, frame: Frame)
    requires Inv(s) && ReceiveItems(s, frame).closed == None && (frame.Single? || frame.Batch?)
    ensures FramesCollected(ReceiveItems(s, frame)) ==
      FramesCollected(s) + (if CallsOf(ItemsOf(frame)) != [] || PingIds(ItemsOf(frame)) != [] then [frame] else [])
  {
    var a := Scan(Scanned(s, [], [], false), ItemsOf(frame), frame.Batch?, CollectorsFull(s));
    ScanKeeps(s, ItemsOf(frame), frame.Batch?, CollectorsFull(s));
    assert FramesCollected(a.state) == FramesCollected(s);
    if a.items != [] || a.controls != [] {
      AddCollectorCollects(a.state, Collector(frame, a.items, a.controls, frame.Batch?, Gathering));
    }
  }

  lemma ReceiveCollects(s: State, frame: Frame)
    requires Inv(s) && s.readerAlive && ReceiveFrame(s, frame).closed == None
    ensures FramesCollected(ReceiveFrame(s, frame)) ==
      FramesCollected(s) + (if WantsCollector(s.limits, frame) then [frame] else [])
  {
    match frame
    case NotJson => AddCollectorCollects(s, Collector(frame, [], [Failure(NullReplyId, ParseError)], false, Gathering));
    case TooBig =>
    case NotUtf8 =>
    case _ =>
      if BadBatch(s.limits, frame) {
        AddCollectorCollects(s, Collector(frame, [], [Failure(NullReplyId, InvalidRequest)], false, Gathering));
      } else {
        ItemsCollect(s, frame);
      }
  }

  lemma CloseIsLatched(s: State, e: Event)
    requires Enabled(s, e) && s.closed.Some?
    ensures Step(s, e).closed == s.closed
  {
    hide CallStep, CollectorStep, SocketStep, Scan;
    match e
    case Receive(frame) => ClosedScan(s, ItemsOf(frame), frame.Batch?, CollectorsFull(s));
    case OfCall(c, ce) => CallStepFrame(s, c, ce);
    case OfCollector(k, ke) => CollectorStepFrame(s, k, ke);
    case OfSocket(se) => SocketStepFrame(s, se);
    case OfDrain(de) =>
  }

  lemma {:induction false} ClosedScan(s: State, ms: seq<Message>, batch: bool, full: bool)
    requires s.closed.Some?
    ensures Scan(Scanned(s, [], [], false), ms, batch, full).state.closed == s.closed
  {
    if ms != [] {
      ClosedScan(s, ms[..|ms| - 1], batch, full);
    }
  }

  /** The close that was requested first stands, whatever is requested later. */
  lemma {:induction false} FirstCloseStands(s: State, events: seq<Event>)
    requires IsRun(s, events) && s.closed.Some?
    ensures After(s, events).closed == s.closed
    decreases |events|
  {
    if events != [] {
      hide Step;
      CloseIsLatched(s, events[0]);
      FirstCloseStands(Step(s, events[0]), events[1..]);
    }
  }

  lemma OthersCollectNothing(s: State, e: Event)
    requires Enabled(s, e) && !e.Receive?
    ensures FramesCollected(Step(s, e)) == FramesCollected(s)
  {
    match e
    case OfCall(c, ce) => CallStepFrame(s, c, ce);
    case OfCollector(k, ke) => CollectorStepFrame(s, k, ke);
    case OfSocket(se) => SocketStepFrame(s, se);
    case OfDrain(de) => assert DrainStep(s, de).collectors == s.collectors;
  }

  lemma StepCollects(s: State, e: Event)
    requires Inv(s) && Enabled(s, e) && Step(s, e).closed == None
    ensures FramesCollected(Step(s, e)) ==
      FramesCollected(s) + (if e.Receive? && WantsCollector(s.limits, e.frame) then [e.frame] else [])
  {
    if e.Receive? {
      ReceiveCollects(s, e.frame);
    } else {
      OthersCollectNothing(s, e);
    }
  }

  lemma WasOpen(s: State, events: seq<Event>)
    requires IsRun(s, events) && After(s, events).closed == None
    ensures s.closed == None
  {
    if s.closed.Some? {
      FirstCloseStands(s, events);
    }
  }

  lemma {:induction false} RunCollects(s: State, events: seq<Event>)
    requires Inv(s) && IsRun(s, events) && After(s, events).closed == None
    ensures FramesCollected(After(s, events)) == FramesCollected(s) + FramesToAnswer(s.limits, events)
    decreases |events|
  {
    hide Inv, Step, FramesCollected, WantsCollector;
    if events != [] {
      var t := Step(s, events[0]);
      StepKeeps(s, events[0]);
      StepKeepsLimits(s, events[0]);
      WasOpen(t, events[1..]);
      RunCollects(t, events[1..]);
      StepCollects(s, events[0]);
    }
  }

  /**
   The ids due to a frame: null for one that is refused as a whole, else those of its pings and then those of its other
   items, each of them read off the `id` member of the item.
   */
  function DueToFrame(limits: Limits, frame: Frame): seq<ReplyId> {
    match frame
    case NotJson => [NullReplyId]
    case Single(m) => IdsDue(m)
    case Batch(ms) =>
      if |ms| == 0 || |ms| > limits.maxBatch then [NullReplyId] else IdsDueTo(ms, true) + IdsDueTo(ms, false)
    case _ => []
  }

  lemma OwedIsDue(limits: Limits, frame: Frame)
    requires !frame.TooBig? && !frame.NotUtf8?
    ensures OwedBy(limits, frame) == DueToFrame(limits, frame)
  {
    if frame.Batch? {
      FrameEchoesItsIds(frame.items);
    } else if frame.Single? {
      FrameEchoesItsIds([frame.item]);
      IdsOfOneItem(frame.item);
    }
  }

  lemma IdsOfOneItem(m: Message)
    ensures IdsDueTo([m], true) + IdsDueTo([m], false) == IdsDue(m)
  {
    assert [m][..0] == [];
    assert IdsDueTo([m], true) == if m.Object? && m.name == Named("$/ping") then IdsDue(m) else [];
    assert IdsDueTo([m], false) == if m.Object? && m.name == Named("$/ping") then [] else IdsDue(m);
  }

  /** The single request a subscription session answered in place of the collector. */
  ghost predicate AnsweredBySession(s: State, k: nat)
    requires k < |s.collectors|
  {
    var collector := s.collectors[k];
    collector.frame.Single? && collector.items != [] && collector.items[0] < |s.calls|
    && SessionAnswers(s.outgoing, collector.items[0]) == [FromSession(collector.items[0], EchoOf(collector.frame.item))]
    && IdsDue(collector.frame.item) == [EchoOf(collector.frame.item)]
  }

  /**
   While the connection is open, in every run: the frames that need an answer have one collector each, in the
   order in which they were read; an unfinished collector has sent nothing; a finished one has sent nothing if its
   frame is owed nothing, and otherwise exactly one reply, which holds the ping responses and then one response
   for every call that is not a notification, in item order and each with the text or number of its item's `id`. For
   a subscription request the one response may instead be queued by the session.
   */
  lemma OneReplyForEachFrame(limits: Limits, events: seq<Event>)
    requires IsRun(Init(limits), events) && After(Init(limits), events).closed == None
    ensures var s := After(Init(limits), events);
      && FramesCollected(s) == FramesToAnswer(limits, events)
      && forall k: nat :: k < |s.collectors| ==>
           var sent, owed := FramesOf(s.outgoing, k), DueToFrame(limits, s.collectors[k].frame);
           if !s.collectors[k].progress.Finished? || owed == [] then sent == []
           else (|sent| == 1 && sent[0].FromCollector? && Ids(sent[0].replies) == owed) || (sent == [] && AnsweredBySession(s, k))
  {
    InitHolds(limits);
    RunKeeps(Init(limits), events);
    RunCollects(Init(limits), events);
    var s := After(Init(limits), events);
    hide Inv, FramesOf, Ids, AnsweredBySession, DueToFrame, FramesCollected, FramesToAnswer, IsRun, After;
    forall k: nat | k < |s.collectors|
      ensures var sent, owed := FramesOf(s.outgoing, k), DueToFrame(limits, s.collectors[k].frame);
           if !s.collectors[k].progress.Finished? || owed == [] then sent == []
           else (|sent| == 1 && sent[0].FromCollector? && Ids(sent[0].replies) == owed) || (sent == [] && AnsweredBySession(s, k))
    {
      CollectorAnswersOnce(s, k);
    }
  }

  lemma CollectorAnswersOnce(s: State, k: nat)
    requires Inv(s) && s.closed == None && k < |s.collectors|
    ensures var sent, owed := FramesOf(s.outgoing, k), DueToFrame(s.limits, s.collectors[k].frame);
      if !s.collectors[k].progress.Finished? || owed == [] then sent == []
      else (|sent| == 1 && sent[0].FromCollector? && Ids(sent[0].replies) == owed) || (sent == [] && AnsweredBySession(s, k))
  {
    assert RightCollector(s, k) && FramesOf(s.outgoing, k) == FramesDue(s, k) && Outgoing(s) && Calls(s);
    hide Inv, FramesOf, DueToFrame, OwedBy, AnsweredBySession, Calls, Outgoing, Responses;
    OwedIsDue(s.limits, s.collectors[k].frame);
    if s.collectors[k].progress.Finished? && AnySessionAnswer(s, s.collectors[k].items) {
      SessionAnswered(s, k);
    }
  }

  lemma SessionAnswered(s: State, k: nat)
    requires Outgoing(s) && Calls(s) && k < |s.collectors| && Faithful(s, k) && AnySessionAnswer(s, s.collectors[k].items)
    ensures AnsweredBySession(s, k)
  {
    SessionAnswersSingles(s, k);
    var c := s.collectors[k].items[0];
    assert SessionAnswers(s.outgoing, c) == SessionAnswersDue(s, c);
    assert WellFormedCall(s.limits, s.calls[c]);
    hide Outgoing, Calls, Faithful, AnySessionAnswer, SessionAnswers;
    SessionCallIsDue(s.limits, s.calls[c]);
  }

  /** A request that the session answered has an id, and is owed one answer with it. */
  lemma SessionCallIsDue(limits: Limits, call: Call)
    requires WellFormedCall(limits, call) && call.responded
    ensures RequestId(call.message) == EchoOf(call.message) && IdsDue(call.message) == [EchoOf(call.message)]
  {
  }

  // ----- drain -----

  /** Once draining has started no call gets a reservation. */
  lemma DrainingAdmitsNothing(s: State, e: Event)
    requires Enabled(s, e) && s.draining
    ensures Step(s, e).draining && Step(s, e).reservations <= s.reservations
  {
    hide CallStep, CollectorStep, SocketStep, ReceiveFrame, CallEnabled, CollectorEnabled, SocketEnabled;
    match e
    case Receive(frame) => DrainingReceive(s, frame);
    case OfCollector(k, ke) => CollectorStepFrame(s, k, ke);
    case OfSocket(se) => SocketStepFrame(s, se);
    case OfCall(c, ce) => CallStepFrame(s, c, ce);
    case OfDrain(de) =>
  }

  lemma DrainingReceive(s: State, frame: Frame)
    requires s.draining
    ensures ReceiveFrame(s, frame).draining && ReceiveFrame(s, frame).reservations == s.reservations
  {
    hide Scan, BadBatch, AddCollector;
    DrainingScan(s, ItemsOf(frame), frame.Batch?, CollectorsFull(s));
    var a := Scan(Scanned(s, [], [], false), ItemsOf(frame), frame.Batch?, CollectorsFull(s));
    CollectorTakesNothing(s, Collector(frame, [], [Failure(NullReplyId, ParseError)], false, Gathering));
    CollectorTakesNothing(s, Collector(frame, [], [Failure(NullReplyId, InvalidRequest)], false, Gathering));
    CollectorTakesNothing(a.state, Collector(frame, a.items, a.controls, frame.Batch?, Gathering));
  }

  lemma CollectorTakesNothing(s: State, collector: Collector)
    ensures AddCollector(s, collector).draining == s.draining && AddCollector(s, collector).reservations == s.reservations
  {
  }

  lemma {:induction false} DrainingScan(s: State, ms: seq<Message>, batch: bool, full: bool)
    requires s.draining
    ensures var t := Scan(Scanned(s, [], [], false), ms, batch, full).state; t.draining && t.reservations == s.reservations
  {
    if ms != [] {
      DrainingScan(s, ms[..|ms| - 1], batch, full);
    }
  }

  /**
   When the graceful part of a drain is what closes the connection, every admitted call has ended, every
   subscription producer has ended, every frame read has been answered in full, and the socket has
   accepted every reply and everything else that was queued when the queue was joined.
   */
  lemma GracefulRestartLosesNothing(limits: Limits, events: seq<Event>)
    requires IsRun(Init(limits), events)
    requires var s := After(Init(limits), events); s.closed == None && DrainEnabled(s, RequestRestart)
    ensures var s := After(Init(limits), events);
      && DrainStep(s, RequestRestart).closed == Some(ServiceRestart)
      && s.draining && !s.readerAlive && s.subscriptions == {} && s.tasks == {}
      && (forall c :: 0 <= c < |s.calls| && s.calls[c].reserved ==> s.calls[c].phase.Ended?)
      && FramesCollected(s) == FramesToAnswer(limits, events)
      && (forall k :: 0 <= k < |s.collectors| ==> s.collectors[k].progress.Finished?)
      && s.graceful.queued <= s.handed
      && (forall i :: 0 <= i < |s.outgoing| && !s.outgoing[i].Unsolicited? ==> i < s.handed)
  {
    InitHolds(limits);
    RunKeeps(Init(limits), events);
    RunCollects(Init(limits), events);
  }
}
