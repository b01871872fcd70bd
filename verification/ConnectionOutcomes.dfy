/** What the server decides, stated on the items themselves: who is admitted, how calls end, and why a connection closes. */
module ConnectionOutcomes {
  import opened Wrappers
  import opened Messages
  import opened ConnectionRuntime
  import opened ConnectionInvariants
  import opened ConnectionSteps
  import opened ConnectionReader

  // ----- how a call ends -----

  /** A notification is never answered. */
  predicate Unanswered(m: Message) {
    m.Object? && m.id == NoIdMember && m.version2 && m.name.Named?
  }

  /** A request of a subscription method outside a batch: the session has answered it, or had nothing to answer. */
  predicate LeftToSession(limits: Limits, call: Call, how: How) {
    call.reserved && !call.batch && call.message.Object? && call.message.name.Named?
    && call.message.name.name in limits.subscriptionMethods && (call.responded || how == Returned)
  }

  /** What the end of a call's coroutine means for its answer. */
  predicate Tells(limits: Limits, call: Call, how: How, ending: Ending) {
    if how == TornDown then ending == Interrupted
    else if how == MiddlewareFailed then ending == Crashed
    else if LeftToSession(limits, call, how) || Unanswered(call.message) then ending == Answered(None)
    else if call.reserved then
      ending == Answered(Some(
        match how
        case Returned => Success(EchoOf(call.message))
        case HandlerFailed(code) => Failure(EchoOf(call.message), HandlerError(code))
        case DeadlineExpired => Failure(EchoOf(call.message), RequestTimeout)
        case _ => Failure(EchoOf(call.message), RequestCancelled)))
    else
      ending == Answered(Some(Failure(EchoOf(call.message),
        if IsInvalidCall(call.message) then InvalidRequest else if call.shuttingDown then ServerShuttingDown else PendingLimit)))
  }

  /** An admitted call ends with what its handler, its deadline or its client did, and a refused one with its refusal. */
  lemma FinishTells(s: State, c: nat, how: How)
    requires Inv(s) && Enabled(s, OfCall(c, Finish(how)))
    ensures c < |Step(s, OfCall(c, Finish(how))).calls|
    ensures var call := Step(s, OfCall(c, Finish(how))).calls[c];
      call.phase.Ended? && call.phase.started && Tells(s.limits, call, how, call.phase.ending)
  {
    assert WellFormedCall(s.limits, s.calls[c]);
  }

  // ----- what ended once stays ended -----

  lemma EvolvedTwice(a: seq<Call>, b: seq<Call>, c: seq<Call>)
    requires Evolved(a, b) && Evolved(b, c)
    ensures Evolved(a, c)
  {
    forall i | 0 <= i < |a| ensures SameCall(a[i], c[i]) {
      assert SameCall(a[i], b[i]) && SameCall(b[i], c[i]);
    }
  }

  lemma ItemEvolves(a: Scanned, m: Message, batch: bool, full: bool)
    ensures Evolved(a.state.calls, ScanItem(a, m, batch, full).state.calls)
  {
    hide Admit, CancelCall, CancelTarget, PingReply;
    if IsCancelNotification(m) {
      CancelFrame(a.state, CancelTarget(m));
    }
    AdmitAddsOne(a, m, batch);
  }

  /** An admission keeps the calls there are, and adds at most one that has not ended. */
  lemma AdmitAddsOne(a: Scanned, m: Message, batch: bool)
    ensures var calls := Admit(a, m, batch).state.calls;
      calls == a.state.calls || (calls != [] && calls[..|calls| - 1] == a.state.calls && !calls[|calls| - 1].phase.Ended?)
    ensures Evolved(a.state.calls, Admit(a, m, batch).state.calls)
  {
    hide IsInvalidCall, CallKey;
  }

  lemma {:induction false} ScanEvolves(a: Scanned, ms: seq<Message>, batch: bool, full: bool)
    ensures Evolved(a.state.calls, Scan(a, ms, batch, full).state.calls)
  {
    if ms != [] {
      hide Evolved, ScanItem;
      var before := Scan(a, ms[..|ms| - 1], batch, full);
      ScanEvolves(a, ms[..|ms| - 1], batch, full);
      if !before.stopped {
        ItemEvolves(before, ms[|ms| - 1], batch, full);
        EvolvedTwice(a.state.calls, before.state.calls, Scan(a, ms, batch, full).state.calls);
      }
    } else {
      assert Evolved(a.state.calls, a.state.calls);
    }
  }

  lemma ReceiveEvolves(s: State, frame: Frame)
    ensures Evolved(s.calls, ReceiveFrame(s, frame).calls)
  {
    hide Scan, BadBatch, AddCollector, Evolved;
    var a := Scan(Scanned(s, [], [], false), ItemsOf(frame), frame.Batch?, CollectorsFull(s));
    ScanEvolves(Scanned(s, [], [], false), ItemsOf(frame), frame.Batch?, CollectorsFull(s));
    ReceiveTakesScan(s, frame);
    NothingEvolves(s.calls);
  }

  lemma NothingEvolves(calls: seq<Call>)
    ensures Evolved(calls, calls) && NoneEnds(calls, calls)
  {
  }

  /** A frame changes the calls as the scan of its items does, or not at all. */
  lemma ReceiveTakesScan(s: State, frame: Frame)
    ensures ReceiveFrame(s, frame).calls == s.calls
      || ReceiveFrame(s, frame).calls == Scan(Scanned(s, [], [], false), ItemsOf(frame), frame.Batch?, CollectorsFull(s)).state.calls
  {
    hide Scan, BadBatch, AddCollector;
    var a := Scan(Scanned(s, [], [], false), ItemsOf(frame), frame.Batch?, CollectorsFull(s));
    CollectorKeepsItsCalls(s, Collector(frame, [], [Failure(NullReplyId, ParseError)], false, Gathering));
    CollectorKeepsItsCalls(s, Collector(frame, [], [Failure(NullReplyId, InvalidRequest)], false, Gathering));
    CollectorKeepsItsCalls(a.state, Collector(frame, a.items, a.controls, frame.Batch?, Gathering));
  }

  lemma StepEvolves(s: State, e: Event)
    requires Enabled(s, e)
    ensures Evolved(s.calls, Step(s, e).calls)
  {
    hide CallStep, CollectorStep, SocketStep, ReceiveFrame, CallEnabled, CollectorEnabled, SocketEnabled;
    match e
    case Receive(frame) => ReceiveEvolves(s, frame);
    case OfCall(c, ce) => CallStepFrame(s, c, ce);
    case OfCollector(k, ke) => CollectorStepFrame(s, k, ke);
    case OfSocket(se) => SocketStepFrame(s, se);
    case OfDrain(_) =>
  }

  lemma {:induction false} EndedStays(s: State, events: seq<Event>, c: nat)
    requires IsRun(s, events) && c < |s.calls| && s.calls[c].phase.Ended?
    ensures c < |After(s, events).calls| && After(s, events).calls[c] == s.calls[c]
    decreases |events|
  {
    hide Step, Enabled;
    if events != [] {
      StepEvolves(s, events[0]);
      assert SameCall(s.calls[c], Step(s, events[0]).calls[c]);
      EndedStays(Step(s, events[0]), events[1..], c);
    }
  }

  /** A started call ends in the step that ends its coroutine. */
  lemma StartedCallsEndByFinish(s: State, e: Event, c: nat)
    requires Enabled(s, e) && c < |Step(s, e).calls|
    requires Step(s, e).calls[c].phase.Ended? && Step(s, e).calls[c].phase.started
    requires c >= |s.calls| || !s.calls[c].phase.Ended?
    ensures exists how :: e == OfCall(c, Finish(how))
  {
    hide ReceiveFrame, CallStep, CallEnabled, CollectorStep, CollectorEnabled, SocketStep, SocketEnabled;
    match e
    case Receive(frame) => NewCallsAreLive(s, frame, c);
    case OfCall(d, ce) =>
      OnlyFinishEnds(s, d, ce, c);
      assert e == OfCall(c, Finish(ce.how));
    case OfCollector(k, ke) => CollectorStepFrame(s, k, ke);
    case OfSocket(se) => SocketStepFrame(s, se);
    case OfDrain(_) =>
  }

  lemma OnlyFinishEnds(s: State, d: nat, e: CallEvent, c: nat)
    requires CallEnabled(s, d, e) && c < |CallStep(s, d, e).calls| && (c >= |s.calls| || !s.calls[c].phase.Ended?)
    requires CallStep(s, d, e).calls[c].phase.Ended? && CallStep(s, d, e).calls[c].phase.started
    ensures c == d && e.Finish?
  {
    hide EndingOf, CanFinish, SiblingFailed, IsSessionCall;
  }

  /** Reading a frame ends no call. */
  predicate NoneEnds(before: seq<Call>, after: seq<Call>) {
    |before| <= |after| && forall c :: 0 <= c < |after| && after[c].phase.Ended? ==> c < |before| && before[c].phase.Ended?
  }

  lemma {:induction false} ScanEndsNone(a: Scanned, ms: seq<Message>, batch: bool, full: bool)
    ensures NoneEnds(a.state.calls, Scan(a, ms, batch, full).state.calls)
  {
    if ms != [] {
      ScanEndsNone(a, ms[..|ms| - 1], batch, full);
      var before := Scan(a, ms[..|ms| - 1], batch, full);
      ItemEndsNone(before, ms[|ms| - 1], batch, full);
    }
  }

  lemma ItemEndsNone(a: Scanned, m: Message, batch: bool, full: bool)
    ensures NoneEnds(a.state.calls, ScanItem(a, m, batch, full).state.calls)
  {
    hide Admit, CancelCall, CancelTarget, PingReply;
    if IsCancelNotification(m) {
      CancelFrame(a.state, CancelTarget(m));
    }
    AdmitAddsOne(a, m, batch);
  }

  lemma NewCallsAreLive(s: State, frame: Frame, c: nat)
    requires c < |ReceiveFrame(s, frame).calls| && ReceiveFrame(s, frame).calls[c].phase.Ended?
    ensures c < |s.calls| && s.calls[c].phase.Ended?
  {
    hide Scan, ReceiveFrame;
    ScanEndsNone(Scanned(s, [], [], false), ItemsOf(frame), frame.Batch?, CollectorsFull(s));
    ReceiveTakesScan(s, frame);
  }

  // ----- over all runs -----

  /** `c` ended in the way an event of the run says. */
  predicate FinishedBy(s: State, c: nat, how: How) {
    c < |s.calls| && s.calls[c].phase.Ended? && s.calls[c].phase.started && Tells(s.limits, s.calls[c], how, s.calls[c].phase.ending)
  }

  lemma {:induction false} FinishIsFinal(s: State, events: seq<Event>, c: nat, how: How)
    requires Inv(s) && IsRun(s, events) && OfCall(c, Finish(how)) in events
    ensures FinishedBy(After(s, events), c, how)
    decreases |events|
  {
    hide Inv, Step, Enabled, Tells;
    var t := Step(s, events[0]);
    StepKeeps(s, events[0]);
    StepKeepsLimits(s, events[0]);
    if events[0] == OfCall(c, Finish(how)) {
      FinishTells(s, c, how);
      RunKeeps(t, events[1..]);
      EndedStays(t, events[1..], c);
    } else {
      FinishIsFinal(t, events[1..], c, how);
    }
  }

  lemma {:induction false} EndsByFinish(s: State, events: seq<Event>, c: nat)
    requires IsRun(s, events) && c < |After(s, events).calls|
    requires After(s, events).calls[c].phase.Ended? && After(s, events).calls[c].phase.started
    requires c >= |s.calls| || !s.calls[c].phase.Ended?
    ensures exists how :: OfCall(c, Finish(how)) in events
    decreases |events|
  {
    hide Step, Enabled;
    if events != [] {
      var t := Step(s, events[0]);
      if c < |t.calls| && t.calls[c].phase.Ended? {
        EndedStays(t, events[1..], c);
        StartedCallsEndByFinish(s, events[0], c);
        var how :| events[0] == OfCall(c, Finish(how));
        assert OfCall(c, Finish(how)) in events;
      } else {
        EndsByFinish(t, events[1..], c);
        var how :| OfCall(c, Finish(how)) in events[1..];
        assert OfCall(c, Finish(how)) in events;
      }
    }
  }

  /**
   In every run: a call has ended after it started exactly when its coroutine has ended, and then its answer is what the
   way its coroutine ended means for it.
   */
  lemma AnswerTellsHowItEnded(limits: Limits, events: seq<Event>, c: nat)
    requires IsRun(Init(limits), events) && c < |After(Init(limits), events).calls|
    ensures var call := After(Init(limits), events).calls[c];
      && (call.phase.Ended? && call.phase.started <==> exists how :: OfCall(c, Finish(how)) in events)
      && (forall how :: OfCall(c, Finish(how)) in events ==>
            call.phase.Ended? && call.phase.started && Tells(limits, call, how, call.phase.ending))
  {
    hide Step, Enabled, Tells, Inv, IsRun, After;
    InitHolds(limits);
    RunKeeps(Init(limits), events);
    var call := After(Init(limits), events).calls[c];
    if call.phase.Ended? && call.phase.started {
      EndsByFinish(Init(limits), events, c);
    }
    forall how | OfCall(c, Finish(how)) in events
      ensures call.phase.Ended? && call.phase.started && Tells(limits, call, how, call.phase.ending)
    {
      FinishIsFinal(Init(limits), events, c, how);
    }
  }

  /**
   In every run, an admitted call that got an answer got a timeout exactly when its deadline expired, a cancellation
   exactly when its client cancelled it, an error of the handler exactly when the handler raised that error, and
   success exactly when the handler returned; and the answer has the id of the item.
   */
  lemma EachAnswerHasOneCause(limits: Limits, events: seq<Event>, c: nat, reply: Reply)
    requires IsRun(Init(limits), events) && c < |After(Init(limits), events).calls|
    requires var call := After(Init(limits), events).calls[c];
      call.reserved && call.phase.Ended? && call.phase.started && call.phase.ending == Answered(Some(reply))
    ensures reply.id == EchoOf(After(Init(limits), events).calls[c].message)
    ensures reply.Success? <==> OfCall(c, Finish(Returned)) in events
    ensures reply == Failure(reply.id, RequestTimeout) <==> OfCall(c, Finish(DeadlineExpired)) in events
    ensures reply == Failure(reply.id, RequestCancelled) <==> OfCall(c, Finish(CancelledByClient)) in events
    ensures forall code :: reply == Failure(reply.id, HandlerError(code)) <==> OfCall(c, Finish(HandlerFailed(code))) in events
  {
    hide IsRun, After;
    AnswerTellsHowItEnded(limits, events, c);
    var how :| OfCall(c, Finish(how)) in events;
  }

  // ----- who is admitted -----

  /** A live call came with this text or number as its id. */
  ghost predicate InFlight(s: State, id: IdMember) {
    (id.Text? || id.Number?)
    && exists c :: c in s.callTasks && c < |s.calls| && s.calls[c].message.Object? && s.calls[c].message.id == id
                   && !IsInvalidCall(s.calls[c].message)
  }

  /**
   A call whose id is in flight closes the connection. Any other call becomes a task; it gets a reservation exactly when
   it is valid, the service does not drain and fewer than `max_pending_requests` reservations are taken.
   */
  lemma AdmissionDecides(a: Scanned, m: Message, batch: bool)
    requires Requests(a.state) && LiveCalls(a.state) && !IsControl(m) && !a.stopped && a.state.closed == None
    ensures var s, b := a.state, ScanItem(a, m, batch, false); var t := b.state;
      var valid := m.Object? && !IsInvalidCall(m);
      if valid && InFlight(s, m.id) then b.stopped && t == s.(closed := Some(ProtocolError))
      else
        && !b.stopped
        && b.items == a.items + [|s.calls|] && t.closed == None
        && |t.calls| == |s.calls| + 1 && t.calls[..|s.calls|] == s.calls && |s.calls| in t.callTasks
        && var call := t.calls[|s.calls|];
        && call.message == m && call.phase == Created && call.batch == batch && !call.cancelRequested && !call.responded
        && (call.reserved <==> valid && !s.draining && |s.reservations| < s.limits.maxPending)
        && (call.shuttingDown <==> valid && s.draining)
        && t.reservations == (if call.reserved then s.reservations + {|s.calls|} else s.reservations)
        && (valid && (m.id.Text? || m.id.Number?) ==> InFlight(t, m.id))
  {
    DuplicateExactly(a.state, m);
    ValidIsObject(m);
    hide IsInvalidCall, Requests;
    if m.Object? && !IsInvalidCall(m) && (m.id.Text? || m.id.Number?) && !IsDuplicate(a.state, m) {
      var t := ScanItem(a, m, batch, false).state;
      assert t.calls[|a.state.calls|].message == m;
    }
  }

  lemma DuplicateExactly(s: State, m: Message)
    requires Requests(s)
    ensures IsDuplicate(s, m) <==> m.Object? && !IsInvalidCall(m) && InFlight(s, m.id)
  {
    if IsDuplicate(s, m) {
      var c := s.requests[CallKey(m).value];
      SameKeySameId(m, s.calls[c].message);
    }
    if m.Object? && !IsInvalidCall(m) && InFlight(s, m.id) {
      var c :| c in s.callTasks && c < |s.calls| && s.calls[c].message.Object? && s.calls[c].message.id == m.id
               && !IsInvalidCall(s.calls[c].message);
      assert CallKey(s.calls[c].message) == CallKey(m);
    }
  }

  lemma ValidIsObject(m: Message)
    ensures !IsInvalidCall(m) ==> m.Object?
  {
  }

  lemma SameKeySameId(a: Message, b: Message)
    requires CallKey(a).Some? && CallKey(a) == CallKey(b)
    ensures a.Object? && b.Object? && a.id == b.id && !IsInvalidCall(b) && (a.id.Text? || a.id.Number?)
  {
  }

  // ----- whom a cancellation reaches -----

  /** A cancellation that names `id` and has no members of its own. */
  predicate Cancels(m: Message, id: IdMember) {
    m.Object? && m.name == Named("$/cancelRequest") && m.id == NoIdMember && m.version2 && m.meta == NoMeta
    && !m.hasResult && !m.hasError && !m.otherKeys && m.params == Target(id) && (id.Text? || id.Number?)
  }

  lemma CancelIsCancelled(s: State, m: Message)
    requires IsCancelNotification(m)
    ensures ReceiveFrame(s, Single(m)) == CancelCall(s, CancelTarget(m))
  {
    hide CancelCall, CancelTarget;
    var a := Scanned(s, [], [], false);
    assert [m][..0] == [];
    assert Scan(a, [m], false, CollectorsFull(s)) == ScanItem(a, m, false, CollectorsFull(s));
  }

  /**
   A cancellation marks exactly the live, admitted and unmarked call that came with the id it names, if there is one, and
   changes nothing else; it is never answered, and never closes the connection.
   */
  lemma CancelReachesItsCall(s: State, m: Message, c: nat)
    requires Inv(s) && s.readerAlive && m.Object? && m.name == Named("$/cancelRequest") && m.id == NoIdMember && c < |s.calls|
    ensures var t := Step(s, Receive(Single(m)));
      && t == s.(calls := t.calls) && |t.calls| == |s.calls|
      && var call := s.calls[c];
      t.calls[c] == (if call.message.Object? && Cancels(m, call.message.id) && c in s.callTasks && call.reserved
                        && !call.phase.Ended? && !call.cancelRequested
                     then call.(cancelRequested := true) else call)
  {
    CancelIsCancelled(s, m);
    CancelFrame(s, CancelTarget(m));
    CancelMarks(s, m, c);
  }

  lemma CancelMarks(s: State, m: Message, c: nat)
    requires Requests(s) && Calls(s) && IsCancelNotification(m) && c < |s.calls|
    ensures |CancelCall(s, CancelTarget(m)).calls| == |s.calls|
    ensures var call := s.calls[c];
      CancelCall(s, CancelTarget(m)).calls[c] ==
        if call.message.Object? && Cancels(m, call.message.id) && c in s.callTasks && call.reserved
           && !call.phase.Ended? && !call.cancelRequested
        then call.(cancelRequested := true) else call
  {
    hide IsInvalidCall;
    var call := s.calls[c];
    assert WellFormedCall(s.limits, call);
    if CallKey(call.message).Some? {
      SameKeySameId(call.message, call.message);
    }
    if call.message.Object? && Cancels(m, call.message.id) && c in s.callTasks && call.reserved {
      assert CallKey(call.message) == IdKey(call.message.id) == CancelTarget(m);
      assert s.requests[CancelTarget(m).value] == c;
    }
  }

  // ----- why a connection closes -----

  /** The bound on collectors is reached. */
  predicate TooManyCollectors(s: State) {
    |s.tasks| >= s.limits.maxPending + s.limits.maxQueue
  }

  lemma {:induction false} ScanClosesForAReason(s: State, ms: seq<Message>, batch: bool, full: bool)
    requires s.closed == None
    ensures var a := Scan(Scanned(s, [], [], false), ms, batch, full);
      && a.state.limits == s.limits && a.state.tasks == s.tasks && a.state.readerAlive == s.readerAlive
      && (a.stopped <==> a.state.closed.Some?)
      && (a.state.closed == None || a.state.closed == Some(PolicyViolation) || a.state.closed == Some(ProtocolError))
      && (a.state.closed == Some(PolicyViolation) <==> full && CallsOf(ms) != [])
      && (a.state.closed == Some(ProtocolError) ==>
            !full && exists i :: 0 <= i < |ms| && !IsInvalidCall(ms[i]) && (ms[i].id.Text? || ms[i].id.Number?))
  {
    hide CancelTarget, PingReply, IsInvalidCall, CancelCall;
    if ms != [] {
      var front, last := ms[..|ms| - 1], ms[|ms| - 1];
      ScanClosesForAReason(s, front, batch, full);
      var before := Scan(Scanned(s, [], [], false), front, batch, full);
      if IsCancelNotification(last) {
        CancelFrame(before.state, CancelTarget(last));
      }
      if CallKey(last).Some? {
        SameKeySameId(last, last);
      }
    }
  }

  /** What reading a frame closes an open connection with. */
  lemma ReadingClosesForAReason(s: State, frame: Frame)
    requires Inv(s) && s.closed == None && s.readerAlive
    ensures var t := Step(s, Receive(frame));
      && (t.closed.Some? <==> !t.readerAlive)
      && (frame.TooBig? ==> t.closed == Some(MessageTooBig)) && (t.closed == Some(MessageTooBig) ==> frame.TooBig?)
      && (frame.NotUtf8? ==> t.closed == Some(ProtocolError))
      && (frame.NotJson? || (frame.Batch? && (|frame.items| == 0 || |frame.items| > s.limits.maxBatch)) ==>
            t.closed == if TooManyCollectors(s) then Some(PolicyViolation) else None)
      && (t.closed.Some? ==> t.closed.value == MessageTooBig || t.closed.value == ProtocolError || t.closed.value == PolicyViolation)
      && (t.closed == Some(PolicyViolation) ==> TooManyCollectors(s))
      && (TooManyCollectors(s) && CallsOf(ItemsOf(frame)) != [] ==> t.closed == Some(PolicyViolation))
  {
    hide Inv, Scan;
    ScanClosesForAReason(s, ItemsOf(frame), frame.Batch?, CollectorsFull(s));
  }

  /** What any other step closes an open connection with. */
  lemma ClosesForAReason(s: State, e: Event)
    requires Enabled(s, e) && s.closed == None && !e.Receive?
    ensures Step(s, e).closed ==
      match e
      case OfCollector(k, QueueBlocked) => Some(PolicyViolation)
      case OfCollector(k, CollectorDone) => if s.collectors[k].progress == Failed then Some(InternalError) else None
      case OfSocket(WriterFails(code)) => Some(code)
      case OfSocket(RequestClose(code)) => Some(code)
      case OfDrain(RequestRestart) => Some(ServiceRestart)
      case _ => None
  {
    hide CallStep, CallEnabled, CollectorStep, CollectorEnabled, SocketStep, SocketEnabled;
    match e
    case OfCall(c, ce) => CallStepFrame(s, c, ce);
    case OfCollector(k, ke) => CollectorCloses(s, k, ke);
    case OfSocket(se) => SocketCloses(s, se);
    case OfDrain(_) =>
  }

  lemma CollectorCloses(s: State, k: nat, e: CollectorEvent)
    requires CollectorEnabled(s, k, e) && s.closed == None
    ensures CollectorStep(s, k, e).closed == if e.QueueBlocked? then Some(PolicyViolation)
      else if e.CollectorDone? && s.collectors[k].progress == Failed then Some(InternalError) else None
  {
    hide Responses, AnyFailed;
  }

  lemma SocketCloses(s: State, e: SocketEvent)
    requires SocketEnabled(s, e) && s.closed == None
    ensures SocketStep(s, e).closed == if e.WriterFails? || e.RequestClose? then Some(e.code) else None
  {
  }

  /** The producers a drain waits for are those the session started for an answered request and that have not ended. */
  lemma ProducersAreCounted(s: State, e: Event, c: nat)
    requires Inv(s) && Enabled(s, e)
    ensures c in Step(s, e).subscriptions <==>
      (c in s.subscriptions && e != OfSocket(SubscriptionEnds(c))) || e == OfCall(c, SessionResponds(true))
  {
    hide CallStep, CallEnabled, CollectorStep, CollectorEnabled, ReceiveFrame;
    match e
    case Receive(frame) => ReadingStartsNoProducer(s, frame);
    case OfCall(d, ce) => ResponseStartsProducer(s, d, ce, c);
    case OfCollector(k, ke) => CollectorStepFrame(s, k, ke);
    case OfSocket(_) =>
    case OfDrain(_) =>
  }

  lemma ReadingStartsNoProducer(s: State, frame: Frame)
    requires Inv(s)
    ensures ReceiveFrame(s, frame).subscriptions == s.subscriptions
  {
    hide Inv, Scan, Always, WhileOpen, Watches;
    ScanKeeps(s, ItemsOf(frame), frame.Batch?, CollectorsFull(s));
  }

  lemma ResponseStartsProducer(s: State, d: nat, e: CallEvent, c: nat)
    requires CallEnabled(s, d, e)
    ensures c in CallStep(s, d, e).subscriptions <==> c in s.subscriptions || (d == c && e == SessionResponds(true))
  {
  }

  /**
   The outgoing queue is first in, first out: a step adds at most one frame at its end, the writer takes the oldest frame
   it has not taken, and a frame is handed over after it was taken.
   */
  lemma QueueIsFirstInFirstOut(s: State, e: SocketEvent)
    requires Inv(s) && Enabled(s, OfSocket(e))
    ensures var t := Step(s, OfSocket(e));
      && t.outgoing == (if e.Emit? then s.outgoing + [Unsolicited] else s.outgoing)
      && t.taken == s.taken + (if e.Take? then 1 else 0) && t.handed == s.handed + (if e.HandOver? then 1 else 0)
      && t.handed <= t.taken <= |t.outgoing|
      && (t.writerAlive <==> s.writerAlive && !e.WriterFails?)
  {
    hide Reservations, LiveCalls, Requests, Calls, Outgoing, WhileOpen;
  }

  /** A frame fails, instead of being answered, exactly when one of its calls crashed or was torn down. */
  lemma CrashFailsTheFrame(s: State, k: nat)
    requires Enabled(s, OfCollector(k, Gather)) && s.closed == None
    ensures var t := Step(s, OfCollector(k, Gather));
      k < |t.collectors| && (t.collectors[k].progress == Failed <==>
        exists i :: 0 <= i < |s.collectors[k].items| && s.collectors[k].items[i] < |s.calls| &&
          var phase := s.calls[s.collectors[k].items[i]].phase;
          phase.Ended? && (phase.ending == Crashed
            || (phase.ending == Interrupted && (phase.started || !s.calls[s.collectors[k].items[i]].cancelRequested))))
  {
    hide Responses;
  }
}
