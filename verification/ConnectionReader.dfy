/** Reading a frame keeps the invariant of the connection runtime. */
module ConnectionReader {
  import opened Wrappers
  import opened Messages
  import opened ConnectionRuntime
  import opened ConnectionInvariants
  import opened ConnectionSteps

  // ----- one item -----

  /** Reading items leaves everything but the calls, their bookkeeping and the close latch alone. */
  predicate OnlyCallsDiffer(s: State, t: State) {
    && t.limits == s.limits && t.collectors == s.collectors && t.tasks == s.tasks && t.subscriptions == s.subscriptions
    && t.readerAlive == s.readerAlive && t.writerAlive == s.writerAlive && t.outgoing == s.outgoing
    && t.taken == s.taken && t.handed == s.handed && t.draining == s.draining && t.graceful == s.graceful
  }

  lemma CancelFrame(s: State, target: Option<Key>)
    ensures var t := CancelCall(s, target);
      OnlyCallsDiffer(s, t) && t.callTasks == s.callTasks && t.reservations == s.reservations && t.requests == s.requests
      && t.closed == s.closed && |t.calls| == |s.calls| && Evolved(s.calls, t.calls)
      && forall c :: 0 <= c < |s.calls| ==> t.calls[c] == s.calls[c].(cancelRequested := t.calls[c].cancelRequested)
  {
    var t := CancelCall(s, target);
    forall c | 0 <= c < |s.calls|
      ensures t.calls[c] == s.calls[c].(cancelRequested := t.calls[c].cancelRequested) && SameCall(s.calls[c], t.calls[c])
    {
    }
  }

  lemma CancelKeepsAdmission(s: State, target: Option<Key>)
    requires Reservations(s) && LiveCalls(s) && Requests(s) && Calls(s)
    ensures var t := CancelCall(s, target); Reservations(t) && LiveCalls(t) && Requests(t) && Calls(t)
  {
    CancelFrame(s, target);
    CancelKeepsCalls(s, target);
    var t := CancelCall(s, target);
    assert forall c: nat :: c < |s.calls| ==> (Holds(t, c) <==> Holds(s, c));
  }

  lemma CancelKeepsCalls(s: State, target: Option<Key>)
    requires Calls(s)
    ensures Calls(CancelCall(s, target))
  {
  }

  lemma CancelKeepsOutgoing(s: State, target: Option<Key>)
    requires Outgoing(s)
    ensures Outgoing(CancelCall(s, target))
  {
    OutgoingSurvives(s, CancelCall(s, target));
  }

  lemma CancelKeepsDraining(s: State, target: Option<Key>)
    requires Draining(s)
    ensures Draining(CancelCall(s, target))
  {
    CancelFrame(s, target);
  }

  lemma CancelKeepsOpen(s: State, target: Option<Key>, loose: seq<nat>)
    requires WhileOpen(s, loose)
    ensures WhileOpen(CancelCall(s, target), loose)
  {
    hide CancelCall, Collectors, Draining;
    CancelFrame(s, target);
    CancelKeepsDraining(s, target);
    CollectorsSurvive(s, CancelCall(s, target));
  }

  lemma AddCallKeepsReservations(s: State, t: State, call: Call)
    requires Reservations(s) && LiveCalls(s) && call.phase == Created && t.limits == s.limits
    requires t.calls == s.calls + [call] && t.callTasks == s.callTasks + {|s.calls|}
    requires t.reservations == if call.reserved then s.reservations + {|s.calls|} else s.reservations
    requires call.reserved ==> |s.reservations| < s.limits.maxPending
    ensures Reservations(t)
  {
    var c := |s.calls|;
    forall i: nat ensures i in t.reservations <==> i < |t.calls| && Holds(t, i) {
      if i < c {
        assert t.calls[i] == s.calls[i];
        assert i in s.reservations <==> Holds(s, i);
      }
    }
  }

  lemma AdmitKeepsReservations(a: Scanned, m: Message, batch: bool)
    requires Reservations(a.state) && LiveCalls(a.state)
    ensures Reservations(Admit(a, m, batch).state)
  {
    var s, t := a.state, Admit(a, m, batch).state;
    if |t.calls| > |s.calls| {
      AddCallKeepsReservations(s, t, t.calls[|s.calls|]);
    }
  }

  lemma AdmitKeepsLiveCalls(a: Scanned, m: Message, batch: bool)
    requires LiveCalls(a.state)
    ensures LiveCalls(Admit(a, m, batch).state) && Evolved(a.state.calls, Admit(a, m, batch).state.calls)
  {
  }

  lemma AdmitKeepsRequests(a: Scanned, m: Message, batch: bool)
    requires Requests(a.state) && LiveCalls(a.state)
    ensures Requests(Admit(a, m, batch).state)
  {
  }

  lemma AdmitKeepsCalls(a: Scanned, m: Message, batch: bool)
    requires Calls(a.state) && !IsControl(m)
    ensures Calls(Admit(a, m, batch).state)
  {
  }

  lemma AdmitKeepsOutgoing(a: Scanned, m: Message, batch: bool)
    requires Outgoing(a.state)
    ensures Outgoing(Admit(a, m, batch).state)
  {
    OutgoingSurvives(a.state, Admit(a, m, batch).state);
  }

  lemma AdmitKeepsHomes(a: Scanned, m: Message, batch: bool)
    requires Homes(a.state, a.items) && Work(a.state) && LiveCalls(a.state)
    ensures Homes(Admit(a, m, batch).state, Admit(a, m, batch).items) && Work(Admit(a, m, batch).state)
  {
  }

  lemma AdmitKeepsDraining(a: Scanned, m: Message, batch: bool)
    requires Draining(a.state)
    ensures Draining(Admit(a, m, batch).state)
  {
  }

  lemma AdmitKeepsOpen(a: Scanned, m: Message, batch: bool)
    requires WhileOpen(a.state, a.items) && LiveCalls(a.state)
    requires Admit(a, m, batch).state.closed == None
    ensures WhileOpen(Admit(a, m, batch).state, Admit(a, m, batch).items)
  {
    AdmitKeepsHomes(a, m, batch);
    AdmitKeepsDraining(a, m, batch);
    AdmitKeepsLiveCalls(a, m, batch);
    CollectorsSurvive(a.state, Admit(a, m, batch).state);
  }

  // ----- the items of a frame -----

  /** What the reader has established after the items `ms` of a frame. */
  ghost predicate ScanInv(s: State, a: Scanned, ms: seq<Message>, batch: bool) {
    var t := a.state;
    && Always(t)
    && OnlyCallsDiffer(s, t)
    && (a.stopped ==> t.closed.Some?)
    && (t.closed == None ==>
          s.closed == None && WhileOpen(t, a.items)
          && Watches(t, a.items, CallsOf(ms)) && a.controls == PingReplies(ms)
          && (forall i :: 0 <= i < |a.items| ==> t.calls[a.items[i]].batch == batch && t.calls[a.items[i]].home == |t.collectors|))
  }

  lemma ItemKeeps(s: State, a: Scanned, ms: seq<Message>, m: Message, batch: bool, full: bool)
    requires ScanInv(s, a, ms, batch) && !a.stopped
    ensures ScanInv(s, ScanItem(a, m, batch, full), ms + [m], batch)
  {
    hide Admit, CancelCall, CallsOf, PingReplies, Always, WhileOpen, OnlyCallsDiffer;
    CallsOfMore(ms, m);
    if IsClientResponse(m) {
    } else if IsCancelNotification(m) {
      CancelItemKeeps(s, a, ms, ms + [m], batch, CancelTarget(m));
    } else if IsPing(m) {
      PingKeeps(s, a, ms, m, batch, full);
    } else if full {
      StopKeeps(s, a, ms, ms + [m], batch);
    } else {
      AdmitKeeps(s, a, ms, m, batch);
    }
  }

  lemma StopKeeps(s: State, a: Scanned, ms: seq<Message>, next: seq<Message>, batch: bool)
    requires ScanInv(s, a, ms, batch)
    ensures ScanInv(s, a.(state := Close(a.state, PolicyViolation), stopped := true), next, batch)
  {
    SocketStepFrame(a.state, RequestClose(PolicyViolation));
    OutgoingSurvives(a.state, Close(a.state, PolicyViolation));
  }

  lemma CallsOfMore(ms: seq<Message>, m: Message)
    ensures CallsOf(ms + [m]) == CallsOf(ms) + (if IsControl(m) then [] else [m])
    ensures !IsPing(m) ==> PingReplies(ms + [m]) == PingReplies(ms)
  {
    assert (ms + [m])[..|ms|] == ms;
  }

  lemma CancelItemKeeps(s: State, a: Scanned, ms: seq<Message>, next: seq<Message>, batch: bool, target: Option<Key>)
    requires ScanInv(s, a, ms, batch) && CallsOf(next) == CallsOf(ms) && PingReplies(next) == PingReplies(ms)
    ensures ScanInv(s, a.(state := CancelCall(a.state, target)), next, batch)
  {
    hide CancelCall, WhileOpen, CallsOf, PingReplies;
    CancelFrame(a.state, target);
    CancelKeepsAdmission(a.state, target);
    CancelKeepsOutgoing(a.state, target);
    if a.state.closed == None {
      CancelKeepsOpen(a.state, target, a.items);
    }
  }

  lemma PingKeeps(s: State, a: Scanned, ms: seq<Message>, m: Message, batch: bool, full: bool)
    requires ScanInv(s, a, ms, batch) && IsPing(m)
    ensures ScanInv(s, ScanItem(a, m, batch, full), ms + [m], batch)
  {
    assert (ms + [m])[..|ms|] == ms;
    if PingReply(m).Some? {
      assert (a.controls + [PingReply(m).value])[..|a.controls|] == a.controls;
    }
  }

  lemma AdmitFrame(a: Scanned, m: Message, batch: bool)
    ensures var b := Admit(a, m, batch); var s, t := a.state, b.state;
      && OnlyCallsDiffer(s, t)
      && b.controls == a.controls && (b.stopped ==> a.stopped || t.closed.Some?) && (s.closed.Some? ==> t.closed.Some?)
      && (t.closed == None && !a.stopped ==>
            b.items == a.items + [|s.calls|] && |t.calls| == |s.calls| + 1 && t.calls[..|s.calls|] == s.calls
            && t.calls[|s.calls|].message == m && t.calls[|s.calls|].batch == batch && t.calls[|s.calls|].home == |s.collectors|)
  {
  }

  lemma AdmitKeeps(s: State, a: Scanned, ms: seq<Message>, m: Message, batch: bool)
    requires ScanInv(s, a, ms, batch) && !IsControl(m) && !a.stopped
    ensures ScanInv(s, Admit(a, m, batch), ms + [m], batch)
  {
    CallsOfMore(ms, m);
    hide Admit, Reservations, LiveCalls, Requests, Calls, Outgoing, WhileOpen, CallsOf, PingReplies, Ids;
    AdmitFrame(a, m, batch);
    AdmitKeepsReservations(a, m, batch);
    AdmitKeepsLiveCalls(a, m, batch);
    AdmitKeepsRequests(a, m, batch);
    AdmitKeepsCalls(a, m, batch);
    AdmitKeepsOutgoing(a, m, batch);
    if Admit(a, m, batch).state.closed == None {
      AdmitKeepsOpen(a, m, batch);
      var t := a.state;
      forall i | 0 <= i < |a.items|
        ensures Admit(a, m, batch).state.calls[a.items[i]] == t.calls[a.items[i]]
      {
        assert t.calls[a.items[i]] == Admit(a, m, batch).state.calls[..|t.calls|][a.items[i]];
      }
    }
  }

  lemma {:induction false} ScanKeeps(s: State, ms: seq<Message>, batch: bool, full: bool)
    requires Inv(s)
    ensures ScanInv(s, Scan(Scanned(s, [], [], false), ms, batch, full), ms, batch)
  {
    if ms != [] {
      var front, last := ms[..|ms| - 1], ms[|ms| - 1];
      ScanKeeps(s, front, batch, full);
      var before := Scan(Scanned(s, [], [], false), front, batch, full);
      assert front + [last] == ms;
      if !before.stopped {
        ItemKeeps(s, before, front, last, batch, full);
      }
    }
  }

  lemma {:induction false} FewCalls(ms: seq<Message>)
    ensures |CallsOf(ms)| <= |ms|
  {
    if ms != [] {
      FewCalls(ms[..|ms| - 1]);
    }
  }

  // ----- the collector of a frame -----

  lemma CollectorKeepsItsCalls(s: State, collector: Collector)
    ensures AddCollector(s, collector).calls == s.calls
  {
  }

  lemma NewCollectorKeepsOutgoing(s: State, collector: Collector)
    requires Outgoing(s) && Queued(s) && collector.progress == Gathering
    ensures Outgoing(AddCollector(s, collector)) && Queued(AddCollector(s, collector))
  {
    var t := AddCollector(s, collector);
    assert forall k :: 0 <= k < |s.collectors| && s.collectors[k].progress.Sending? ==> s.collectors[k].progress.replies != [];
    assert t.outgoing == s.outgoing && t.taken == s.taken && t.handed == s.handed && t.limits == s.limits && t.calls == s.calls;
    assert t.collectors == s.collectors || t.collectors == s.collectors + [collector];
    hide Outgoing, AddCollector, FramesDue, SessionAnswersDue;
    NewCollectorOwesNothing(s, t, collector);
    OutgoingSurvives(s, t);
  }

  lemma NewCollectorOwesNothing(s: State, t: State, collector: Collector)
    requires t.calls == s.calls && collector.progress == Gathering
    requires t.collectors == s.collectors || t.collectors == s.collectors + [collector]
    ensures forall k: nat :: FramesDue(t, k) == FramesDue(s, k)
    ensures forall c: nat :: SessionAnswersDue(t, c) == SessionAnswersDue(s, c)
  {
  }

  lemma NewCollectorKeepsOpen(s: State, collector: Collector, loose: seq<nat>)
    requires WhileOpen(s, loose) && LiveCalls(s) && collector.progress == Gathering && collector.items == loose
    requires |collector.items| <= s.limits.MaxItems() && s.readerAlive
    requires var t := s.(collectors := s.collectors + [collector]); Faithful(t, |s.collectors|)
    ensures var t := AddCollector(s, collector); t.closed == None ==> WhileOpen(t, [])
  {
    hide Collectors, Faithful, NoSilentEnd;
    var t := AddCollector(s, collector);
    if t.closed == None {
      assert |t.tasks| == |s.tasks| + 1;
      NewCollectorKeepsCollectors(s, t, collector);
      NoSilentEndSurvives(s, t);
    }
  }

  lemma NewCollectorKeepsCollectors(s: State, t: State, collector: Collector)
    requires Collectors(s) && collector.progress == Gathering
    requires t == s.(collectors := s.collectors + [collector], tasks := t.tasks)
    requires Faithful(s.(collectors := s.collectors + [collector]), |s.collectors|)
    ensures Collectors(t)
  {
    forall k: nat | k < |t.collectors| ensures RightCollector(t, k) {
      if k < |s.collectors| {
        assert RightCollector(s, k);
        NewProgressIsRight(s, t, k);
      } else {
        assert Faithful(t, k);
      }
    }
  }

  lemma RefusalKeeps(s: State, frame: Frame, error: ErrorCode)
    requires Inv(s) && s.readerAlive && (frame == NotJson || BadBatch(s.limits, frame))
    requires error == if frame == NotJson then ParseError else InvalidRequest
    ensures Inv(RefusedFrame(s, frame, error))
  {
    var collector := Collector(frame, [], [Failure(NullReplyId, error)], false, Gathering);
    NewCollectorKeepsOutgoing(s, collector);
    if s.closed == None {
      NewCollectorKeepsOpen(s, collector, []);
    }
  }

  lemma ItemsKeep(s: State, frame: Frame)
    requires Inv(s) && s.readerAlive && (frame.Single? || frame.Batch?) && !BadBatch(s.limits, frame)
    ensures Inv(ReceiveItems(s, frame))
  {
    var ms := ItemsOf(frame);
    var a := Scan(Scanned(s, [], [], false), ms, frame.Batch?, CollectorsFull(s));
    ScanKeeps(s, ms, frame.Batch?, CollectorsFull(s));
    FewCalls(ms);
    if a.stopped {
      CloseKeeps(a.state, Normal);
    } else if a.items != [] || a.controls != [] {
      CollectorOfItems(s, a, frame);
    }
  }

  lemma CollectorOfItems(s: State, a: Scanned, frame: Frame)
    requires ScanInv(s, a, ItemsOf(frame), frame.Batch?) && s.readerAlive && !a.stopped
    requires (frame.Single? || frame.Batch?) && !BadBatch(s.limits, frame) && |CallsOf(ItemsOf(frame))| <= |ItemsOf(frame)|
    ensures Inv(AddCollector(a.state, Collector(frame, a.items, a.controls, frame.Batch?, Gathering)))
  {
    var collector := Collector(frame, a.items, a.controls, frame.Batch?, Gathering);
    NewCollectorKeepsOutgoing(a.state, collector);
    if a.state.closed == None {
      var t := a.state.(collectors := a.state.collectors + [collector]);
      assert Faithful(t, |a.state.collectors|);
      NewCollectorKeepsOpen(a.state, collector, a.items);
    }
  }

  lemma ReceiveKeeps(s: State, frame: Frame)
    requires Inv(s) && s.readerAlive
    ensures Inv(ReceiveFrame(s, frame))
  {
    match frame
    case TooBig => CloseKeeps(s, MessageTooBig);
    case NotUtf8 => CloseKeeps(s, ProtocolError);
    case NotJson => RefusalKeeps(s, frame, ParseError);
    case _ =>
      if BadBatch(s.limits, frame) {
        RefusalKeeps(s, frame, InvalidRequest);
      } else {
        ItemsKeep(s, frame);
      }
  }

  lemma CloseKeeps(s: State, code: CloseCode)
    requires Inv(s)
    ensures Inv(Close(s, code).(readerAlive := false))
  {
    SocketStepKeeps(s, RequestClose(code));
    var t := SocketStep(s, RequestClose(code));
    SocketStepKeeps(t, ReaderEnds);
  }

  // ----- the whole machine -----

  lemma StepKeeps(s: State, e: Event)
    requires Inv(s) && Enabled(s, e)
    ensures Inv(Step(s, e))
  {
    match e
    case Receive(frame) => ReceiveKeeps(s, frame);
    case OfCall(c, ce) => CallStepKeeps(s, c, ce);
    case OfCollector(k, ke) => CollectorStepKeeps(s, k, ke);
    case OfSocket(se) => SocketStepKeeps(s, se);
    case OfDrain(de) => DrainStepKeeps(s, de);
  }

  lemma InitHolds(limits: Limits)
    ensures Inv(Init(limits))
  {
  }

  lemma {:induction false} RunKeeps(s: State, events: seq<Event>)
    requires Inv(s) && IsRun(s, events)
    ensures Inv(After(s, events)) && After(s, events).limits == s.limits
    decreases |events|
  {
    if events != [] {
      StepKeeps(s, events[0]);
      StepKeepsLimits(s, events[0]);
      RunKeeps(Step(s, events[0]), events[1..]);
    }
  }

  lemma ReceiveKeepsLimits(s: State, frame: Frame)
    requires Inv(s)
    ensures ReceiveFrame(s, frame).limits == s.limits
  {
    hide Inv, Always, WhileOpen, Watches, Scan;
    ScanKeeps(s, ItemsOf(frame), frame.Batch?, CollectorsFull(s));
  }

  lemma StepKeepsLimits(s: State, e: Event)
    requires Inv(s) && Enabled(s, e)
    ensures Step(s, e).limits == s.limits
  {
    hide Inv, CallStep, CollectorStep, SocketStep, ReceiveFrame;
    match e
    case Receive(frame) => ReceiveKeepsLimits(s, frame);
    case OfCall(c, ce) => CallStepFrame(s, c, ce);
    case OfCollector(k, ke) => CollectorStepFrame(s, k, ke);
    case OfSocket(se) => SocketStepFrame(s, se);
    case OfDrain(de) =>
  }
}
