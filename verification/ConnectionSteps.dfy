/** Every step of the connection runtime, other than reading a frame, keeps the invariant. */
module ConnectionSteps {
  import opened Wrappers
  import opened Messages
  import opened ConnectionRuntime
  import opened ConnectionInvariants

  // ----- steps of a call -----

  lemma CallStepFrame(s: State, c: nat, e: CallEvent)
    requires CallEnabled(s, c, e)
    ensures var t := CallStep(s, c, e);
      t == s.(calls := t.calls, callTasks := t.callTasks, reservations := t.reservations, requests := t.requests,
              outgoing := t.outgoing, subscriptions := t.subscriptions)
    ensures Evolved(s.calls, CallStep(s, c, e).calls) && |CallStep(s, c, e).calls| == |s.calls|
    ensures CallStep(s, c, e).callTasks <= s.callTasks && CallStep(s, c, e).reservations <= s.reservations
  {
  }

  lemma CallKeepsReservations(s: State, c: nat, e: CallEvent)
    requires Reservations(s) && LiveCalls(s) && CallEnabled(s, c, e)
    ensures Reservations(CallStep(s, c, e)) && LiveCalls(CallStep(s, c, e))
  {
  }

  lemma CallKeepsRequests(s: State, c: nat, e: CallEvent)
    requires Requests(s) && LiveCalls(s) && CallEnabled(s, c, e)
    ensures Requests(CallStep(s, c, e))
  {
  }

  lemma CallKeepsCalls(s: State, c: nat, e: CallEvent)
    requires Calls(s) && CallEnabled(s, c, e)
    ensures Calls(CallStep(s, c, e))
  {
  }

  lemma QueueGrows(s: State, sent: Sent)
    ensures forall k :: FramesOf(s.outgoing + [sent], k) ==
              FramesOf(s.outgoing, k) + (if sent.FromCollector? && sent.collector == k then [sent] else [])
    ensures forall c :: SessionAnswers(s.outgoing + [sent], c) ==
              SessionAnswers(s.outgoing, c) + (if sent.FromSession? && sent.call == c then [sent] else [])
  {
    assert (s.outgoing + [sent])[..|s.outgoing|] == s.outgoing;
  }

  /** Frames already queued stay the right ones when nothing changes what is due. */
  lemma OutgoingSurvives(s: State, t: State)
    requires Outgoing(s) && t.outgoing == s.outgoing
    requires forall k: nat :: FramesDue(t, k) == FramesDue(s, k)
    requires forall c: nat :: SessionAnswersDue(t, c) == SessionAnswersDue(s, c)
    requires forall k :: 0 <= k < |t.collectors| && t.collectors[k].progress.Sending? ==> t.collectors[k].progress.replies != []
    ensures Outgoing(t)
  {
  }

  lemma CallKeepsOutgoing(s: State, c: nat, e: CallEvent)
    requires Outgoing(s) && Queued(s) && CallEnabled(s, c, e)
    ensures Outgoing(CallStep(s, c, e)) && Queued(CallStep(s, c, e))
  {
    assert forall k :: 0 <= k < |s.collectors| && s.collectors[k].progress.Sending? ==> s.collectors[k].progress.replies != [];
    hide Outgoing, CallStep;
    if e.SessionResponds? {
      ResponseKeepsOutgoing(s, c, e);
    } else {
      CallStaysQuiet(s, c, e);
      OutgoingSurvives(s, CallStep(s, c, e));
    }
  }

  lemma ResponseKeepsOutgoing(s: State, c: nat, e: CallEvent)
    requires Outgoing(s) && Queued(s) && CallEnabled(s, c, e) && e.SessionResponds?
    ensures Outgoing(CallStep(s, c, e)) && Queued(CallStep(s, c, e))
  {
    hide FramesOf, SessionAnswers;
    QueueGrows(s, FromSession(c, RequestId(s.calls[c].message)));
  }

  lemma CallStaysQuiet(s: State, c: nat, e: CallEvent)
    requires CallEnabled(s, c, e) && !e.SessionResponds?
    ensures var t := CallStep(s, c, e);
      && t.outgoing == s.outgoing && t.collectors == s.collectors && |t.calls| == |s.calls|
      && t.taken == s.taken && t.handed == s.handed && t.limits == s.limits
      && (forall i :: 0 <= i < |s.calls| ==>
            t.calls[i].responded == s.calls[i].responded && t.calls[i].message == s.calls[i].message)
  {
  }

  lemma CallKeepsCollectors(s: State, c: nat, e: CallEvent)
    requires Collectors(s) && CallEnabled(s, c, e)
    ensures Collectors(CallStep(s, c, e))
  {
    CallStepFrame(s, c, e);
    CollectorsSurvive(s, CallStep(s, c, e));
  }

  lemma FaithfulSurvives(s: State, t: State, k: nat)
    requires k < |s.collectors| && k < |t.collectors| && Faithful(s, k) && t.limits == s.limits && Evolved(s.calls, t.calls)
    requires t.collectors[k] == s.collectors[k].(progress := t.collectors[k].progress)
    ensures Faithful(t, k)
  {
    var items := s.collectors[k].items;
    forall i | 0 <= i < |items| && items[i] < |s.calls|
      ensures t.calls[items[i]].message == s.calls[items[i]].message && t.calls[items[i]].batch == s.calls[items[i]].batch
    {
      assert SameCall(s.calls[items[i]], t.calls[items[i]]);
    }
  }

  lemma RepliesSurvive(s: State, t: State, k: nat, replies: seq<Reply>)
    requires k < |s.collectors| && k < |t.collectors| && RightReplies(s, k, replies) && t.limits == s.limits && Evolved(s.calls, t.calls)
    requires t.collectors[k] == s.collectors[k].(progress := t.collectors[k].progress)
    ensures RightReplies(t, k, replies)
  {
    var items := s.collectors[k].items;
    forall i | 0 <= i < |items| ensures items[i] < |t.calls| && t.calls[items[i]] == s.calls[items[i]] {
      assert SameCall(s.calls[items[i]], t.calls[items[i]]);
    }
    ResponsesSurvive(s.calls, t.calls, items);
    if AnySessionAnswer(s, items) {
      var i :| 0 <= i < |items| && items[i] < |s.calls| && s.calls[items[i]].responded;
      assert t.calls[items[i]].responded;
    }
  }

  lemma {:induction false} ResponsesSurvive(before: seq<Call>, after: seq<Call>, items: seq<nat>)
    requires forall i :: 0 <= i < |items| ==> items[i] < |before| && items[i] < |after| && after[items[i]] == before[items[i]]
    ensures Responses(after, items) == Responses(before, items)
  {
    if items != [] {
      ResponsesSurvive(before, after, items[..|items| - 1]);
    }
  }

  /** Collectors only look at the calls they were created for, and once those have ended at nothing that changes. */
  lemma CollectorsSurvive(s: State, t: State)
    requires Collectors(s) && t.collectors == s.collectors && t.limits == s.limits && Evolved(s.calls, t.calls)
    ensures Collectors(t)
  {
    forall k: nat | k < |t.collectors| ensures RightCollector(t, k) {
      assert RightCollector(s, k);
      FaithfulSurvives(s, t, k);
      var progress := s.collectors[k].progress;
      if progress.Sending? || progress.Finished? {
        RepliesSurvive(s, t, k, progress.replies);
      }
    }
  }

  lemma CallKeepsNoSilentEnd(s: State, c: nat, e: CallEvent)
    requires NoSilentEnd(s) && CallEnabled(s, c, e) && s.closed == None
    ensures NoSilentEnd(CallStep(s, c, e))
  {
    var t := CallStep(s, c, e);
    CallStepFrame(s, c, e);
    forall i | 0 <= i < |t.calls| && t.calls[i].phase.Ended? && t.calls[i].phase.ending == Interrupted
      ensures (!t.calls[i].phase.started && t.calls[i].cancelRequested) || CrashedAt(t, t.calls[i].home)
    {
      assert SameCall(s.calls[i], t.calls[i]);
      if CrashedAt(s, s.calls[i].home) {
        CrashSurvives(s, t, s.calls[i].home);
      } else if !s.calls[i].phase.Ended? && SiblingFailed(s, s.calls[i]) {
        FailureMeansCrash(s, s.calls[i]);
      }
    }
  }

  lemma CrashSurvives(s: State, t: State, home: nat)
    requires CrashedAt(s, home) && Evolved(s.calls, t.calls)
    ensures CrashedAt(t, home)
  {
    var d :| 0 <= d < |s.calls| && s.calls[d].home == home && s.calls[d].phase.Ended? && s.calls[d].phase.ending == Crashed;
    assert SameCall(s.calls[d], t.calls[d]);
  }

  /** Behind every failed call of a frame there is one that crashed. */
  lemma FailureMeansCrash(s: State, call: Call)
    requires NoSilentEnd(s) && SiblingFailed(s, call)
    ensures CrashedAt(s, call.home)
  {
    var d :| 0 <= d < |s.calls| && s.calls[d].home == call.home && FailedEnding(s.calls[d]);
    assert s.calls[d].phase.ending == Crashed || CrashedAt(s, call.home);
  }

  /** Steps that end no call. */
  lemma NoSilentEndSurvives(s: State, t: State)
    requires NoSilentEnd(s) && Evolved(s.calls, t.calls)
    requires forall i :: 0 <= i < |t.calls| && t.calls[i].phase.Ended? ==> i < |s.calls| && s.calls[i].phase.Ended?
    ensures NoSilentEnd(t)
  {
    forall i | 0 <= i < |t.calls| && t.calls[i].phase.Ended? && t.calls[i].phase.ending == Interrupted
      ensures (!t.calls[i].phase.started && t.calls[i].cancelRequested) || CrashedAt(t, t.calls[i].home)
    {
      assert SameCall(s.calls[i], t.calls[i]);
      if CrashedAt(s, s.calls[i].home) {
        CrashSurvives(s, t, s.calls[i].home);
      }
    }
  }

  lemma CallKeepsHomes(s: State, c: nat, e: CallEvent)
    requires Homes(s, []) && Work(s) && CallEnabled(s, c, e)
    ensures Homes(CallStep(s, c, e), []) && Work(CallStep(s, c, e))
  {
    CallStepFrame(s, c, e);
  }

  lemma CallKeepsDraining(s: State, c: nat, e: CallEvent)
    requires Draining(s) && Calls(s) && CallEnabled(s, c, e)
    ensures Draining(CallStep(s, c, e))
  {
    CallStepFrame(s, c, e);
  }

  lemma CallStepKeeps(s: State, c: nat, e: CallEvent)
    requires Inv(s) && CallEnabled(s, c, e)
    ensures Inv(CallStep(s, c, e))
  {
    CallStepFrame(s, c, e);
    CallKeepsReservations(s, c, e);
    CallKeepsRequests(s, c, e);
    CallKeepsCalls(s, c, e);
    CallKeepsOutgoing(s, c, e);
    if s.closed == None {
      CallKeepsCollectors(s, c, e);
      CallKeepsNoSilentEnd(s, c, e);
      CallKeepsHomes(s, c, e);
      CallKeepsDraining(s, c, e);
    }
  }

  // ----- steps of a collector -----

  lemma CollectorStepFrame(s: State, k: nat, e: CollectorEvent)
    requires CollectorEnabled(s, k, e)
    ensures var t := CollectorStep(s, k, e);
      t == s.(collectors := t.collectors, tasks := t.tasks, outgoing := t.outgoing, closed := t.closed)
      && |t.collectors| == |s.collectors| && t.tasks <= s.tasks && (s.closed.Some? ==> t.closed == s.closed)
      && forall i :: 0 <= i < |s.collectors| ==> t.collectors[i] == s.collectors[i].(progress := t.collectors[i].progress)
  {
    hide GatherReplies;
    if e.Gather? {
      GatherFrame(s, k);
    }
  }

  lemma GatherFrame(s: State, k: nat)
    requires k < |s.collectors| && AllEnded(s, s.collectors[k].items)
    ensures var t := GatherReplies(s, k);
      |t.collectors| == |s.collectors| && t == s.(collectors := s.collectors[k := s.collectors[k].(progress := t.collectors[k].progress)])
  {
    hide Responses, AnyFailed;
  }

  lemma QueueKeepsOutgoing(s: State, k: nat)
    requires Outgoing(s) && CollectorEnabled(s, k, Queue)
    ensures Outgoing(CollectorStep(s, k, Queue))
  {
    var t := CollectorStep(s, k, Queue);
    var collector := s.collectors[k];
    QueueGrows(s, FromCollector(k, collector.progress.replies, collector.batch));
    forall i: nat ensures FramesOf(t.outgoing, i) == FramesDue(t, i) {
      assert FramesOf(s.outgoing, i) == FramesDue(s, i);
      if i != k {
        OtherCollectorsStay(s, k, Queue, i);
      }
    }
    forall c: nat ensures SessionAnswers(t.outgoing, c) == SessionAnswersDue(t, c) {
      assert SessionAnswers(s.outgoing, c) == SessionAnswersDue(s, c);
    }
  }

  lemma OtherStepsKeepOutgoing(s: State, k: nat, e: CollectorEvent)
    requires Outgoing(s) && CollectorEnabled(s, k, e) && !e.Queue?
    ensures Outgoing(CollectorStep(s, k, e))
  {
    var t := CollectorStep(s, k, e);
    CollectorStepFrame(s, k, e);
    forall i: nat
      ensures FramesDue(t, i) == FramesDue(s, i)
      ensures i < |t.collectors| && t.collectors[i].progress.Sending? ==> t.collectors[i].progress.replies != []
    {
      if i != k {
        OtherCollectorsStay(s, k, e, i);
      }
    }
    OutgoingSurvives(s, t);
  }

  lemma CollectorKeepsOutgoing(s: State, k: nat, e: CollectorEvent)
    requires Outgoing(s) && Queued(s) && CollectorEnabled(s, k, e)
    ensures Outgoing(CollectorStep(s, k, e)) && Queued(CollectorStep(s, k, e))
  {
    if e.Queue? {
      QueueKeepsOutgoing(s, k);
    } else {
      OtherStepsKeepOutgoing(s, k, e);
    }
  }

  lemma OtherCollectorsStay(s: State, k: nat, e: CollectorEvent, i: nat)
    requires CollectorEnabled(s, k, e) && i != k
    ensures i < |s.collectors| ==> CollectorStep(s, k, e).collectors[i] == s.collectors[i]
  {
  }

  lemma {:induction false} ResponsesMatch(s: State, items: seq<nat>, ms: seq<Message>)
    requires Calls(s) && NoSilentEnd(s) && Watches(s, items, ms) && AllEnded(s, items) && !AnyFailed(s, items)
    requires !AnySessionAnswer(s, items)
    ensures Ids(Responses(s.calls, items)) == AnswerIds(ms)
  {
    if items != [] {
      var front, last := items[..|items| - 1], items[|items| - 1];
      ResponsesMatch(s, front, ms[..|ms| - 1]);
      assert WellFormedCall(s.limits, s.calls[last]);
      assert s.calls[last].message == ms[|ms| - 1];
      assert !FailedEnding(s.calls[items[|items| - 1]]);
      assert !s.calls[items[|items| - 1]].responded;
      var reply := Collected(s.calls[last]);
      assert reply.Some? <==> !LooksLikeNotification(s.calls[last].message);
      var rest := Responses(s.calls, front);
      if reply.Some? {
        assert (rest + [reply.value])[..|rest|] == rest;
      }
    }
  }

  lemma SessionCallMeansSingle(s: State, k: nat, i: nat)
    requires k < |s.collectors| && Calls(s) && Faithful(s, k)
    requires i < |s.collectors[k].items| && s.collectors[k].items[i] < |s.calls| && s.calls[s.collectors[k].items[i]].responded
    ensures var frame := s.collectors[k].frame;
      frame.Single? && Watches(s, s.collectors[k].items, CallsOf([frame.item])) && s.collectors[k].controls == PingReplies([frame.item])
  {
    assert WellFormedCall(s.limits, s.calls[s.collectors[k].items[i]]);
  }

  /** A frame the session answered is a single request. */
  lemma SessionAnswersSingles(s: State, k: nat)
    requires k < |s.collectors| && Calls(s) && Faithful(s, k) && AnySessionAnswer(s, s.collectors[k].items)
    ensures s.collectors[k].frame.Single? && s.collectors[k].controls == [] && |s.collectors[k].items| == 1
    ensures var c := s.collectors[k].items[0]; c < |s.calls| && s.calls[c].responded && s.calls[c].message == s.collectors[k].frame.item
  {
    hide Calls, Faithful, CallsOf, PingReplies;
    var items := s.collectors[k].items;
    var i :| 0 <= i < |items| && items[i] < |s.calls| && s.calls[items[i]].responded;
    SessionCallMeansSingle(s, k, i);
    OneCall(s.collectors[k].frame.item);
  }

  /** Its collector has nothing to send. */
  lemma SessionAnswerLeavesNothing(s: State, k: nat)
    requires k < |s.collectors| && Calls(s) && Faithful(s, k) && AllEnded(s, s.collectors[k].items)
    requires !AnyFailed(s, s.collectors[k].items) && NoSilentEnd(s)
    requires AnySessionAnswer(s, s.collectors[k].items)
    ensures s.collectors[k].controls + Responses(s.calls, s.collectors[k].items) == []
  {
    SessionAnswersSingles(s, k);
    var items := s.collectors[k].items;
    var call := s.calls[items[0]];
    assert WellFormedCall(s.limits, call);
    assert !FailedEnding(call);
    assert Collected(call) == None;
    assert items[..0] == [];
    assert Responses(s.calls, items) == [];
  }

  lemma OneCall(m: Message)
    ensures CallsOf([m]) == if IsControl(m) then [] else [m]
    ensures !IsControl(m) ==> PingReplies([m]) == []
  {
    assert [m][..0] == [];
    assert CallsOf([m]) == if IsControl(m) then CallsOf([]) else CallsOf([]) + [m];
  }

  lemma GatherIsRight(s: State, k: nat)
    requires k < |s.collectors| && Collectors(s) && Calls(s) && NoSilentEnd(s)
    requires AllEnded(s, s.collectors[k].items) && !AnyFailed(s, s.collectors[k].items)
    ensures RightReplies(s, k, s.collectors[k].controls + Responses(s.calls, s.collectors[k].items))
  {
    var collector := s.collectors[k];
    assert RightCollector(s, k);
    if AnySessionAnswer(s, collector.items) {
      SessionAnswerLeavesNothing(s, k);
    } else {
      IdsOfConcat(collector.controls, Responses(s.calls, collector.items));
      if collector.items == [] && collector.controls == Refusal(collector.frame) && (collector.frame == NotJson || BadBatch(s.limits, collector.frame)) {
      } else {
        ResponsesMatch(s, collector.items, CallsOf(ItemsOf(collector.frame)));
      }
    }
  }

  lemma SteppedCollectorIsRight(s: State, k: nat, e: CollectorEvent)
    requires Collectors(s) && Calls(s) && NoSilentEnd(s) && CollectorEnabled(s, k, e) && CollectorStep(s, k, e).closed == None
    ensures k < |CollectorStep(s, k, e).collectors| && RightCollector(CollectorStep(s, k, e), k)
  {
    hide RightReplies, Faithful, Calls, NoSilentEnd, Responses, AnyFailed;
    var t := CollectorStep(s, k, e);
    assert RightCollector(s, k);
    CollectorStepFrame(s, k, e);
    if e.Gather? && !AnyFailed(s, s.collectors[k].items) {
      GatherIsRight(s, k);
    }
    NewProgressIsRight(s, t, k);
  }

  lemma NewProgressIsRight(s: State, t: State, k: nat)
    requires k < |s.collectors| && k < |t.collectors| && Faithful(s, k) && t.calls == s.calls && t.limits == s.limits
    requires t.collectors[k] == s.collectors[k].(progress := t.collectors[k].progress)
    requires t.collectors[k].progress.Sending? || t.collectors[k].progress.Finished? ==> RightReplies(s, k, t.collectors[k].progress.replies)
    ensures RightCollector(t, k)
  {
    FaithfulSurvives(s, t, k);
    var progress := t.collectors[k].progress;
    if progress.Sending? || progress.Finished? {
      RepliesSurvive(s, t, k, progress.replies);
    }
  }

  lemma CollectorKeepsCollectors(s: State, k: nat, e: CollectorEvent)
    requires Collectors(s) && Calls(s) && NoSilentEnd(s) && CollectorEnabled(s, k, e) && CollectorStep(s, k, e).closed == None
    ensures Collectors(CollectorStep(s, k, e))
  {
    var t := CollectorStep(s, k, e);
    CollectorStepFrame(s, k, e);
    SteppedCollectorIsRight(s, k, e);
    forall i: nat | i < |t.collectors| && i != k ensures RightCollector(t, i) {
      assert RightCollector(s, i);
      OtherCollectorsStay(s, k, e, i);
      NewProgressIsRight(s, t, i);
    }
  }

  lemma CollectorKeepsWork(s: State, k: nat, e: CollectorEvent)
    requires Work(s) && Homes(s, []) && CollectorEnabled(s, k, e) && CollectorStep(s, k, e).closed == None
    ensures Work(CollectorStep(s, k, e)) && Homes(CollectorStep(s, k, e), [])
  {
    var t := CollectorStep(s, k, e);
    CollectorStepFrame(s, k, e);
    if e.CollectorDone? {
      assert |t.tasks| == |s.tasks| - 1;
    } else {
      assert t.tasks == s.tasks;
    }
    forall c | c in t.callTasks && c < |t.calls|
      ensures t.calls[c].home < |t.collectors| && t.calls[c].home in t.tasks && c in t.collectors[t.calls[c].home].items
    {
      assert t.calls[c].home < |s.collectors| && c in s.collectors[t.calls[c].home].items;
    }
  }

  lemma CollectorKeepsDraining(s: State, k: nat, e: CollectorEvent)
    requires Draining(s) && Work(s) && CollectorEnabled(s, k, e) && CollectorStep(s, k, e).closed == None
    ensures Draining(CollectorStep(s, k, e))
  {
    CollectorStepFrame(s, k, e);
  }

  lemma CollectorStepKeeps(s: State, k: nat, e: CollectorEvent)
    requires Inv(s) && CollectorEnabled(s, k, e)
    ensures Inv(CollectorStep(s, k, e))
  {
    CollectorStepFrame(s, k, e);
    CollectorKeepsOutgoing(s, k, e);
    if CollectorStep(s, k, e).closed == None {
      CollectorKeepsCollectors(s, k, e);
      CollectorKeepsWork(s, k, e);
      CollectorKeepsDraining(s, k, e);
    }
  }

  // ----- steps of the socket and of a drain -----

  lemma SocketKeepsOutgoing(s: State, e: SocketEvent)
    requires Outgoing(s) && Queued(s) && SocketEnabled(s, e)
    ensures Outgoing(SocketStep(s, e)) && Queued(SocketStep(s, e))
  {
    QueueGrows(s, Unsolicited);
  }

  lemma SocketStepFrame(s: State, e: SocketEvent)
    requires SocketEnabled(s, e)
    ensures var t := SocketStep(s, e);
      t == s.(outgoing := t.outgoing, taken := t.taken, handed := t.handed, writerAlive := t.writerAlive, closed := t.closed,
              readerAlive := t.readerAlive, subscriptions := t.subscriptions)
      && t.subscriptions <= s.subscriptions && (s.closed.Some? ==> t.closed == s.closed) && t.handed >= s.handed
      && |t.outgoing| >= |s.outgoing|
      && (t.closed == None ==> t.writerAlive == s.writerAlive && t.readerAlive == s.readerAlive)
      && (!t.writerAlive && s.writerAlive ==> t.closed.Some?)
  {
  }

  lemma SocketStepKeeps(s: State, e: SocketEvent)
    requires Inv(s) && SocketEnabled(s, e)
    ensures Inv(SocketStep(s, e))
  {
    var t := SocketStep(s, e);
    SocketStepFrame(s, e);
    SocketKeepsOutgoing(s, e);
    AdmissionSurvives(s, t);
    if t.closed == None {
      CollectorsSurvive(s, t);
      SocketKeepsDraining(s, e);
    }
  }

  lemma SocketKeepsDraining(s: State, e: SocketEvent)
    requires Draining(s) && Queued(s) && SocketEnabled(s, e) && SocketStep(s, e).closed == None
    ensures Draining(SocketStep(s, e))
  {
    SocketStepFrame(s, e);
  }

  lemma AdmissionSurvives(s: State, t: State)
    requires Reservations(s) && LiveCalls(s) && Requests(s) && Calls(s)
    requires t == s.(outgoing := t.outgoing, taken := t.taken, handed := t.handed, writerAlive := t.writerAlive, closed := t.closed,
                     readerAlive := t.readerAlive, subscriptions := t.subscriptions, draining := t.draining, graceful := t.graceful)
    ensures Reservations(t) && LiveCalls(t) && Requests(t) && Calls(t)
  {
  }

  /** Once the awaited collectors are done, no admitted call is left. */
  lemma GatheredMeansEnded(s: State)
    requires Draining(s) && Homes(s, []) && LiveCalls(s) && s.graceful.AwaitingCalls? && s.graceful.collectors !! s.tasks
    ensures NoAdmittedCallLive(s)
  {
    forall c | 0 <= c < |s.calls| && s.calls[c].reserved
      ensures s.calls[c].phase.Ended?
    {
      assert c in s.callTasks ==> s.calls[c].home in s.tasks;
    }
  }

  lemma DrainKeepsDraining(s: State, e: DrainEvent)
    requires Draining(s) && Homes(s, []) && LiveCalls(s) && DrainEnabled(s, e)
    requires DrainStep(s, e).closed == None && Queued(s)
    ensures Draining(DrainStep(s, e))
  {
    if e.CallsGathered? {
      GatheredMeansEnded(s);
    }
  }

  lemma DrainStepKeeps(s: State, e: DrainEvent)
    requires Inv(s) && DrainEnabled(s, e)
    ensures Inv(DrainStep(s, e))
  {
    hide Reservations, LiveCalls, Requests, Calls, Outgoing, Queued, Homes, Work, Collectors, NoSilentEnd, Draining, DrainStep;
    var t := DrainStep(s, e);
    DrainStepFrame(s, e);
    AdmissionSurvives(s, t);
    DrainKeepsOutgoing(s, t);
    if t.closed == None {
      CollectorsSurvive(s, t);
      WorkSurvives(s, t);
      DrainKeepsDraining(s, e);
    }
  }

  lemma DrainStepFrame(s: State, e: DrainEvent)
    requires DrainEnabled(s, e)
    ensures var t := DrainStep(s, e);
      && t == s.(closed := t.closed, readerAlive := t.readerAlive, draining := t.draining, graceful := t.graceful)
      && (s.closed.Some? ==> t.closed == s.closed) && Evolved(s.calls, t.calls)
  {
  }

  lemma DrainKeepsOutgoing(s: State, t: State)
    requires Outgoing(s) && Queued(s)
    requires t == s.(closed := t.closed, readerAlive := t.readerAlive, draining := t.draining, graceful := t.graceful)
    ensures Outgoing(t) && Queued(t)
  {
    OutgoingSurvives(s, t);
  }

  lemma WorkSurvives(s: State, t: State)
    requires Homes(s, []) && Work(s) && NoSilentEnd(s)
    requires t == s.(closed := t.closed, readerAlive := t.readerAlive, draining := t.draining, graceful := t.graceful)
    ensures Homes(t, []) && Work(t) && NoSilentEnd(t)
  {
  }
}
