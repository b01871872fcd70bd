/**
 The closure of one endpoint run in the form of the source: fields that the reader, the call tasks, the
 collectors, the writer and the drain update in place. Each method is one stretch between two suspension
 points and is proved to be the step of the state machine it stands for.
 */
module EndpointRun {
  import opened Wrappers
  import opened Messages
  import opened ConnectionRuntime
  import opened ConnectionInvariants
  import opened ConnectionOutcomes
  import opened ConnectionReader

  class RpcEndpointRun {
    const limits: Limits
    var calls: seq<Call>
    var collectors: seq<Collector>
    var callTasks: set<nat>
    var tasks: set<nat>
    var reservations: set<nat>
    var requests: map<Key, nat>
    var subscriptions: set<nat>
    var closed: Option<CloseCode>
    var readerAlive: bool
    var writerAlive: bool
    var outgoing: seq<Sent>
    var taken: nat
    var handed: nat
    var draining: bool
    var graceful: Graceful

    function Model(): State
      reads this
    {
      State(limits, calls, collectors, callTasks, tasks, reservations, requests, subscriptions, closed,
            readerAlive, writerAlive, outgoing, taken, handed, draining, graceful)
    }

    constructor (limits: Limits)
      ensures Valid() && Model() == Init(limits)
    {
      this.limits := limits;
      calls, collectors, callTasks, tasks, reservations := [], [], {}, {}, {};
      requests, subscriptions, closed := map[], {}, None;
      readerAlive, writerAlive, outgoing, taken, handed := true, true, [], 0, 0;
      draining, graceful := false, Idle;
      new;
      InitHolds(limits);
    }

    method RequestClose(code: CloseCode)
      modifies this`closed
      ensures Model() == Close(old(Model()), code)
    {
      if closed == None {
        closed := Some(code);
      }
    }

    /** Every reachable state of the connection satisfies the invariant. */
    ghost predicate Valid()
      reads this
    {
      Inv(Model())
    }

    // ----- the reader -----

    method CancelRequest(target: Option<Key>)
      modifies this`calls
      ensures Model() == CancelCall(old(Model()), target)
    {
      if target.Some? && target.value in requests {
        var c := requests[target.value];
        if c < |calls| && calls[c].reserved && !calls[c].cancelRequested && !calls[c].phase.Ended? {
          calls := calls[c := calls[c].(cancelRequested := true)];
        }
      }
    }

    method Reserve(c: nat) returns (reserved: bool)
      modifies this`reservations
      ensures reserved <==> |old(reservations)| < limits.maxPending
      ensures Model() == old(Model()).(reservations := if reserved then old(reservations) + {c} else old(reservations))
    {
      reserved := |reservations| < limits.maxPending;
      if reserved {
        reservations := reservations + {c};
      }
    }

    method Release(c: nat)
      modifies this`reservations
      ensures Model() == old(Model()).(reservations := old(reservations) - {c})
    {
      reservations := reservations - {c};
    }

    /** Creates the task of a call and registers the call under its id. */
    method StartCall(call: Call)
      modifies this`calls, this`callTasks, this`requests
      ensures Model() == StartedCall(old(Model()), call)
    {
      var key := CallKey(call.message);
      if key.Some? {
        requests := requests[key.value := |calls|];
      }
      callTasks := callTasks + {|calls|};
      calls := calls + [call];
    }

    /** Reserves, looks for a duplicate, creates the call task and registers it. */
    method AdmitItem(m: Message, batch: bool) returns (stopped: bool)
      requires |calls| !in reservations
      modifies this`calls, this`callTasks, this`reservations, this`requests, this`closed
      ensures stopped <==> IsDuplicate(old(Model()), m)
      ensures Model() == if stopped then Close(old(Model()), ProtocolError) else AddCall(old(Model()), m, batch)
    {
      hide IsInvalidCall, CallKey, Close, StartedCall, AddCall;
      ReservedThenStarted(Model(), m, batch);
      var c: nat := |calls|;
      var invalid := IsInvalidCall(m);
      var reserved := false;
      if !invalid && !draining {
        reserved := Reserve(c);
      }
      var key := CallKey(m);
      if key.Some? && key.value in requests {
        if reserved {
          Release(c);
        }
        assert reservations == old(reservations);
        RequestClose(ProtocolError);
        return true;
      }
      StartCall(Call(m, reserved, invalid, batch, !invalid && draining, Created, false, false, |collectors|));
      stopped := false;
    }

    method CreateCollector(collector: Collector)
      modifies this`collectors, this`tasks, this`closed, this`readerAlive
      ensures Model() == AddCollector(old(Model()), collector)
    {
      if |tasks| >= limits.maxPending + limits.maxQueue {
        RequestClose(PolicyViolation);
        readerAlive := false;
      } else {
        tasks := tasks + {|collectors|};
        collectors := collectors + [collector];
      }
    }

    static lemma KnownReservations(s: State, m: Message, batch: bool)
      requires forall c :: c in s.reservations ==> c < |s.calls|
      ensures var t := AddCall(s, m, batch); forall c :: c in t.reservations ==> c < |t.calls|
    {
    }

    /** One item: a control is handled on the spot, anything else becomes a call. */
    method ReadItem(m: Message, batch: bool, full: bool, items: seq<nat>, controls: seq<Reply>)
      returns (items': seq<nat>, controls': seq<Reply>, stopped: bool)
      requires forall c :: c in reservations ==> c < |calls|
      modifies this`calls, this`callTasks, this`reservations, this`requests, this`closed
      ensures ScanItem(Scanned(old(Model()), items, controls, false), m, batch, full) == Scanned(Model(), items', controls', stopped)
      ensures forall c :: c in reservations ==> c < |calls|
    {
      hide AddCall;
      items', controls', stopped := items, controls, false;
      if IsClientResponse(m) {
      } else if IsCancelNotification(m) {
        CancelRequest(CancelTarget(m));
      } else if IsPing(m) {
        var reply := PingReply(m);
        if reply.Some? {
          controls' := controls + [reply.value];
        }
      } else if full {
        RequestClose(PolicyViolation);
        stopped := true;
      } else {
        var c := |calls|;
        KnownReservations(Model(), m, batch);
        stopped := AdmitItem(m, batch);
        if !stopped {
          items' := items + [c];
        }
      }
    }

    /** The loop over the items of one frame. */
    method ReadItems(frame: Frame)
      requires forall c :: c in reservations ==> c < |calls|
      modifies this
      ensures Model() == ReceiveItems(old(Model()), frame)
    {
      hide Scan, ScanItem;
      var ms, batch := ItemsOf(frame), frame.Batch?;
      var items: seq<nat>, controls: seq<Reply> := [], [];
      var full := |tasks| >= limits.maxPending + limits.maxQueue;
      ghost var start := Scanned(Model(), [], [], false);
      var stopped := false;
      var i := 0;
      ScanOfNothing(start, batch, full);
      while i < |ms| && !stopped
        invariant 0 <= i <= |ms|
        invariant Scan(start, ms[..i], batch, full) == Scanned(Model(), items, controls, stopped)
        invariant forall c :: c in reservations ==> c < |calls|
      {
        ScanOfOneMore(start, ms, i, batch, full);
        items, controls, stopped := ReadItem(ms[i], batch, full, items, controls);
        i := i + 1;
      }
      if stopped {
        StoppedScan(start, ms, i, batch, full);
        readerAlive := false;
      } else {
        assert ms[..|ms|] == ms;
        if |items| != 0 || |controls| != 0 {
          CreateCollector(Collector(frame, items, controls, batch, Gathering));
        }
      }
    }

    /** One turn of the reader. */
    method Receive(frame: Frame)
      requires Valid() && readerAlive
      modifies this
      ensures Valid() && Model() == Step(old(Model()), Event.Receive(frame))
    {
      assert forall c :: c in reservations ==> c < |calls|;
      hide Inv;
      StepKeeps(Model(), Event.Receive(frame));
      if frame.TooBig? {
        RequestClose(MessageTooBig);
        readerAlive := false;
      } else if frame.NotUtf8? {
        RequestClose(ProtocolError);
        readerAlive := false;
      } else if frame.NotJson? {
        CreateCollector(Collector(frame, [], [Failure(NullReplyId, ParseError)], false, Gathering));
      } else if frame.Batch? && (|frame.items| == 0 || |frame.items| > limits.maxBatch) {
        CreateCollector(Collector(frame, [], [Failure(NullReplyId, InvalidRequest)], false, Gathering));
      } else {
        ReadItems(frame);
      }
    }

    // ----- the call tasks -----

    method SetPhase(c: nat, phase: Phase)
      requires c < |calls|
      modifies this`calls
      ensures Model() == ConnectionRuntime.SetPhase(old(Model()), c, phase)
    {
      calls := calls[c := calls[c].(phase := phase)];
    }

    /** The call task ends; its reservation is released on every path. */
    method FinishCall(c: nat, how: How)
      requires Valid() && CallEnabled(Model(), c, Finish(how))
      modifies this
      ensures Valid() && Model() == Step(old(Model()), OfCall(c, Finish(how)))
      ensures calls[c].phase.Ended? && Tells(limits, calls[c], how, calls[c].phase.ending)
    {
      FinishTells(Model(), c, how);
      hide Inv, Tells;
      StepKeeps(Model(), OfCall(c, Finish(how)));
      var ending := EndCall(calls[c], how);
      SetPhase(c, Ended(true, ending));
      Release(c);
    }

    /** What the task of a call ends with: the refusals come first, then the session, then what interrupted the handler. */
    method EndCall(call: Call, how: How) returns (ending: Ending)
      ensures ending == EndingOf(limits, call, how)
      ensures (call.reserved ==> !call.invalid && !call.shuttingDown) && (call.invalid <==> IsInvalidCall(call.message)) ==>
        Tells(limits, call, how, ending)
    {
      var m := call.message;
      if how == TornDown {
        ending := Interrupted;
      } else if how == MiddlewareFailed {
        ending := Crashed;
      } else if call.invalid {
        ending := Answered(FailureReply(m, InvalidRequest));
      } else if call.shuttingDown {
        ending := Answered(FailureReply(m, ServerShuttingDown));
      } else if !call.reserved {
        ending := Answered(FailureReply(m, PendingLimit));
      } else if IsSessionCall(limits, call) && (call.responded || how == Returned) {
        ending := Answered(None);
      } else {
        var error := InterruptionOf(how);
        ending := Answered(if error.Some? then FailureReply(m, error.value) else SuccessReply(m));
      }
    }

    /** The error a handler, the deadline or the client ended the call with, if any. */
    static method InterruptionOf(how: How) returns (error: Option<ErrorCode>)
      ensures error == match how
        case HandlerFailed(code) => Some(HandlerError(code))
        case DeadlineExpired => Some(RequestTimeout)
        case CancelledByClient => Some(RequestCancelled)
        case _ => None
    {
      error := None;
      match how
      case HandlerFailed(code) => error := Some(HandlerError(code));
      case DeadlineExpired => error := Some(RequestTimeout);
      case CancelledByClient => error := Some(RequestCancelled);
      case _ =>
    }

    method SessionRespond(c: nat, producing: bool)
      requires Valid() && CallEnabled(Model(), c, SessionResponds(producing))
      modifies this
      ensures Valid() && Model() == Step(old(Model()), OfCall(c, SessionResponds(producing)))
    {
      hide Inv;
      StepKeeps(Model(), OfCall(c, SessionResponds(producing)));
      outgoing := outgoing + [FromSession(c, RequestId(calls[c].message))];
      calls := calls[c := calls[c].(responded := true)];
      if producing {
        subscriptions := subscriptions + {c};
      }
    }

    method CallDone(c: nat)
      requires Valid() && CallEnabled(Model(), c, CallEvent.CallDone)
      modifies this
      ensures Valid() && Model() == Step(old(Model()), OfCall(c, CallEvent.CallDone))
    {
      hide Inv;
      StepKeeps(Model(), OfCall(c, CallEvent.CallDone));
      callTasks := callTasks - {c};
      Release(c);
      var key := CallKey(calls[c].message);
      if key.Some? && key.value in requests && requests[key.value] == c {
        requests := requests - {key.value};
      }
    }

    // ----- the collectors -----

    method SetProgress(k: nat, progress: Progress)
      requires k < |collectors|
      modifies this`collectors
      ensures Model() == ConnectionRuntime.SetProgress(old(Model()), k, progress)
    {
      collectors := collectors[k := collectors[k].(progress := progress)];
    }

    /** The responses of ended calls in item order, and whether one of the calls failed. */
    method Collect(items: seq<nat>) returns (replies: seq<Reply>, failed: bool)
      requires AllEnded(Model(), items)
      ensures replies == Responses(calls, items) && (failed <==> AnyFailed(Model(), items))
    {
      replies, failed := [], false;
      for i := 0 to |items|
        invariant failed <==> exists j :: 0 <= j < i && FailedEnding(calls[items[j]])
        invariant replies == Responses(calls, items[..i])
      {
        assert items[..i + 1][..i] == items[..i];
        failed := failed || FailedEnding(calls[items[i]]);
        var reply := Collected(calls[items[i]]);
        if reply.Some? {
          replies := replies + [reply.value];
        }
      }
      assert items[..|items|] == items;
    }

    /** Joins the controls with the responses of the calls. */
    method GatherReplies(k: nat)
      requires Valid() && CollectorEnabled(Model(), k, Gather)
      modifies this
      ensures Valid() && Model() == Step(old(Model()), OfCollector(k, Gather))
    {
      hide Inv;
      StepKeeps(Model(), OfCollector(k, Gather));
      var responses, failed := Collect(collectors[k].items);
      var replies := collectors[k].controls + responses;
      if closed.Some? || failed {
        SetProgress(k, Failed);
      } else {
        SetProgress(k, if |replies| == 0 then Finished([]) else Sending(replies));
      }
    }

    method QueueReply(k: nat)
      requires Valid() && CollectorEnabled(Model(), k, Queue)
      modifies this
      ensures Valid() && Model() == Step(old(Model()), OfCollector(k, Queue))
    {
      hide Inv;
      StepKeeps(Model(), OfCollector(k, Queue));
      var replies := collectors[k].progress.replies;
      outgoing := outgoing + [FromCollector(k, replies, collectors[k].batch)];
      SetProgress(k, Finished(replies));
    }

    method InvocationDone(k: nat)
      requires Valid() && CollectorEnabled(Model(), k, CollectorDone)
      modifies this
      ensures Valid() && Model() == Step(old(Model()), OfCollector(k, CollectorDone))
    {
      hide Inv;
      StepKeeps(Model(), OfCollector(k, CollectorDone));
      tasks := tasks - {k};
      if collectors[k].progress == Failed {
        RequestClose(InternalError);
      }
    }

    // ----- the drain -----

    /** Each turn of the graceful drain waits for what the turn before it collected. */
    method Graceful(e: DrainEvent)
      requires Valid() && DrainEnabled(Model(), e)
      modifies this
      ensures Valid() && Model() == Step(old(Model()), OfDrain(e))
    {
      hide Inv;
      StepKeeps(Model(), OfDrain(e));
      match e
      case BeginDrain => draining := true;
      case StopEvents => graceful := StoppingEvents;
      case EventsStopped => graceful := AwaitingCalls(tasks);
      case CallsGathered => graceful := AwaitingSubscriptions(subscriptions);
      case ProducersFinished =>
        graceful := StoppingReader(tasks);
        readerAlive := false;
      case ReaderStopped => graceful := Flushing(|outgoing|);
      case QueueJoined => graceful := Flushed(|outgoing|);
      case RequestRestart =>
        RequestClose(ServiceRestart);
        graceful := RestartRequested;
    }
  }

  /** The state with the task of the call and its entry in the request table. */
  function StartedCall(s: State, call: Call): State {
    var key, c := CallKey(call.message), |s.calls|;
    s.(calls := s.calls + [call], callTasks := s.callTasks + {c},
       requests := if key.Some? then s.requests[key.value := c] else s.requests)
  }

  /** Reserving first and starting the call then is what admitting it does in one step. */
  lemma ReservedThenStarted(s: State, m: Message, batch: bool)
    ensures var reserved := !IsInvalidCall(m) && !s.draining && |s.reservations| < s.limits.maxPending;
      var call := Call(m, reserved, IsInvalidCall(m), batch, !IsInvalidCall(m) && s.draining, Created, false, false, |s.collectors|);
      StartedCall(s.(reservations := if reserved then s.reservations + {|s.calls|} else s.reservations), call) == AddCall(s, m, batch)
  {
  }

  lemma ScanOfNothing(a: Scanned, batch: bool, full: bool)
    ensures forall ms: seq<Message> :: ms[..0] == []
    ensures Scan(a, [], batch, full) == a
  {
  }

  lemma ScanOfOneMore(a: Scanned, ms: seq<Message>, i: nat, batch: bool, full: bool)
    requires i < |ms| && !Scan(a, ms[..i], batch, full).stopped
    ensures Scan(a, ms[..i + 1], batch, full) == ScanItem(Scan(a, ms[..i], batch, full), ms[i], batch, full)
  {
    assert ms[..i + 1][..i] == ms[..i];
  }

  /** Once a scan has stopped it ignores the items that follow. */
  lemma {:induction false} StoppedScan(a: Scanned, ms: seq<Message>, i: nat, batch: bool, full: bool)
    requires i <= |ms| && Scan(a, ms[..i], batch, full).stopped
    ensures Scan(a, ms, batch, full) == Scan(a, ms[..i], batch, full)
    decreases |ms|
  {
    if i == |ms| {
      assert ms[..i] == ms;
    } else {
      var front := ms[..|ms| - 1];
      assert front[..i] == ms[..i];
      StoppedScan(a, front, i, batch, full);
    }
  }
}
