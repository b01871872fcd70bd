/**
 The bounded queues of the generated TypeScript client: values wait in a buffer, or calls wait for values, never
 both. One machine covers the core's `AsyncQueue`, the transport's `AsyncQueue` and the raw and binary queues.
 */
module Queues {
  import opened Wrappers

  /** `Core` drops the oldest value on overflow; `Transport` does so or throws, and ignores values nobody listens to;
   `Message` throws on overflow. */
  datatype Kind = Core | Transport(closes: bool) | Message

  predicate DropsOldest(kind: Kind) {
    kind.Core? || (kind.Transport? && !kind.closes)
  }

  /** What the promise of a call settles with. */
  datatype Settlement<+V> = Delivered(value: V) | Rejected(error: nat) | Ended

  /** A value that left the buffer or passed through the queue: delivered to a call, or dropped. */
  datatype Leaving<+V> = Leaving(value: V, to: Option<nat>)

  /**
   Calls are numbered in order; `waiters` are the calls not settled yet. `accepted`, `left` and `settled` are history:
   the values pushed and not refused, those gone again, and how each call settled.
   */
  datatype State<+V> = State(
    kind: Kind, capacity: nat, listening: bool, values: seq<V>, waiters: seq<nat>, ended: bool, failure: Option<nat>,
    accepted: seq<V>, left: seq<Leaving<V>>, settled: map<nat, Settlement<V>>, issued: nat)

  function Init<V>(kind: Kind, capacity: nat): State<V> {
    State(kind, capacity, !kind.Transport?, [], [], false, None, [], [], map[], 0)
  }

  datatype Event<+V> = Push(value: V) | Next(aborted: bool) | Abort(call: nat) | End | Fail(error: nat)

  predicate Enabled<V>(s: State<V>, e: Event<V>) {
    match e
    case Push(_) => true
    case Next(aborted) => aborted ==> !s.kind.Message?
    case Abort(call) => !s.kind.Message? && call in s.waiters
    case End => s.kind.Core?
    case Fail(_) => true
  }

  /** A full queue that throws, or a queue nobody listens to, does not take the value. */
  predicate Refuses<V>(s: State<V>) {
    !s.listening || (s.waiters == [] && |s.values| == s.capacity && !DropsOldest(s.kind))
  }

  function PushValue<V>(s: State<V>, value: V): State<V> {
    if Refuses(s) then s
    else if s.waiters != [] then
      s.(waiters := s.waiters[1..], accepted := s.accepted + [value], left := s.left + [Leaving(value, Some(s.waiters[0]))],
         settled := s.settled[s.waiters[0] := Delivered(value)])
    else if |s.values| == s.capacity && s.values != [] then
      s.(values := s.values[1..] + [value], accepted := s.accepted + [value], left := s.left + [Leaving(s.values[0], None)])
    else s.(values := s.values + [value], accepted := s.accepted + [value])
  }

  function Settle<V>(s: State<V>, settlement: Settlement<V>): State<V> {
    s.(issued := s.issued + 1, settled := s.settled[s.issued := settlement])
  }

  function NextValue<V>(s: State<V>, aborted: bool): State<V> {
    if aborted then Settle(s, Ended)
    else if s.values != [] then
      Settle(s, Delivered(s.values[0])).(listening := true, values := s.values[1..],
                                          left := s.left + [Leaving(s.values[0], Some(s.issued))])
    else if s.failure.Some? then Settle(s, Rejected(s.failure.value)).(listening := true)
    else if s.ended then Settle(s, Ended).(listening := true)
    else s.(listening := true, issued := s.issued + 1, waiters := s.waiters + [s.issued])
  }

  function Without(waiters: seq<nat>, call: nat): (rest: seq<nat>)
    ensures forall w :: w in rest <==> w in waiters && w != call
  {
    if waiters == [] then []
    else Without(waiters[..|waiters| - 1], call) + if waiters[|waiters| - 1] == call then [] else [waiters[|waiters| - 1]]
  }

  ghost predicate Increasing(calls: seq<nat>) {
    forall i, j :: 0 <= i < j < |calls| ==> calls[i] < calls[j]
  }

  /** Settles every waiter in the same way. */
  function SettleAll<V>(s: State<V>, settlement: Settlement<V>): State<V> {
    s.(waiters := [], settled := map c | c in s.settled.Keys + (set w | w in s.waiters) ::
                                  if c in s.waiters then settlement else s.settled[c])
  }

  function FailQueue<V>(s: State<V>, error: nat): State<V> {
    if s.kind.Core? then SettleAll(s, Rejected(error)).(failure := Some(error), ended := true)
    else if s.failure.Some? then s
    else SettleAll(s, Rejected(error)).(failure := Some(error))
  }

  function Step<V>(s: State<V>, e: Event<V>): State<V>
    requires Enabled(s, e)
  {
    match e
    case Push(value) => PushValue(s, value)
    case Next(aborted) => NextValue(s, aborted)
    case Abort(call) => s.(waiters := Without(s.waiters, call), settled := s.settled[call := Ended])
    case End => SettleAll(s, Ended).(ended := true)
    case Fail(error) => FailQueue(s, error)
  }

  predicate IsRun<V>(s: State<V>, events: seq<Event<V>>)
    decreases |events|
  {
    events == [] || (Enabled(s, events[0]) && IsRun(Step(s, events[0]), events[1..]))
  }

  function After<V>(s: State<V>, events: seq<Event<V>>): State<V>
    requires IsRun(s, events)
    decreases |events|
  {
    if events == [] then s else After(Step(s, events[0]), events[1..])
  }

  // ----- the invariant -----

  function Gone<V>(left: seq<Leaving<V>>): seq<V> {
    if left == [] then [] else Gone(left[..|left| - 1]) + [left[|left| - 1].value]
  }

  function Dropped<V>(left: seq<Leaving<V>>): nat {
    if left == [] then 0 else Dropped(left[..|left| - 1]) + if left[|left| - 1].to.None? then 1 else 0
  }

  /** The calls that got a value, in the order of the values. */
  function Served<V>(left: seq<Leaving<V>>): seq<nat> {
    if left == [] then []
    else Served(left[..|left| - 1]) + if left[|left| - 1].to.Some? then [left[|left| - 1].to.value] else []
  }

  /** Values and calls never wait at the same time, and nobody waits for a queue that is over. */
  ghost predicate NoLostWakeup<V>(s: State<V>) {
    && (s.values == [] || s.waiters == [])
    && (s.waiters != [] ==> !s.ended && s.failure == None && s.listening)
    && |s.values| <= s.capacity
  }

  /** Everything accepted has gone, in order, or is buffered behind it. */
  ghost predicate Conserves<V>(s: State<V>) {
    && s.accepted == Gone(s.left) + s.values
    && (!DropsOldest(s.kind) ==> Dropped(s.left) == 0)
  }

  /** Every call is either waiting or settled, and calls wait in the order they were made. */
  ghost predicate Settles<V>(s: State<V>) {
    && (forall c: nat :: c < s.issued <==> c in s.settled || c in s.waiters)
    && (forall c :: c in s.waiters ==> c !in s.settled)
    && Increasing(s.waiters)
  }

  /** Calls are served in order: no waiting call is older than a served one. */
  ghost predicate ServedInOrder<V>(s: State<V>) {
    && Increasing(Served(s.left))
    && (forall c, w :: c in Served(s.left) && w in s.waiters ==> c < w)
    && (forall c :: c in Served(s.left) ==> c < s.issued)
  }

  /** A call settles with a value exactly when that value left the queue for it. */
  ghost predicate Truthful<V>(s: State<V>) {
    && (forall i :: 0 <= i < |s.left| && s.left[i].to.Some? ==>
          s.left[i].to.value in s.settled && s.settled[s.left[i].to.value] == Delivered(s.left[i].value))
    && (forall c :: c in s.settled && s.settled[c].Delivered? ==> c in Served(s.left))
  }

  ghost predicate Inv<V>(s: State<V>) {
    s.capacity > 0 && NoLostWakeup(s) && Conserves(s) && Settles(s) && ServedInOrder(s) && Truthful(s)
  }

  lemma KeepsNoLostWakeup<V>(s: State<V>, e: Event<V>)
    requires NoLostWakeup(s) && s.capacity > 0 && Enabled(s, e)
    ensures NoLostWakeup(Step(s, e))
  {
  }

  lemma LeftGrows<V>(left: seq<Leaving<V>>, last: Leaving<V>)
    ensures Gone(left + [last]) == Gone(left) + [last.value]
    ensures Dropped(left + [last]) == Dropped(left) + if last.to.None? then 1 else 0
    ensures Served(left + [last]) == Served(left) + if last.to.Some? then [last.to.value] else []
  {
    assert (left + [last])[..|left|] == left;
  }

  lemma IncreasingGrows(calls: seq<nat>, last: nat)
    requires Increasing(calls) && forall c :: c in calls ==> c < last
    ensures Increasing(calls + [last])
  {
    forall i, j | 0 <= i < j < |calls| + 1 ensures (calls + [last])[i] < (calls + [last])[j] {
      if j == |calls| {
        assert calls[i] in calls;
      }
    }
  }

  lemma IncreasingShrinks(calls: seq<nat>)
    requires Increasing(calls) && calls != []
    ensures Increasing(calls[1..])
    ensures forall c :: c in calls <==> c == calls[0] || c in calls[1..]
    ensures forall c :: c in calls[1..] ==> calls[0] < c
  {
  }

  // ----- pushing -----

  lemma PushConserves<V>(s: State<V>, value: V)
    requires NoLostWakeup(s) && Conserves(s) && s.capacity > 0
    ensures Conserves(PushValue(s, value))
  {
    hide Gone, Dropped, DropsOldest;
    if !Refuses(s) {
      if s.waiters != [] {
        LeftGrows(s.left, Leaving(value, Some(s.waiters[0])));
        assert Gone(s.left) + [] == Gone(s.left);
      } else if |s.values| == s.capacity {
        LeftGrows(s.left, Leaving(s.values[0], None));
        assert s.values == [s.values[0]] + s.values[1..];
        assert s.accepted + [value] == Gone(s.left) + [s.values[0]] + (s.values[1..] + [value]);
      } else {
        assert s.accepted + [value] == Gone(s.left) + (s.values + [value]);
      }
    }
  }

  /** A delivery to a call that is not settled: to the oldest waiter, or to the call just made. */
  lemma DeliveryIsTruthful<V>(s: State<V>, t: State<V>, value: V, call: nat)
    requires Truthful(s) && call !in s.settled
    requires t.left == s.left + [Leaving(value, Some(call))] && t.settled == s.settled[call := Delivered(value)]
    ensures Truthful(t)
  {
    LeftGrows(s.left, Leaving(value, Some(call)));
    forall i | 0 <= i < |t.left| && t.left[i].to.Some?
      ensures t.left[i].to.value in t.settled && t.settled[t.left[i].to.value] == Delivered(t.left[i].value)
    {
      if i < |s.left| {
        assert t.left[i] == s.left[i];
      }
    }
    forall c | c in t.settled && t.settled[c].Delivered? ensures c in Served(t.left) {
      assert c == call || c in Served(s.left);
    }
  }

  lemma DeliveryIsInOrder<V>(s: State<V>, t: State<V>, value: V, call: nat)
    requires ServedInOrder(s) && t.left == s.left + [Leaving(value, Some(call))] && call < t.issued && s.issued <= t.issued
    requires forall c :: c in Served(s.left) ==> c < call
    requires forall w :: w in t.waiters ==> w in s.waiters && call < w
    ensures ServedInOrder(t)
  {
    LeftGrows(s.left, Leaving(value, Some(call)));
    IncreasingGrows(Served(s.left), call);
    forall c | c in Served(t.left) ensures c in Served(s.left) || c == call {
    }
  }

  lemma WakeKeepsCalls<V>(s: State<V>, value: V)
    requires Settles(s) && ServedInOrder(s) && Truthful(s) && s.waiters != [] && !Refuses(s)
    ensures var t := PushValue(s, value); Settles(t) && ServedInOrder(t) && Truthful(t)
  {
    var t := PushValue(s, value);
    IncreasingShrinks(s.waiters);
    assert s.waiters[0] in s.waiters;
    DeliveryIsTruthful(s, t, value, s.waiters[0]);
    DeliveryIsInOrder(s, t, value, s.waiters[0]);
  }

  lemma PushKeepsCalls<V>(s: State<V>, value: V)
    requires Settles(s) && ServedInOrder(s) && Truthful(s)
    ensures var t := PushValue(s, value); Settles(t) && ServedInOrder(t) && Truthful(t)
  {
    if !Refuses(s) && s.waiters != [] {
      WakeKeepsCalls(s, value);
    } else if !Refuses(s) && |s.values| == s.capacity && s.values != [] {
      LeftGrows(s.left, Leaving(s.values[0], None));
      assert Served(s.left) + [] == Served(s.left);
    }
  }

  // ----- calling -----

  lemma NextConserves<V>(s: State<V>, aborted: bool)
    requires Conserves(s)
    ensures Conserves(NextValue(s, aborted))
  {
    hide Gone, Dropped, DropsOldest;
    if !aborted && s.values != [] {
      LeftGrows(s.left, Leaving(s.values[0], Some(s.issued)));
      assert s.values == [s.values[0]] + s.values[1..];
      assert s.accepted == Gone(s.left) + [s.values[0]] + s.values[1..];
    }
  }

  lemma TakeKeepsCalls<V>(s: State<V>)
    requires NoLostWakeup(s) && Settles(s) && ServedInOrder(s) && Truthful(s) && s.values != []
    ensures var t := NextValue(s, false); Settles(t) && ServedInOrder(t) && Truthful(t)
  {
    var t := NextValue(s, false);
    assert s.issued !in s.settled && s.waiters == [];
    assert forall c :: c in Served(s.left) ==> c < s.issued;
    assert Settles(t);
    hide Served, Truthful, Increasing, Settles;
    DeliveryIsTruthful(s, t, s.values[0], s.issued);
    DeliveryIsInOrder(s, t, s.values[0], s.issued);
  }

  lemma NextKeepsCalls<V>(s: State<V>, aborted: bool)
    requires NoLostWakeup(s) && Settles(s) && ServedInOrder(s) && Truthful(s)
    ensures var t := NextValue(s, aborted); Settles(t) && ServedInOrder(t) && Truthful(t)
  {
    hide Settles, ServedInOrder, Truthful, NextValue;
    if !aborted && s.values != [] {
      TakeKeepsCalls(s);
    } else if !aborted && s.failure.None? && !s.ended {
      WaitKeepsCalls(s);
    } else {
      RefusalKeepsCalls(s, aborted);
    }
  }

  /** The call becomes the last waiter. */
  lemma WaitKeepsCalls<V>(s: State<V>)
    requires Settles(s) && ServedInOrder(s) && Truthful(s) && s.values == [] && s.failure.None? && !s.ended
    ensures var t := NextValue(s, false); Settles(t) && ServedInOrder(t) && Truthful(t)
  {
    assert s.issued !in s.settled && s.issued !in s.waiters;
    IncreasingGrows(s.waiters, s.issued);
    hide Increasing, Served;
  }

  /** The call settles at once without a value. */
  lemma RefusalKeepsCalls<V>(s: State<V>, aborted: bool)
    requires Settles(s) && ServedInOrder(s) && Truthful(s) && (aborted || (s.values == [] && (s.failure.Some? || s.ended)))
    ensures var t := NextValue(s, aborted); Settles(t) && ServedInOrder(t) && Truthful(t)
  {
    assert s.issued !in s.settled && s.issued !in s.waiters;
    hide Increasing, Served;
  }

  // ----- ending -----

  lemma {:induction false} WithoutStaysInOrder(waiters: seq<nat>, call: nat)
    requires Increasing(waiters)
    ensures Increasing(Without(waiters, call))
  {
    if waiters != [] {
      var before := waiters[..|waiters| - 1];
      WithoutStaysInOrder(before, call);
      if waiters[|waiters| - 1] != call {
        IncreasingGrows(Without(before, call), waiters[|waiters| - 1]);
      } else {
        assert Without(waiters, call) == Without(before, call);
      }
    }
  }

  lemma AbortKeepsCalls<V>(s: State<V>, call: nat)
    requires Settles(s) && ServedInOrder(s) && Truthful(s) && Enabled(s, Abort(call))
    ensures var t := Step(s, Abort(call)); Settles(t) && ServedInOrder(t) && Truthful(t)
  {
    WithoutStaysInOrder(s.waiters, call);
  }

  lemma SettleAllKeepsCalls<V>(s: State<V>, settlement: Settlement<V>)
    requires Settles(s) && ServedInOrder(s) && Truthful(s) && !settlement.Delivered?
    ensures var t := SettleAll(s, settlement); Settles(t) && ServedInOrder(t) && Truthful(t)
  {
  }

  lemma CapacityStays<V>(s: State<V>, e: Event<V>)
    requires Enabled(s, e)
    ensures Step(s, e).capacity == s.capacity && Step(s, e).kind == s.kind
  {
  }

  lemma StepKeeps<V>(s: State<V>, e: Event<V>)
    requires Inv(s) && Enabled(s, e)
    ensures Inv(Step(s, e))
  {
    hide Settles, ServedInOrder, Truthful, PushValue, NextValue, SettleAll;
    assert NoLostWakeup(Step(s, e)) by { KeepsNoLostWakeup(s, e); }
    CapacityStays(s, e);
    match e
    case Push(value) =>
      PushConserves(s, value);
      PushKeepsCalls(s, value);
    case Next(aborted) =>
      NextConserves(s, aborted);
      NextKeepsCalls(s, aborted);
    case Abort(call) => AbortKeepsCalls(s, call);
    case End => EndKeeps(s, Ended);
    case Fail(error) => EndKeeps(s, Rejected(error));
  }

  lemma EndKeeps<V>(s: State<V>, settlement: Settlement<V>)
    requires Inv(s) && !settlement.Delivered?
    ensures var t := SettleAll(s, settlement);
      Conserves(t) && forall ended, failure :: (var u := t.(ended := ended, failure := failure);
      Settles(u) && ServedInOrder(u) && Truthful(u))
  {
    SettleAllKeepsCalls(s, settlement);
  }

  lemma {:induction false} RunKeeps<V>(s: State<V>, events: seq<Event<V>>)
    requires Inv(s) && IsRun(s, events)
    ensures Inv(After(s, events)) && After(s, events).capacity == s.capacity && After(s, events).kind == s.kind
    decreases |events|
  {
    hide Inv, Enabled, Step;
    if events != [] {
      StepKeeps(s, events[0]);
      CapacityStays(s, events[0]);
      RunKeeps(Step(s, events[0]), events[1..]);
    }
  }

  // ----- over all runs -----

  /**
   In every run: values and calls are never both waiting, the buffer holds at most `capacity` values and is the end of
   everything accepted, and delivered plus dropped plus buffered is accepted. A queue that throws on overflow drops
   nothing, so what was delivered followed by the buffer is exactly what was accepted.
   */
  lemma NothingIsLost<V>(kind: Kind, capacity: nat, events: seq<Event<V>>)
    requires capacity > 0 && IsRun(Init(kind, capacity), events)
    ensures var s := After(Init<V>(kind, capacity), events);
      && (s.values == [] || s.waiters == [])
      && |s.values| <= capacity
      && |s.left| <= |s.accepted| && s.accepted[|s.left|..] == s.values
      && |Served(s.left)| + Dropped(s.left) + |s.values| == |s.accepted|
      && (kind == Message || kind == Transport(true) ==> |Served(s.left)| == |s.left| && s.accepted == Gone(s.left) + s.values)
  {
    RunKeeps(Init<V>(kind, capacity), events);
    CountsAgree(After(Init<V>(kind, capacity), events).left);
  }

  lemma {:induction false} CountsAgree<V>(left: seq<Leaving<V>>)
    ensures |Served(left)| + Dropped(left) == |left| == |Gone(left)|
  {
    if left != [] {
      CountsAgree(left[..|left| - 1]);
    }
  }

  /** In every run each call is waiting or settled, and calls get values in the order in which they were made. */
  lemma CallsAreServedInOrder<V>(kind: Kind, capacity: nat, events: seq<Event<V>>, call: nat)
    requires capacity > 0 && IsRun(Init(kind, capacity), events)
    ensures var s := After(Init<V>(kind, capacity), events);
      && (call < s.issued ==> (call in s.settled) != (call in s.waiters))
      && (call in s.settled && s.settled[call].Delivered? <==> call in Served(s.left))
      && Increasing(Served(s.left)) && Increasing(s.waiters)
      && (forall w :: call in Served(s.left) && w in s.waiters ==> call < w)
  {
    RunKeeps(Init<V>(kind, capacity), events);
    var s := After(Init<V>(kind, capacity), events);
    assert Settles(s) && ServedInOrder(s) && Truthful(s);
    if call in Served(s.left) {
      ServedLeft(s.left, call);
    }
  }

  lemma {:induction false} ServedLeft<V>(left: seq<Leaving<V>>, call: nat)
    requires call in Served(left)
    ensures exists i :: 0 <= i < |left| && left[i].to == Some(call)
  {
    var last := |left| - 1;
    if left[last].to != Some(call) {
      ServedLeft(left[..last], call);
      var i :| 0 <= i < last && left[..last][i].to == Some(call);
      assert left[i].to == Some(call);
    }
  }

  /** A call is settled once: no step changes how it settled. */
  lemma SettledOnce<V>(s: State<V>, e: Event<V>, call: nat)
    requires Inv(s) && Enabled(s, e) && call in s.settled
    ensures call in Step(s, e).settled && Step(s, e).settled[call] == s.settled[call]
  {
    hide Conserves, ServedInOrder, Truthful;
    assert s.issued !in s.settled;
  }

  /** A call that is refused or ended, other than by its own abort signal, finds no buffered value left. */
  lemma ValuesBeforeFailure<V>(s: State<V>, e: Event<V>, call: nat)
    requires Inv(s) && Enabled(s, e) && call !in s.settled && call in Step(s, e).settled
    requires e != Abort(call) && e != Next(true)
    ensures !Step(s, e).settled[call].Delivered? ==> s.values == []
  {
    hide Conserves, ServedInOrder, Truthful;
  }

  // ----- what each event decides -----

  /**
   A push hands the value to the oldest waiter, or buffers it. When the buffer is full, the core's queue and a transport
   queue that keeps going drop the oldest value for it, and the other queues throw and stay as they are. A transport
   queue that nobody has called yet ignores the value.
   */
  lemma PushDecides<V>(s: State<V>, value: V)
    requires Inv(s)
    ensures var t := Step(s, Push(value));
      && (!s.listening ==> t == s)
      && (s.listening && s.waiters != [] ==>
            t == s.(waiters := s.waiters[1..], settled := s.settled[s.waiters[0] := Delivered(value)],
                    accepted := s.accepted + [value], left := s.left + [Leaving(value, Some(s.waiters[0]))]))
      && (s.listening && s.waiters == [] && |s.values| < s.capacity ==>
            t == s.(values := s.values + [value], accepted := s.accepted + [value]))
      && (s.listening && s.waiters == [] && |s.values| == s.capacity ==>
            match s.kind
            case Message => t == s
            case Transport(true) => t == s
            case _ => t == s.(values := s.values[1..] + [value], accepted := s.accepted + [value],
                              left := s.left + [Leaving(s.values[0], None)]))
  {
  }

  /** A call takes the oldest buffered value; else it is rejected with the failure, ends with the queue, or waits. */
  lemma CallDecides<V>(s: State<V>)
    requires Inv(s)
    ensures var t, call := Step(s, Next(false)), s.issued;
      && t.issued == call + 1 && t.listening && t.accepted == s.accepted
      && (s.values != [] ==> t.settled == s.settled[call := Delivered(s.values[0])] && t.values == s.values[1..] && t.waiters == s.waiters)
      && (s.values == [] && s.failure.Some? ==> t.settled == s.settled[call := Rejected(s.failure.value)] && t.waiters == s.waiters)
      && (s.values == [] && s.failure.None? && s.ended ==> t.settled == s.settled[call := Ended] && t.waiters == s.waiters)
      && (s.values == [] && s.failure.None? && !s.ended ==> t.settled == s.settled && t.waiters == s.waiters + [call])
  {
  }

  /** A failure rejects every waiting call with it; only the core's queue lets a later failure replace the first. */
  lemma FailureDecides<V>(s: State<V>, error: nat, call: nat)
    requires Inv(s)
    ensures var t := Step(s, Fail(error));
      && t.values == s.values && t.waiters == []
      && (call in s.waiters ==> call in t.settled && t.settled[call] == Rejected(error))
      && t.failure == (if s.kind == Core || s.failure == None then Some(error) else s.failure)
      && (s.kind == Core ==> t.ended)
  {
  }

  /** Ending the core's queue ends every waiting call, and an abort ends only its own call. */
  lemma EndDecides<V>(s: State<V>, e: Event<V>, call: nat)
    requires Inv(s) && Enabled(s, e) && (e.End? || e.Abort?) && call in s.waiters
    ensures var t := Step(s, e);
      && t.values == s.values && t.failure == s.failure && (t.ended <==> s.ended || e.End?)
      && (e.End? || e.call == call <==> call in t.settled && t.settled[call] == Ended)
      && (e.Abort? && e.call != call <==> call in t.waiters)
  {
  }

  /** The values pushed while somebody listens: from the start, or for a transport's queue from its first call on. */
  function Heard<V>(listening: bool, events: seq<Event<V>>): seq<V>
    decreases |events|
  {
    if events == [] then []
    else
      (if events[0].Push? && listening then [events[0].value] else [])
      + Heard(listening || events[0] == Next(false), events[1..])
  }

  lemma {:induction false} RunHears<V>(s: State<V>, events: seq<Event<V>>)
    requires Inv(s) && IsRun(s, events) && (s.kind == Core || s.kind == Transport(false))
    ensures After(s, events).accepted == s.accepted + Heard(s.listening, events)
    decreases |events|
  {
    if events == [] {
      assert s.accepted + [] == s.accepted;
    } else {
      var e, t := events[0], Step(s, events[0]);
      hide Step, Enabled, Inv;
      StepHears(s, e);
      StepKeeps(s, e);
      CapacityStays(s, e);
      RunHears(t, events[1..]);
      Regroup(s.accepted, if e.Push? && s.listening then [e.value] else [], Heard(t.listening, events[1..]));
    }
  }

  lemma Regroup<V>(a: seq<V>, b: seq<V>, c: seq<V>)
    ensures a + b + c == a + (b + c)
  {
  }

  lemma StepHears<V>(s: State<V>, e: Event<V>)
    requires Inv(s) && Enabled(s, e) && (s.kind == Core || s.kind == Transport(false))
    ensures Step(s, e).accepted == s.accepted + if e.Push? && s.listening then [e.value] else []
    ensures Step(s, e).listening == (s.listening || e == Next(false))
  {
  }

  /**
   In every run, the core's queue and a transport queue that keeps going take every value that is pushed while somebody
   listens: what was delivered, dropped and buffered is, in order, all of that.
   */
  lemma NothingHeardIsRefused<V>(kind: Kind, capacity: nat, events: seq<Event<V>>)
    requires capacity > 0 && (kind == Core || kind == Transport(false)) && IsRun(Init(kind, capacity), events)
    ensures var s := After(Init<V>(kind, capacity), events);
      Gone(s.left) + s.values == Heard(kind == Core, events)
  {
    RunKeeps(Init<V>(kind, capacity), events);
    RunHears(Init<V>(kind, capacity), events);
    assert Conserves(After(Init<V>(kind, capacity), events));
  }

  // ----- the queues in the form of the source -----

  /** The core's and the transport's `AsyncQueue`, and the queues of raw sockets and binary streams. */
  class BoundedQueue<V> {
    const kind: Kind
    const capacity: nat
    var listening: bool
    var values: seq<V>
    var waiters: seq<nat>
    var ended: bool
    var failure: Option<nat>
    // How the promises of all calls settled, and what went through the queue.
    var settled: map<nat, Settlement<V>>
    var issued: nat
    ghost var accepted: seq<V>
    ghost var left: seq<Leaving<V>>

    ghost function Model(): State<V>
      reads this
    {
      State(kind, capacity, listening, values, waiters, ended, failure, accepted, left, settled, issued)
    }

    ghost predicate Valid()
      reads this
    {
      Inv(Model())
    }

    constructor (kind: Kind, capacity: nat)
      requires capacity > 0
      ensures Valid() && Model() == Init(kind, capacity)
    {
      this.kind, this.capacity, listening := kind, capacity, !kind.Transport?;
      values, waiters, ended, failure := [], [], false, None;
      settled, issued, accepted, left := map[], 0, [], [];
    }

    /** Hands the value to the oldest waiter or buffers it; `ok` is false when a full queue throws. */
    method Put(value: V) returns (ok: bool)
      requires Valid()
      modifies this
      ensures Valid() && Model() == Step(old(Model()), Push(value))
      ensures ok <==> !old(listening) || !Refuses(old(Model()))
    {
      hide Inv;
      StepKeeps(Model(), Push(value));
      ok := true;
      if !listening {
        return;
      }
      if waiters != [] {
        settled := settled[waiters[0] := Delivered(value)];
        accepted, left := accepted + [value], left + [Leaving(value, Some(waiters[0]))];
        waiters := waiters[1..];
        return;
      }
      if |values| == capacity {
        if !DropsOldest(kind) {
          return false;
        }
        if values != [] {
          left := left + [Leaving(values[0], None)];
          values := values[1..];
        }
      }
      values, accepted := values + [value], accepted + [value];
    }

    /** A call: it settles at once, or waits. */
    method Call(aborted: bool) returns (call: nat)
      requires Valid() && (aborted ==> !kind.Message?)
      modifies this
      ensures Valid() && Model() == Step(old(Model()), Next(aborted))
      ensures call == old(issued)
    {
      hide Inv;
      StepKeeps(Model(), Next(aborted));
      call := issued;
      issued := issued + 1;
      if aborted {
        settled := settled[call := Ended];
        return;
      }
      listening := true;
      if values != [] {
        settled := settled[call := Delivered(values[0])];
        left := left + [Leaving(values[0], Some(call))];
        values := values[1..];
      } else if failure.Some? {
        settled := settled[call := Rejected(failure.value)];
      } else if ended {
        settled := settled[call := Ended];
      } else {
        waiters := waiters + [call];
      }
    }

    /** The abort signal of a waiting call. */
    method AbortCall(call: nat)
      requires Valid() && Enabled(Model(), Abort(call))
      modifies this
      ensures Valid() && Model() == Step(old(Model()), Abort(call))
    {
      hide Inv;
      StepKeeps(Model(), Abort(call));
      waiters := Without(waiters, call);
      settled := settled[call := Ended];
    }

    /** Settles all waiters, oldest first, and forgets them. */
    method SettleWaiters(settlement: Settlement<V>)
      modifies this`waiters, this`settled
      ensures Model() == SettleAll(old(Model()), settlement)
    {
      var splice := waiters;
      waiters := [];
      var i := 0;
      while i < |splice|
        invariant 0 <= i <= |splice| && waiters == []
        invariant settled.Keys == old(settled).Keys + (set w | w in splice[..i])
        invariant forall c :: c in settled ==> settled[c] == if c in splice[..i] then settlement else old(settled)[c]
      {
        settled := settled[splice[i] := settlement];
        i := i + 1;
      }
      assert splice[..|splice|] == splice;
      assert settled == SettleAll(old(Model()), settlement).settled;
    }

    method Finish()
      requires Valid() && kind.Core?
      modifies this
      ensures Valid() && Model() == Step(old(Model()), End)
    {
      hide Inv;
      StepKeeps(Model(), End);
      ended := true;
      SettleWaiters(Ended);
    }

    method FailWith(error: nat)
      requires Valid()
      modifies this
      ensures Valid() && Model() == Step(old(Model()), Fail(error))
    {
      hide Inv;
      StepKeeps(Model(), Fail(error));
      if !kind.Core? && failure.Some? {
        return;
      }
      failure := Some(error);
      if kind.Core? {
        ended := true;
      }
      SettleWaiters(Rejected(error));
    }
  }
}
