/**
 The notification fan-out of the generated Python client: one pump per transport copies each message into the bounded
 queues of its subscribers, each of which is drained by one consumer.
 */
module NotificationFanOut {
  import opened Wrappers

  datatype Message = Message(name: nat, body: nat)

  /** A message that left a queue. */
  datatype Left = Delivered(message: Message) | Dropped(message: Message)

  /** The consumer awaits the event `ready`; `woken` says that the event was set meanwhile. */
  datatype Consumer = Idle | Waiting(woken: bool)

  /** `matched` and `left` are history: what the pump offered and what left the queue, in order. */
  datatype Subscriber = Subscriber(
    filter: Option<nat>, queue: seq<Message>, dropped: nat, terminal: Option<nat>, ready: bool, consumer: Consumer,
    hub: Option<nat>, matched: seq<Message>, left: seq<Left>)

  /** A pump that is cancelled before its first step never runs, so it never finishes its subscribers. */
  datatype Pump = NotStarted | Running | Finished | NeverRan

  datatype Hub = Hub(pump: Pump, terminal: Option<nat>, members: seq<nat>)

  datatype World = World(capacity: nat, subscribers: seq<Subscriber>, hubs: seq<Hub>, dropped: nat)

  function Init(capacity: nat): World {
    World(capacity, [], [], 0)
  }

  const STREAM_ENDED := 0

  datatype Event =
    | NewHub
    | NewSubscriber(filter: Option<nat>)
    | Attach(subscriber: nat, toHub: nat)
    | Detach(subscriber: nat)
    | StartPump(hub: nat)
    | Publish(hub: nat, message: Message)
    | EndPump(hub: nat, terminal: nat)
    | CancelPump(hub: nat)
    | Next(subscriber: nat)

  predicate Enabled(w: World, e: Event) {
    match e
    case NewHub => true
    case NewSubscriber(_) => true
    case Attach(i, h) => i < |w.subscribers| && h < |w.hubs| && w.subscribers[i].hub == None && w.subscribers[i].consumer == Idle
    case Detach(i) => i < |w.subscribers| && w.subscribers[i].hub.Some? && w.subscribers[i].hub.value < |w.hubs|
    case StartPump(h) => h < |w.hubs| && w.hubs[h].pump == NotStarted
    case Publish(h, _) => h < |w.hubs| && w.hubs[h].pump == Running
    case EndPump(h, _) => h < |w.hubs| && w.hubs[h].pump == Running
    case CancelPump(h) => h < |w.hubs| && (w.hubs[h].pump == Running || w.hubs[h].pump == NotStarted)
    case Next(i) =>
      i < |w.subscribers| && w.subscribers[i].hub.Some? && (w.subscribers[i].consumer == Idle || w.subscribers[i].consumer.woken)
  }

  // ----- one subscriber -----

  predicate Matches(s: Subscriber, m: Message) {
    s.filter == None || s.filter == Some(m.name)
  }

  /** Setting the event wakes the consumer. */
  function SetReady(s: Subscriber): Subscriber {
    s.(ready := true, consumer := if s.consumer.Waiting? then Waiting(true) else Idle)
  }

  /** Makes room by dropping the oldest message, then queues the new one. */
  function Enqueue(capacity: nat, s: Subscriber, m: Message): Subscriber {
    var full := |s.queue| == capacity && s.queue != [];
    SetReady(s.(queue := (if full then s.queue[1..] else s.queue) + [m], dropped := s.dropped + (if full then 1 else 0),
                left := if full then s.left + [Dropped(s.queue[0])] else s.left, matched := s.matched + [m]))
  }

  function Finish(s: Subscriber, terminal: nat): Subscriber {
    SetReady(s.(terminal := Some(terminal)))
  }

  /** One round of `next`: a queued message, else the terminal value, else wait for the event. */
  function Take(s: Subscriber): Subscriber {
    if s.queue != [] then s.(queue := s.queue[1..], left := s.left + [Delivered(s.queue[0])], consumer := Idle)
    else if s.terminal.Some? then s.(consumer := Idle)
    else s.(ready := false, consumer := Waiting(false))
  }

  // ----- the pump -----

  function SetSubscriber(w: World, i: nat, s: Subscriber): World
    requires i < |w.subscribers|
  {
    w.(subscribers := w.subscribers[i := s])
  }

  function OfferTo(w: World, i: nat, m: Message): World {
    if i < |w.subscribers| && Matches(w.subscribers[i], m) then
      var s := Enqueue(w.capacity, w.subscribers[i], m);
      SetSubscriber(w, i, s).(dropped := w.dropped + s.dropped - w.subscribers[i].dropped)
    else w
  }

  /** The pump offers the message to every subscriber in order. */
  function OfferAll(w: World, members: seq<nat>, m: Message): World {
    if members == [] then w else OfferTo(OfferAll(w, members[..|members| - 1], m), members[|members| - 1], m)
  }

  function FinishAll(w: World, members: seq<nat>, terminal: nat): World {
    w.(subscribers := seq(|w.subscribers|, i requires 0 <= i < |w.subscribers| =>
         if i in members then Finish(w.subscribers[i], terminal) else w.subscribers[i]))
  }

  function EndHub(w: World, h: nat, terminal: nat): World
    requires h < |w.hubs|
  {
    FinishAll(w, w.hubs[h].members, terminal).(hubs := w.hubs[h := w.hubs[h].(pump := Finished, terminal := Some(terminal))])
  }

  function AttachTo(w: World, i: nat, h: nat): World
    requires i < |w.subscribers| && h < |w.hubs|
  {
    var hub := w.hubs[h];
    var s := w.subscribers[i].(terminal := None, hub := Some(h));
    SetSubscriber(w, i, if hub.terminal.Some? then Finish(s, hub.terminal.value) else s)
      .(hubs := w.hubs[h := hub.(members := hub.members + [i])])
  }

  function Without(members: seq<nat>, i: nat): (rest: seq<nat>)
    ensures forall m :: m in rest <==> m in members && m != i
  {
    if members == [] then []
    else Without(members[..|members| - 1], i) + if members[|members| - 1] == i then [] else [members[|members| - 1]]
  }

  function DetachFrom(w: World, i: nat, h: nat): World
    requires i < |w.subscribers| && h < |w.hubs|
  {
    SetSubscriber(w, i, w.subscribers[i].(hub := None, consumer := Idle))
      .(hubs := w.hubs[h := w.hubs[h].(members := Without(w.hubs[h].members, i))])
  }

  function Step(w: World, e: Event): World
    requires Enabled(w, e)
  {
    match e
    case NewHub => w.(hubs := w.hubs + [Hub(NotStarted, None, [])])
    case NewSubscriber(filter) =>
      w.(subscribers := w.subscribers + [Subscriber(filter, [], 0, None, false, Idle, None, [], [])])
    case Attach(i, h) => AttachTo(w, i, h)
    case Detach(i) => DetachFrom(w, i, w.subscribers[i].hub.value)
    case StartPump(h) => w.(hubs := w.hubs[h := w.hubs[h].(pump := Running)])
    case Publish(h, m) => OfferAll(w, w.hubs[h].members, m)
    case EndPump(h, terminal) => EndHub(w, h, terminal)
    case CancelPump(h) =>
      if w.hubs[h].pump == Running then EndHub(w, h, STREAM_ENDED)
      else w.(hubs := w.hubs[h := w.hubs[h].(pump := NeverRan)])
    case Next(i) => SetSubscriber(w, i, Take(w.subscribers[i]))
  }

  predicate IsRun(w: World, events: seq<Event>)
    decreases |events|
  {
    events == [] || (Enabled(w, events[0]) && IsRun(Step(w, events[0]), events[1..]))
  }

  function After(w: World, events: seq<Event>): World
    requires IsRun(w, events)
    decreases |events|
  {
    if events == [] then w else After(Step(w, events[0]), events[1..])
  }

  // ----- the invariant -----

  function Gone(left: seq<Left>): seq<Message> {
    if left == [] then [] else Gone(left[..|left| - 1]) + [left[|left| - 1].message]
  }

  function Drops(left: seq<Left>): nat {
    if left == [] then 0 else Drops(left[..|left| - 1]) + if left[|left| - 1].Dropped? then 1 else 0
  }

  /** One subscriber: nothing is lost but what is counted as dropped, and a sleeping consumer has nothing to do. */
  ghost predicate SubscriberInv(capacity: nat, s: Subscriber) {
    && s.matched == Gone(s.left) + s.queue
    && s.dropped == Drops(s.left)
    && |s.queue| <= capacity
    && (s.consumer == Waiting(false) ==> s.queue == [] && s.terminal == None && !s.ready)
  }

  function SumDropped(subscribers: seq<Subscriber>): nat {
    if subscribers == [] then 0 else SumDropped(subscribers[..|subscribers| - 1]) + subscribers[|subscribers| - 1].dropped
  }

  ghost predicate Distinct(members: seq<nat>) {
    forall i, j :: 0 <= i < j < |members| ==> members[i] != members[j]
  }

  /** The members of a hub know it, and share its terminal value, which exists once the pump has finished. */
  ghost predicate HubInv(subscribers: seq<Subscriber>, h: nat, hub: Hub) {
    && Distinct(hub.members) && (hub.terminal.Some? <==> hub.pump == Finished)
    && (forall i :: i in hub.members ==>
          i < |subscribers| && subscribers[i].hub == Some(h) && subscribers[i].terminal == hub.terminal)
  }

  ghost predicate Membership(w: World) {
    && (forall h :: 0 <= h < |w.hubs| ==> HubInv(w.subscribers, h, w.hubs[h]))
    && (forall i :: 0 <= i < |w.subscribers| && w.subscribers[i].hub.Some? ==>
          w.subscribers[i].hub.value < |w.hubs| && i in w.hubs[w.subscribers[i].hub.value].members)
  }

  ghost predicate Conserves(w: World) {
    && w.capacity > 0
    && (forall i :: 0 <= i < |w.subscribers| ==> SubscriberInv(w.capacity, w.subscribers[i]))
    && w.dropped == SumDropped(w.subscribers)
  }

  ghost predicate Inv(w: World) {
    Conserves(w) && Membership(w)
  }

  // ----- every step keeps it -----

  lemma LeftGrows(left: seq<Left>, last: Left)
    ensures Gone(left + [last]) == Gone(left) + [last.message]
    ensures Drops(left + [last]) == Drops(left) + if last.Dropped? then 1 else 0
  {
    assert (left + [last])[..|left|] == left;
  }

  lemma EnqueueKeeps(capacity: nat, s: Subscriber, m: Message)
    requires capacity > 0 && SubscriberInv(capacity, s)
    ensures var t := Enqueue(capacity, s, m);
      SubscriberInv(capacity, t) && t.dropped >= s.dropped && t.hub == s.hub && t.terminal == s.terminal
  {
    hide Gone, Drops;
    var t := Enqueue(capacity, s, m);
    if |s.queue| == capacity {
      LeftGrows(s.left, Dropped(s.queue[0]));
      assert s.queue == [s.queue[0]] + s.queue[1..];
      assert t.matched == Gone(s.left) + ([s.queue[0]] + s.queue[1..]) + [m] == Gone(t.left) + t.queue;
    } else {
      assert t.matched == Gone(s.left) + (s.queue + [m]);
    }
  }

  lemma TakeKeeps(capacity: nat, s: Subscriber)
    requires SubscriberInv(capacity, s)
    ensures SubscriberInv(capacity, Take(s)) && Take(s).dropped == s.dropped
    ensures Take(s).hub == s.hub && Take(s).terminal == s.terminal && Take(s).filter == s.filter
  {
    hide Gone, Drops;
    if s.queue != [] {
      LeftGrows(s.left, Delivered(s.queue[0]));
      assert s.queue == [s.queue[0]] + s.queue[1..];
      assert s.matched == Gone(s.left) + [s.queue[0]] + s.queue[1..];
    }
  }

  lemma {:induction false} SumOfUpdate(subscribers: seq<Subscriber>, i: nat, s: Subscriber)
    requires i < |subscribers|
    ensures SumDropped(subscribers[i := s]) == SumDropped(subscribers) - subscribers[i].dropped + s.dropped
  {
    var last := |subscribers| - 1;
    if i == last {
      assert subscribers[i := s][..last] == subscribers[..last];
    } else {
      assert subscribers[i := s][..last] == subscribers[..last][i := s];
      SumOfUpdate(subscribers[..last], i, s);
    }
  }

  lemma {:induction false} SumOfEqual(a: seq<Subscriber>, b: seq<Subscriber>)
    requires |a| == |b| && forall i :: 0 <= i < |a| ==> a[i].dropped == b[i].dropped
    ensures SumDropped(a) == SumDropped(b)
  {
    if a != [] {
      SumOfEqual(a[..|a| - 1], b[..|b| - 1]);
    }
  }

  /** What the pump may do to the subscribers: only their queues, counters and wake-ups change. */
  ghost predicate SamePlaces(w: World, v: World) {
    && v.hubs == w.hubs && v.capacity == w.capacity && |v.subscribers| == |w.subscribers|
    && (forall i :: 0 <= i < |w.subscribers| ==>
          v.subscribers[i].hub == w.subscribers[i].hub && v.subscribers[i].terminal == w.subscribers[i].terminal
          && v.subscribers[i].filter == w.subscribers[i].filter)
  }

  lemma OfferToKeeps(w: World, i: nat, m: Message)
    requires Conserves(w)
    ensures Conserves(OfferTo(w, i, m)) && SamePlaces(w, OfferTo(w, i, m))
  {
    if i < |w.subscribers| && Matches(w.subscribers[i], m) {
      EnqueueKeeps(w.capacity, w.subscribers[i], m);
      SumOfUpdate(w.subscribers, i, Enqueue(w.capacity, w.subscribers[i], m));
    }
  }

  /** One message reaches every matching member once, and nobody else. */
  lemma {:induction false} OfferAllKeeps(w: World, members: seq<nat>, m: Message)
    requires Conserves(w) && Distinct(members)
    ensures var v := OfferAll(w, members, m);
      && Conserves(v) && SamePlaces(w, v)
      && (forall i :: 0 <= i < |w.subscribers| ==>
            v.subscribers[i].matched
            == w.subscribers[i].matched + (if i in members && Matches(w.subscribers[i], m) then [m] else []))
      && (forall i :: 0 <= i < |w.subscribers| && i !in members ==> v.subscribers[i] == w.subscribers[i])
  {
    hide Conserves;
    if members != [] {
      var before, last := members[..|members| - 1], members[|members| - 1];
      OfferAllKeeps(w, before, m);
      OfferToKeeps(OfferAll(w, before, m), last, m);
      assert forall i :: i in members <==> i in before || i == last;
      assert last !in before;
    }
  }

  lemma PumpKeepsMembership(w: World, v: World)
    requires Membership(w) && SamePlaces(w, v)
    ensures Membership(v)
  {
    forall h | 0 <= h < |v.hubs| ensures HubInv(v.subscribers, h, v.hubs[h]) {
      assert HubInv(w.subscribers, h, w.hubs[h]);
    }
  }

  lemma FinishAllKeeps(w: World, h: nat, terminal: nat)
    requires Conserves(w) && Membership(w) && h < |w.hubs|
    ensures Conserves(EndHub(w, h, terminal)) && Membership(EndHub(w, h, terminal))
  {
    var v := EndHub(w, h, terminal);
    SumOfEqual(w.subscribers, v.subscribers);
    forall k | 0 <= k < |v.hubs| ensures HubInv(v.subscribers, k, v.hubs[k]) {
      assert HubInv(w.subscribers, k, w.hubs[k]) && HubInv(w.subscribers, h, w.hubs[h]);
    }
  }

  lemma AttachKeeps(w: World, i: nat, h: nat)
    requires Conserves(w) && Membership(w) && Enabled(w, Attach(i, h))
    ensures Conserves(AttachTo(w, i, h)) && Membership(AttachTo(w, i, h))
  {
    var v := AttachTo(w, i, h);
    SumOfUpdate(w.subscribers, i, v.subscribers[i]);
    forall k | 0 <= k < |v.hubs| ensures HubInv(v.subscribers, k, v.hubs[k]) {
      assert HubInv(w.subscribers, k, w.hubs[k]);
      assert i !in w.hubs[k].members;
    }
  }

  lemma {:induction false} WithoutStaysDistinct(members: seq<nat>, i: nat)
    requires Distinct(members)
    ensures Distinct(Without(members, i))
  {
    if members != [] {
      var before, last := members[..|members| - 1], members[|members| - 1];
      WithoutStaysDistinct(before, i);
      assert last !in before && last !in Without(before, i);
    }
  }

  lemma DetachKeeps(w: World, i: nat, h: nat)
    requires Conserves(w) && Membership(w) && i < |w.subscribers| && w.subscribers[i].hub == Some(h) && h < |w.hubs|
    ensures Conserves(DetachFrom(w, i, h)) && Membership(DetachFrom(w, i, h))
  {
    var v := DetachFrom(w, i, h);
    SumOfUpdate(w.subscribers, i, v.subscribers[i]);
    WithoutStaysDistinct(w.hubs[h].members, i);
    forall k | 0 <= k < |v.hubs| ensures HubInv(v.subscribers, k, v.hubs[k]) {
      assert HubInv(w.subscribers, k, w.hubs[k]);
    }
  }

  lemma NextKeeps(w: World, i: nat)
    requires Conserves(w) && Membership(w) && i < |w.subscribers|
    ensures Conserves(SetSubscriber(w, i, Take(w.subscribers[i]))) && Membership(SetSubscriber(w, i, Take(w.subscribers[i])))
  {
    hide Take, SubscriberInv, Membership;
    var v := SetSubscriber(w, i, Take(w.subscribers[i]));
    TakeKeeps(w.capacity, w.subscribers[i]);
    SumOfUpdate(w.subscribers, i, v.subscribers[i]);
    PumpKeepsMembership(w, v);
  }

  lemma NewKeeps(w: World, e: Event)
    requires Conserves(w) && Membership(w) && Enabled(w, e) && (e.NewHub? || e.NewSubscriber? || e.StartPump? || e.CancelPump?)
    requires e.CancelPump? ==> w.hubs[e.hub].pump == NotStarted
    ensures Conserves(Step(w, e)) && Membership(Step(w, e))
  {
    var v := Step(w, e);
    if e.NewSubscriber? {
      assert v.subscribers[..|w.subscribers|] == w.subscribers;
    }
    forall k | 0 <= k < |v.hubs| ensures HubInv(v.subscribers, k, v.hubs[k]) {
      assert k < |w.hubs| ==> HubInv(w.subscribers, k, w.hubs[k]);
    }
  }

  lemma StepKeeps(w: World, e: Event)
    requires Inv(w) && Enabled(w, e)
    ensures Inv(Step(w, e))
  {
    assert e.Publish? ==> Distinct(w.hubs[e.hub].members);
    hide Conserves, Membership, OfferAll, EndHub, AttachTo, DetachFrom, Take;
    match e
    case Attach(i, h) => AttachKeeps(w, i, h);
    case Detach(i) => DetachKeeps(w, i, w.subscribers[i].hub.value);
    case Publish(h, m) =>
      OfferAllKeeps(w, w.hubs[h].members, m);
      PumpKeepsMembership(w, OfferAll(w, w.hubs[h].members, m));
    case EndPump(h, terminal) => FinishAllKeeps(w, h, terminal);
    case CancelPump(h) =>
      if w.hubs[h].pump == Running {
        FinishAllKeeps(w, h, STREAM_ENDED);
      } else {
        NewKeeps(w, e);
      }
    case Next(i) => NextKeeps(w, i);
    case _ => NewKeeps(w, e);
  }

  lemma {:induction false} RunKeeps(w: World, events: seq<Event>)
    requires Inv(w) && IsRun(w, events)
    ensures Inv(After(w, events)) && After(w, events).capacity == w.capacity
    decreases |events|
  {
    hide Inv, Enabled, Step;
    if events != [] {
      StepKeeps(w, events[0]);
      CapacityStays(w, events[0]);
      RunKeeps(Step(w, events[0]), events[1..]);
    }
  }

  lemma CapacityStays(w: World, e: Event)
    requires Inv(w) && Enabled(w, e)
    ensures Step(w, e).capacity == w.capacity
  {
    hide Conserves;
    if e.Publish? {
      OfferAllKeeps(w, w.hubs[e.hub].members, e.message);
    }
  }

  // ----- over all runs -----

  /** The messages the consumer got, in order. */
  function Received(left: seq<Left>): seq<Message> {
    if left == [] then []
    else Received(left[..|left| - 1]) + if left[|left| - 1].Delivered? then [left[|left| - 1].message] else []
  }

  lemma {:induction false} CountsAgree(left: seq<Left>)
    ensures |Received(left)| + Drops(left) == |left| == |Gone(left)|
  {
    if left != [] {
      CountsAgree(left[..|left| - 1]);
    }
  }

  /**
   In every run: what the pump offered to a subscriber has left its queue, in order, or is still queued; delivered plus
   dropped plus queued is what was offered; and the counter of the core is the sum of what the subscribers dropped.
   */
  lemma FanOutConserves(capacity: nat, events: seq<Event>, i: nat)
    requires capacity > 0 && IsRun(Init(capacity), events) && i < |After(Init(capacity), events).subscribers|
    ensures var w := After(Init(capacity), events);
      var s := w.subscribers[i];
      && s.matched == Gone(s.left) + s.queue && |s.queue| <= capacity
      && |Received(s.left)| + s.dropped + |s.queue| == |s.matched|
      && w.dropped == SumDropped(w.subscribers)
  {
    RunKeeps(Init(capacity), events);
    var w := After(Init(capacity), events);
    assert SubscriberInv(w.capacity, w.subscribers[i]);
    CountsAgree(w.subscribers[i].left);
  }

  /**
   In every run, a consumer that sleeps has an empty queue and no terminal value; so when its pump is over, that pump
   never ran.
   */
  lemma NoLostWakeup(capacity: nat, events: seq<Event>, i: nat)
    requires capacity > 0 && IsRun(Init(capacity), events) && i < |After(Init(capacity), events).subscribers|
    requires After(Init(capacity), events).subscribers[i].consumer == Waiting(false)
    ensures var w := After(Init(capacity), events);
      var s := w.subscribers[i];
      && s.queue == [] && s.terminal == None
      && (s.hub.Some? ==> s.hub.value < |w.hubs| && w.hubs[s.hub.value].pump != Finished)
  {
    RunKeeps(Init(capacity), events);
    var w := After(Init(capacity), events);
    assert SubscriberInv(w.capacity, w.subscribers[i]);
    if w.subscribers[i].hub.Some? {
      assert HubInv(w.subscribers, w.subscribers[i].hub.value, w.hubs[w.subscribers[i].hub.value]);
    }
  }

  /** The subscriber is attached to this hub, for all messages or for those with this name. */
  predicate Asks(s: Subscriber, h: nat, m: Message) {
    s.hub == Some(h) && (s.filter.None? || s.filter.value == m.name)
  }

  /** A published message is offered once to every subscriber of its hub that asks for it, and to nobody else. */
  lemma PublishReachesMembersOnce(w: World, h: nat, m: Message, i: nat)
    requires Inv(w) && Enabled(w, Publish(h, m)) && i < |w.subscribers|
    ensures var v := Step(w, Publish(h, m));
      && |v.subscribers| == |w.subscribers|
      && v.subscribers[i].matched
         == w.subscribers[i].matched + (if Asks(w.subscribers[i], h, m) then [m] else [])
  {
    assert HubInv(w.subscribers, h, w.hubs[h]);
    hide Conserves;
    OfferAllKeeps(w, w.hubs[h].members, m);
  }

  /**
   Offering a message drops the oldest one exactly where the queue is full, wakes the consumer if it waits, and leaves all
   other subscribers as they are.
   */
  lemma PublishDropsOnlyWhenFull(w: World, h: nat, m: Message, i: nat)
    requires Inv(w) && Enabled(w, Publish(h, m)) && i < |w.subscribers|
    ensures var v, s := Step(w, Publish(h, m)), w.subscribers[i];
      |v.subscribers| == |w.subscribers|
      && var t := v.subscribers[i];
      && (!Asks(s, h, m) ==> t == s)
      && (Asks(s, h, m) && |s.queue| < w.capacity ==> t.queue == s.queue + [m] && t.dropped == s.dropped)
      && (Asks(s, h, m) && |s.queue| == w.capacity ==> t.queue == s.queue[1..] + [m] && t.dropped == s.dropped + 1)
      && (Asks(s, h, m) ==> t.consumer == if s.consumer.Waiting? then Waiting(true) else s.consumer)
  {
    assert HubInv(w.subscribers, h, w.hubs[h]);
    assert SubscriberInv(w.capacity, w.subscribers[i]);
    hide Conserves;
    OfferChanges(w, w.hubs[h].members, m, i);
  }

  lemma {:induction false} OfferChanges(w: World, members: seq<nat>, m: Message, i: nat)
    requires Conserves(w) && Distinct(members) && i < |w.subscribers|
    ensures var v := OfferAll(w, members, m);
      |v.subscribers| == |w.subscribers| && v.capacity == w.capacity
      && v.subscribers[i] == if i in members && Matches(w.subscribers[i], m) then Enqueue(w.capacity, w.subscribers[i], m) else w.subscribers[i]
  {
    hide Conserves, Enqueue;
    if members != [] {
      var before, last := members[..|members| - 1], members[|members| - 1];
      OfferAllKeeps(w, before, m);
      OfferChanges(w, before, m, i);
      assert i in members <==> i in before || i == last;
      assert last !in before;
    }
  }

  /** A consumer takes the oldest message; else it ends with the terminal value, or sleeps. */
  lemma NextDecides(w: World, i: nat)
    requires Enabled(w, Next(i))
    ensures var v, s := Step(w, Next(i)), w.subscribers[i];
      |v.subscribers| == |w.subscribers|
      && var t := v.subscribers[i];
      && (s.queue != [] ==> t.queue == s.queue[1..] && t.left == s.left + [Delivered(s.queue[0])] && t.consumer == Idle)
      && (s.queue == [] && s.terminal.Some? ==> t == s.(consumer := Idle))
      && (s.queue == [] && s.terminal.None? ==> t == s.(ready := false, consumer := Waiting(false)))
  {
  }

  /** The end of a pump gives every member its terminal value, behind the queued messages, and wakes the waiting ones. */
  lemma EndReachesEveryMember(w: World, h: nat, terminal: nat, i: nat)
    requires Inv(w) && Enabled(w, EndPump(h, terminal)) && i < |w.subscribers|
    ensures var v, s := Step(w, EndPump(h, terminal)), w.subscribers[i];
      |v.subscribers| == |w.subscribers|
      && var t := v.subscribers[i];
      if s.hub == Some(h) then
        t.terminal == Some(terminal) && t.queue == s.queue && t.left == s.left
        && t.consumer == (if s.consumer.Waiting? then Waiting(true) else s.consumer)
      else t == s
  {
    assert HubInv(w.subscribers, h, w.hubs[h]);
  }

  /** A subscriber that attaches keeps its queue; after the end of the pump it learns of that at once. */
  lemma AttachDecides(w: World, i: nat, h: nat)
    requires Inv(w) && Enabled(w, Attach(i, h))
    ensures var v, s := Step(w, Attach(i, h)), w.subscribers[i];
      |v.subscribers| == |w.subscribers| && |v.hubs| == |w.hubs| && v.hubs[h] == w.hubs[h].(members := w.hubs[h].members + [i])
      && (forall k :: 0 <= k < |w.subscribers| && k != i ==> v.subscribers[k] == w.subscribers[k])
      && v.subscribers[i] == if w.hubs[h].pump == Finished then s.(hub := Some(h), terminal := w.hubs[h].terminal, ready := true)
                             else s.(hub := Some(h), terminal := None)
  {
    assert HubInv(w.subscribers, h, w.hubs[h]);
  }

  /** A subscriber that detaches leaves its hub, and a new one asks for what it was created for. */
  lemma SubscribersComeAndGo(w: World, e: Event, h: nat)
    requires Inv(w) && Enabled(w, e) && h < |w.hubs|
    ensures var v := Step(w, e);
      && (e.Detach? ==>
            var s := w.subscribers[e.subscriber];
            && v.subscribers == w.subscribers[e.subscriber := s.(hub := None, consumer := Idle)] && |v.hubs| == |w.hubs|
            && forall k :: k in v.hubs[h].members <==> k in w.hubs[h].members && k != e.subscriber)
      && (e.NewSubscriber? ==>
            |v.subscribers| == |w.subscribers| + 1 && v.subscribers[..|w.subscribers|] == w.subscribers && v.hubs == w.hubs
            && var s := v.subscribers[|w.subscribers|];
            s.filter == e.filter && s.queue == [] && s.dropped == 0 && s.hub == None && s.terminal == None && s.consumer == Idle)
  {
    if e.Detach? {
      assert HubInv(w.subscribers, h, w.hubs[h]);
      if e.subscriber in w.hubs[h].members {
        LeavesItsHubOnly(w, e.subscriber, h);
      }
    }
  }

  lemma LeavesItsHubOnly(w: World, i: nat, h: nat)
    requires Membership(w) && h < |w.hubs| && i in w.hubs[h].members
    ensures i < |w.subscribers| && w.subscribers[i].hub == Some(h)
  {
    assert HubInv(w.subscribers, h, w.hubs[h]);
  }

  /** A consumer gets the terminal value only from an empty queue. */
  lemma TerminalComesLast(w: World, i: nat)
    requires Enabled(w, Next(i))
    ensures var s, t := w.subscribers[i], Step(w, Next(i)).subscribers[i];
      t.consumer == Idle && t.left == s.left ==> s.queue == [] && s.terminal.Some?
  {
  }

  /** The client is closed after the pump task was created and before its first step. */
  const CLOSED_EARLY := [NewHub, NewSubscriber(None), Attach(0, 0), Next(0), CancelPump(0)]

  /** Then the consumer sleeps, and no step but its own detaching changes that: nothing is left to wake it. */
  lemma ClosedEarlySleeps(capacity: nat)
    requires capacity > 0
    ensures IsRun(Init(capacity), CLOSED_EARLY)
    ensures var w := After(Init(capacity), CLOSED_EARLY);
      |w.subscribers| == 1 && w.subscribers[0].consumer == Waiting(false) && w.hubs == [Hub(NeverRan, None, [0])]
  {
    var w1 := Step(Init(capacity), NewHub);
    var w2 := Step(w1, NewSubscriber(None));
    var w3 := Step(w2, Attach(0, 0));
    var none: seq<nat> := [];
    assert none + [0] == [0];
    assert w2.hubs == [Hub(NotStarted, None, none)];
    assert w3.hubs == [Hub(NotStarted, None, [0])];
    var w4 := Step(w3, Next(0));
    var w5 := Step(w4, CancelPump(0));
    RunGrows(w4, CancelPump(0), []);
    RunGrows(w3, Next(0), [CancelPump(0)]);
    RunGrows(w2, Attach(0, 0), [Next(0), CancelPump(0)]);
    RunGrows(w1, NewSubscriber(None), [Attach(0, 0), Next(0), CancelPump(0)]);
    RunGrows(Init(capacity), NewHub, CLOSED_EARLY[1..]);
  }

  lemma RunGrows(w: World, e: Event, rest: seq<Event>)
    requires Enabled(w, e) && IsRun(Step(w, e), rest)
    ensures IsRun(w, [e] + rest) && After(w, [e] + rest) == After(Step(w, e), rest)
  {
    assert ([e] + rest)[1..] == rest;
  }

  /** A sleeping consumer whose pump is over sleeps because that pump never ran, and then no step wakes it. */
  lemma NothingWakesIt(w: World, e: Event, i: nat)
    requires Inv(w) && Enabled(w, e) && i < |w.subscribers| && w.subscribers[i].consumer == Waiting(false)
    requires w.subscribers[i].hub.Some? && e != Detach(i)
    ensures w.hubs[w.subscribers[i].hub.value].pump != Finished
    ensures w.hubs[w.subscribers[i].hub.value].pump == NeverRan ==>
      i < |Step(w, e).subscribers| && Step(w, e).subscribers[i] == w.subscribers[i]
  {
    var h := w.subscribers[i].hub.value;
    assert HubInv(w.subscribers, h, w.hubs[h]) && SubscriberInv(w.capacity, w.subscribers[i]);
    if e.Publish? {
      assert HubInv(w.subscribers, e.hub, w.hubs[e.hub]);
      OfferAllKeeps(w, w.hubs[e.hub].members, e.message);
    } else if e.EndPump? || e.CancelPump? {
      assert HubInv(w.subscribers, e.hub, w.hubs[e.hub]);
    }
  }

  /** Cancelling a pump wakes a sleeping consumer exactly when the pump had started. */
  lemma CloseWakesExactly(w: World, h: nat, i: nat)
    requires Inv(w) && Enabled(w, CancelPump(h)) && i < |w.subscribers|
    requires w.subscribers[i].hub == Some(h) && w.subscribers[i].consumer == Waiting(false)
    ensures |Step(w, CancelPump(h)).subscribers| == |w.subscribers|
    ensures Step(w, CancelPump(h)).subscribers[i].consumer == Waiting(true) <==> w.hubs[h].pump == Running
  {
    assert HubInv(w.subscribers, h, w.hubs[h]);
  }

  /** Whatever happens, short of the consumer giving up by itself, it stays asleep. */
  ghost predicate SleepsForGood(w: World, i: nat) {
    forall rest | IsRun(w, rest) && Detach(i) !in rest ::
      i < |After(w, rest).subscribers| && After(w, rest).subscribers[i].consumer == Waiting(false)
  }

  /** The consumer sleeps at a hub whose pump never ran. */
  ghost predicate Abandoned(w: World, i: nat) {
    && i < |w.subscribers| && w.subscribers[i].consumer == Waiting(false) && w.subscribers[i].hub.Some?
    && w.subscribers[i].hub.value < |w.hubs| && w.hubs[w.subscribers[i].hub.value].pump == NeverRan
  }

  lemma StaysAbandoned(w: World, e: Event, i: nat)
    requires Inv(w) && Enabled(w, e) && Abandoned(w, i) && e != Detach(i)
    ensures Abandoned(Step(w, e), i)
  {
    NothingWakesIt(w, e, i);
    PumpsStayOver(w, e, w.subscribers[i].hub.value);
  }

  lemma PumpsStayOver(w: World, e: Event, h: nat)
    requires Inv(w) && Enabled(w, e) && h < |w.hubs| && w.hubs[h].pump == NeverRan
    ensures h < |Step(w, e).hubs| && Step(w, e).hubs[h].pump == NeverRan
  {
    if e.Publish? {
      OfferAllKeeps(w, w.hubs[e.hub].members, e.message);
    }
  }

  lemma {:induction false} AbandonedSleeps(w: World, i: nat, rest: seq<Event>)
    requires Inv(w) && Abandoned(w, i) && IsRun(w, rest) && Detach(i) !in rest
    ensures Abandoned(After(w, rest), i)
    decreases |rest|
  {
    hide Inv, Abandoned, Enabled, Step;
    if rest != [] {
      StaysAbandoned(w, rest[0], i);
      StepKeeps(w, rest[0]);
      AbandonedSleeps(Step(w, rest[0]), i, rest[1..]);
    }
  }

  /**
   In every run: when a pump is cancelled, as `close` does with every pump, a consumer that sleeps at its hub sleeps for
   good exactly when the pump had not started.
   */
  lemma CloseLeavesAsleepExactly(capacity: nat, events: seq<Event>, h: nat, i: nat)
    requires capacity > 0 && IsRun(Init(capacity), events) && Enabled(After(Init(capacity), events), CancelPump(h))
    requires var w := After(Init(capacity), events);
      i < |w.subscribers| && w.subscribers[i].hub == Some(h) && w.subscribers[i].consumer == Waiting(false)
    ensures var w := After(Init(capacity), events);
      SleepsForGood(Step(w, CancelPump(h)), i) <==> w.hubs[h].pump == NotStarted
  {
    var w := After(Init(capacity), events);
    var v := Step(w, CancelPump(h));
    RunKeeps(Init(capacity), events);
    StepKeeps(w, CancelPump(h));
    CloseWakesExactly(w, h, i);
    if w.hubs[h].pump == Running {
      assert IsRun(v, []) && After(v, []) == v;
    } else {
      assert Abandoned(v, i);
      forall rest | IsRun(v, rest) && Detach(i) !in rest
        ensures i < |After(v, rest).subscribers| && After(v, rest).subscribers[i].consumer == Waiting(false)
      {
        AbandonedSleeps(v, i, rest);
      }
    }
  }

  // ----- the fan-out in the form of the source -----

  /** The part of the client core that the pumps and the notification iterators share. */
  class NotificationCore {
    const capacity: nat
    var subscribers: seq<Subscriber>
    var hubs: seq<Hub>
    var droppedNotifications: nat

    function Model(): World
      reads this
    {
      World(capacity, subscribers, hubs, droppedNotifications)
    }

    ghost predicate Valid()
      reads this
    {
      Inv(Model())
    }

    constructor (capacity: nat)
      requires capacity > 0
      ensures Valid() && Model() == Init(capacity)
    {
      this.capacity, subscribers, hubs, droppedNotifications := capacity, [], [], 0;
    }

    /** The pump got a message: it is queued for every subscriber that asks for it, dropping the oldest if need be. */
    method PumpMessage(h: nat, m: Message)
      requires Valid() && Enabled(Model(), Publish(h, m))
      modifies this`subscribers, this`droppedNotifications
      ensures Valid() && Model() == Step(old(Model()), Publish(h, m))
    {
      hide Inv;
      StepKeeps(Model(), Publish(h, m));
      var members := hubs[h].members;
      for k := 0 to |members|
        invariant Model() == OfferAll(old(Model()), members[..k], m)
      {
        var i := members[k];
        assert members[..k + 1][..k] == members[..k];
        if i < |subscribers| && Matches(subscribers[i], m) {
          var s := subscribers[i];
          var queue, left := s.queue, s.left;
          if |queue| == capacity && queue != [] {
            left := left + [Dropped(queue[0])];
            queue := queue[1..];
            s := s.(dropped := s.dropped + 1);
            droppedNotifications := droppedNotifications + 1;
          }
          s := s.(queue := queue + [m], left := left, matched := s.matched + [m], ready := true,
                  consumer := if s.consumer.Waiting? then Waiting(true) else Idle);
          subscribers := subscribers[i := s];
        }
      }
      assert members[..|members|] == members;
    }

    /** The pump is over: every subscriber of the hub is told. */
    method PumpEnds(h: nat, terminal: nat)
      requires Valid() && Enabled(Model(), EndPump(h, terminal))
      modifies this`subscribers, this`hubs
      ensures Valid() && Model() == Step(old(Model()), EndPump(h, terminal))
    {
      hide Inv;
      StepKeeps(Model(), EndPump(h, terminal));
      var members := hubs[h].members;
      hubs := hubs[h := hubs[h].(pump := Finished, terminal := Some(terminal))];
      for i := 0 to |subscribers|
        invariant |subscribers| == |old(subscribers)|
        invariant hubs == old(hubs)[h := old(hubs)[h].(pump := Finished, terminal := Some(terminal))]
        invariant forall k :: i <= k < |subscribers| ==> subscribers[k] == old(subscribers)[k]
        invariant forall k :: 0 <= k < i ==>
          subscribers[k] == if k in members then Finish(old(subscribers)[k], terminal) else old(subscribers)[k]
      {
        if i in members {
          subscribers := subscribers[i := Finish(subscribers[i], terminal)];
        }
      }
      assert Model().subscribers == Step(old(Model()), EndPump(h, terminal)).subscribers;
    }

    /** One round of the consumer's `next`: `item` is what it returns, if it does not wait. */
    method TakeNext(i: nat) returns (item: Option<Message>, ended: bool)
      requires Valid() && Enabled(Model(), Next(i))
      modifies this`subscribers
      ensures Valid() && Model() == Step(old(Model()), Next(i))
      ensures item == if old(subscribers)[i].queue == [] then None else Some(old(subscribers)[i].queue[0])
      ensures ended <==> item == None && old(subscribers)[i].terminal.Some?
    {
      hide Inv;
      StepKeeps(Model(), Next(i));
      var s := subscribers[i];
      item, ended := None, false;
      if s.queue != [] {
        item := Some(s.queue[0]);
        s := s.(queue := s.queue[1..], left := s.left + [Delivered(s.queue[0])], consumer := Idle);
      } else if s.terminal.Some? {
        ended := true;
        s := s.(consumer := Idle);
      } else {
        s := s.(ready := false, consumer := Waiting(false));
      }
      subscribers := subscribers[i := s];
    }
  }
}
