/**
 The subscription session of one open connection: handshakes, producer tasks and unsubscribes interleave
 freely, and what the session queues for one subscription id must still be well-formed.
 */
module Subscriptions {

  datatype Kind = Ack | Payload | Terminal | Unsubscribed

  /** A frame of the session in the outgoing queue; a refusal belongs to no subscription. */
  datatype Sent = Frame(id: nat, kind: Kind) | Refusal

  /** A producer task; `cancelled` once its cancellation was requested, which it may not have seen yet. */
  datatype Producer = Producer(name: string, terminal: bool, cancelled: bool, ended: bool)

  /**
   `tasks` are the keys of the task table. `handshakes` are the ids whose ack has not been queued yet,
   `names` the events they are for, `unsubscribing` the unsubscribe requests that wait for a producer. `producers` and `sent` are history.
   */
  datatype State = State(
    limit: nat, nextId: nat, pending: nat, handshakes: set<nat>, names: map<nat, string>, tasks: set<nat>,
    unsubscribing: map<nat, nat>, producers: map<nat, Producer>, sent: seq<Sent>)

  function Init(limit: nat): State {
    State(limit, 1, 0, {}, map[], {}, map[], map[], [])
  }

  datatype Request = Request(name: string, expectsResponse: bool, named: bool, validParams: bool, target: nat)

  datatype Event =
    | Subscribe(request: Request)
    | AckQueued(id: nat)
    | HandshakeAborted(id: nat)          // cancelled or timed out before the ack was queued
    | PayloadQueued(id: nat)
    | TerminalQueued(id: nat)
    | ProducerEnds(id: nat)              // finished, failed or cancelled
    | ProducerDone(id: nat)              // its done callback
    | Unsubscribe(operation: nat, request: Request)
    | UnsubscribeQueued(operation: nat)
    | UnsubscribeAborted(operation: nat)
    | CloseSession

  predicate Enabled(s: State, e: Event) {
    match e
    case Subscribe(_) => true
    case AckQueued(id) => id in s.handshakes && id in s.names
    case HandshakeAborted(id) => id in s.handshakes
    case PayloadQueued(id) => id in s.producers && !s.producers[id].ended && !s.producers[id].terminal
    case TerminalQueued(id) => id in s.producers && !s.producers[id].ended && !s.producers[id].terminal
    case ProducerEnds(id) => id in s.producers && !s.producers[id].ended
    case ProducerDone(id) => id in s.producers && s.producers[id].ended
    case Unsubscribe(op, _) => op !in s.unsubscribing
    case UnsubscribeQueued(op) =>
      op in s.unsubscribing && s.unsubscribing[op] in s.producers && s.producers[s.unsubscribing[op]].ended
    case UnsubscribeAborted(op) => op in s.unsubscribing
    case CloseSession => true
  }

  function Queue(s: State, sent: Sent): State {
    s.(sent := s.sent + [sent])
  }

  function Update(s: State, id: nat, p: Producer): State {
    s.(producers := s.producers[id := p])
  }

  /** `task.cancel()` for each of these producers. */
  function Cancelled(producers: map<nat, Producer>, ids: set<nat>): map<nat, Producer> {
    map id | id in producers :: if id in ids then producers[id].(cancelled := true) else producers[id]
  }

  function BeginSubscribe(s: State, r: Request): State {
    if !r.expectsResponse then s
    else if !r.named || |s.tasks| + s.pending >= s.limit || !r.validParams then Queue(s, Refusal)
    else s.(nextId := s.nextId + 1, pending := s.pending + 1, handshakes := s.handshakes + {s.nextId}, names := s.names[s.nextId := r.name])
  }

  function BeginUnsubscribe(s: State, op: nat, r: Request): State {
    if !r.expectsResponse then s
    else if !r.named || r.target !in s.tasks || r.target !in s.producers || s.producers[r.target].name != r.name
    then Queue(s, Refusal)
    else s.(producers := Cancelled(s.producers, {r.target}), unsubscribing := s.unsubscribing[op := r.target])
  }

  function Step(s: State, e: Event): State
    requires Enabled(s, e)
  {
    match e
    case Subscribe(r) => BeginSubscribe(s, r)
    case AckQueued(id) =>
      Queue(s, Frame(id, Ack)).(
        pending := if s.pending > 0 then s.pending - 1 else 0, handshakes := s.handshakes - {id}, tasks := s.tasks + {id},
        producers := s.producers[id := Producer(s.names[id], false, false, false)])
    case HandshakeAborted(id) =>
      s.(pending := if s.pending > 0 then s.pending - 1 else 0, handshakes := s.handshakes - {id})
    case PayloadQueued(id) => Queue(s, Frame(id, Payload))
    case TerminalQueued(id) => Update(Queue(s, Frame(id, Terminal)), id, s.producers[id].(terminal := true))
    case ProducerEnds(id) => Update(s, id, s.producers[id].(ended := true))
    case ProducerDone(id) => s.(tasks := s.tasks - {id})
    case Unsubscribe(op, r) => BeginUnsubscribe(s, op, r)
    case UnsubscribeQueued(op) =>
      Queue(s, Frame(s.unsubscribing[op], Unsubscribed)).(unsubscribing := s.unsubscribing - {op})
    case UnsubscribeAborted(op) => s.(unsubscribing := s.unsubscribing - {op})
    case CloseSession => s.(producers := Cancelled(s.producers, s.tasks), tasks := {})
  }

  predicate IsRun(s: State, events: seq<Event>)
    decreases |events|
  {
    events == [] || (Enabled(s, events[0]) && IsRun(Step(s, events[0]), events[1..]))
  }

  function After(s: State, events: seq<Event>): State
    requires IsRun(s, events)
    decreases |events|
  {
    if events == [] then s else After(Step(s, events[0]), events[1..])
  }

  // ----- the grammar of one subscription -----

  /** What was queued for subscription `id`, oldest first. */
  function Trace(sent: seq<Sent>, id: nat): seq<Kind> {
    if sent == [] then []
    else
      var rest := Trace(sent[..|sent| - 1], id);
      var last := sent[|sent| - 1];
      if last.Frame? && last.id == id then rest + [last.kind] else rest
  }

  function Repeat(kind: Kind, n: nat): seq<Kind> {
    seq(n, _ => kind)
  }

  /** `Ack Payload* Terminal? Unsubscribed*` */
  ghost predicate WellFormed(trace: seq<Kind>) {
    exists p: nat, t: nat, u: nat :: t <= 1 && trace == Word(p, t, u)
  }

  function Word(p: nat, t: nat, u: nat): seq<Kind> {
    [Ack] + Repeat(Payload, p) + Repeat(Terminal, t) + Repeat(Unsubscribed, u)
  }

  /** What may still follow: payloads and a terminal; only unsubscribe results; or anything that ends the trace. */
  datatype Stage = Streaming | Terminated | Closed

  ghost predicate At(trace: seq<Kind>, stage: Stage) {
    match stage
    case Streaming => exists p: nat :: trace == Word(p, 0, 0)
    case Terminated => exists p: nat :: trace == Word(p, 1, 0)
    case Closed => WellFormed(trace)
  }

  lemma FirstAck()
    ensures At([Ack], Streaming)
  {
    assert Word(0, 0, 0) == [Ack];
  }

  lemma StreamingGoesOn(trace: seq<Kind>)
    requires At(trace, Streaming)
    ensures At(trace + [Payload], Streaming) && At(trace + [Terminal], Terminated)
  {
    var p: nat :| trace == Word(p, 0, 0);
    assert trace + [Payload] == Word(p + 1, 0, 0);
    assert trace + [Terminal] == Word(p, 1, 0);
  }

  lemma ClosedGoesOn(trace: seq<Kind>)
    requires WellFormed(trace)
    ensures WellFormed(trace + [Unsubscribed])
  {
    var p: nat, t: nat, u: nat :| t <= 1 && trace == Word(p, t, u);
    assert trace + [Unsubscribed] == Word(p, t, u + 1);
  }

  lemma StagesAreWellFormed(trace: seq<Kind>, stage: Stage)
    requires At(trace, stage)
    ensures WellFormed(trace)
  {
    match stage
    case Streaming =>
      var p: nat :| trace == Word(p, 0, 0);
    case Terminated =>
      var p: nat :| trace == Word(p, 1, 0);
    case Closed =>
  }

  // ----- the invariant -----

  function StageOf(p: Producer): Stage {
    if p.ended then Closed else if p.terminal then Terminated else Streaming
  }

  ghost predicate Traces(s: State) {
    && (forall id: nat :: id !in s.producers ==> Trace(s.sent, id) == [])
    && (forall id: nat :: id in s.producers ==> At(Trace(s.sent, id), StageOf(s.producers[id])))
  }

  /** A producer is in the table, or it has ended, or it was told to. */
  predicate NotForgotten(s: State, id: nat)
    requires id in s.producers
  {
    id in s.tasks || s.producers[id].ended || s.producers[id].cancelled
  }

  ghost predicate Tables(s: State) {
    && s.pending == |s.handshakes|
    && (forall id :: id in s.handshakes ==> id < s.nextId && id !in s.producers)
    && (forall id :: id in s.producers ==> id < s.nextId)
    && (forall id :: id in s.tasks ==> id in s.producers)
    && (forall op :: op in s.unsubscribing ==> s.unsubscribing[op] in s.producers && s.producers[s.unsubscribing[op]].cancelled)
    && (forall id :: id in s.producers ==> NotForgotten(s, id))
    && |s.tasks| + s.pending <= s.limit
  }

  ghost predicate Inv(s: State) {
    Traces(s) && Tables(s)
  }

  lemma TraceGrows(sent: seq<Sent>, last: Sent)
    ensures forall id :: Trace(sent + [last], id) ==
              if last.Frame? && last.id == id then Trace(sent, id) + [last.kind] else Trace(sent, id)
  {
    assert (sent + [last])[..|sent|] == sent;
  }

  lemma SubscribeKeepsTables(s: State, r: Request)
    requires Tables(s)
    ensures Tables(Step(s, Subscribe(r))) && Step(s, Subscribe(r)).limit == s.limit
  {
    assert s.nextId !in s.handshakes;
  }

  lemma AckKeepsTables(s: State, id: nat)
    requires Tables(s) && Enabled(s, AckQueued(id))
    ensures Tables(Step(s, AckQueued(id))) && Step(s, AckQueued(id)).limit == s.limit
  {
    assert |s.handshakes - {id}| == |s.handshakes| - 1;
    assert id !in s.tasks;
  }

  lemma AbortKeepsTables(s: State, id: nat)
    requires Tables(s) && Enabled(s, HandshakeAborted(id))
    ensures Tables(Step(s, HandshakeAborted(id))) && Step(s, HandshakeAborted(id)).limit == s.limit
  {
    assert |s.handshakes - {id}| == |s.handshakes| - 1;
  }

  lemma UnsubscribeKeepsTables(s: State, e: Event)
    requires Tables(s) && Enabled(s, e) && (e.Unsubscribe? || e.UnsubscribeQueued? || e.UnsubscribeAborted?)
    ensures Tables(Step(s, e)) && Step(s, e).limit == s.limit
  {
  }

  lemma ProducerKeepsTables(s: State, e: Event)
    requires Tables(s) && Enabled(s, e)
    requires e.PayloadQueued? || e.TerminalQueued? || e.ProducerEnds?
    ensures Tables(Step(s, e)) && Step(s, e).limit == s.limit
  {
    assert Step(s, e).producers.Keys == s.producers.Keys;
  }

  lemma DoneKeepsTables(s: State, id: nat)
    requires Tables(s) && Enabled(s, ProducerDone(id))
    ensures Tables(Step(s, ProducerDone(id))) && Step(s, ProducerDone(id)).limit == s.limit
  {
    assert s.tasks == (s.tasks - {id}) + (s.tasks * {id});
  }

  lemma CloseKeepsTables(s: State)
    requires Tables(s)
    ensures Tables(Step(s, CloseSession)) && Step(s, CloseSession).limit == s.limit
  {
    assert Step(s, CloseSession).producers.Keys == s.producers.Keys;
  }

  lemma KeepsTables(s: State, e: Event)
    requires Tables(s) && Enabled(s, e)
    ensures Tables(Step(s, e)) && Step(s, e).limit == s.limit
  {
    hide Tables, Step;
    if e.Subscribe? {
      SubscribeKeepsTables(s, e.request);
    } else if e.AckQueued? {
      AckKeepsTables(s, e.id);
    } else if e.HandshakeAborted? {
      AbortKeepsTables(s, e.id);
    } else if e.Unsubscribe? || e.UnsubscribeQueued? || e.UnsubscribeAborted? {
      UnsubscribeKeepsTables(s, e);
    } else if e.ProducerDone? {
      DoneKeepsTables(s, e.id);
    } else if e.CloseSession? {
      CloseKeepsTables(s);
    } else {
      ProducerKeepsTables(s, e);
    }
  }

  /** What is queued for a subscription fits the stage of its producer. */
  lemma QueueKeepsTraces(s: State, t: State, id: nat, kind: Kind)
    requires Traces(s) && t.sent == s.sent + [Frame(id, kind)] && t.producers.Keys == s.producers.Keys + {id}
    requires forall i :: i in s.producers && i != id ==> t.producers[i] == s.producers[i]
    requires At(Trace(s.sent, id) + [kind], StageOf(t.producers[id]))
    ensures Traces(t)
  {
    hide At;
    TraceGrows(s.sent, Frame(id, kind));
    assert forall i :: i in t.producers <==> i in s.producers || i == id;
  }

  lemma ProducerEndKeepsTraces(s: State, id: nat)
    requires Traces(s) && Enabled(s, ProducerEnds(id))
    ensures Traces(Step(s, ProducerEnds(id)))
  {
    StagesAreWellFormed(Trace(s.sent, id), StageOf(s.producers[id]));
  }

  lemma RefusalKeepsTraces(s: State, t: State)
    requires Traces(s) && (t.sent == s.sent || t.sent == s.sent + [Refusal]) && t.producers.Keys == s.producers.Keys
    requires forall id :: id in s.producers ==> StageOf(t.producers[id]) == StageOf(s.producers[id])
    ensures Traces(t)
  {
    TraceGrows(s.sent, Refusal);
  }

  lemma KeepsTraces(s: State, e: Event)
    requires Inv(s) && Enabled(s, e)
    ensures Traces(Step(s, e))
  {
    hide Traces, WellFormed, Word;
    match e
    case AckQueued(id) => AckKeepsTraces(s, id);
    case PayloadQueued(id) => StreamKeepsTraces(s, id);
    case TerminalQueued(id) => StreamKeepsTraces(s, id);
    case UnsubscribeQueued(op) => ResultKeepsTraces(s, op);
    case ProducerEnds(id) => ProducerEndKeepsTraces(s, id);
    case _ => RefusalKeepsTraces(s, Step(s, e));
  }

  lemma AckKeepsTraces(s: State, id: nat)
    requires Inv(s) && Enabled(s, AckQueued(id))
    ensures Traces(Step(s, AckQueued(id)))
  {
    hide WellFormed, Word;
    FirstAck();
    assert Trace(s.sent, id) == [] && Trace(s.sent, id) + [Ack] == [Ack];
    QueueKeepsTraces(s, Step(s, AckQueued(id)), id, Ack);
  }

  lemma StreamKeepsTraces(s: State, id: nat)
    requires Inv(s) && Enabled(s, PayloadQueued(id))
    ensures Traces(Step(s, PayloadQueued(id))) && Traces(Step(s, TerminalQueued(id)))
  {
    StreamingGoesOn(Trace(s.sent, id));
    QueueKeepsTraces(s, Step(s, PayloadQueued(id)), id, Payload);
    QueueKeepsTraces(s, Step(s, TerminalQueued(id)), id, Terminal);
  }

  lemma ResultKeepsTraces(s: State, op: nat)
    requires Inv(s) && Enabled(s, UnsubscribeQueued(op))
    ensures Traces(Step(s, UnsubscribeQueued(op)))
  {
    ClosedGoesOn(Trace(s.sent, s.unsubscribing[op]));
    QueueKeepsTraces(s, Step(s, UnsubscribeQueued(op)), s.unsubscribing[op], Unsubscribed);
  }

  lemma InvKept(s: State, e: Event)
    requires Inv(s) && Enabled(s, e)
    ensures Tables(s) && Tables(Step(s, e)) && Inv(Step(s, e)) && Step(s, e).limit == s.limit
  {
    hide Step, Tables, Traces;
    KeepsTables(s, e);
    KeepsTraces(s, e);
  }

  lemma {:induction false} RunKeeps(s: State, events: seq<Event>)
    requires Inv(s) && IsRun(s, events)
    ensures Inv(After(s, events)) && After(s, events).limit == s.limit
    decreases |events|
  {
    if events != [] {
      InvKept(s, events[0]);
      RunKeeps(Step(s, events[0]), events[1..]);
    }
  }

  // ----- what each request is answered with -----

  /**
   A subscribe request with named, valid parameters that finds room takes the next id, and once its ack is queued its
   producer runs; any other one is refused. A notification gets neither.
   */
  lemma SubscribeDecides(s: State, r: Request)
    requires Inv(s)
    ensures var t, id := Step(s, Subscribe(r)), s.nextId;
      if !r.expectsResponse then t == s
      else if r.named && r.validParams && |s.tasks| + |s.handshakes| < s.limit then
        t.sent == s.sent && id !in s.producers && Enabled(t, AckQueued(id))
        && var u := Step(t, AckQueued(id));
        u.sent == s.sent + [Frame(id, Ack)] && u.tasks == s.tasks + {id} && u.handshakes == s.handshakes && u.pending == s.pending
        && u.producers == s.producers[id := Producer(r.name, false, false, false)] && u.nextId == id + 1
      else t == s.(sent := s.sent + [Refusal])
  {
    assert s.nextId !in s.handshakes;
    assert s.handshakes + {s.nextId} - {s.nextId} == s.handshakes;
  }

  /** An aborted handshake leaves no subscription behind, and no other handshake is touched. */
  lemma AbortedHandshakeIsForgotten(s: State, id: nat, other: nat)
    requires Inv(s) && Enabled(s, HandshakeAborted(id))
    ensures var t := Step(s, HandshakeAborted(id));
      && t.sent == s.sent && t.producers == s.producers && t.tasks == s.tasks && |t.handshakes| == |s.handshakes| - 1 == t.pending
      && (Enabled(t, AckQueued(other)) <==> other != id && Enabled(s, AckQueued(other)))
      && (Enabled(t, AckQueued(other)) ==> t.names[other] == s.names[other])
  {
    assert |s.handshakes - {id}| == |s.handshakes| - 1;
  }

  /** What a producer queues carries its id, and only its end and its callback free its place in the table. */
  lemma ProducerDecides(s: State, e: Event)
    requires Inv(s) && Enabled(s, e) && (e.PayloadQueued? || e.TerminalQueued? || e.ProducerEnds? || e.ProducerDone?)
    ensures var t, p := Step(s, e), s.producers[e.id];
      match e
      case PayloadQueued(id) => t == s.(sent := s.sent + [Frame(id, Payload)])
      case TerminalQueued(id) =>
        t == s.(sent := s.sent + [Frame(id, Terminal)], producers := s.producers[id := p.(terminal := true)]) && !p.terminal
      case ProducerEnds(id) => t == s.(producers := s.producers[id := p.(ended := true)]) && !p.ended
      case ProducerDone(id) => t == s.(tasks := s.tasks - {id}) && p.ended
      case _ => true
  {
  }

  /** An unsubscribe that is aborted while it waits sends nothing, and the close of a session stops every producer in its table. */
  lemma AbortAndCloseDecide(s: State, op: nat, id: nat)
    ensures Enabled(s, UnsubscribeAborted(op)) ==> Step(s, UnsubscribeAborted(op)) == s.(unsubscribing := s.unsubscribing - {op})
    ensures var t := Step(s, CloseSession);
      t.tasks == {} && t.sent == s.sent && (id in t.producers <==> id in s.producers)
      && (id in s.producers ==>
            t.producers[id] == if id in s.tasks then s.producers[id].(cancelled := true) else s.producers[id])
  {
  }

  /**
   An unsubscribe request for a subscription of the same event that is in the table tells its producer to stop, and its
   result follows the end of the producer; any other one is refused.
   */
  lemma UnsubscribeDecides(s: State, op: nat, r: Request, id: nat)
    requires Inv(s) && Enabled(s, Unsubscribe(op, r))
    ensures var t := Step(s, Unsubscribe(op, r));
      if !r.expectsResponse then t == s
      else if r.named && r.target in s.tasks && s.producers[r.target].name == r.name then
        t.sent == s.sent && t.tasks == s.tasks && op in t.unsubscribing && t.unsubscribing[op] == r.target
        && (id in s.producers ==>
              && id in t.producers
              && t.producers[id] == if id == r.target then s.producers[id].(cancelled := true) else s.producers[id])
        && (Enabled(t, UnsubscribeQueued(op)) <==> t.producers[r.target].ended)
        && (t.producers[r.target].ended ==> Step(t, UnsubscribeQueued(op)).sent == s.sent + [Frame(r.target, Unsubscribed)])
      else t == s.(sent := s.sent + [Refusal])
  {
  }

  // ----- over all runs -----

  /**
   In every run, what is queued for a subscription id is nothing if no producer task was created for it, and
   otherwise one ack, then payloads, then at most one terminal, then unsubscribe results. Subscriptions
   and handshakes together never exceed the limit.
   */
  lemma EveryTraceIsWellFormed(limit: nat, events: seq<Event>, id: nat)
    requires IsRun(Init(limit), events)
    ensures var s := After(Init(limit), events);
      && (id in s.producers <==> Trace(s.sent, id) != [])
      && (id in s.producers ==> WellFormed(Trace(s.sent, id)))
      && |s.tasks| + |s.handshakes| <= limit
  {
    RunKeeps(Init(limit), events);
    var s := After(Init(limit), events);
    if id in s.producers {
      StagesAreWellFormed(Trace(s.sent, id), StageOf(s.producers[id]));
    }
  }

  /**
   In every run, an unsubscribe waits only for a producer whose cancellation was requested, and a producer that is no
   longer in the table has ended or was told to: neither the callback of another task nor the close of the session
   forgets a running one.
   */
  lemma NoProducerIsForgotten(limit: nat, events: seq<Event>, id: nat)
    requires IsRun(Init(limit), events) && id in After(Init(limit), events).producers
    ensures var s := After(Init(limit), events);
      && NotForgotten(s, id)
      && (id in s.unsubscribing.Values ==> s.producers[id].cancelled)
  {
    RunKeeps(Init(limit), events);
  }

  /** After an unsubscribe result only further unsubscribe results follow. */
  lemma NothingFollowsUnsubscribe(trace: seq<Kind>, i: nat, j: nat)
    requires WellFormed(trace) && i < j < |trace| && trace[i] == Unsubscribed
    ensures trace[j] == Unsubscribed
  {
    var p: nat, t: nat, u: nat :| t <= 1 && trace == Word(p, t, u);
    assert i > p + t && j > p + t;
  }

  // ----- the session in the form of the source -----

  /** The session object; each method runs from one suspension point to the next. */
  class SubscriptionSession {
    const limit: nat
    var nextId: nat
    var pendingSubscriptions: nat
    var handshakes: set<nat>
    var names: map<nat, string>
    var tasks: set<nat>
    var unsubscribing: map<nat, nat>
    var producers: map<nat, Producer>
    var sent: seq<Sent>

    function Model(): State
      reads this
    {
      State(limit, nextId, pendingSubscriptions, handshakes, names, tasks, unsubscribing, producers, sent)
    }

    ghost predicate Valid()
      reads this
    {
      Inv(Model())
    }

    constructor (limit: nat)
      ensures Valid() && Model() == Init(limit)
    {
      this.limit := limit;
      nextId, pendingSubscriptions, handshakes, names, tasks := 1, 0, {}, map[], {};
      unsubscribing, producers, sent := map[], map[], [];
    }

    /** A subscribe request up to the point where its response is sent. */
    method HandleSubscribe(request: Request)
      requires Valid()
      modifies this
      ensures Valid() && Model() == Step(old(Model()), Subscribe(request))
    {
      hide Inv;
      InvKept(Model(), Subscribe(request));
      if request.expectsResponse {
        if !request.named || |tasks| + pendingSubscriptions >= limit || !request.validParams {
          sent := sent + [Refusal];
        } else {
          handshakes, names := handshakes + {nextId}, names[nextId := request.name];
          nextId := nextId + 1;
          pendingSubscriptions := pendingSubscriptions + 1;
        }
      }
    }

    /** The ack is in the queue: the handshake is over and the producer task is created. */
    method AckSent(id: nat)
      requires Valid() && Enabled(Model(), AckQueued(id))
      modifies this
      ensures Valid() && Model() == Step(old(Model()), AckQueued(id))
    {
      hide Inv;
      InvKept(Model(), AckQueued(id));
      sent := sent + [Frame(id, Ack)];
      HandshakeOver(id);
      producers := producers[id := Producer(names[id], false, false, false)];
      tasks := tasks + {id};
    }

    method HandshakeOver(id: nat)
      modifies this`pendingSubscriptions, this`handshakes
      ensures handshakes == old(handshakes) - {id}
      ensures pendingSubscriptions == if old(pendingSubscriptions) > 0 then old(pendingSubscriptions) - 1 else 0
    {
      handshakes := handshakes - {id};
      if pendingSubscriptions > 0 {
        pendingSubscriptions := pendingSubscriptions - 1;
      }
    }

    /** An unsubscribe request up to the point where it waits for the cancelled producer. */
    method HandleUnsubscribe(operation: nat, request: Request)
      requires Valid() && operation !in unsubscribing
      modifies this
      ensures Valid() && Model() == Step(old(Model()), Unsubscribe(operation, request))
    {
      hide Inv;
      InvKept(Model(), Unsubscribe(operation, request));
      if request.expectsResponse {
        if !request.named || request.target !in tasks || request.target !in producers || producers[request.target].name != request.name {
          sent := sent + [Refusal];
        } else {
          producers := producers[request.target := producers[request.target].(cancelled := true)];
          assert producers == Cancelled(old(producers), {request.target});
          unsubscribing := unsubscribing[operation := request.target];
        }
      }
    }

    /** The producer has ended, so the unsubscribe result can be sent. */
    method UnsubscribeSent(operation: nat)
      requires Valid() && Enabled(Model(), UnsubscribeQueued(operation))
      modifies this
      ensures Valid() && Model() == Step(old(Model()), UnsubscribeQueued(operation))
    {
      hide Inv;
      InvKept(Model(), UnsubscribeQueued(operation));
      sent := sent + [Frame(unsubscribing[operation], Unsubscribed)];
      unsubscribing := unsubscribing - {operation};
    }

    /** The session closes: the tasks leave the table and are told to stop. */
    method CloseAll()
      requires Valid()
      modifies this
      ensures Valid() && Model() == Step(old(Model()), CloseSession)
    {
      assert forall id :: id in tasks ==> id in producers;
      InvKept(Model(), CloseSession);
      hide Inv;
      var stopping := tasks;
      tasks := {};
      CancelAll(stopping);
    }

    method CancelAll(ids: set<nat>)
      requires forall id :: id in ids ==> id in producers
      modifies this`producers
      ensures producers == Cancelled(old(producers), ids)
    {
      var remaining := ids;
      while remaining != {}
        invariant remaining <= ids && producers.Keys == old(producers).Keys
        invariant producers == Cancelled(old(producers), ids - remaining)
      {
        var id :| id in remaining;
        remaining := remaining - {id};
        producers := producers[id := producers[id].(cancelled := true)];
      }
      assert ids - remaining == ids;
    }

    method Terminal(id: nat)
      requires Valid() && Enabled(Model(), TerminalQueued(id))
      modifies this
      ensures Valid() && Model() == Step(old(Model()), TerminalQueued(id))
    {
      hide Inv;
      InvKept(Model(), TerminalQueued(id));
      sent := sent + [Frame(id, Kind.Terminal)];
      producers := producers[id := producers[id].(terminal := true)];
    }
  }
}
