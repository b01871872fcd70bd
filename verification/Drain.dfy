/** The drain coordinator of a service: which connections it admits, and which ones a drain reaches. */
module Drain {

  /** The drain task: not created, created but not started, in its grace period, past it. */
  datatype Phase = Serving | Scheduled | Grace | Stopped

  /**
   `sessions` are the registered connections, numbered in order; `accepted` are those whose socket was accepted, and
   `snapshot` are those the drain task found when it started.
   */
  datatype State = State(phase: Phase, sessions: set<nat>, admitted: nat, accepted: set<nat>, snapshot: set<nat>,
                         finished: set<nat>, stopped: set<nat>, rejected: nat)

  function Init(): State {
    State(Serving, {}, 0, {}, {}, {}, {}, 0)
  }

  datatype Event = Open | Accept(session: nat) | Finish(session: nat) | DrainCalled | TaskStarts | GraceEnds

  predicate Enabled(s: State, e: Event) {
    match e
    case Open => true
    case Accept(i) => i in s.sessions && i !in s.accepted
    case Finish(i) => i in s.sessions
    case DrainCalled => true
    case TaskStarts => s.phase == Scheduled
    case GraceEnds => s.phase == Grace
  }

  function Step(s: State, e: Event): State
    requires Enabled(s, e)
  {
    match e
    case Open =>
      if s.phase != Serving then s.(rejected := s.rejected + 1)
      else s.(sessions := s.sessions + {s.admitted}, admitted := s.admitted + 1)
    case Accept(i) => if s.phase != Serving then s.(rejected := s.rejected + 1) else s.(accepted := s.accepted + {i})
    case Finish(i) => s.(sessions := s.sessions - {i}, finished := s.finished + {i})
    case DrainCalled => if s.phase == Serving then s.(phase := Scheduled) else s
    case TaskStarts => s.(phase := Grace, snapshot := s.sessions)
    case GraceEnds => s.(phase := Stopped, stopped := s.snapshot - s.finished)
  }

  predicate IsRun(s: State, events: seq<Event>)
    decreases |events|
  {
    events == [] || (Enabled(s, events[0]) && IsRun(Step(s, events[0]), events[1..]))
  }

  function After(s: State, events: seq<Event>): State
    requires IsRun(s, events)
    decreases |events|
  {
    if events == [] then s else After(Step(s, events[0]), events[1..])
  }

  ghost predicate Inv(s: State) {
    && (forall i :: i in s.sessions ==> i < s.admitted && i !in s.finished)
    && (forall i: nat :: i < s.admitted ==> i in s.sessions || i in s.finished)
    && (forall i :: i in s.finished ==> i < s.admitted)
    && (forall i :: i in s.accepted ==> i < s.admitted)
    && (forall i :: i in s.snapshot ==> i < s.admitted)
    && (s.phase == Grace || s.phase == Stopped ==> s.sessions <= s.snapshot)
    && (s.phase == Stopped ==> s.snapshot <= s.stopped + s.finished && s.stopped <= s.snapshot)
  }

  lemma StepKeeps(s: State, e: Event)
    requires Inv(s) && Enabled(s, e)
    ensures Inv(Step(s, e))
  {
  }

  lemma {:induction false} RunKeeps(s: State, events: seq<Event>)
    requires Inv(s) && IsRun(s, events)
    ensures Inv(After(s, events))
    ensures s.phase != Serving ==>
      After(s, events).phase != Serving && After(s, events).admitted == s.admitted && After(s, events).sessions <= s.sessions
      && After(s, events).accepted == s.accepted
    decreases |events|
  {
    if events != [] {
      StepKeeps(s, events[0]);
      RunKeeps(Step(s, events[0]), events[1..]);
    }
  }

  /**
   A drain reaches every connection: once its grace period is over, each connection that is still registered was told to
   stop, and each one ever admitted has finished or was told to stop.
   */
  lemma DrainReachesEverySession(events: seq<Event>, i: nat)
    requires IsRun(Init(), events) && After(Init(), events).phase == Stopped
    ensures var s := After(Init(), events);
      && (i in s.sessions ==> i in s.stopped)
      && (i < s.admitted ==> i in s.finished || i in s.stopped)
  {
    RunKeeps(Init(), events);
  }

  /**
   From the call of `drain` on no connection is registered and no socket is accepted, also not that of a connection
   registered before; the registered ones only leave.
   */
  lemma DrainingAdmitsNobody(s: State, events: seq<Event>)
    requires Inv(s) && Enabled(s, DrainCalled) && IsRun(Step(s, DrainCalled), events)
    ensures var t := After(Step(s, DrainCalled), events);
      t.phase != Serving && t.admitted == s.admitted && t.sessions <= s.sessions && t.accepted == s.accepted
  {
    StepKeeps(s, DrainCalled);
    RunKeeps(Step(s, DrainCalled), events);
  }

  /** The end of the grace period stops exactly the connections that are still registered. */
  lemma StopsTheRegistered(s: State, i: nat)
    requires Inv(s) && Enabled(s, GraceEnds)
    ensures i in Step(s, GraceEnds).stopped <==> i in s.sessions
  {
  }

  /** A serving service registers and accepts whoever comes, and a draining one rejects everybody. */
  lemma ServingAdmits(s: State, e: Event)
    requires Inv(s) && Enabled(s, e) && (e.Open? || e.Accept?)
    ensures var t := Step(s, e);
      if s.phase == Serving then
        t.rejected == s.rejected && (e.Open? ==> t.sessions == s.sessions + {s.admitted} && s.admitted !in s.sessions)
        && (e.Accept? ==> t.accepted == s.accepted + {e.session})
      else t == s.(rejected := s.rejected + 1)
  {
  }

  /** The first call of `drain` schedules the task, which captures whoever is registered when it starts; later calls do nothing. */
  lemma DrainStartsOnce(s: State)
    ensures Step(s, DrainCalled) == if s.phase == Serving then s.(phase := Scheduled) else s
    ensures s.phase == Scheduled ==> Step(s, TaskStarts) == s.(phase := Grace, snapshot := s.sessions)
  {
  }

  class RpcDrain {
    var phase: Phase
    var sessions: set<nat>
    var admitted: nat
    var accepted: set<nat>
    var snapshot: set<nat>
    var finished: set<nat>
    var stopped: set<nat>
    var rejected: nat

    function Model(): State
      reads this
    {
      State(phase, sessions, admitted, accepted, snapshot, finished, stopped, rejected)
    }

    ghost predicate Valid()
      reads this
    {
      Inv(Model())
    }

    constructor ()
      ensures Valid() && Model() == Init()
    {
      phase, sessions, admitted, accepted, snapshot, finished, stopped, rejected := Serving, {}, 0, {}, {}, {}, {}, 0;
    }

    /** A connection arrives: it is registered, or rejected when the service drains. */
    method OpenSession() returns (ok: bool)
      requires Valid()
      modifies this
      ensures Valid() && Model() == Step(old(Model()), Open)
      ensures ok <==> old(phase) == Serving
      ensures ok ==> old(admitted) in sessions
    {
      StepKeeps(Model(), Open);
      ok := phase == Serving;
      if ok {
        sessions, admitted := sessions + {admitted}, admitted + 1;
      } else {
        rejected := rejected + 1;
      }
    }

    /** The socket of a registered connection is about to be accepted; a drain that started meanwhile rejects it. */
    method AcceptSocket(i: nat) returns (ok: bool)
      requires Valid() && Enabled(Model(), Accept(i))
      modifies this
      ensures Valid() && Model() == Step(old(Model()), Accept(i))
      ensures ok <==> old(phase) == Serving
    {
      StepKeeps(Model(), Accept(i));
      ok := phase == Serving;
      if ok {
        accepted := accepted + {i};
      } else {
        rejected := rejected + 1;
      }
    }

    /** The grace period is over: every connection of the snapshot that has not finished is stopped. */
    method StopUnfinished()
      requires Valid() && phase == Grace
      modifies this
      ensures Valid() && Model() == Step(old(Model()), GraceEnds)
    {
      hide Inv;
      StepKeeps(Model(), GraceEnds);
      stopped := {};
      var todo := snapshot;
      while todo != {}
        invariant todo <= snapshot
        invariant forall i :: i in stopped <==> i in snapshot && i !in todo && i !in finished
        invariant Model() == old(Model()).(stopped := stopped)
        decreases |todo|
      {
        var i :| i in todo;
        if i !in finished {
          stopped := stopped + {i};
        }
        todo := todo - {i};
      }
      assert stopped == snapshot - finished;
      phase := Stopped;
      assert Model() == Step(old(Model()), GraceEnds);
    }
  }
}
