/** The pool in the form of the source: one dictionary per field, updated in place. */
module TransportPoolClass {
  import opened Wrappers
  import opened TransportPool

  /** The connect tasks and transports of one server that the dictionaries point to, and its factory calls. */
  datatype Connects = Connects(tasks: seq<Task>, made: seq<Transport>, calls: nat, recovery: bool)

  /** The dictionaries of the pool, and what they point to. */
  datatype Fields = Fields(
    states: map<nat, ConnectionState>, transports: map<nat, nat>, connecting: map<nat, nat>, everConnected: set<nat>,
    failures: map<nat, Cause>, connects: map<nat, Connects>)

  predicate Has(f: Fields, name: nat) {
    name in f.states && name in f.connects
  }

  function Entry(f: Fields, name: nat): Server
    requires Has(f, name)
  {
    Server(f.states[name], if name in f.transports then Some(f.transports[name]) else None,
           if name in f.connecting then Some(f.connecting[name]) else None, name in f.everConnected,
           if name in f.failures then Some(f.failures[name]) else None, f.connects[name].tasks, f.connects[name].made,
           f.connects[name].calls, f.connects[name].recovery)
  }

  ghost predicate CompleteFor(endpoints: set<nat>, f: Fields) {
    forall name :: name in endpoints ==> Has(f, name)
  }

  function PoolOf(endpoints: set<nat>, stage: Stage, f: Fields): Pool
    requires CompleteFor(endpoints, f)
  {
    Pool(stage, map name | name in endpoints :: Entry(f, name))
  }

  /** Only the entry of `name` changed, to `t`. */
  ghost predicate Becomes(endpoints: set<nat>, f: Fields, g: Fields, name: nat, t: Server) {
    && CompleteFor(endpoints, g) && Has(g, name) && Entry(g, name) == t
    && (forall other :: other in endpoints && other != name && Has(f, other) ==> Entry(g, other) == Entry(f, other))
  }

  /** Recording a failure, and replacing the connect tasks, on top of earlier changes of the same entry. */
  lemma ThenTerminal(endpoints: set<nat>, f: Fields, g: Fields, name: nat, t: Server, cause: Cause)
    requires Becomes(endpoints, f, g, name, t)
    ensures Becomes(endpoints, f, g.(failures := g.failures[name := cause], states := g.states[name := Closed]), name, Terminal(t, cause))
  {
  }

  lemma ThenTasks(endpoints: set<nat>, f: Fields, g: Fields, name: nat, t: Server, tasks: seq<Task>)
    requires Becomes(endpoints, f, g, name, t)
    ensures Becomes(endpoints, f, g.(connects := g.connects[name := g.connects[name].(tasks := tasks)]), name, t.(tasks := tasks))
  {
  }

  lemma ThenState(endpoints: set<nat>, f: Fields, g: Fields, name: nat, t: Server, state: ConnectionState)
    requires Becomes(endpoints, f, g, name, t)
    ensures Becomes(endpoints, f, g.(states := g.states[name := state]), name, t.(state := state))
  {
  }

  lemma ThenBecomes(endpoints: set<nat>, f: Fields, g: Fields, h: Fields, name: nat, t: Server, u: Server)
    requires CompleteFor(endpoints, f) && Becomes(endpoints, f, g, name, t) && Becomes(endpoints, g, h, name, u)
    ensures Becomes(endpoints, f, h, name, u) && Has(g, name) && Entry(g, name) == t
  {
  }

  /** What the done callback does, one change after the other. */
  lemma ReapedInSteps(cfg: Config, open: bool, s: Server, i: nat)
    requires Enabled(cfg, open, s, Reap(i))
    ensures var task := s.tasks[i];
      var u := s.(registered := if s.registered == Some(i) then None else s.registered, tasks := s.tasks[i := task.(reaped := true)]);
      Step(cfg, open, s, Reap(i))
      == if task.phase.outcome.Raised? && s.failure.None? && open then Terminal(u, task.phase.outcome.cause) else u
  {
  }

  lemma Unchanged(endpoints: set<nat>, f: Fields, name: nat)
    requires CompleteFor(endpoints, f) && name in endpoints
    ensures Becomes(endpoints, f, f, name, Entry(f, name))
  {
  }

  /** A change of one entry is the step of one server. */
  lemma OneServerSteps(cfg: Config, endpoints: set<nat>, stage: Stage, f: Fields, g: Fields, name: nat, e: Event)
    requires CompleteFor(endpoints, f) && PoolInv(PoolOf(endpoints, stage, f)) && name in endpoints
    requires Enabled(cfg, stage == Open, Entry(f, name), e)
    requires Becomes(endpoints, f, g, name, Step(cfg, stage == Open, Entry(f, name), e))
    ensures CompleteFor(endpoints, g) && PoolInv(PoolOf(endpoints, stage, g))
    ensures PoolOf(endpoints, stage, g) == PoolStep(cfg, PoolOf(endpoints, stage, f), OfServer(name, e))
  {
    hide Step, Enabled, PoolInv, Entry;
    PoolStepKeeps(cfg, PoolOf(endpoints, stage, f), OfServer(name, e));
    assert PoolOf(endpoints, stage, g).servers == PoolStep(cfg, PoolOf(endpoints, stage, f), OfServer(name, e)).servers;
  }

  lemma AllClosed(cfg: Config, endpoints: set<nat>, f: Fields, g: Fields)
    requires CompleteFor(endpoints, f) && PoolInv(PoolOf(endpoints, Open, f))
    requires g == f.(states := g.states) && forall name :: name in endpoints ==> name in g.states && g.states[name] == Closed
    ensures CompleteFor(endpoints, g) && PoolInv(PoolOf(endpoints, Closing, g))
    ensures PoolOf(endpoints, Closing, g) == PoolStep(cfg, PoolOf(endpoints, Open, f), Close)
  {
    hide PoolInv;
    PoolStepKeeps(cfg, PoolOf(endpoints, Open, f), Close);
    assert PoolOf(endpoints, Closing, g).servers == PoolStep(cfg, PoolOf(endpoints, Open, f), Close).servers;
  }

  lemma AllForgotten(cfg: Config, endpoints: set<nat>, f: Fields, g: Fields)
    requires CompleteFor(endpoints, f) && PoolInv(PoolOf(endpoints, Closing, f))
    requires PoolEnabled(cfg, PoolOf(endpoints, Closing, f), CloseCollects)
    requires g == f.(connecting := map[], transports := map[], connects := g.connects)
    requires forall name :: name in endpoints ==>
      name in g.connects && g.connects[name] == f.connects[name].(made := Collect(Entry(f, name)).made)
    ensures CompleteFor(endpoints, g) && PoolInv(PoolOf(endpoints, Returned, g))
    ensures PoolOf(endpoints, Returned, g) == PoolStep(cfg, PoolOf(endpoints, Closing, f), CloseCollects)
  {
    hide PoolInv, ConnectInFlight;
    PoolStepKeeps(cfg, PoolOf(endpoints, Closing, f), CloseCollects);
    assert PoolOf(endpoints, Returned, g).servers == PoolStep(cfg, PoolOf(endpoints, Closing, f), CloseCollects).servers;
  }

  class RpcTransportPool {
    const cfg: Config
    const endpoints: set<nat>
    var states: map<nat, ConnectionState>
    var transports: map<nat, nat>
    var connecting: map<nat, nat>
    var everConnected: set<nat>
    var failures: map<nat, Cause>
    var stage: Stage
    var connects: map<nat, Connects>

    function Snapshot(): Fields
      reads this
    {
      Fields(states, transports, connecting, everConnected, failures, connects)
    }

    ghost predicate Complete()
      reads this
    {
      CompleteFor(endpoints, Snapshot())
    }

    function Model(): Pool
      requires Complete()
      reads this
    {
      PoolOf(endpoints, stage, Snapshot())
    }

    ghost predicate Valid()
      reads this
    {
      Complete() && PoolInv(Model())
    }

    constructor (cfg: Config, endpoints: set<nat>)
      ensures Valid() && Model() == InitPool(endpoints) && this.cfg == cfg && this.endpoints == endpoints
    {
      this.cfg, this.endpoints := cfg, endpoints;
      states := map name | name in endpoints :: Connecting;
      transports, connecting, everConnected, failures, stage := map[], map[], {}, map[], Open;
      connects := map name | name in endpoints :: Connects([], [], 0, false);
    }

    /** Replaces connect task `i`. */
    method SetPhaseOf(name: nat, i: nat, task: Task)
      requires Complete() && name in endpoints && i < |connects[name].tasks|
      modifies this`connects
      ensures connects == old(connects)[name := old(connects)[name].(tasks := old(connects)[name].tasks[i := task])]
    {
      var entry := connects[name];
      connects := connects[name := entry.(tasks := entry.tasks[i := task])];
    }

    /** Starts a connect unless the registered one is still running. */
    method Start(name: nat)
      requires Complete() && name in endpoints
      modifies this`connects, this`connecting
      ensures Becomes(endpoints, old(Snapshot()), Snapshot(), name, StartConnect(Entry(old(Snapshot()), name)))
    {
      var entry := connects[name];
      if name !in connecting || connecting[name] >= |entry.tasks| || entry.tasks[connecting[name]].phase.Finished? {
        connecting := connecting[name := |entry.tasks|];
        connects := connects[name := entry.(tasks := entry.tasks + [Task(Created, false, false)])];
      }
    }

    /** Every change of a state: while the pool closes, a server can only become closed. */
    method SetState(name: nat, state: ConnectionState)
      modifies this`states
      ensures states == if stage != Open && state != Closed then old(states) else old(states)[name := state]
    {
      if stage == Open || state == Closed {
        states := states[name := state];
      }
    }

    /** Records why the server is given up. */
    method GiveUp(name: nat, cause: Cause)
      requires Complete() && name in endpoints
      modifies this`failures, this`states
      ensures failures == old(failures)[name := cause] && states == old(states)[name := Closed]
    {
      failures := failures[name := cause];
      SetState(name, Closed);
    }

    /** The current transport is gone: recover or give up. A transport that was replaced is ignored. */
    method HandleClosed(name: nat, t: nat)
      requires Complete() && name in endpoints && t < |connects[name].made| && connects[name].made[t].result.Some?
      modifies this`transports, this`connecting, this`failures, this`states, this`connects
      ensures Becomes(endpoints, old(Snapshot()), Snapshot(), name,
                      TransportClosed(cfg, stage == Open, Entry(old(Snapshot()), name), t))
    {
      ghost var before := Snapshot();
      if stage != Open || name !in transports || transports[name] != t {
        return;
      }
      transports := transports - {name};
      var entry := connects[name];
      connects := connects[name := entry.(calls := 0, recovery := true)];
      ghost var dropped := Entry(before, name).(current := None, calls := 0, recovery := true);
      assert Becomes(endpoints, before, Snapshot(), name, dropped);
      ghost var mid := Snapshot();
      hide Becomes, StartConnect;
      var cause := entry.made[t].result.value;
      if !cause.Fault? || !cfg.reconnect || !cause.retryable || cfg.maxAttempts == Some(0) {
        GiveUp(name, cause);
        ThenTerminal(endpoints, before, mid, name, dropped, cause);
      } else {
        SetState(name, Reconnecting);
        ThenState(endpoints, before, mid, name, dropped, Reconnecting);
        mid := Snapshot();
        Start(name);
        ThenBecomes(endpoints, before, mid, Snapshot(), name, dropped.(state := Reconnecting), StartConnect(Entry(mid, name)));
      }
    }

    lemma CurrentIsMade(name: nat)
      requires Valid() && name in endpoints
      ensures name in transports ==> transports[name] < |connects[name].made|
    {
      assert NoneForgotten(Model().servers[name]);
    }

    /** The transport of a server: the live one, or none when a connect was joined or the server is given up. */
    method GetLive(name: nat) returns (transport: Option<nat>)
      requires Valid() && name in endpoints
      modifies this
      ensures Valid() && Model() == PoolStep(cfg, old(Model()), OfServer(name, Get))
      ensures transport.Some? ==> name in transports && transport.value == transports[name] < |connects[name].made|
                                  && connects[name].made[transports[name]].result.None?
      ensures transport.None? && stage == Open && name !in failures ==> ConnectInFlight(Entry(Snapshot(), name))
    {
      ghost var before := Snapshot();
      hide PoolInv, PoolOf, PoolStep;
      CurrentIsMade(name);
      transport := None;
      var connect := stage == Open && name !in failures;
      if connect && name in transports {
        if connects[name].made[transports[name]].result.Some? {
          HandleClosed(name, transports[name]);
          connect := name !in failures;
        } else {
          transport, connect := Some(transports[name]), false;
        }
      }
      if connect {
        Start(name);
      }
      assert Entry(Snapshot(), name) == Step(cfg, stage == Open, Entry(before, name), Get);
      OneServerSteps(cfg, endpoints, stage, before, Snapshot(), name, Get);
    }

    /** The closed callback of a transport. */
    method TransportReportsClose(name: nat, t: nat)
      requires Valid() && name in endpoints && Enabled(cfg, stage == Open, Entry(Snapshot(), name), ClosedCallback(t))
      modifies this
      ensures Valid() && Model() == PoolStep(cfg, old(Model()), OfServer(name, ClosedCallback(t)))
    {
      ghost var before := Snapshot();
      hide PoolInv, PoolOf, PoolStep;
      var made := connects[name].made;
      made := made[t := made[t].(callbackDue := false)];
      connects := connects[name := connects[name].(made := made)];
      assert Becomes(endpoints, before, Snapshot(), name, Entry(before, name).(made := made));
      HandleClosed(name, t);
      assert Entry(Snapshot(), name) == Step(cfg, stage == Open, Entry(before, name), ClosedCallback(t));
      OneServerSteps(cfg, endpoints, stage, before, Snapshot(), name, ClosedCallback(t));
    }

    /** A connect task starts: its first factory call. */
    method ConnectRuns(name: nat, i: nat)
      requires Valid() && name in endpoints && Enabled(cfg, stage == Open, Entry(Snapshot(), name), Run(i))
      modifies this
      ensures Valid() && Model() == PoolStep(cfg, old(Model()), OfServer(name, Run(i)))
    {
      ghost var before := Snapshot();
      hide PoolInv, PoolOf, PoolStep;
      var task := Task(Calling(1, cfg.initialDelay), name in everConnected, false);
      if name !in everConnected {
        SetState(name, Connecting);
      }
      connects := connects[name := connects[name].(calls := connects[name].calls + 1)];
      SetPhaseOf(name, i, task);
      assert Entry(Snapshot(), name) == RunTask(cfg, Entry(before, name), i);
      OneServerSteps(cfg, endpoints, stage, before, Snapshot(), name, Run(i));
    }

    /** The backoff is over: the next factory call with twice the delay, unless the pool closes. */
    method ConnectWakes(name: nat, i: nat)
      requires Valid() && name in endpoints && Enabled(cfg, stage == Open, Entry(Snapshot(), name), Wake(i))
      modifies this
      ensures Valid() && Model() == PoolStep(cfg, old(Model()), OfServer(name, Wake(i)))
    {
      ghost var before := Snapshot();
      hide PoolInv, PoolOf, PoolStep;
      var task := connects[name].tasks[i];
      if stage == Open {
        connects := connects[name := connects[name].(calls := connects[name].calls + 1)];
        SetPhaseOf(name, i, task.(phase := Calling(task.phase.attempt + 1, Min(cfg.maxDelay, task.phase.delay * 2.0))));
      } else {
        SetPhaseOf(name, i, task.(phase := Finished(Raised(ClientClosed))));
      }
      assert Entry(Snapshot(), name) == WakeTask(cfg, stage == Open, Entry(before, name), i);
      OneServerSteps(cfg, endpoints, stage, before, Snapshot(), name, Wake(i));
    }

    method InstallTransport(name: nat, i: nat, ended: Option<Cause>)
      requires Complete() && name in endpoints && i < |connects[name].tasks| && stage == Open
      modifies this`transports, this`connects, this`everConnected, this`states
      ensures Becomes(endpoints, old(Snapshot()), Snapshot(), name, Install(true, Entry(old(Snapshot()), name), i, ended))
    {
      var entry := connects[name];
      transports := transports[name := |entry.made|];
      connects := connects[name := entry.(made := entry.made + [Transport(ended, ended.Some?, false)])];
      everConnected := everConnected + {name};
      SetState(name, Connected);
      SetPhaseOf(name, i, entry.tasks[i].(phase := Finished(Installed)));
    }

    /** The factory answered: the transport becomes the current one, or is discarded when the pool closes. */
    method ConnectReturns(name: nat, i: nat, ended: Option<Cause>)
      requires Valid() && name in endpoints && Enabled(cfg, stage == Open, Entry(Snapshot(), name), FactoryReturns(i, ended))
      modifies this
      ensures Valid() && Model() == PoolStep(cfg, old(Model()), OfServer(name, FactoryReturns(i, ended)))
    {
      ghost var before := Snapshot();
      hide PoolInv, PoolOf, PoolStep;
      var entry := connects[name];
      if stage != Open {
        connects := connects[name := entry.(made := entry.made + [Transport(ended, false, true)])];
        SetPhaseOf(name, i, entry.tasks[i].(phase := Discarding));
        assert Becomes(endpoints, before, Snapshot(), name, Install(false, Entry(before, name), i, ended));
      } else {
        InstallTransport(name, i, ended);
      }
      hide Becomes, Entry, Install;
      OneServerSteps(cfg, endpoints, stage, before, Snapshot(), name, FactoryReturns(i, ended));
    }

    /** Whether a failed attempt is the last one, and how long the task sleeps otherwise. */
    method JudgeFailure(task: Task, error: Cause, draw: Draw) returns (recorded: Option<Cause>, next: Phase)
      requires task.phase.Calling?
      ensures Verdict(recorded, next) == Judge(cfg, task, error, draw)
      ensures MayRecover(cfg, task, error) && draw.Fraction? && 0.0 <= draw.value <= 1.0 ==>
        recorded == None && next == Sleeping(task.phase.attempt, task.phase.delay, draw.value * task.phase.delay)
      ensures MayRecover(cfg, task, error) && draw.Fraction? && !(0.0 <= draw.value <= 1.0) ==>
        recorded == Some(INVALID_FRACTION) && next == Finished(Raised(INVALID_FRACTION))
      ensures MayRecover(cfg, task, error) && draw.Raises? ==> recorded == None && next == Finished(Raised(DRAW_RAISED))
      ensures !MayRecover(cfg, task, error) ==> recorded == Some(error) && next == Finished(Raised(error))
    {
      recorded := None;
      if !TriesAgain(cfg, task, error) {
        recorded, next := Some(error), Finished(Raised(error));
      } else if draw.Raises? {
        next := Finished(Raised(DRAW_RAISED));
      } else if draw.value < 0.0 || draw.value > 1.0 {
        recorded, next := Some(INVALID_FRACTION), Finished(Raised(INVALID_FRACTION));
      } else {
        next := Sleeping(task.phase.attempt, task.phase.delay, Jitter(draw.value, task.phase.delay));
      }
    }

    /** The factory raised: give up, or sleep for a fraction of the current delay and try again. */
    method ConnectRaises(name: nat, i: nat, error: Cause, draw: Draw)
      requires Valid() && name in endpoints && Enabled(cfg, stage == Open, Entry(Snapshot(), name), FactoryRaises(i, error, draw))
      modifies this
      ensures Valid() && Model() == PoolStep(cfg, old(Model()), OfServer(name, FactoryRaises(i, error, draw)))
    {
      ghost var before := Snapshot();
      hide PoolInv, PoolOf, PoolStep;
      var recorded, next := JudgeFailure(connects[name].tasks[i], error, draw);
      hide Becomes, Entry, Judge, MayRecover;
      Conclude(name, i, recorded, next);
      OneServerSteps(cfg, endpoints, stage, before, Snapshot(), name, FactoryRaises(i, error, draw));
    }

    /** Records the failure, if there is one, and moves the task on. */
    method Conclude(name: nat, i: nat, recorded: Option<Cause>, next: Phase)
      requires Complete() && name in endpoints && i < |connects[name].tasks|
      modifies this`failures, this`states, this`connects
      ensures var entry := Entry(old(Snapshot()), name);
        Becomes(endpoints, old(Snapshot()), Snapshot(), name,
                SetTask(if recorded.Some? then Terminal(entry, recorded.value) else entry, i, next))
    {
      ghost var before := Snapshot();
      var task := connects[name].tasks[i];
      ghost var entry := Entry(before, name);
      Unchanged(endpoints, before, name);
      hide Becomes, Entry;
      if recorded.Some? {
        GiveUp(name, recorded.value);
        ThenTerminal(endpoints, before, before, name, entry, recorded.value);
        entry := Terminal(entry, recorded.value);
      }
      ThenTasks(endpoints, before, Snapshot(), name, entry, entry.tasks[i := task.(phase := next)]);
      SetPhaseOf(name, i, task.(phase := next));
    }

    /** A finished connect task clears its own registration only. */
    method Unregister(name: nat, i: nat)
      requires Complete() && name in endpoints
      modifies this`connecting
      ensures var entry := Entry(old(Snapshot()), name);
        Becomes(endpoints, old(Snapshot()), Snapshot(), name,
                entry.(registered := if entry.registered == Some(i) then None else entry.registered))
    {
      if name in connecting && connecting[name] == i {
        connecting := connecting - {name};
      }
    }

    /** The done callback of a connect task. */
    method TaskDone(name: nat, i: nat)
      requires Valid() && name in endpoints && Enabled(cfg, stage == Open, Entry(Snapshot(), name), Reap(i))
      modifies this
      ensures Valid() && Model() == PoolStep(cfg, old(Model()), OfServer(name, Reap(i)))
    {
      ghost var before := Snapshot();
      hide PoolInv, PoolOf, PoolStep;
      var task := connects[name].tasks[i];
      Unregister(name, i);
      ghost var entry := Entry(before, name);
      assert entry.tasks == connects[name].tasks && (name in failures <==> entry.failure.Some?);
      entry := entry.(registered := if entry.registered == Some(i) then None else entry.registered);
      hide Becomes, Entry;
      ThenTasks(endpoints, before, Snapshot(), name, entry, entry.tasks[i := task.(reaped := true)]);
      SetPhaseOf(name, i, task.(reaped := true));
      entry := entry.(tasks := entry.tasks[i := task.(reaped := true)]);
      ReapedInSteps(cfg, stage == Open, Entry(before, name), i);
      hide Step, Enabled, ReapTask;
      if task.phase.outcome.Raised? && name !in failures && stage == Open {
        ThenTerminal(endpoints, before, Snapshot(), name, entry, task.phase.outcome.cause);
        GiveUp(name, task.phase.outcome.cause);
      }
      OneServerSteps(cfg, endpoints, stage, before, Snapshot(), name, Reap(i));
    }

    /** Closing starts: every server shows as closed. */
    method CloseBegins()
      requires Valid() && stage == Open
      modifies this`stage, this`states
      ensures Valid() && Model() == PoolStep(cfg, old(Model()), Close)
    {
      ghost var before := Snapshot();
      hide PoolInv, PoolOf, PoolStep;
      stage := Closing;
      ShowClosed();
      AllClosed(cfg, endpoints, before, Snapshot());
    }

    method ShowClosed()
      requires forall name :: name in endpoints ==> name in states
      modifies this`states
      ensures states.Keys == old(states).Keys && forall name :: name in endpoints ==> states[name] == Closed
    {
      var todo := endpoints;
      while todo != {}
        invariant todo <= endpoints && states.Keys == old(states).Keys
        invariant forall name :: name in endpoints && name !in todo ==> states[name] == Closed
        decreases |todo|
      {
        var name :| name in todo;
        SetState(name, Closed);
        todo := todo - {name};
      }
    }

    /** Calls `close` on the current transport of one server. */
    method CloseCurrent(name: nat)
      requires Complete() && name in endpoints
      modifies this`connects
      ensures connects == old(connects)[name := old(connects)[name].(made := Collect(Entry(old(Snapshot()), name)).made)]
    {
      var entry := connects[name];
      if name in transports && transports[name] < |entry.made| {
        var closing := entry.made[transports[name]].(closeCalled := true);
        connects := connects[name := entry.(made := entry.made[transports[name] := closing])];
      }
      assert connects[name] == entry.(made := Collect(Entry(old(Snapshot()), name)).made);
    }

    /** Calls `close` on every current transport. */
    method CloseTransports()
      requires Complete()
      modifies this`connects
      ensures forall name :: name in endpoints ==>
        name in connects && connects[name] == old(connects)[name].(made := Collect(Entry(old(Snapshot()), name)).made)
    {
      ghost var before := Snapshot();
      var todo := endpoints;
      while todo != {}
        invariant todo <= endpoints && Complete() && Snapshot() == before.(connects := connects)
        invariant forall name :: name in endpoints ==>
          connects[name] == if name in todo then before.connects[name]
                            else before.connects[name].(made := Collect(Entry(before, name)).made)
        decreases |todo|
      {
        var name :| name in todo;
        CloseCurrent(name);
        todo := todo - {name};
      }
    }

    /** Closing ends once the connect tasks are done: both dictionaries are cleared and every transport is closed. */
    method CloseEnds()
      requires Valid() && stage == Closing && PoolEnabled(cfg, Model(), CloseCollects)
      modifies this
      ensures Valid() && Model() == PoolStep(cfg, old(Model()), CloseCollects)
      ensures connecting == map[] && transports == map[]
    {
      ghost var before := Snapshot();
      hide PoolInv, PoolOf, PoolStep, Collect;
      CloseTransports();
      connecting, transports, stage := map[], map[], Returned;
      AllForgotten(cfg, endpoints, before, Snapshot());
    }
  }
}
