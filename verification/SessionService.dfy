/**
 The session service in the shape of its source: maps keyed by session id that its methods update.
 Seen through one id, every method is a step of the machine in Session, and leaves every other
 session as it was.
 */
module SessionServices {
  import opened Json
  import opened Session
  import opened SessionRecovery
  import opened SessionSafety
  import opened SessionTheorems

  function Lookup<V>(m: map<string, V>, key: string, default: V): V {
    if key in m then m[key] else default
  }

  // The actions of one session, in order.
  function ActionsOf(trace: seq<(string, Action)>, id: string): seq<Action> {
    if trace == [] then []
    else ActionsOf(trace[..|trace| - 1], id)
         + if trace[|trace| - 1].0 == id then [trace[|trace| - 1].1] else []
  }

  predicate Jittered(actions: seq<Action>) {
    forall k :: 0 <= k < |actions| ==> HasJitter(actions[k])
  }

  predicate NoneResumes(actions: seq<Action>) {
    forall k :: 0 <= k < |actions| ==> !actions[k].StartResumes?
  }

  class SessionService {
    var engines: map<string, nat>                 // the engine map: session id to engine
    var reconnectStates: map<string, Reconnect>

    // Outside the service, per session: its engines, timers and suspended calls.
    var made: map<string, seq<Engine>>
    var timers: map<string, set<nat>>
    var nextTimer: map<string, nat>
    var calls: map<string, seq<Call>>
    ghost var waits: map<string, seq<real>>

    ghost function View(id: string): State
      reads this
    {
      State(if id in engines then Some(engines[id]) else None,
            if id in reconnectStates then Some(reconnectStates[id]) else None,
            Lookup(timers, id, {}), Lookup(nextTimer, id, 0), Lookup(made, id, []), Lookup(calls, id, []),
            Lookup(waits, id, []))
    }

    constructor ()
      ensures forall id :: View(id) == Initial
    {
      engines, reconnectStates := map[], map[];
      made, timers, nextTimer, calls, waits := map[], map[], map[], map[], map[];
    }

    method SetCallOf(id: string, k: nat, c: Call)
      requires k < |Lookup(calls, id, [])|
      modifies this`calls
      ensures View(id) == SetCall(old(View(id)), k, c)
      ensures forall j :: j != id ==> View(j) == old(View(j))
    {
      calls := calls[id := Lookup(calls, id, [])[k := c]];
    }

    method AddCall(id: string, c: Call)
      modifies this`calls
      ensures View(id) == var s := old(View(id)); s.(calls := s.calls + [c])
      ensures forall j :: j != id ==> View(j) == old(View(j))
    {
      calls := calls[id := Lookup(calls, id, []) + [c]];
    }

    method SetEngine(id: string, e: nat, status: Engine)
      modifies this`made
      ensures View(id) == var s := old(View(id)); if e < |s.engines| then s.(engines := s.engines[e := status]) else s
      ensures forall j :: j != id ==> View(j) == old(View(j))
    {
      var es := Lookup(made, id, []);
      if e < |es| {
        made := made[id := es[e := status]];
      }
    }

    method DeleteEngine(id: string)
      modifies this`engines
      ensures View(id) == old(View(id)).(current := None)
      ensures forall j :: j != id ==> View(j) == old(View(j))
    {
      engines := engines - {id};
    }

    method ScheduleReconnectOf(id: string, jitter: real)
      modifies this`reconnectStates, this`timers, this`nextTimer, this`waits
      ensures View(id) == ScheduleReconnect(old(View(id)), jitter)
      ensures forall j :: j != id ==> View(j) == old(View(j))
    {
      if id !in reconnectStates {
        return;
      }
      var state := reconnectStates[id];
      if state.attempts >= state.maxAttempts {
        return;
      }
      ghost var delay := Delay(state, jitter);
      waits := waits[id := Lookup(waits, id, []) + [delay]];
      var timer := Lookup(nextTimer, id, 0);
      reconnectStates := reconnectStates[id := state.(attempts := state.attempts + 1, timer := Some(timer))];
      timers := timers[id := Lookup(timers, id, {}) + {timer}];
      nextTimer := nextTimer[id := timer + 1];
    }

    method CancelReconnectOf(id: string)
      modifies this`reconnectStates, this`timers
      ensures View(id) == CancelReconnect(old(View(id)))
      ensures forall j :: j != id ==> View(j) == old(View(j))
    {
      if id in reconnectStates {
        var state := reconnectStates[id];
        if state.timer.Some? {
          timers := timers[id := Lookup(timers, id, {}) - {state.timer.value}];
        }
      }
      reconnectStates := reconnectStates - {id};
    }

    // initializeEngine, up to the await of initialize.
    method InitializeEngine(id: string, caller: Caller)
      modifies this`engines, this`made, this`calls
      ensures View(id) == CreateEngine(old(View(id)), caller)
      ensures forall j :: j != id ==> View(j) == old(View(j))
    {
      var es := Lookup(made, id, []);
      engines := engines[id := |es|];
      made := made[id := es + [Opening]];
      AddCall(id, Initializing(|es|, caller));
    }

    // start, up to the hook.
    method StartOf(id: string)
      modifies this`calls
      ensures View(id) == Step(old(View(id)), Start)
      ensures forall j :: j != id ==> View(j) == old(View(j))
    {
      if id !in engines {
        AddCall(id, StartHook);
      }
    }

    // start, behind the hook.
    method StartResumesOf(id: string, k: nat, maxAttempts: int, baseDelay: real)
      modifies this
      ensures View(id) == Step(old(View(id)), StartResumes(k, maxAttempts, baseDelay))
      ensures forall j :: j != id ==> View(j) == old(View(j))
    {
      var cs := Lookup(calls, id, []);
      if k < |cs| && cs[k].StartHook? {
        SetCallOf(id, k, Done);
        waits := waits[id := []];
        reconnectStates := reconnectStates[id := Reconnect(0, None, maxAttempts, baseDelay)];
        InitializeEngine(id, ByStart);
      }
    }

    // The answer of engine.initialize, in start or in executeReconnect.
    method InitializeSettlesOf(id: string, k: nat, ok: bool, jitter: real)
      modifies this
      ensures View(id) == Step(old(View(id)), InitializeSettles(k, ok, jitter))
      ensures forall j :: j != id ==> View(j) == old(View(j))
    {
      var cs, es := Lookup(calls, id, []), Lookup(made, id, []);
      if k < |cs| && cs[k].Initializing? && cs[k].e < |es| {
        var e, caller := cs[k].e, cs[k].caller;
        if ok {
          SetCallOf(id, k, StatusWrite(caller));
          SetEngine(id, e, if es[e].Opening? then Up else es[e]);
        } else {
          SetCallOf(id, k, Done);
          SetEngine(id, e, Spent);
          if caller.ByReconnect? {
            ScheduleReconnectOf(id, jitter);
          }
        }
      }
    }

    method StatusWrittenOf(id: string, k: nat, ok: bool, jitter: real)
      modifies this
      ensures View(id) == Step(old(View(id)), StatusWritten(k, ok, jitter))
      ensures forall j :: j != id ==> View(j) == old(View(j))
    {
      var cs := Lookup(calls, id, []);
      if k < |cs| && cs[k].StatusWrite? {
        SetCallOf(id, k, Done);
        if !ok && cs[k].caller.ByReconnect? {
          ScheduleReconnectOf(id, jitter);
        }
      }
    }

    // A timer fires: executeReconnect, up to its first await.
    method FireOf(id: string, timer: nat)
      modifies this
      ensures View(id) == Step(old(View(id)), Fire(timer))
      ensures forall j :: j != id ==> View(j) == old(View(j))
    {
      if timer in Lookup(timers, id, {}) {
        timers := timers[id := Lookup(timers, id, {}) - {timer}];
        if id in engines {
          var engine := engines[id];
          SetEngine(id, engine, Spent);
          AddCall(id, DestroyingOld(engine));
        } else {
          InitializeEngine(id, ByReconnect);
        }
      }
    }

    method DestroySettlesOf(id: string, k: nat, ok: bool, jitter: real)
      modifies this
      ensures View(id) == Step(old(View(id)), DestroySettles(k, ok, jitter))
      ensures forall j :: j != id ==> View(j) == old(View(j))
    {
      var cs := Lookup(calls, id, []);
      if k < |cs| && cs[k].DestroyingOld? {
        SetCallOf(id, k, Done);
        if ok {
          DeleteEngine(id);
          InitializeEngine(id, ByReconnect);
        } else {
          ScheduleReconnectOf(id, jitter);
        }
      }
    }

    // stop or delete, up to the await of the engine's shutdown.
    method StopOf(id: string)
      modifies this
      ensures View(id) == Step(old(View(id)), Stop)
      ensures forall j :: j != id ==> View(j) == old(View(j))
    {
      CancelReconnectOf(id);
      if id in engines {
        var engine := engines[id];
        SetEngine(id, engine, Spent);
        AddCall(id, ShuttingDown(engine));
      }
    }

    method ShutdownSettlesOf(id: string, k: nat, ok: bool)
      modifies this
      ensures View(id) == Step(old(View(id)), ShutdownSettles(k, ok))
      ensures forall j :: j != id ==> View(j) == old(View(j))
    {
      var cs := Lookup(calls, id, []);
      if k < |cs| && cs[k].ShuttingDown? {
        SetCallOf(id, k, Done);
        if ok {
          DeleteEngine(id);
        }
      }
    }

    // The engine's callback onDisconnected.
    method OnDisconnected(id: string, e: nat, jitter: real)
      modifies this
      ensures View(id) == Step(old(View(id)), Disconnected(e, jitter))
      ensures forall j :: j != id ==> View(j) == old(View(j))
    {
      SetEngine(id, e, Spent);
      ScheduleReconnectOf(id, jitter);
    }

    // The engine's callback onReady.
    method OnReady(id: string)
      modifies this
      ensures View(id) == Step(old(View(id)), Ready)
      ensures forall j :: j != id ==> View(j) == old(View(j))
    {
      if id in reconnectStates {
        reconnectStates := reconnectStates[id := reconnectStates[id].(attempts := 0)];
        waits := waits[id := []];
      }
    }

    method Perform(id: string, a: Action)
      modifies this
      ensures View(id) == Step(old(View(id)), a)
      ensures forall j :: j != id ==> View(j) == old(View(j))
    {
      match a
      case Start => StartOf(id);
      case StartResumes(k, m, b) => StartResumesOf(id, k, m, b);
      case InitializeSettles(k, ok, j) => InitializeSettlesOf(id, k, ok, j);
      case StatusWritten(k, ok, j) => StatusWrittenOf(id, k, ok, j);
      case Fire(t) => FireOf(id, t);
      case DestroySettles(k, ok, j) => DestroySettlesOf(id, k, ok, j);
      case Stop => StopOf(id);
      case ShutdownSettles(k, ok) => ShutdownSettlesOf(id, k, ok);
      case Disconnected(e, j) => OnDisconnected(id, e, j);
      case Ready => OnReady(id);
    }

    // Any interleaving of any sessions: each session is where its own actions alone would take it.
    method PerformAll(trace: seq<(string, Action)>)
      modifies this
      ensures forall id :: View(id) == Run(old(View(id)), ActionsOf(trace, id))
    {
      for n := 0 to |trace|
        invariant forall id :: View(id) == Run(old(View(id)), ActionsOf(trace[..n], id))
      {
        var (id, a) := trace[n];
        Perform(id, a);
        assert trace[..n + 1][..n] == trace[..n];
        RunAppend(old(View(id)), ActionsOf(trace[..n], id), [a]);
        assert [a][1..] == [];
        assert forall j :: j != id ==> ActionsOf(trace[..n + 1], j) == ActionsOf(trace[..n], j);
      }
      assert trace[..|trace|] == trace;
    }

    // A service that has just begun, for all its sessions at once: a session whose own actions are disciplined
    // has one reconnect at most and is not forgotten while attempts are left, and every session backs off.
    method Serve(trace: seq<(string, Action)>)
      requires forall id :: View(id) == Initial
      modifies this
      ensures forall id :: DisciplinedRun(Initial, ActionsOf(trace, id)) ==> OnlyReconnect(View(id))
      ensures forall id :: DisciplinedRun(Initial, ActionsOf(trace, id)) && BenignRun(Initial, ActionsOf(trace, id)) ==>
        !Forgotten(View(id))
      ensures forall id :: Jittered(ActionsOf(trace, id)) ==> BackedOff(View(id))
    {
      PerformAll(trace);
      forall id | DisciplinedRun(Initial, ActionsOf(trace, id)) ensures OnlyReconnect(View(id)) {
        OneReconnect(ActionsOf(trace, id));
      }
      forall id | DisciplinedRun(Initial, ActionsOf(trace, id)) && BenignRun(Initial, ActionsOf(trace, id))
        ensures !Forgotten(View(id))
      {
        NothingForgotten(ActionsOf(trace, id));
      }
      forall id | Jittered(ActionsOf(trace, id)) ensures BackedOff(View(id)) {
        Backoff(ActionsOf(trace, id));
      }
    }

    // A session whose reconnect was cancelled is not revived by anything that any session does, unless a start
    // of its own resumes.
    method ServeOn(trace: seq<(string, Action)>)
      modifies this
      ensures forall id :: old(View(id)).reconnect.None? && NoneResumes(ActionsOf(trace, id)) ==>
        NotRevived(old(View(id)), View(id))
    {
      PerformAll(trace);
      forall id | old(View(id)).reconnect.None? && NoneResumes(ActionsOf(trace, id))
        ensures NotRevived(old(View(id)), View(id))
      {
        CancelledRun(old(View(id)), ActionsOf(trace, id));
      }
    }
  }
}
