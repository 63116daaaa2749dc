/**
 One session as SessionService sees it: the engine map's entry, the reconnect state's entry, the timers
 that are running, and every call that is suspended at an await. One action is what the code does from
 one await to the next.
 */
module Session {
  import opened Json
  import opened Powers

  // An entry of reconnectStates.
  datatype Reconnect = Reconnect(attempts: nat, timer: Option<nat>, maxAttempts: int, baseDelay: real)

  datatype Engine =
    | Opening          // initialize has not settled
    | Up               // initialize resolved, no disconnect reported since
    | Spent            // rejected, reported its disconnect, or shut down

  datatype Caller = ByStart | ByReconnect

  // A call that is suspended, told by what it waits for.
  datatype Call =
    | StartHook                            // start: the hook, behind the check for a running engine
    | Initializing(e: nat, caller: Caller)     // initializeEngine: engine.initialize
    | StatusWrite(caller: Caller)              // initializeEngine: the INITIALIZING status write
    | DestroyingOld(e: nat)                // executeReconnect: oldEngine.destroy
    | ShuttingDown(e: nat)                 // stop, delete: engine.disconnect, engine.destroy
    | Done

  // `current` is the entry of the engine map. `waits` are the delays scheduled since the attempts
  // were last reset.
  datatype State = State(
    current: Option<nat>, reconnect: Option<Reconnect>, timers: set<nat>, nextTimer: nat,
    engines: seq<Engine>, calls: seq<Call>, waits: seq<real>)

  datatype Action =
    | Start                                                  // start, up to the hook
    | StartResumes(k: nat, maxAttempts: int, baseDelay: real)
    | InitializeSettles(k: nat, ok: bool, jitter: real)
    | StatusWritten(k: nat, ok: bool, jitter: real)
    | Fire(timer: nat)
    | DestroySettles(k: nat, ok: bool, jitter: real)
    | Stop                                                   // stop or delete, up to the shutdown
    | ShutdownSettles(k: nat, ok: bool)
    | Disconnected(e: nat, jitter: real)
    | Ready

  const Initial := State(None, None, {}, 0, [], [], [])

  // The delay before the next attempt: the base delay doubled once per attempt, and a jitter.
  function Delay(r: Reconnect, jitter: real): real {
    r.baseDelay * Pow2(r.attempts) as real + jitter
  }

  function ScheduleReconnect(s: State, jitter: real): State {
    match s.reconnect
    case None => s
    case Some(r) =>
      if r.attempts >= r.maxAttempts then s
      else s.(reconnect := Some(r.(attempts := r.attempts + 1, timer := Some(s.nextTimer))),
              timers := s.timers + {s.nextTimer}, nextTimer := s.nextTimer + 1,
              waits := s.waits + [Delay(r, jitter)])
  }

  function CancelReconnect(s: State): State {
    match s.reconnect
    case None => s
    case Some(r) =>
      s.(reconnect := None, timers := if r.timer.Some? then s.timers - {r.timer.value} else s.timers)
  }

  // The first part of initializeEngine: a new engine becomes the session's engine.
  function CreateEngine(s: State, caller: Caller): State {
    s.(current := Some(|s.engines|), engines := s.engines + [Opening],
       calls := s.calls + [Initializing(|s.engines|, caller)])
  }

  // An engine whose destroy or disconnect was called.
  function ShutDown(s: State, e: nat): State {
    if e < |s.engines| then s.(engines := s.engines[e := Spent]) else s
  }

  function SetCall(s: State, k: nat, c: Call): State
    requires k < |s.calls|
  {
    s.(calls := s.calls[k := c])
  }

  function InitializeDone(s: State, k: nat, e: nat, caller: Caller, ok: bool, jitter: real): State
    requires k < |s.calls|
  {
    if e >= |s.engines| then s
    else if ok then
      var up := if s.engines[e].Opening? then Up else s.engines[e];
      SetCall(s, k, StatusWrite(caller)).(engines := s.engines[e := up])
    else
      var failed := SetCall(s, k, Done).(engines := s.engines[e := Spent]);
      if caller.ByReconnect? then ScheduleReconnect(failed, jitter) else failed
  }

  // executeReconnect, up to its first await.
  function ExecuteReconnect(s: State): State {
    match s.current
    case Some(prev) => ShutDown(s, prev).(calls := s.calls + [DestroyingOld(prev)])
    case None => CreateEngine(s, ByReconnect)
  }

  function Step(s: State, a: Action): State {
    match a
    case Start => if s.current.Some? then s else s.(calls := s.calls + [StartHook])
    case StartResumes(k, maxAttempts, baseDelay) =>
      if k < |s.calls| && s.calls[k].StartHook? then
        var r := Reconnect(0, None, maxAttempts, baseDelay);
        CreateEngine(SetCall(s, k, Done).(reconnect := Some(r), waits := []), ByStart)
      else s
    case InitializeSettles(k, ok, jitter) =>
      if k < |s.calls| && s.calls[k].Initializing?
      then InitializeDone(s, k, s.calls[k].e, s.calls[k].caller, ok, jitter) else s
    case StatusWritten(k, ok, jitter) =>
      if k < |s.calls| && s.calls[k].StatusWrite? then
        if !ok && s.calls[k].caller.ByReconnect? then ScheduleReconnect(SetCall(s, k, Done), jitter)
        else SetCall(s, k, Done)
      else s
    case Fire(timer) =>
      if timer in s.timers then ExecuteReconnect(s.(timers := s.timers - {timer})) else s
    case DestroySettles(k, ok, jitter) =>
      if k < |s.calls| && s.calls[k].DestroyingOld? then
        if ok then CreateEngine(SetCall(s, k, Done).(current := None), ByReconnect)
        else ScheduleReconnect(SetCall(s, k, Done), jitter)
      else s
    case Stop =>
      var c := CancelReconnect(s);
      if c.current.Some? then ShutDown(c, c.current.value).(calls := c.calls + [ShuttingDown(c.current.value)]) else c
    case ShutdownSettles(k, ok) =>
      if k < |s.calls| && s.calls[k].ShuttingDown? then
        var d := SetCall(s, k, Done);
        if ok then d.(current := None) else d
      else s
    case Disconnected(e, jitter) =>
      ScheduleReconnect(if e < |s.engines| then s.(engines := s.engines[e := Spent]) else s, jitter)
    case Ready =>
      if s.reconnect.Some? then s.(reconnect := Some(s.reconnect.value.(attempts := 0)), waits := []) else s
  }

  function Run(s: State, actions: seq<Action>): State
    decreases |actions|
  {
    if actions == [] then s else Run(Step(s, actions[0]), actions[1..])
  }

  lemma {:induction false} RunAppend(s: State, a: seq<Action>, b: seq<Action>)
    ensures Run(s, a + b) == Run(Run(s, a), b)
    decreases |a|
  {
    if a == [] {
      assert a + b == b;
    } else {
      assert (a + b)[1..] == a[1..] + b;
      RunAppend(Step(s, a[0]), a[1..], b);
    }
  }

  // Jitter is a random number in [0, 1000).
  predicate HasJitter(a: Action) {
    match a
    case InitializeSettles(_, _, j) => 0.0 <= j < 1000.0
    case StatusWritten(_, _, j) => 0.0 <= j < 1000.0
    case DestroySettles(_, _, j) => 0.0 <= j < 1000.0
    case Disconnected(_, j) => 0.0 <= j < 1000.0
    case _ => true
  }
}
