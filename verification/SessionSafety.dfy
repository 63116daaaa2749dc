/**
 Sessions in runs where the operations and the engine keep to the discipline below: at every moment at
 most one thing can bring the session back, and it is the one the reconnect state knows of.
 */
module SessionSafety {
  import opened Json
  import opened Session

  // An executeReconnect that has not brought the new engine up yet. (It still runs while it awaits the
  // status write that follows; see SessionOverlap.)
  predicate IsReconnect(c: Call) {
    c.DestroyingOld? || (c.Initializing? && c.caller.ByReconnect?)
  }

  // A start that has not made its engine yet, a stop or delete, or an executeReconnect that has not brought
  // its engine up yet is running.
  predicate InFlight(s: State) {
    exists k :: 0 <= k < |s.calls| && (s.calls[k].StartHook? || s.calls[k].ShuttingDown? || IsReconnect(s.calls[k]))
  }

  predicate Destroying(s: State) {
    exists k :: 0 <= k < |s.calls| && s.calls[k].DestroyingOld?
  }

  // The discipline: a start that finds no engine begins only when nothing is in flight; a stop or
  // delete does not begin while executeReconnect destroys the old engine; only an engine that is up
  // reports a disconnect, once; and a reconnect's status write does not fail.
  predicate Disciplined(s: State, a: Action) {
    match a
    case Start => s.current.Some? || !InFlight(s)
    case Stop => !Destroying(s)
    case Disconnected(e, _) => e < |s.engines| && s.engines[e].Up?
    case StatusWritten(k, ok, _) => ok || !(k < |s.calls| && s.calls[k] == StatusWrite(ByReconnect))
    case _ => true
  }

  predicate DisciplinedRun(s: State, actions: seq<Action>)
    decreases |actions|
  {
    actions != [] ==> Disciplined(s, actions[0]) && DisciplinedRun(Step(s, actions[0]), actions[1..])
  }

  // ---------- The invariant ----------

  predicate SpentBut(s: State, live: Option<nat>) {
    forall e :: 0 <= e < |s.engines| && Some(e) != live ==> s.engines[e].Spent?
  }

  // The timers that run are at most the one that the reconnect state names.
  predicate Tidy(s: State) {
    match s.reconnect
    case None => s.timers == {}
    case Some(r) =>
      && (forall t :: t in s.timers ==> Some(t) == r.timer)
      && (forall t :: t in s.timers ==> t < s.nextTimer)
  }

  predicate CallOk(s: State, c: Call) {
    match c
    case StartHook => s.current.None? && s.reconnect.None? && SpentBut(s, None)
    case Initializing(e, caller) =>
      && e < |s.engines| && !s.engines[e].Up?
      && (caller.ByReconnect? ==> s.timers == {} && SpentBut(s, Some(e)))
    case DestroyingOld(e) => s.timers == {} && SpentBut(s, None) && s.current == Some(e)
    case ShuttingDown(_) => s.reconnect.None? && SpentBut(s, None)
    case _ => true
  }

  predicate Compatible(c: Call, d: Call) {
    && !(IsReconnect(c) && IsReconnect(d))
    && (c.StartHook? ==> !d.StartHook? && !IsReconnect(d) && !d.ShuttingDown?)
    && (d.StartHook? ==> !c.StartHook? && !IsReconnect(c) && !c.ShuttingDown?)
    && !(c.ShuttingDown? && d.DestroyingOld?) && !(d.ShuttingDown? && c.DestroyingOld?)
    && !(c.Initializing? && d.Initializing? && c.e == d.e)
  }

  predicate CallsOk(s: State) {
    && (forall k :: 0 <= k < |s.calls| ==> CallOk(s, s.calls[k]))
    && (forall j, k :: 0 <= j < k < |s.calls| ==> Compatible(s.calls[j], s.calls[k]))
  }

  predicate Tame(s: State) {
    && Tidy(s)
    && (s.reconnect.Some? ==> s.current.Some?)
    && (s.current.Some? ==> s.current.value < |s.engines|)
    && SpentBut(s, s.current)
    && (s.timers != {} ==> SpentBut(s, None))
    && CallsOk(s)
  }

  // ---------- The invariant is kept ----------

  lemma StartKeeps(s: State)
    requires Tame(s) && Disciplined(s, Start)
    ensures Tame(Step(s, Start))
  {
  }

  lemma StartResumesKeeps(s: State, k: nat, maxAttempts: int, baseDelay: real)
    requires Tame(s)
    ensures Tame(Step(s, StartResumes(k, maxAttempts, baseDelay)))
  {
  }

  lemma InitializeResolves(s: State, k: nat, jitter: real)
    requires Tame(s) && k < |s.calls| && s.calls[k].Initializing?
    ensures Tame(InitializeDone(s, k, s.calls[k].e, s.calls[k].caller, true, jitter))
  {
  }

  lemma InitializeRejects(s: State, k: nat, jitter: real)
    requires Tame(s) && k < |s.calls| && s.calls[k].Initializing?
    ensures Tame(InitializeDone(s, k, s.calls[k].e, s.calls[k].caller, false, jitter))
  {
    var e := s.calls[k].e;
    var failed := SetCall(s, k, Done).(engines := s.engines[e := Spent]);
    assert Tame(failed);
    if s.calls[k].caller.ByReconnect? { assert SpentBut(failed, None) && failed.timers == {}; }
  }

  lemma StatusKeeps(s: State, k: nat, ok: bool, jitter: real)
    requires Tame(s) && Disciplined(s, StatusWritten(k, ok, jitter))
    ensures Tame(Step(s, StatusWritten(k, ok, jitter)))
  {
  }

  lemma FireKeeps(s: State, timer: nat)
    requires Tame(s)
    ensures Tame(Step(s, Fire(timer)))
  {
  }

  lemma DestroyKeeps(s: State, k: nat, ok: bool, jitter: real)
    requires Tame(s)
    ensures Tame(Step(s, DestroySettles(k, ok, jitter)))
  {
  }

  lemma StopKeeps(s: State)
    requires Tame(s) && Disciplined(s, Stop)
    ensures Tame(Step(s, Stop))
  {
  }

  lemma ShutdownKeeps(s: State, k: nat, ok: bool)
    requires Tame(s)
    ensures Tame(Step(s, ShutdownSettles(k, ok)))
  {
  }

  lemma DisconnectedKeeps(s: State, e: nat, jitter: real)
    requires Tame(s) && Disciplined(s, Disconnected(e, jitter))
    ensures Tame(Step(s, Disconnected(e, jitter)))
  {
  }

  lemma StepKeeps(s: State, a: Action)
    requires Tame(s) && Disciplined(s, a)
    ensures Tame(Step(s, a))
  {
    match a
    case Start => StartKeeps(s);
    case StartResumes(k, m, b) => StartResumesKeeps(s, k, m, b);
    case InitializeSettles(k, ok, j) =>
      if k < |s.calls| && s.calls[k].Initializing? {
        if ok { InitializeResolves(s, k, j); } else { InitializeRejects(s, k, j); }
      }
    case StatusWritten(k, ok, j) => StatusKeeps(s, k, ok, j);
    case Fire(t) => FireKeeps(s, t);
    case DestroySettles(k, ok, j) => DestroyKeeps(s, k, ok, j);
    case Stop => StopKeeps(s);
    case ShutdownSettles(k, ok) => ShutdownKeeps(s, k, ok);
    case Disconnected(e, j) => DisconnectedKeeps(s, e, j);
    case Ready =>
  }

  lemma {:induction false} RunKeeps(s: State, actions: seq<Action>)
    requires Tame(s) && DisciplinedRun(s, actions)
    ensures Tame(Run(s, actions))
    decreases |actions|
  {
    if actions != [] {
      StepKeeps(s, actions[0]);
      RunKeeps(Step(s, actions[0]), actions[1..]);
    }
  }
}
