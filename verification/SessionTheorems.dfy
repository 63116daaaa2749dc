/**
 The theorems about sessions: the backoff between two resets, what a cancelled reconnect can still do,
 and exactly when starting or stopping a session keeps it at one reconnect at a time.
 */
module SessionTheorems {
  import opened Json
  import opened Powers
  import opened Session
  import opened SessionSafety

  // ---------- Backoff ----------

  function Sum(xs: seq<real>): real {
    if xs == [] then 0.0 else Sum(xs[..|xs| - 1]) + xs[|xs| - 1]
  }

  // base doubled n times.
  function Doubled(base: real, n: nat): real {
    if n == 0 then base else 2.0 * Doubled(base, n - 1)
  }

  lemma {:induction false} DoubledIsPower(base: real, n: nat)
    ensures Doubled(base, n) == base * Pow2(n) as real
  {
    if n > 0 {
      DoubledIsPower(base, n - 1);
      var p := Pow2(n - 1);
      assert Pow2(n) as real == 2.0 * p as real;
    }
  }

  // Each wait is the base doubled once per wait before it, and a jitter below a second.
  predicate WaitsDouble(waits: seq<real>, base: real) {
    forall k :: 0 <= k < |waits| ==> Doubled(base, k) <= waits[k] < Doubled(base, k) + 1000.0
  }

  // One wait per attempt since the last reset, and never more than allowed.
  predicate BackoffOk(s: State) {
    match s.reconnect
    case None => true
    case Some(r) =>
      && |s.waits| == r.attempts
      && (r.attempts == 0 || r.attempts <= r.maxAttempts)
      && WaitsDouble(s.waits, r.baseDelay)
  }

  lemma ScheduleBackoff(s: State, jitter: real)
    requires BackoffOk(s) && 0.0 <= jitter < 1000.0
    ensures BackoffOk(ScheduleReconnect(s, jitter))
  {
    if s.reconnect.Some? {
      var r := s.reconnect.value;
      DelayDoubles(r, jitter);
      OneMoreWait(s.waits, r.baseDelay, Delay(r, jitter));
    }
  }

  lemma DelayDoubles(r: Reconnect, jitter: real)
    requires 0.0 <= jitter < 1000.0
    ensures Doubled(r.baseDelay, r.attempts) <= Delay(r, jitter) < Doubled(r.baseDelay, r.attempts) + 1000.0
  {
    DoubledIsPower(r.baseDelay, r.attempts);
    var p := Pow2(r.attempts) as real;
    assert Doubled(r.baseDelay, r.attempts) == r.baseDelay * p;
    assert Delay(r, jitter) == r.baseDelay * p + jitter;
  }

  lemma OneMoreWait(waits: seq<real>, base: real, wait: real)
    requires WaitsDouble(waits, base) && Doubled(base, |waits|) <= wait < Doubled(base, |waits|) + 1000.0
    ensures WaitsDouble(waits + [wait], base)
  {
    var all := waits + [wait];
    forall k | 0 <= k < |all| ensures Doubled(base, k) <= all[k] < Doubled(base, k) + 1000.0 {
      assert all[k] == if k < |waits| then waits[k] else wait;
      assert k >= |waits| ==> k == |waits|;
    }
  }

  // Only scheduling and the two resets touch the reconnect state.
  lemma BackoffStep(s: State, a: Action)
    requires BackoffOk(s) && HasJitter(a)
    ensures BackoffOk(Step(s, a))
  {
    match a
    case InitializeSettles(k, ok, j) =>
      if k < |s.calls| && s.calls[k].Initializing? && s.calls[k].e < |s.engines| && !ok {
        ScheduleBackoff(SetCall(s, k, Done).(engines := s.engines[s.calls[k].e := Spent]), j);
      }
    case StatusWritten(k, ok, j) => if k < |s.calls| { ScheduleBackoff(SetCall(s, k, Done), j); }
    case DestroySettles(k, ok, j) => if k < |s.calls| { ScheduleBackoff(SetCall(s, k, Done), j); }
    case Disconnected(e, j) =>
      ScheduleBackoff(if e < |s.engines| then s.(engines := s.engines[e := Spent]) else s, j);
    case _ =>
  }

  lemma {:induction false} BackoffRun(s: State, actions: seq<Action>)
    requires BackoffOk(s) && forall k :: 0 <= k < |actions| ==> HasJitter(actions[k])
    ensures BackoffOk(Run(s, actions))
    decreases |actions|
  {
    if actions != [] {
      BackoffStep(s, actions[0]);
      BackoffRun(Step(s, actions[0]), actions[1..]);
    }
  }

  lemma {:induction false} WaitsSum(waits: seq<real>, base: real)
    requires WaitsDouble(waits, base)
    ensures Doubled(base, |waits|) - base <= Sum(waits)
    ensures waits != [] ==> Sum(waits) < Doubled(base, |waits|) - base + 1000.0 * |waits| as real
  {
    if waits != [] {
      WaitsSum(waits[..|waits| - 1], base);
      assert 1000.0 * |waits| as real == 1000.0 * (|waits| - 1) as real + 1000.0;
    }
  }

  // n = attempts reconnects were scheduled since the last reset, n does not exceed the maximum, and together
  // they wait for base * (2^n - 1) and less than a second each on top.
  predicate BackedOff(s: State) {
    s.reconnect.Some? ==>
      var r, n := s.reconnect.value, |s.waits|;
      var total := r.baseDelay * Pow2(n) as real - r.baseDelay;
      && n == r.attempts && (n == 0 || n <= r.maxAttempts)
      && total <= Sum(s.waits)
      && (n > 0 ==> Sum(s.waits) < total + 1000.0 * n as real)
  }

  lemma BackoffIs(s: State)
    requires BackoffOk(s)
    ensures BackedOff(s)
  {
    if s.reconnect.Some? {
      WaitsSum(s.waits, s.reconnect.value.baseDelay);
      DoubledIsPower(s.reconnect.value.baseDelay, |s.waits|);
    }
  }

  // So it is in every run.
  lemma Backoff(actions: seq<Action>)
    requires forall k :: 0 <= k < |actions| ==> HasJitter(actions[k])
    ensures BackedOff(Run(Initial, actions))
  {
    BackoffRun(Initial, actions);
    BackoffIs(Run(Initial, actions));
  }

  predicate NoReset(actions: seq<Action>) {
    forall k :: 0 <= k < |actions| ==> !actions[k].Ready? && !actions[k].StartResumes?
  }

  // How many reconnects are left.
  function Left(s: State): nat {
    match s.reconnect
    case None => 0
    case Some(r) => if r.attempts < r.maxAttempts then r.maxAttempts - r.attempts else 0
  }

  lemma LeftStep(s: State, a: Action)
    requires !a.Ready? && !a.StartResumes?
    ensures Step(s, a).nextTimer + Left(Step(s, a)) <= s.nextTimer + Left(s)
    ensures s.nextTimer <= Step(s, a).nextTimer
  {
  }

  // Without a ready event or a new start, reconnecting ends: no run makes more timers than are left.
  lemma {:induction false} ReconnectingEnds(s: State, actions: seq<Action>)
    requires NoReset(actions)
    ensures s.nextTimer <= Run(s, actions).nextTimer <= s.nextTimer + Left(s)
    ensures Run(s, actions).nextTimer + Left(Run(s, actions)) <= s.nextTimer + Left(s)
    decreases |actions|
  {
    if actions != [] {
      LeftStep(s, actions[0]);
      ReconnectingEnds(Step(s, actions[0]), actions[1..]);
    }
  }

  // ---------- After a cancelled reconnect ----------

  function CountDestroying(calls: seq<Call>): nat {
    if calls == [] then 0
    else CountDestroying(calls[..|calls| - 1]) + if calls[|calls| - 1].DestroyingOld? then 1 else 0
  }

  lemma {:induction false} CountUpdate(calls: seq<Call>, k: nat, c: Call)
    requires k < |calls|
    ensures CountDestroying(calls[k := c]) ==
      CountDestroying(calls) - (if calls[k].DestroyingOld? then 1 else 0) + if c.DestroyingOld? then 1 else 0
  {
    var n := |calls| - 1;
    if k < n {
      CountUpdate(calls[..n], k, c);
      assert calls[k := c][..n] == calls[..n][k := c];
    } else {
      assert calls[k := c][..n] == calls[..n];
    }
  }

  lemma CountAppend(calls: seq<Call>, c: Call)
    ensures CountDestroying(calls + [c]) == CountDestroying(calls) + if c.DestroyingOld? then 1 else 0
  {
    assert (calls + [c])[..|calls|] == calls;
  }

  // The engines that timers and running reconnects can still create.
  function Potential(s: State): nat {
    |s.timers| + CountDestroying(s.calls)
  }

  lemma Removed(xs: set<nat>, x: nat)
    requires x in xs
    ensures |xs - {x}| == |xs| - 1
  {
  }

  lemma PotentialExecute(s: State)
    ensures var t := ExecuteReconnect(s);
      |t.engines| + Potential(t) <= |s.engines| + Potential(s) + 1
  {
    match s.current
    case Some(e) => CountAppend(s.calls, DestroyingOld(e));
    case None => CountAppend(s.calls, Initializing(|s.engines|, ByReconnect));
  }

  lemma PotentialFire(s: State, timer: nat)
    requires timer in s.timers
    ensures var t := Step(s, Fire(timer));
      |t.engines| + Potential(t) <= |s.engines| + Potential(s)
  {
    Removed(s.timers, timer);
    PotentialExecute(s.(timers := s.timers - {timer}));
  }

  lemma PotentialDestroy(s: State, k: nat, ok: bool, jitter: real)
    requires s.reconnect.None? && k < |s.calls| && s.calls[k].DestroyingOld?
    ensures var t := Step(s, DestroySettles(k, ok, jitter));
      |t.engines| + Potential(t) <= |s.engines| + Potential(s)
  {
    CountUpdate(s.calls, k, Done);
    CountAppend(s.calls[k := Done], Initializing(|s.engines|, ByReconnect));
  }

  lemma PotentialStop(s: State)
    requires s.reconnect.None?
    ensures var t := Step(s, Stop);
      |t.engines| + Potential(t) <= |s.engines| + Potential(s)
  {
    var t := Step(s, Stop);
    assert CancelReconnect(s) == s;
    assert t.timers == s.timers && |t.engines| == |s.engines|;
    if s.current.Some? {
      CountAppend(s.calls, ShuttingDown(s.current.value));
      assert t.calls == s.calls + [ShuttingDown(s.current.value)];
    } else {
      assert t == s;
    }
  }

  lemma PotentialStep(s: State, a: Action)
    requires s.reconnect.None? && !a.StartResumes?
    ensures Step(s, a).reconnect.None? && Step(s, a).timers <= s.timers
    ensures |Step(s, a).engines| + Potential(Step(s, a)) <= |s.engines| + Potential(s)
  {
    match a
    case Start => CountAppend(s.calls, StartHook);
    case InitializeSettles(k, ok, _) =>
      if k < |s.calls| && s.calls[k].Initializing? {
        CountUpdate(s.calls, k, if ok then StatusWrite(s.calls[k].caller) else Done);
      }
    case StatusWritten(k, _, _) => if k < |s.calls| { CountUpdate(s.calls, k, Done); }
    case ShutdownSettles(k, _) => if k < |s.calls| { CountUpdate(s.calls, k, Done); }
    case Fire(t) => if t in s.timers { PotentialFire(s, t); }
    case DestroySettles(k, ok, j) => if k < |s.calls| && s.calls[k].DestroyingOld? { PotentialDestroy(s, k, ok, j); }
    case Stop => PotentialStop(s);
    case _ =>
  }

  lemma {:induction false} PotentialRun(s: State, actions: seq<Action>)
    requires s.reconnect.None? && forall k :: 0 <= k < |actions| ==> !actions[k].StartResumes?
    ensures var t := Run(s, actions);
      && t.reconnect.None? && t.timers <= s.timers
      && |t.engines| + Potential(t) <= |s.engines| + Potential(s)
    decreases |actions|
  {
    if actions != [] {
      PotentialStep(s, actions[0]);
      PotentialRun(Step(s, actions[0]), actions[1..]);
    }
  }

  // Between c and t no timer was created, and no more engines than c has timers (all orphaned) and reconnects
  // that destroy an engine.
  predicate NotRevived(c: State, t: State) {
    && t.reconnect.None? && t.timers <= c.timers
    && |t.engines| <= |c.engines| + |c.timers| + CountDestroying(c.calls)
  }

  lemma CancelledRun(c: State, actions: seq<Action>)
    requires c.reconnect.None? && forall k :: 0 <= k < |actions| ==> !actions[k].StartResumes?
    ensures NotRevived(c, Run(c, actions))
  {
    PotentialRun(c, actions);
  }

  // From the moment stop or delete cancels the reconnect until a start stores a new state, whatever
  // else happens: no timer is created, and no more engines are created than timers were left orphaned
  // and reconnects were destroying an engine at that moment.
  lemma AfterCancel(s: State, actions: seq<Action>)
    requires forall k :: 0 <= k < |actions| ==> !actions[k].StartResumes?
    ensures var c := Step(s, Stop);
      NotRevived(c, Run(c, actions)) && c.timers <= s.timers && |c.engines| == |s.engines|
  {
    CancelledRun(Step(s, Stop), actions);
  }

  // ---------- One reconnect at a time ----------

  // In every disciplined run at most one timer runs, it is the one the reconnect state names, and it does
  // not run beside a live engine; at most one executeReconnect is bringing an engine up, and no timer runs
  // beside that; and only the session's own engine is live.
  lemma OneReconnect(actions: seq<Action>)
    requires DisciplinedRun(Initial, actions)
    ensures OnlyReconnect(Run(Initial, actions))
  {
    RunKeeps(Initial, actions);
    TameOne(Run(Initial, actions));
  }

  predicate OnlyReconnect(s: State) {
    && Tidy(s) && |s.timers| <= 1
    && (forall j, k :: 0 <= j < k < |s.calls| ==> !(IsReconnect(s.calls[j]) && IsReconnect(s.calls[k])))
    && (s.timers != {} ==> SpentBut(s, None) && forall k :: 0 <= k < |s.calls| ==> !IsReconnect(s.calls[k]))
    && SpentBut(s, s.current)
  }

  lemma TameOne(s: State)
    requires Tame(s)
    ensures |s.timers| <= 1
    ensures forall j, k :: 0 <= j < k < |s.calls| ==> !(IsReconnect(s.calls[j]) && IsReconnect(s.calls[k]))
    ensures s.timers != {} ==> forall k :: 0 <= k < |s.calls| ==> !IsReconnect(s.calls[k])
  {
    if s.timers != {} {
      var t :| t in s.timers;
      assert s.timers == {t};
    }
    forall j, k | 0 <= j < k < |s.calls| ensures !(IsReconnect(s.calls[j]) && IsReconnect(s.calls[k])) {
      assert Compatible(s.calls[j], s.calls[k]);
    }
    forall k | 0 <= k < |s.calls| && s.timers != {} ensures !IsReconnect(s.calls[k]) {
      assert CallOk(s, s.calls[k]);
    }
  }

  // ---------- A stopped session ----------

  // No call is about to make an engine. (One may be waiting for an engine that is made.)
  predicate MakesNothing(s: State) {
    forall k :: 0 <= k < |s.calls| ==> !s.calls[k].StartHook? && !s.calls[k].DestroyingOld?
  }

  // Nothing is left that could bring the session back.
  predicate Quiet(s: State) {
    s.reconnect.None? && s.timers == {} && SpentBut(s, None) && MakesNothing(s)
  }

  lemma QuietStep(s: State, a: Action)
    requires Quiet(s) && !a.Start?
    ensures Quiet(Step(s, a)) && |Step(s, a).engines| == |s.engines|
    ensures Step(s, a).current.None? || Step(s, a).current == s.current
  {
  }

  lemma {:induction false} QuietRun(s: State, actions: seq<Action>)
    requires Quiet(s) && forall k :: 0 <= k < |actions| ==> !actions[k].Start?
    ensures Quiet(Run(s, actions)) && |Run(s, actions).engines| == |s.engines|
    ensures Run(s, actions).current.None? || Run(s, actions).current == s.current
    decreases |actions|
  {
    if actions != [] {
      QuietStep(s, actions[0]);
      QuietRun(Step(s, actions[0]), actions[1..]);
    }
  }

  predicate NoStarts(actions: seq<Action>) {
    forall k :: 0 <= k < |actions| ==> !actions[k].Start?
  }

  // No timer and no live engine, and no engine made since.
  predicate LeftAlone(s: State, t: State) {
    t.timers == {} && SpentBut(t, None) && |t.engines| == |s.engines|
  }

  // After a disciplined past, a stop or delete leaves no timer and no live engine, and no engine is made, until
  // the next start, whatever else happens (late callbacks, second disconnects and failing writes included),
  // exactly if no start waits for its hook and no executeReconnect for the old engine's destroy when it begins.
  lemma StopLeavesNothing(past: seq<Action>)
    requires DisciplinedRun(Initial, past)
    ensures var s := Run(Initial, past);
      (forall actions | NoStarts(actions) :: LeftAlone(s, Run(Step(s, Stop), actions))) <==> MakesNothing(s)
  {
    var s := Run(Initial, past);
    RunKeeps(Initial, past);
    if MakesNothing(s) {
      StopQuiet(s);
      forall actions | NoStarts(actions) ensures LeftAlone(s, Run(Step(s, Stop), actions)) {
        QuietRun(Step(s, Stop), actions);
      }
    } else {
      var k :| 0 <= k < |s.calls| && (s.calls[k].StartHook? || s.calls[k].DestroyingOld?);
      var a := if s.calls[k].StartHook? then StartResumes(k, 0, 0.0) else DestroySettles(k, true, 0.0);
      MakesOne(s, k, a);
      assert NoStarts([a]) && !LeftAlone(s, Run(Step(s, Stop), [a]));
    }
  }

  lemma MakesOne(s: State, k: nat, a: Action)
    requires k < |s.calls| && (s.calls[k].StartHook? || s.calls[k].DestroyingOld?)
    requires a == if s.calls[k].StartHook? then StartResumes(k, 0, 0.0) else DestroySettles(k, true, 0.0)
    ensures |Run(Step(s, Stop), [a]).engines| == |s.engines| + 1
  {
    var t := Step(s, Stop);
    assert t.calls[k] == s.calls[k] && |t.engines| == |s.engines|;
    assert [a][1..] == [] && Run(t, [a]) == Step(t, a);
  }

  lemma CallsGrow(s: State, a: Action)
    ensures |s.calls| <= |Step(s, a).calls|
  {
  }

  lemma {:induction false} CallsGrowRun(s: State, actions: seq<Action>)
    ensures |s.calls| <= |Run(s, actions).calls|
    decreases |actions|
  {
    if actions != [] {
      CallsGrow(s, actions[0]);
      CallsGrowRun(Step(s, actions[0]), actions[1..]);
    }
  }

  predicate NoneShutDown(actions: seq<Action>) {
    forall k :: 0 <= k < |actions| ==> !(actions[k].ShutdownSettles? && actions[k].ok)
  }

  lemma {:induction false} MapStays(s: State, actions: seq<Action>)
    requires Quiet(s) && NoStarts(actions) && NoneShutDown(actions)
    ensures Run(s, actions).current == s.current
    decreases |actions|
  {
    if actions != [] {
      QuietStep(s, actions[0]);
      MapStays(Step(s, actions[0]), actions[1..]);
    }
  }

  // Such a stop shuts down the engine in the map, if there is one. Once that is answered, the map is empty and stays
  // so; until then, or if it fails, the map keeps the engine that was shut down, and refuses every start.
  lemma StopEmptiesMap(past: seq<Action>, before: seq<Action>, after: seq<Action>)
    requires DisciplinedRun(Initial, past) && MakesNothing(Run(Initial, past))
    requires NoStarts(before) && NoStarts(after)
    ensures var s := Run(Initial, past);
      var u := Step(s, Stop);
      var t := Run(u, before);
      match s.current
      case None => u.calls == s.calls && t.current == None
      case Some(e) =>
        && u.calls == s.calls + [ShuttingDown(e)] && |s.calls| < |t.calls|
        && (t.calls[|s.calls|].ShuttingDown? ==>
              Run(Step(t, ShutdownSettles(|s.calls|, true)), after).current == None)
        && (NoneShutDown(before) ==> t.current == Some(e) && Step(t, Start) == t)
  {
    var s := Run(Initial, past);
    RunKeeps(Initial, past);
    StopQuiet(s);
    var u := Step(s, Stop);
    QuietRun(u, before);
    CallsGrowRun(u, before);
    if NoneShutDown(before) { MapStays(u, before); }
    var t := Run(u, before);
    QuietStep(t, ShutdownSettles(|s.calls|, true));
    QuietRun(Step(t, ShutdownSettles(|s.calls|, true)), after);
  }

  lemma StopQuiet(s: State)
    requires Tame(s) && MakesNothing(s)
    ensures Quiet(Step(s, Stop)) && |Step(s, Stop).engines| == |s.engines| && Step(s, Stop).current == s.current
  {
    assert !Destroying(s);
    StopKeeps(s);
  }
}
