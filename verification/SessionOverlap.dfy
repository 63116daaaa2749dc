/**
 When two executeReconnects of a session run at once, and runs that reach the states in which the
 discipline of SessionSafety matters.
 */
module SessionOverlap {
  import opened Json
  import opened Session
  import opened SessionSafety
  import opened SessionRaces
  import opened SessionWrites

  // A call of executeReconnect, wherever it is suspended.
  predicate Executing(c: Call) {
    IsReconnect(c) || c == StatusWrite(ByReconnect)
  }

  predicate Overlap(s: State) {
    exists j, k :: 0 <= j < k < |s.calls| && Executing(s.calls[j]) && Executing(s.calls[k])
  }

  // A timer fires beside a running executeReconnect.
  predicate FiresBeside(s: State, a: Action) {
    a.Fire? && a.timer in s.timers && exists k :: 0 <= k < |s.calls| && Executing(s.calls[k])
  }

  predicate EverOverlaps(s: State, actions: seq<Action>)
    decreases |actions|
  {
    Overlap(s) || (actions != [] && EverOverlaps(Step(s, actions[0]), actions[1..]))
  }

  predicate EverFiresBeside(s: State, actions: seq<Action>)
    decreases |actions|
  {
    actions != [] && (FiresBeside(s, actions[0]) || EverFiresBeside(Step(s, actions[0]), actions[1..]))
  }

  lemma FireOverlaps(s: State, a: Action)
    requires FiresBeside(s, a)
    ensures Overlap(Step(s, a))
  {
    var k :| 0 <= k < |s.calls| && Executing(s.calls[k]);
    var t := Step(s, a);
    assert t.calls[k] == s.calls[k] && Executing(t.calls[|s.calls|]);
  }

  // An action that is no timer keeps calls where they are, but for the one it resumes; and what it adds, it
  // adds in the place of that one.
  lemma NoNewExecution(s: State, a: Action, j: nat) returns (i: nat)
    requires j < |Step(s, a).calls| && Executing(Step(s, a).calls[j]) && !a.Fire?
    ensures i < |s.calls| && Executing(s.calls[i])
    ensures i == j || (j == |s.calls| && a == DestroySettles(i, true, a.jitter) && !Executing(Step(s, a).calls[i]))
  {
    i := if j < |s.calls| then j else a.k;
  }

  lemma OverlapStep(s: State, a: Action)
    ensures Overlap(Step(s, a)) ==> Overlap(s) || FiresBeside(s, a)
  {
    var t := Step(s, a);
    if Overlap(t) {
      var j, k :| 0 <= j < k < |t.calls| && Executing(t.calls[j]) && Executing(t.calls[k]);
      if a.Fire? {
        FireKeepsCalls(s, a.timer);
        assert Executing(s.calls[j]);
        if a.timer !in s.timers { assert Executing(s.calls[k]); }
      } else {
        var i := NoNewExecution(s, a, j);
        var l := NoNewExecution(s, a, k);
        assert i == j && l != i;
      }
    }
  }

  lemma FireKeepsCalls(s: State, timer: nat)
    ensures var t := Step(s, Fire(timer));
      |t.calls| == |s.calls| + (if timer in s.timers then 1 else 0) && s.calls <= t.calls
  {
  }

  // In any run at all: two executeReconnects run at once at some point exactly if at some point a timer
  // fires beside a running one.
  lemma {:induction false} OverlapsExactly(s: State, actions: seq<Action>)
    ensures EverOverlaps(s, actions) <==> Overlap(s) || EverFiresBeside(s, actions)
    decreases |actions|
  {
    if actions != [] {
      OverlapStep(s, actions[0]);
      if FiresBeside(s, actions[0]) { FireOverlaps(s, actions[0]); }
      OverlapsExactly(Step(s, actions[0]), actions[1..]);
    }
  }

  // In a disciplined run, a timer that fires makes two run at once exactly if a reconnect that has brought its
  // engine up still awaits its status write.
  lemma ReconnectsOverlap(before: seq<Action>, timer: nat)
    requires DisciplinedRun(Initial, before) && timer in Run(Initial, before).timers
    ensures var s := Run(Initial, before);
      Overlap(Step(s, Fire(timer))) <==> exists k :: 0 <= k < |s.calls| && s.calls[k] == StatusWrite(ByReconnect)
  {
    var s := Run(Initial, before);
    RunKeeps(Initial, before);
    forall k | 0 <= k < |s.calls| ensures !IsReconnect(s.calls[k]) {
      assert CallOk(s, s.calls[k]);
    }
    OverlapStep(s, Fire(timer));
    if exists k :: 0 <= k < |s.calls| && s.calls[k] == StatusWrite(ByReconnect) {
      var k :| 0 <= k < |s.calls| && s.calls[k] == StatusWrite(ByReconnect);
      assert Executing(s.calls[k]);
      FireOverlaps(s, Fire(timer));
    }
  }

  // ---------- Runs ----------

  lemma {:induction false} DisciplinedAppend(s: State, actions: seq<Action>, a: Action)
    requires DisciplinedRun(s, actions) && Disciplined(Run(s, actions), a)
    ensures DisciplinedRun(s, actions + [a]) && Run(s, actions + [a]) == Step(Run(s, actions), a)
    decreases |actions|
  {
    if actions == [] {
      assert actions + [a] == [a] && [a][1..] == [];
    } else {
      assert (actions + [a])[1..] == actions[1..] + [a];
      DisciplinedAppend(Step(s, actions[0]), actions[1..], a);
    }
  }

  // A start that waits for its hook: another one would not be safe.
  lemma StartAwaitsHook() returns (actions: seq<Action>)
    ensures DisciplinedRun(Initial, actions)
    ensures var s := Run(Initial, actions); s.current.None? && InFlight(s) && CanDouble(Step(s, Start))
  {
    actions := [] + [Start];
    DisciplinedAppend(Initial, [], Start);
    assert Run(Initial, actions).calls == [StartHook];
    assert Run(Initial, actions).calls[0].StartHook?;
    StartSafe(actions);
  }

  lemma ComesUpFirst() returns (actions: seq<Action>)
    ensures DisciplinedRun(Initial, actions)
    ensures Run(Initial, actions)
      == State(Some(0), Some(Reconnect(0, None, 5, 1.0)), {}, 0, [Up], [Done, StatusWrite(ByStart)], [])
  {
    var hook := [] + [Start];
    DisciplinedAppend(Initial, [], Start);
    assert Run(Initial, hook) == State(None, None, {}, 0, [], [StartHook], []);
    var opening := hook + [StartResumes(0, 5, 1.0)];
    DisciplinedAppend(Initial, hook, StartResumes(0, 5, 1.0));
    assert Run(Initial, opening)
      == State(Some(0), Some(Reconnect(0, None, 5, 1.0)), {}, 0, [Opening], [Done, Initializing(0, ByStart)], []);
    actions := opening + [InitializeSettles(1, true, 0.0)];
    DisciplinedAppend(Initial, opening, InitializeSettles(1, true, 0.0));
  }

  // A session that came up, and whose engine reported a disconnect: a second report would not be safe.
  lemma Disconnects() returns (actions: seq<Action>)
    ensures DisciplinedRun(Initial, actions)
    ensures Run(Initial, actions)
      == State(Some(0), Some(Reconnect(1, Some(0), 5, 1.0)), {0}, 1, [Spent], [Done, StatusWrite(ByStart)], [1.0])
    ensures CanDouble(Step(Run(Initial, actions), Disconnected(0, 0.0)))
  {
    var before := ComesUpFirst();
    actions := before + [Disconnected(0, 0.0)];
    DisciplinedAppend(Initial, before, Disconnected(0, 0.0));
    DisconnectSafe(actions, 0, 0.0);
  }

  // Its timer fires: a stop would not be safe.
  lemma Destroys() returns (actions: seq<Action>)
    ensures DisciplinedRun(Initial, actions)
    ensures Run(Initial, actions)
      == State(Some(0), Some(Reconnect(1, Some(0), 5, 1.0)), {}, 1, [Spent],
               [Done, StatusWrite(ByStart), DestroyingOld(0)], [1.0])
    ensures CanDouble(Step(Run(Initial, actions), Stop))
  {
    var before := Disconnects();
    actions := before + [Fire(0)];
    DisciplinedAppend(Initial, before, Fire(0));
    assert Run(Initial, actions).calls[2].DestroyingOld?;
    StopSafe(actions);
  }

  // The new engine comes up: a failing status write would not be safe.
  lemma ComesUp() returns (actions: seq<Action>)
    ensures DisciplinedRun(Initial, actions)
    ensures Run(Initial, actions)
      == State(Some(1), Some(Reconnect(1, Some(0), 5, 1.0)), {}, 1, [Spent, Up],
               [Done, StatusWrite(ByStart), Done, StatusWrite(ByReconnect)], [1.0])
    ensures CanDouble(Step(Run(Initial, actions), StatusWritten(3, false, 0.0)))
  {
    var before := Destroys();
    var made := before + [DestroySettles(2, true, 0.0)];
    DisciplinedAppend(Initial, before, DestroySettles(2, true, 0.0));
    assert Run(Initial, made)
      == State(Some(1), Some(Reconnect(1, Some(0), 5, 1.0)), {}, 1, [Spent, Opening],
               [Done, StatusWrite(ByStart), Done, Initializing(1, ByReconnect)], [1.0]);
    actions := made + [InitializeSettles(3, true, 0.0)];
    DisciplinedAppend(Initial, made, InitializeSettles(3, true, 0.0));
    StatusSafe(actions, 3, 0.0);
  }

  // That engine disconnects and its timer fires before the status is written: although the run is disciplined,
  // two executeReconnects run at once.
  lemma TwoReconnects() returns (actions: seq<Action>)
    ensures DisciplinedRun(Initial, actions)
    ensures var s := Run(Initial, actions);
      && Overlap(s) && |s.calls| == 5
      && s.calls[3] == StatusWrite(ByReconnect) && s.calls[4] == DestroyingOld(1)
  {
    var before := ComesUp();
    var down := before + [Disconnected(1, 0.0)];
    DisciplinedAppend(Initial, before, Disconnected(1, 0.0));
    actions := down + [Fire(1)];
    DisciplinedAppend(Initial, down, Fire(1));
    assert Executing(Run(Initial, actions).calls[3]) && Executing(Run(Initial, actions).calls[4]);
  }
}
