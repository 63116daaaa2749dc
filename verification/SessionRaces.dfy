/**
 Why the discipline of SessionSafety is what it is: at the moments it forbids, a start or a stop can
 end in two timers at once, although everything that follows keeps to the discipline.
 */
module SessionRaces {
  import opened Session
  import opened SessionSafety
  import opened SessionTheorems

  // Some disciplined continuation ends with two timers running.
  ghost predicate CanDouble(s: State) {
    exists actions :: DisciplinedRun(s, actions) && |Run(s, actions).timers| > 1
  }

  lemma Back(s: State, a: Action)
    requires Disciplined(s, a) && CanDouble(Step(s, a))
    ensures CanDouble(s)
  {
    var actions :| DisciplinedRun(Step(s, a), actions) && |Run(Step(s, a), actions).timers| > 1;
    var all := [a] + actions;
    assert all[1..] == actions;
    assert DisciplinedRun(s, all) && Run(s, all) == Run(Step(s, a), actions);
  }

  lemma Two(s: State, t: nat, u: nat)
    requires t in s.timers && u in s.timers && t != u
    ensures CanDouble(s)
  {
    Removed(s.timers, t);
    assert u in s.timers - {t};
    assert DisciplinedRun(s, []) && Run(s, []) == s;
  }

  // A timer that is scheduled beside another one that runs: the one that was there is orphaned.
  lemma OrphanedTimer(before: seq<Action>, jitter: real)
    requires DisciplinedRun(Initial, before)
    ensures var s := Run(Initial, before);
      |ScheduleReconnect(s, jitter).timers| > 1
      <==> s.timers != {} && s.reconnect.Some? && s.reconnect.value.attempts < s.reconnect.value.maxAttempts
  {
    RunKeeps(Initial, before);
    var s := Run(Initial, before);
    var t := ScheduleReconnect(s, jitter);
    TameOne(s);
    if s.timers != {} && t != s {
      Removed(t.timers, s.nextTimer);
      assert t.timers - {s.nextTimer} == s.timers;
    } else if t != s {
      assert t.timers == {s.nextTimer};
    }
  }

  // Two engines that are up, and attempts left for both.
  lemma TwoUp(s: State, e: nat, f: nat)
    requires s.reconnect.Some? && s.reconnect.value.attempts + 2 <= s.reconnect.value.maxAttempts
    requires e < |s.engines| && f < |s.engines| && e != f && s.engines[e].Up? && s.engines[f].Up?
    ensures CanDouble(s)
  {
    var s1 := Step(s, Disconnected(e, 0.0));
    var s2 := Step(s1, Disconnected(f, 0.0));
    Two(s2, s.nextTimer, s.nextTimer + 1);
    Back(s1, Disconnected(f, 0.0));
    Back(s, Disconnected(e, 0.0));
  }

  // An engine that is up but forgotten by the engine map: a start is let through beside it.
  lemma Leaked(s: State, e: nat)
    requires s.current.None? && !InFlight(s) && e < |s.engines| && s.engines[e].Up?
    ensures CanDouble(s)
  {
    var n, f := |s.calls|, |s.engines|;
    var s1 := Step(s, Start);
    var s2 := Step(s1, StartResumes(n, 2, 0.0));
    assert s2.calls[n + 1] == Initializing(f, ByStart);
    var s3 := Step(s2, InitializeSettles(n + 1, true, 0.0));
    TwoUp(s3, e, f);
    Back(s2, InitializeSettles(n + 1, true, 0.0));
    Back(s1, StartResumes(n, 2, 0.0));
    Back(s, Start);
  }

  // ---------- Start ----------

  lemma StartBesideReconnect(s: State, k: nat)
    requires Tame(s) && s.current.None? && k < |s.calls| && IsReconnect(s.calls[k])
    ensures CanDouble(Step(s, Start))
  {
    assert CallOk(s, s.calls[k]);
    var n, f := |s.calls|, |s.engines|;
    var s1 := Step(s, Start);
    var s2 := Step(s1, StartResumes(n, 2, 0.0));
    assert s2.calls[n + 1] == Initializing(f, ByStart) && s2.calls[k] == s.calls[k];
    var s3 := Step(s2, InitializeSettles(k, false, 0.0));
    assert s3.calls[n + 1] == Initializing(f, ByStart) && s3.engines[f].Opening?;
    var s4 := Step(s3, InitializeSettles(n + 1, true, 0.0));
    var s5 := Step(s4, Disconnected(f, 0.0));
    Two(s5, s.nextTimer, s.nextTimer + 1);
    Back(s4, Disconnected(f, 0.0));
    Back(s3, InitializeSettles(n + 1, true, 0.0));
    Back(s2, InitializeSettles(k, false, 0.0));
    Back(s1, StartResumes(n, 2, 0.0));
  }

  lemma StartBesideStart(s: State, k: nat)
    requires s.current.None? && k < |s.calls| && s.calls[k].StartHook?
    ensures CanDouble(Step(s, Start))
  {
    var n, e := |s.calls|, |s.engines|;
    var s1 := Step(s, Start);
    var s2 := Step(s1, StartResumes(k, 2, 0.0));
    assert s2.calls[n] == StartHook && s2.calls[n + 1] == Initializing(e, ByStart);
    var s3 := Step(s2, StartResumes(n, 2, 0.0));
    assert s3.calls[n + 1] == Initializing(e, ByStart) && s3.calls[n + 2] == Initializing(e + 1, ByStart);
    var s4 := Step(s3, InitializeSettles(n + 1, true, 0.0));
    assert s4.calls[n + 2] == Initializing(e + 1, ByStart);
    var s5 := Step(s4, InitializeSettles(n + 2, true, 0.0));
    TwoUp(s5, e, e + 1);
    Back(s4, InitializeSettles(n + 2, true, 0.0));
    Back(s3, InitializeSettles(n + 1, true, 0.0));
    Back(s2, StartResumes(n, 2, 0.0));
    Back(s1, StartResumes(k, 2, 0.0));
  }

  // Shutdowns that are answered late take the new engine out of the engine map.
  lemma LateShutdowns(s: State, i: nat, m: nat, w: nat)
    requires m <= |s.calls| && i < |s.calls| && s.calls[i].Initializing? && s.calls[i].caller.ByStart?
    requires s.calls[i].e < |s.engines| && s.engines[s.calls[i].e].Opening?
    requires forall j :: 0 <= j < |s.calls| ==>
      !s.calls[j].StartHook? && !IsReconnect(s.calls[j]) && (s.calls[j].ShuttingDown? ==> m <= j)
    requires s.current.None? || (m <= w < |s.calls| && s.calls[w].ShuttingDown?)
    ensures CanDouble(s)
    decreases |s.calls| - m
  {
    if m == |s.calls| {
      var s1 := Step(s, InitializeSettles(i, true, 0.0));
      assert !InFlight(s1);
      Leaked(s1, s.calls[i].e);
      Back(s, InitializeSettles(i, true, 0.0));
    } else {
      LateShutdowns(Step(s, ShutdownSettles(m, true)), i, m + 1, w);
      Back(s, ShutdownSettles(m, true));
    }
  }

  lemma StartBesideStop(s: State, k: nat)
    requires Tame(s) && s.current.None? && k < |s.calls| && s.calls[k].ShuttingDown?
    requires forall j :: 0 <= j < |s.calls| ==> !s.calls[j].StartHook? && !IsReconnect(s.calls[j])
    ensures CanDouble(Step(s, Start))
  {
    var n, f := |s.calls|, |s.engines|;
    var s1 := Step(s, Start);
    var s2 := Step(s1, StartResumes(n, 2, 0.0));
    assert s2.calls[n + 1] == Initializing(f, ByStart) && s2.calls[k] == s.calls[k];
    LateShutdowns(s2, n + 1, 0, k);
    Back(s1, StartResumes(n, 2, 0.0));
  }

  // A start that the engine map lets through is safe, whatever disciplined things follow, exactly if no
  // other start, stop, delete or executeReconnect of the session is in flight when it begins.
  lemma StartSafe(before: seq<Action>)
    requires DisciplinedRun(Initial, before) && Run(Initial, before).current.None?
    ensures !CanDouble(Step(Run(Initial, before), Start)) <==> !InFlight(Run(Initial, before))
  {
    var s := Run(Initial, before);
    RunKeeps(Initial, before);
    if !InFlight(s) {
      StepKeeps(s, Start);
      TameNeverDoubles(Step(s, Start));
    } else if exists k :: 0 <= k < |s.calls| && IsReconnect(s.calls[k]) {
      var k :| 0 <= k < |s.calls| && IsReconnect(s.calls[k]);
      StartBesideReconnect(s, k);
    } else if exists k :: 0 <= k < |s.calls| && s.calls[k].StartHook? {
      var k :| 0 <= k < |s.calls| && s.calls[k].StartHook?;
      StartBesideStart(s, k);
    } else {
      var k :| 0 <= k < |s.calls| && s.calls[k].ShuttingDown?;
      StartBesideStop(s, k);
    }
  }

  lemma TameNeverDoubles(s: State)
    requires Tame(s)
    ensures !CanDouble(s)
  {
    forall actions | DisciplinedRun(s, actions) ensures |Run(s, actions).timers| <= 1 {
      RunKeeps(s, actions);
      TameOne(Run(s, actions));
    }
  }

  // ---------- Stop and delete ----------

  lemma StopBesideDestroy(s: State, k: nat)
    requires Tame(s) && k < |s.calls| && s.calls[k].DestroyingOld?
    ensures CanDouble(Step(s, Stop))
  {
    assert CallOk(s, s.calls[k]);
    var n, f := |s.calls|, |s.engines|;
    var s1 := Step(s, Stop);
    assert s1.calls[n].ShuttingDown? && s1.calls[k] == s.calls[k];
    var s2 := Step(s1, DestroySettles(k, true, 0.0));
    assert s2.calls[n].ShuttingDown? && s2.calls[n + 1] == Initializing(f, ByReconnect);
    var s3 := Step(s2, ShutdownSettles(n, true));
    assert s3.calls[n + 1] == Initializing(f, ByReconnect) && s3.engines[f].Opening?;
    var s4 := Step(s3, InitializeSettles(n + 1, true, 0.0));
    forall j | 0 <= j < |s4.calls|
      ensures !s4.calls[j].StartHook? && !s4.calls[j].ShuttingDown? && !IsReconnect(s4.calls[j])
    {
      if j < n && j != k {
        assert Compatible(s.calls[if j < k then j else k], s.calls[if j < k then k else j]);
        assert s4.calls[j] == s.calls[j];
      }
    }
    Leaked(s4, f);
    Back(s3, InitializeSettles(n + 1, true, 0.0));
    Back(s2, ShutdownSettles(n, true));
    Back(s1, DestroySettles(k, true, 0.0));
  }

  // A stop or delete is safe, whatever disciplined things follow, exactly if no executeReconnect is
  // waiting for the old engine's destroy when it begins.
  lemma StopSafe(before: seq<Action>)
    requires DisciplinedRun(Initial, before)
    ensures !CanDouble(Step(Run(Initial, before), Stop)) <==> !Destroying(Run(Initial, before))
  {
    var s := Run(Initial, before);
    RunKeeps(Initial, before);
    if Destroying(s) {
      var k :| 0 <= k < |s.calls| && s.calls[k].DestroyingOld?;
      StopBesideDestroy(s, k);
    } else {
      StepKeeps(s, Stop);
      TameNeverDoubles(Step(s, Stop));
    }
  }
}
