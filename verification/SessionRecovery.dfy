/**
 How a session comes back: when exactly a reconnect is scheduled, and that a session with attempts left is
 never forgotten.
 */
module SessionRecovery {
  import opened Json
  import opened Session
  import opened SessionSafety
  import opened SessionTheorems
  import opened SessionWrites

  // ---------- when a reconnect is scheduled ----------

  // Timers are numbered in the order they are made, and what a call awaits was made.
  predicate Numbered(s: State) {
    && (forall t <- s.timers :: t < s.nextTimer)
    && (forall k :: 0 <= k < |s.calls| && s.calls[k].Initializing? ==> s.calls[k].e < |s.engines|)
  }

  lemma NumberedStep(s: State, a: Action)
    requires Numbered(s)
    ensures Numbered(Step(s, a))
  {
  }

  lemma {:induction false} NumberedRun(s: State, actions: seq<Action>)
    requires Numbered(s)
    ensures Numbered(Run(s, actions))
    decreases |actions|
  {
    if actions != [] {
      NumberedStep(s, actions[0]);
      NumberedRun(Step(s, actions[0]), actions[1..]);
    }
  }

  // An engine reports a disconnect, or a step of executeReconnect fails: the old engine cannot be destroyed, or
  // the new one not be initialized, or the status not be written.
  predicate Setback(s: State, a: Action) {
    match a
    case Disconnected(_, _) => true
    case DestroySettles(k, ok, _) => !ok && k < |s.calls| && s.calls[k].DestroyingOld?
    case InitializeSettles(k, ok, _) =>
      !ok && k < |s.calls| && s.calls[k].Initializing? && s.calls[k].caller == ByReconnect
    case StatusWritten(k, ok, _) => !ok && k < |s.calls| && s.calls[k] == StatusWrite(ByReconnect)
    case _ => false
  }

  predicate AttemptsLeft(s: State) {
    s.reconnect.Some? && s.reconnect.value.attempts < s.reconnect.value.maxAttempts
  }

  // One timer was added. The reconnect state names it, and counts one attempt more under the same limits; the
  // delay is the base delay doubled once per attempt before, and the jitter.
  predicate OneMore(s: State, t: State, jitter: real)
    requires s.reconnect.Some?
  {
    var r := s.reconnect.value;
    && t.reconnect.Some? && t.reconnect.value.timer.Some?
    && var timer := t.reconnect.value.timer.value;
    && timer !in s.timers && t.timers == s.timers + {timer}
    && t.reconnect.value.attempts == r.attempts + 1
    && t.reconnect.value.maxAttempts == r.maxAttempts && t.reconnect.value.baseDelay == r.baseDelay
    && |t.waits| == |s.waits| + 1 && t.waits[..|s.waits|] == s.waits
    && t.waits[|s.waits|] - jitter == Doubled(r.baseDelay, r.attempts)
  }

  function Jitter(a: Action): real {
    match a
    case Disconnected(_, j) => j
    case DestroySettles(_, _, j) => j
    case InitializeSettles(_, _, j) => j
    case StatusWritten(_, _, j) => j
    case _ => 0.0
  }

  // In any run at all, a reconnect is scheduled exactly at a setback while attempts are left. Otherwise no timer is
  // added, and only a fired timer, or the one that a stop finds in the state, goes.
  lemma SchedulesExactly(past: seq<Action>, a: Action)
    ensures var s := Run(Initial, past);
      var t := Step(s, a);
      if Setback(s, a) && AttemptsLeft(s) then OneMore(s, t, Jitter(a))
      else
        && (forall timer :: timer in t.timers <==>
              && timer in s.timers && a != Fire(timer)
              && !(a == Stop && s.reconnect.Some? && s.reconnect.value.timer == Some(timer)))
        && (!a.StartResumes? && !a.Stop? && !a.Ready? ==> t.reconnect == s.reconnect && t.waits == s.waits)
  {
    NumberedRun(Initial, past);
    var s := Run(Initial, past);
    if Setback(s, a) && AttemptsLeft(s) {
      DelayIs(s.reconnect.value, Jitter(a));
    }
  }

  lemma DelayIs(r: Reconnect, jitter: real)
    ensures Delay(r, jitter) - jitter == Doubled(r.baseDelay, r.attempts)
  {
    DoubledIsPower(r.baseDelay, r.attempts);
  }

  // The other actions that touch the reconnect state: a start makes a new one with its own limits, for an engine of
  // its own; a ready event gives all attempts back; a stop removes it.
  lemma ResetsExactly(s: State, a: Action)
    ensures var t := Step(s, a);
      match a
      case StartResumes(k, maxAttempts, baseDelay) =>
        if k < |s.calls| && s.calls[k] == StartHook then
          && t.reconnect == Some(Reconnect(0, None, maxAttempts, baseDelay)) && t.waits == []
          && t.current == Some(|s.engines|) && |t.engines| == |s.engines| + 1 && t.engines[|s.engines|] == Opening
          && |t.calls| == |s.calls| + 1 && t.calls[k] == Done
          && t.calls[|s.calls|] == Initializing(|s.engines|, ByStart)
        else t == s
      case Ready =>
        && (s.reconnect.None? ==> t == s)
        && (s.reconnect.Some? ==>
              && t.reconnect.Some? && t.reconnect.value.attempts == 0 && t.waits == []
              && t.reconnect.value.(attempts := s.reconnect.value.attempts) == s.reconnect.value)
        && t.current == s.current && t.engines == s.engines && t.calls == s.calls
      case Stop => t.reconnect == None && t.waits == s.waits
      case Start => if s.current == None then t.calls == s.calls + [StartHook] else t == s
      case _ => true
  {
  }

  // The limits of the last start in a run that came past its hook; `limits` are those before.
  function LastLimits(s: State, actions: seq<Action>, limits: Option<(int, real)>): Option<(int, real)>
    decreases |actions|
  {
    if actions == [] then limits
    else
      LastLimits(Step(s, actions[0]), actions[1..],
        match actions[0]
        case StartResumes(k, maxAttempts, baseDelay) =>
          if k < |s.calls| && s.calls[k] == StartHook then Some((maxAttempts, baseDelay)) else limits
        case _ => limits)
  }

  lemma {:induction false} LimitsRun(s: State, actions: seq<Action>, limits: Option<(int, real)>)
    requires s.reconnect.Some? ==> limits == Some((s.reconnect.value.maxAttempts, s.reconnect.value.baseDelay))
    ensures var r := Run(s, actions).reconnect;
      r.Some? ==> LastLimits(s, actions, limits) == Some((r.value.maxAttempts, r.value.baseDelay))
    decreases |actions|
  {
    if actions != [] {
      ResetsExactly(s, actions[0]);
      LimitsRun(Step(s, actions[0]), actions[1..],
        match actions[0]
        case StartResumes(k, maxAttempts, baseDelay) =>
          if k < |s.calls| && s.calls[k] == StartHook then Some((maxAttempts, baseDelay)) else limits
        case _ => limits);
    }
  }

  // So the limits by which a session backs off are those of the last start that came past its hook, whatever
  // reconnects, ready events and stops happened since.
  lemma LimitsOfLastStart(actions: seq<Action>)
    ensures var r := Run(Initial, actions).reconnect;
      r.Some? ==> LastLimits(Initial, actions, None) == Some((r.value.maxAttempts, r.value.baseDelay))
  {
    LimitsRun(Initial, actions, None);
  }

  // ---------- no session is forgotten ----------

  // Attempts are left, but neither a timer, nor a live engine, nor a reconnect is there to bring the session back.
  predicate Forgotten(s: State) {
    AttemptsLeft(s) && Idle(s)
  }

  // What makes a session forgotten: the rejected initialize of a start, which nobody repeats; an initialize that
  // resolves for a reconnect whose engine was shut down meanwhile; and a ready event after the last attempt.
  predicate Forgets(s: State, a: Action) {
    match a
    case InitializeSettles(k, ok, _) =>
      && k < |s.calls| && s.calls[k].Initializing? && s.calls[k].e < |s.engines| && AttemptsLeft(s)
      && (if ok then s.engines[s.calls[k].e].Spent? else s.calls[k].caller == ByStart)
      && Idle(s.(calls := s.calls[k := Done], engines := s.engines[s.calls[k].e := Spent]))
    case Ready => s.reconnect.Some? && s.reconnect.value.maxAttempts > 0 && Idle(s)
    case _ => false
  }

  // Whatever brings a session back keeps it from being idle.
  lemma Busy(s: State)
    ensures s.timers != {} ==> !Idle(s)
    ensures forall e :: 0 <= e < |s.engines| && !s.engines[e].Spent? ==> !Idle(s)
    ensures forall k :: 0 <= k < |s.calls| && IsReconnect(s.calls[k]) ==> !Idle(s)
  {
  }

  lemma SameIdle(s: State, t: State)
    requires s.timers == t.timers && s.engines == t.engines && |s.calls| <= |t.calls|
    requires forall k :: 0 <= k < |s.calls| ==> IsReconnect(s.calls[k]) == IsReconnect(t.calls[k])
    requires forall k :: |s.calls| <= k < |t.calls| ==> !IsReconnect(t.calls[k])
    ensures Idle(s) <==> Idle(t)
  {
  }

  lemma ForgetsInitialize(s: State, k: nat, ok: bool, jitter: real)
    requires !Forgotten(s)
    ensures Forgotten(Step(s, InitializeSettles(k, ok, jitter))) <==> Forgets(s, InitializeSettles(k, ok, jitter))
  {
    var t := Step(s, InitializeSettles(k, ok, jitter));
    if k < |s.calls| && s.calls[k].Initializing? && s.calls[k].e < |s.engines| && AttemptsLeft(s) {
      var e := s.calls[k].e;
      var settled := s.(calls := s.calls[k := Done], engines := s.engines[e := Spent]);
      Busy(t);
      if ok {
        if s.engines[e].Spent? { SameIdle(settled, t); } else { assert !t.engines[e].Spent?; }
      } else if s.calls[k].caller == ByReconnect {
        assert s.nextTimer in t.timers;
      } else {
        assert t == settled;
      }
    }
  }

  lemma ForgetsStep(s: State, a: Action)
    requires !Forgotten(s)
    ensures Forgotten(Step(s, a)) <==> Forgets(s, a)
  {
    var t := Step(s, a);
    Busy(t);
    match a
    case InitializeSettles(k, ok, j) => ForgetsInitialize(s, k, ok, j);
    case Start => SameIdle(s, t);
    case StartResumes(k, m, b) => if t != s { assert t.engines[|s.engines|].Opening?; }
    case Fire(timer) =>
      if timer in s.timers {
        if s.current.Some? { assert IsReconnect(t.calls[|s.calls|]); } else { assert t.engines[|s.engines|].Opening?; }
      }
    case DestroySettles(k, ok, j) =>
      if k < |s.calls| && s.calls[k].DestroyingOld? && AttemptsLeft(s) {
        if ok { assert t.engines[|s.engines|].Opening?; } else { assert s.nextTimer in t.timers; }
      }
    case StatusWritten(k, ok, j) =>
      if k < |s.calls| && s.calls[k].StatusWrite? && AttemptsLeft(s) {
        if ok || s.calls[k].caller == ByStart { SameIdle(s, t); } else { assert s.nextTimer in t.timers; }
      }
    case Disconnected(e, j) => if AttemptsLeft(s) { assert s.nextTimer in t.timers; }
    case ShutdownSettles(k, ok) =>
      if k < |s.calls| && s.calls[k].ShuttingDown? { SameIdle(s, t); }
    case _ =>
  }

  predicate EverForgotten(s: State, actions: seq<Action>)
    decreases |actions|
  {
    Forgotten(s) || (actions != [] && EverForgotten(Step(s, actions[0]), actions[1..]))
  }

  predicate EverForgets(s: State, actions: seq<Action>)
    decreases |actions|
  {
    actions != [] && (Forgets(s, actions[0]) || EverForgets(Step(s, actions[0]), actions[1..]))
  }

  // In any run at all, a session is forgotten at some point exactly if at some point one of these things happens.
  lemma {:induction false} ForgottenExactly(s: State, actions: seq<Action>)
    ensures EverForgotten(s, actions) <==> Forgotten(s) || EverForgets(s, actions)
    decreases |actions|
  {
    if actions != [] && !Forgotten(s) {
      ForgetsStep(s, actions[0]);
      ForgottenExactly(Step(s, actions[0]), actions[1..]);
    }
  }

  // No start's initialize is rejected, and only while an engine is there does an engine report that it is ready.
  predicate Benign(s: State, a: Action) {
    match a
    case InitializeSettles(k, ok, _) =>
      ok || !(k < |s.calls| && s.calls[k].Initializing? && s.calls[k].caller == ByStart)
    case Ready => exists e :: 0 <= e < |s.engines| && !s.engines[e].Spent?
    case _ => true
  }

  predicate BenignRun(s: State, actions: seq<Action>)
    decreases |actions|
  {
    actions != [] ==> Benign(s, actions[0]) && BenignRun(Step(s, actions[0]), actions[1..])
  }

  // An engine that a reconnect awaits is opening, or the session was stopped.
  predicate OwnEngines(s: State) {
    s.reconnect.Some? ==>
      forall k :: 0 <= k < |s.calls| && s.calls[k].Initializing? && s.calls[k].caller == ByReconnect ==>
        s.calls[k].e < |s.engines| && s.engines[s.calls[k].e].Opening?
  }

  lemma OwnEnginesStep(s: State, a: Action)
    requires Tame(s) && OwnEngines(s) && Disciplined(s, a)
    ensures OwnEngines(Step(s, a))
  {
  }

  lemma BenignRemembers(s: State, a: Action)
    requires OwnEngines(s) && !Forgotten(s) && Benign(s, a)
    ensures !Forgets(s, a)
  {
    if a.InitializeSettles? && Forgets(s, a) {
      var e := s.calls[a.k].e;
      SameIdle(s, s.(calls := s.calls[a.k := Done], engines := s.engines[e := Spent]));
    }
  }

  // So in a disciplined run without those events, a session is never forgotten: while attempts are left, a timer
  // runs, or an engine is live, or a reconnect is under way.
  lemma {:induction false} NeverForgotten(s: State, actions: seq<Action>)
    requires Tame(s) && OwnEngines(s) && !Forgotten(s)
    requires DisciplinedRun(s, actions) && BenignRun(s, actions)
    ensures !Forgotten(Run(s, actions))
    decreases |actions|
  {
    if actions != [] {
      StepKeeps(s, actions[0]);
      OwnEnginesStep(s, actions[0]);
      ForgetsStep(s, actions[0]);
      BenignRemembers(s, actions[0]);
      NeverForgotten(Step(s, actions[0]), actions[1..]);
    }
  }

  lemma NothingForgotten(actions: seq<Action>)
    requires DisciplinedRun(Initial, actions) && BenignRun(Initial, actions)
    ensures AttemptsLeft(Run(Initial, actions)) ==> !Idle(Run(Initial, actions))
  {
    NeverForgotten(Initial, actions);
  }

  // The run that forgets a session at once: the initialize of its first start is rejected. The engine map keeps the
  // engine, so that every other start is refused, until a stop.
  lemma RejectedStart(maxAttempts: int, baseDelay: real)
    requires maxAttempts > 0
    ensures var s := Run(Initial, [Start, StartResumes(0, maxAttempts, baseDelay), InitializeSettles(1, false, 0.0)]);
      Forgotten(s) && Step(s, Start) == s
  {
    var resumes, settles := StartResumes(0, maxAttempts, baseDelay), InitializeSettles(1, false, 0.0);
    var s1 := Step(Initial, Start);
    var s2 := Step(s1, resumes);
    assert s2.calls == [Done, Initializing(0, ByStart)] && s2.engines == [Opening];
    var s3 := Step(s2, settles);
    assert s3.calls == [Done, Done] && s3.engines == [Spent];
    assert [settles][1..] == [] && Run(s2, [settles]) == s3;
    assert [resumes, settles][1..] == [settles] && Run(s1, [resumes, settles]) == s3;
    assert [Start, resumes, settles][1..] == [resumes, settles];
  }
}
