/**
 The other two clauses of the discipline of SessionSafety. A reconnect whose engine came up, but whose
 status write then fails, schedules another reconnect; and so does every disconnect that an engine reports.
 */
module SessionWrites {
  import opened Json
  import opened Session
  import opened SessionSafety
  import opened SessionRaces

  // An engine that is opening is awaited by some call.
  ghost predicate Awaited(s: State) {
    forall e :: 0 <= e < |s.engines| && s.engines[e].Opening? ==> HasOpener(s, e)
  }

  ghost predicate HasOpener(s: State, e: nat) {
    exists k :: Opener(s, e, k)
  }

  predicate Opener(s: State, e: nat, k: int) {
    0 <= k < |s.calls| && s.calls[k].Initializing? && s.calls[k].e == e
  }

  // Engines stop opening and calls that await none come and go.
  lemma AwaitedStays(s: State, t: State)
    requires Awaited(s) && |t.engines| == |s.engines| && |s.calls| <= |t.calls|
    requires forall e :: 0 <= e < |s.engines| && t.engines[e].Opening? ==> s.engines[e].Opening?
    requires forall k :: 0 <= k < |s.calls| && s.calls[k].Initializing? ==>
      t.calls[k] == s.calls[k] || (s.calls[k].e < |s.engines| && !t.engines[s.calls[k].e].Opening?)
    ensures Awaited(t)
  {
    forall e | 0 <= e < |t.engines| && t.engines[e].Opening? ensures HasOpener(t, e) {
      assert HasOpener(s, e);
      var k :| Opener(s, e, k);
      assert Opener(t, e, k);
    }
  }

  lemma AwaitedCreate(s: State, caller: Caller)
    requires Awaited(s)
    ensures Awaited(CreateEngine(s, caller))
  {
    var t := CreateEngine(s, caller);
    assert Opener(t, |s.engines|, |s.calls|);
    forall e | 0 <= e < |s.engines| && s.engines[e].Opening? ensures HasOpener(t, e) {
      assert HasOpener(s, e);
      var k :| Opener(s, e, k);
      assert Opener(t, e, k);
    }
  }

  lemma AwaitedSettle(s: State, k: nat, ok: bool, jitter: real)
    requires Awaited(s)
    ensures Awaited(Step(s, InitializeSettles(k, ok, jitter)))
  {
    AwaitedStays(s, Step(s, InitializeSettles(k, ok, jitter)));
  }

  lemma AwaitedStep(s: State, a: Action)
    requires Awaited(s)
    ensures Awaited(Step(s, a))
  {
    var t := Step(s, a);
    match a
    case StartResumes(k, m, b) =>
      if k < |s.calls| && s.calls[k].StartHook? {
        var r := SetCall(s, k, Done).(reconnect := Some(Reconnect(0, None, m, b)), waits := []);
        AwaitedStays(s, r);
        AwaitedCreate(r, ByStart);
      }
    case Fire(timer) =>
      if timer in s.timers && s.current.None? {
        AwaitedStays(s, s.(timers := s.timers - {timer}));
        AwaitedCreate(s.(timers := s.timers - {timer}), ByReconnect);
      } else {
        AwaitedStays(s, t);
      }
    case DestroySettles(k, ok, _) =>
      if ok && k < |s.calls| && s.calls[k].DestroyingOld? {
        AwaitedStays(s, SetCall(s, k, Done).(current := None));
        AwaitedCreate(SetCall(s, k, Done).(current := None), ByReconnect);
      } else {
        AwaitedStays(s, t);
      }
    case InitializeSettles(k, ok, j) => AwaitedSettle(s, k, ok, j);
    case _ => AwaitedStays(s, t);
  }

  lemma {:induction false} AwaitedRun(s: State, actions: seq<Action>)
    requires Awaited(s)
    ensures Awaited(Run(s, actions))
    decreases |actions|
  {
    if actions != [] {
      AwaitedStep(s, actions[0]);
      AwaitedRun(Step(s, actions[0]), actions[1..]);
    }
  }

  // Neither a timer, nor an engine, nor a reconnect is there that could bring the session back.
  predicate Idle(s: State) {
    s.timers == {} && SpentBut(s, None) && forall k :: 0 <= k < |s.calls| ==> !IsReconnect(s.calls[k])
  }

  // A timer is running, and another one is about to be scheduled: a ready event makes attempts available.
  lemma SecondTimer(s: State, t: nat, a: Action)
    requires t in s.timers && t < s.nextTimer && s.reconnect.Some? && s.reconnect.value.maxAttempts > 0
    requires var r := Step(s, Ready); Disciplined(r, a) && t in Step(r, a).timers && s.nextTimer in Step(r, a).timers
    ensures CanDouble(s)
  {
    var r := Step(s, Ready);
    Two(Step(r, a), t, s.nextTimer);
    Back(r, a);
    Back(s, Ready);
  }

  lemma UpBesideTimer(s: State, t: nat, e: nat)
    requires t in s.timers && t < s.nextTimer && s.reconnect.Some? && s.reconnect.value.maxAttempts > 0
    requires e < |s.engines| && s.engines[e].Up?
    ensures CanDouble(s)
  {
    SecondTimer(s, t, Disconnected(e, 0.0));
  }

  lemma OpeningBesideTimer(s: State, t: nat, e: nat, k: nat)
    requires t in s.timers && t < s.nextTimer && s.reconnect.Some? && s.reconnect.value.maxAttempts > 0
    requires e < |s.engines| && s.engines[e].Opening? && Opener(s, e, k)
    ensures CanDouble(s)
  {
    var u := Step(s, InitializeSettles(k, true, 0.0));
    UpBesideTimer(u, t, e);
    Back(s, InitializeSettles(k, true, 0.0));
  }

  lemma ReconnectBesideTimer(s: State, t: nat, k: nat)
    requires t in s.timers && t < s.nextTimer && s.reconnect.Some? && s.reconnect.value.maxAttempts > 0
    requires k < |s.calls| && IsReconnect(s.calls[k]) && (s.calls[k].Initializing? ==> s.calls[k].e < |s.engines|)
    ensures CanDouble(s)
  {
    if s.calls[k].DestroyingOld? {
      var a := DestroySettles(k, true, 0.0);
      var u := Step(s, a);
      OpeningBesideTimer(u, t, |s.engines|, |s.calls|);
      Back(s, a);
    } else {
      SecondTimer(s, t, InitializeSettles(k, false, 0.0));
    }
  }

  // The write fails beside something that can bring the session back.
  lemma FailureDoubles(s: State, k: nat, jitter: real)
    requires Tame(s) && Awaited(s) && k < |s.calls| && s.calls[k] == StatusWrite(ByReconnect)
    requires s.reconnect.Some? && s.reconnect.value.attempts < s.reconnect.value.maxAttempts && !Idle(s)
    ensures CanDouble(Step(s, StatusWritten(k, false, jitter)))
  {
    var u, t := Step(s, StatusWritten(k, false, jitter)), s.nextTimer;
    if s.timers != {} {
      var running :| running in s.timers;
      Two(u, running, t);
    } else if !SpentBut(s, None) {
      var e :| 0 <= e < |s.engines| && !s.engines[e].Spent?;
      if s.engines[e].Up? {
        UpBesideTimer(u, t, e);
      } else {
        assert HasOpener(s, e);
        var i :| Opener(s, e, i);
        OpeningBesideTimer(u, t, e, i);
      }
    } else {
      var i :| 0 <= i < |s.calls| && IsReconnect(s.calls[i]);
      assert CallOk(s, s.calls[i]);
      ReconnectBesideTimer(u, t, i);
    }
  }

  lemma FailureHarmless(s: State, k: nat, jitter: real)
    requires Tame(s) && k < |s.calls| && s.calls[k] == StatusWrite(ByReconnect)
    requires s.reconnect.None? || s.reconnect.value.attempts >= s.reconnect.value.maxAttempts || Idle(s)
    ensures Tame(Step(s, StatusWritten(k, false, jitter)))
  {
  }

  // A failing status write of a reconnect is safe, whatever disciplined things follow, exactly if no
  // attempts are left or nothing else can bring the session back.
  lemma StatusSafe(before: seq<Action>, k: nat, jitter: real)
    requires DisciplinedRun(Initial, before)
    requires var s := Run(Initial, before); k < |s.calls| && s.calls[k] == StatusWrite(ByReconnect)
    ensures var s := Run(Initial, before);
      !CanDouble(Step(s, StatusWritten(k, false, jitter))) <==>
        s.reconnect.None? || s.reconnect.value.attempts >= s.reconnect.value.maxAttempts || Idle(s)
  {
    var s := Run(Initial, before);
    RunKeeps(Initial, before);
    AwaitedRun(Initial, before);
    if s.reconnect.None? || s.reconnect.value.attempts >= s.reconnect.value.maxAttempts || Idle(s) {
      FailureHarmless(s, k, jitter);
      TameNeverDoubles(Step(s, StatusWritten(k, false, jitter)));
    } else {
      FailureDoubles(s, k, jitter);
    }
  }

  // ---------- Disconnects ----------

  // What is left when engine e reports a disconnect, before a reconnect is scheduled.
  function Reported(s: State, e: nat): State {
    if e < |s.engines| then s.(engines := s.engines[e := Spent]) else s
  }

  lemma DisconnectHarmless(s: State, e: nat, jitter: real)
    requires Tame(s)
    requires s.reconnect.None? || s.reconnect.value.attempts >= s.reconnect.value.maxAttempts || Idle(Reported(s, e))
    ensures Tame(Step(s, Disconnected(e, jitter)))
  {
  }

  lemma DisconnectDoubles(s: State, e: nat, jitter: real)
    requires Tame(s) && Awaited(s) && s.reconnect.Some?
    requires s.reconnect.value.attempts < s.reconnect.value.maxAttempts && !Idle(Reported(s, e))
    ensures CanDouble(Step(s, Disconnected(e, jitter)))
  {
    var r, u, t := Reported(s, e), Step(s, Disconnected(e, jitter)), s.nextTimer;
    if s.timers != {} {
      var running :| running in s.timers;
      Two(u, running, t);
    } else if !SpentBut(r, None) {
      var f :| 0 <= f < |r.engines| && !r.engines[f].Spent?;
      if s.engines[f].Up? {
        UpBesideTimer(u, t, f);
      } else {
        assert HasOpener(s, f);
        var i :| Opener(s, f, i);
        OpeningBesideTimer(u, t, f, i);
      }
    } else {
      var i :| 0 <= i < |s.calls| && IsReconnect(s.calls[i]);
      assert CallOk(s, s.calls[i]);
      ReconnectBesideTimer(u, t, i);
    }
  }

  // A reported disconnect, of whatever engine and how often whatever, is safe, whatever disciplined things
  // follow, exactly if no attempts are left or nothing else can bring the session back. The discipline's own
  // case, an engine that is up, always is.
  lemma DisconnectSafe(before: seq<Action>, e: nat, jitter: real)
    requires DisciplinedRun(Initial, before)
    ensures var s := Run(Initial, before);
      !CanDouble(Step(s, Disconnected(e, jitter))) <==>
        s.reconnect.None? || s.reconnect.value.attempts >= s.reconnect.value.maxAttempts || Idle(Reported(s, e))
    ensures var s := Run(Initial, before);
      e < |s.engines| && s.engines[e].Up? ==> Idle(Reported(s, e))
  {
    var s := Run(Initial, before);
    RunKeeps(Initial, before);
    AwaitedRun(Initial, before);
    if e < |s.engines| && s.engines[e].Up? {
      forall k | 0 <= k < |s.calls| ensures !IsReconnect(s.calls[k]) { assert CallOk(s, s.calls[k]); }
    }
    if s.reconnect.None? || s.reconnect.value.attempts >= s.reconnect.value.maxAttempts || Idle(Reported(s, e)) {
      DisconnectHarmless(s, e, jitter);
      TameNeverDoubles(Step(s, Disconnected(e, jitter)));
    } else {
      DisconnectDoubles(s, e, jitter);
    }
  }
}
