/** How long a cancellation lasts, and runs in which a cancel comes to nothing. */
module BatchCancels {
  import opened Json
  import opened Batch
  import opened BatchSafety
  import opened BatchTheorems

  // The worker has made its last save.
  predicate PastSaves(w: Worker) {
    w.Finished? || (w.Saved? && (w.next.Abandon? || w.next.CleanUp?))
  }

  lemma PastSavesStep(s: State, a: Action, c: Context)
    requires Inv(s, c) && s.row.status.Cancelled? && PastSaves(s.worker)
    ensures Step(s, a).row.status.Cancelled? && PastSaves(Step(s, a).worker)
  {
    if a.CancelWrite? && a.k < |s.cancellers| {
      assert CancellerOk(s.cancellers[a.k], c);
    }
  }

  lemma {:induction false} CancelledStays(s: State, actions: seq<Action>, c: Context)
    requires Inv(s, c) && s.row.status.Cancelled? && PastSaves(s.worker)
    ensures Run(s, actions).row.status.Cancelled?
    decreases |actions|
  {
    if actions != [] {
      PastSavesStep(s, actions[0], c);
      StepKeeps(s, actions[0], c);
      CancelledStays(Step(s, actions[0]), actions[1..], AfterStep(s, actions[0], c));
    }
  }

  lemma RunFirst(s: State, a: Action, rest: seq<Action>)
    ensures Run(s, [a] + rest) == Run(Step(s, a), rest)
  {
    assert ([a] + rest)[1..] == rest;
  }

  lemma RunLast(s: State, actions: seq<Action>, a: Action)
    ensures Run(s, actions + [a]) == Step(Run(s, actions), a)
  {
    RunAppend(s, actions, [a]);
    assert [a][1..] == [];
  }

  // A save cannot be skipped.
  lemma SavesAhead(s: State, answer: Answer)
    requires !PastSaves(s.worker) && !s.worker.Saving?
    requires s.worker.Sending? ==> s.worker.i < |s.worker.copy.messages|
    ensures !PastSaves(WorkerNext(s, answer).worker)
  {
  }

  // Left alone, a worker that has a save to make writes a row that is not cancelled.
  lemma {:induction false} Overwritten(s: State, c: Context) returns (actions: seq<Action>)
    requires Inv(s, c) && !PastSaves(s.worker)
    ensures !Run(s, actions).row.status.Cancelled?
    decreases Rank(s.worker, |c.messages|)
  {
    var answer := Answer(true, Sent("id"));
    var a := WorkerStep(answer);
    var rest := [];
    if !s.worker.Saving? {
      RankDrops(s, answer, c);
      SavesAhead(s, answer);
      StepKeeps(s, a, c);
      rest := Overwritten(Step(s, a), AfterStep(s, a, c));
    }
    actions := [a] + rest;
    RunFirst(s, a, rest);
  }

  // A stored cancellation lasts, whatever happens, exactly if the worker has made its last save.
  lemma CancelLasts(s: State, messages: seq<Message>, stopOnError: bool)
    requires Reachable(s, messages, stopOnError) && s.row.status.Cancelled?
    ensures (forall actions :: Run(s, actions).row.status.Cancelled?) <==> PastSaves(s.worker)
  {
    var c := ReachableInv(s, messages, stopOnError);
    if PastSaves(s.worker) {
      forall actions ensures Run(s, actions).row.status.Cancelled? { CancelledStays(s, actions, c); }
    } else {
      var actions := Overwritten(s, c);
      assert !Run(s, actions).row.status.Cancelled?;
    }
  }

  // ---------- which batches a cancel accepts ----------

  predicate NoDecision(actions: seq<Action>, k: nat) {
    forall i :: 0 <= i < |actions| ==> actions[i] != CancelDecide(k)
  }

  lemma {:induction false} ReadStays(s: State, k: nat, row: Row, actions: seq<Action>)
    requires k < |s.cancellers| && s.cancellers[k] == Read(row) && NoDecision(actions, k)
    ensures var t := Run(s, actions); k < |t.cancellers| && t.cancellers[k] == Read(row)
    decreases |actions|
  {
    if actions != [] { ReadStays(Step(s, actions[0]), k, row, actions[1..]); }
  }

  // What a cancel that closes this row stores: all messages that were pending count as cancelled.
  predicate Closes(row: Row, read: Row) {
    && row.status == Cancelled && row.closed
    && row.messages == read.messages && row.stopOnError == read.stopOnError
    && row.results == read.results && row.currentIndex == read.currentIndex
    && row.progress.cancelled == read.progress.pending && row.progress.pending == 0
    && row.progress.sent == read.progress.sent && row.progress.failed == read.progress.failed
    && row.progress.total == read.progress.total
  }

  // A cancel is accepted, whatever happened since it read the row, exactly if that row was neither COMPLETED nor
  // CANCELLED (so a FAILED batch can still be cancelled). Then the flag is lowered, and its write stores the row
  // that it read, closed; a refused cancel changes neither flag nor row, then or later.
  lemma CancelAccepts(s: State, between: seq<Action>)
    requires NoDecision(between, |s.cancellers|)
    ensures var k, t := |s.cancellers|, Run(Step(s, CancelRead), between);
      var u := Step(t, CancelDecide(k));
      var v := Step(u, CancelWrite(k));
      && u.row == t.row && u.worker == t.worker && u.attempts == t.attempts
      && k < |u.cancellers| == |t.cancellers| && (forall j :: 0 <= j < k ==> u.cancellers[j] == t.cancellers[j])
      && (u.flag == Some(false) && u.cancellers[k].Writing?
          <==> s.row.status != Completed && s.row.status != Cancelled)
      && v.cancellers[k] == Over
      && if s.row.status in {Completed, Cancelled} then u.flag == t.flag && v == u else Closes(v.row, s.row)
  {
    var k := |s.cancellers|;
    ReadStays(Step(s, CancelRead), k, s.row, between);
  }

  lemma {:induction false} BegunStays(s: State, actions: seq<Action>)
    requires Begun(s.worker)
    ensures Begun(Run(s, actions).worker)
    decreases |actions|
  {
    if actions != [] { BegunStays(Step(s, actions[0]), actions[1..]); }
  }

  // A running batch: a cancel that reads it, and decides however much later, is the end of its sends; and five
  // steps later the worker is done.
  lemma CancelRunning(s: State, messages: seq<Message>, stopOnError: bool, between: seq<Action>, future: seq<Action>)
    requires Reachable(s, messages, stopOnError) && Begun(s.worker) && s.row.status == Processing
    requires NoDecision(between, |s.cancellers|)
    ensures var t := Run(Step(s, CancelRead), between);
      var u := Step(t, CancelDecide(|s.cancellers|));
      && Run(u, future).attempts == t.attempts
      && (WorkerSteps(future) >= 5 ==> Run(u, future).worker.Finished?)
  {
    CancelAccepts(s, between);
    BegunStays(Step(s, CancelRead), between);
    var t := Run(Step(s, CancelRead), between);
    var u := Step(t, CancelDecide(|s.cancellers|));
    FlagStaysDown(u, future);
    var c := ReachableInv(s, messages, stopOnError);
    StepKeeps(s, CancelRead, c);
    var d := RunKeeps(Step(s, CancelRead), between, c);
    if WorkerSteps(future) >= 5 { DownFinishes(u, future); }
  }

  // ---------- Runs ----------

  // Every batch can be cancelled while the worker waits for its first save, and end as PROCESSING: the
  // cancelled row is stored, and the closing save, with the flag down, keeps the status of the copy.
  lemma ProcessingForGood(messages: seq<Message>, stopOnError: bool) returns (before: seq<Action>, after: seq<Action>)
    ensures Run(Initial(messages, stopOnError), before).row.status.Cancelled?
    ensures var s := Run(Run(Initial(messages, stopOnError), before), after);
      s.worker.Finished? && s.row.status.Processing? && s.attempts == []
  {
    var w := WorkerStep(Answer(true, Sent("id")));
    var s := Initial(messages, stopOnError);
    var start := [w, w];
    RunFirst(s, w, [w]);
    RunFirst(Step(s, w), w, []);
    var s2 := Run(s, start);
    assert s2.worker.Saving? && s2.worker.next == CheckEngine && s2.worker.copy.status == Processing;
    before := start + [CancelRead] + [CancelDecide(0)] + [w] + [CancelWrite(0)];
    CancelBesideSave(s, start);
    var s6 := Run(s, before);
    after := [w] + ([w] + [w]);
    RunFirst(s6, w, [w] + [w]);
    var s7 := Step(s6, w);
    assert s7.worker.Saving? && s7.worker.copy.status == Processing && s7.worker.next.CleanUp?;
    RunFirst(s7, w, [w]);
    var s8 := Step(s7, w);
    RunFirst(s8, w, []);
    assert [w] + [] == [w];
  }

  lemma CancelBesideSave(s: State, start: seq<Action>)
    requires var s2 := Run(s, start);
      s2.worker.Saving? && s2.worker.next == CheckEngine && s2.cancellers == [] && s2.row.status == Pending
    ensures var w := WorkerStep(Answer(true, Sent("id")));
      var s2, s6 := Run(s, start), Run(s, start + [CancelRead] + [CancelDecide(0)] + [w] + [CancelWrite(0)]);
      s6.worker == Saved(s2.worker.copy, CheckEngine) && s6.flag == Some(false) && s6.row.status.Cancelled?
      && s6.attempts == s2.attempts
  {
    var w := WorkerStep(Answer(true, Sent("id")));
    RunLast(s, start, CancelRead);
    var third := start + [CancelRead];
    assert Run(s, third).cancellers == [Read(Run(s, start).row)];
    RunLast(s, third, CancelDecide(0));
    var fourth := third + [CancelDecide(0)];
    assert Run(s, fourth).cancellers == [Writing(CancelledCopy(Run(s, start).row))];
    RunLast(s, fourth, w);
    RunLast(s, fourth + [w], CancelWrite(0));
  }

  // A cancel that is complete before the worker loads the row.
  lemma LoadsCancelled(messages: seq<Message>, stopOnError: bool) returns (actions: seq<Action>)
    ensures var s := Run(Initial(messages, stopOnError), actions);
      s.worker.Loaded? && s.worker.copy.status.Cancelled?
  {
    var s := Initial(messages, stopOnError);
    var w := WorkerStep(Answer(true, Sent("id")));
    actions := [CancelRead] + ([CancelDecide(0)] + ([CancelWrite(0)] + [w]));
    RunFirst(s, CancelRead, [CancelDecide(0)] + ([CancelWrite(0)] + [w]));
    var s1 := Step(s, CancelRead);
    assert s1.cancellers == [Read(s.row)];
    RunFirst(s1, CancelDecide(0), [CancelWrite(0)] + [w]);
    var s2 := Step(s1, CancelDecide(0));
    assert s2.cancellers == [Writing(CancelledCopy(s.row))];
    RunFirst(s2, CancelWrite(0), [w]);
    var s3 := Step(s2, CancelWrite(0));
    RunFirst(s3, w, []);
    assert [w] + [] == [w];
  }

  // From there a row with a negative counter is stored.
  lemma NegativeCounter(messages: seq<Message>, stopOnError: bool) returns (actions: seq<Action>)
    requires messages != []
    ensures Run(Initial(messages, stopOnError), actions).row.progress.pending == -1
  {
    var before := LoadsCancelled(messages, stopOnError);
    var s := Run(Initial(messages, stopOnError), before);
    var c := ReachableInv(s, messages, stopOnError);
    var after := LateWorkerUnbalances(s, c);
    actions := before + after;
    RunAppend(Initial(messages, stopOnError), before, after);
  }

  // A cancel that lowers the flag before the worker has begun, and the send that follows all the same.
  lemma CancelTooEarly(messages: seq<Message>, stopOnError: bool) returns (before: seq<Action>, after: seq<Action>)
    requires messages != []
    ensures var s := Run(Initial(messages, stopOnError), before);
      s.flag == Some(false) && !Begun(s.worker) && s.attempts == [] && |Run(s, after).attempts| == 1
  {
    before := [CancelRead] + [CancelDecide(0)];
    var s0 := Initial(messages, stopOnError);
    RunFirst(s0, CancelRead, [CancelDecide(0)]);
    var s1 := Step(s0, CancelRead);
    assert s1.cancellers == [Read(s0.row)];
    RunFirst(s1, CancelDecide(0), []);
    assert [CancelDecide(0)] + [] == [CancelDecide(0)];
    var s := Run(Initial(messages, stopOnError), before);
    var c := ReachableInv(s, messages, stopOnError);
    after := CancelOverrun(s, c);
  }
}
