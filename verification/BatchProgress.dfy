/** How far a bulk batch gets: what an error stops, what is stored on the way, and what a missing engine means. */
module BatchProgress {
  import opened Json
  import opened Batch
  import opened BatchSafety
  import opened BatchTheorems
  import opened BatchCancels

  // ---------- stopOnError ----------

  // The worker has left the loop.
  predicate PastLoop(w: Worker) {
    w.Finished? || ((w.Saving? || w.Saved?) && (w.next.Abandon? || w.next.CleanUp?))
  }

  // With stopOnError, an error is the last answer, and behind it the loop is over.
  predicate Halts(w: Worker, c: Context) {
    c.stopOnError ==>
      && (forall k :: 0 <= k < |c.h| - 1 ==> c.h[k].outcome.Sent?)
      && (c.h != [] && c.h[|c.h| - 1].outcome.Rejected? ==> PastLoop(w))
  }

  lemma HaltsStep(s: State, a: Action, c: Context)
    requires Inv(s, c) && Halts(s.worker, c)
    ensures Halts(Step(s, a).worker, AfterStep(s, a, c)) && AfterStep(s, a, c).stopOnError == c.stopOnError
  {
    if a.WorkerStep? && s.worker.Sending? {
      HaltsAnswered(s, s.worker.copy, s.worker.i, OutcomeFor(s.worker.copy.messages[s.worker.i], a.answer.outcome), c);
    }
  }

  lemma HaltsAnswered(s: State, copy: Row, i: nat, outcome: Outcome, c: Context)
    requires CopyOk(copy, c) && i < |copy.messages| && s.worker.Sending? && Halts(s.worker, c)
    ensures Halts(Answered(s, copy, i, outcome).worker, c.(h := c.h + [Result(copy.messages[i].chatId, outcome)]))
  {
  }

  lemma {:induction false} HaltsRun(s: State, actions: seq<Action>, c: Context) returns (c': Context)
    requires Inv(s, c) && Halts(s.worker, c)
    ensures Inv(Run(s, actions), c') && Halts(Run(s, actions).worker, c')
    ensures c'.messages == c.messages && c'.stopOnError == c.stopOnError
    decreases |actions|
  {
    c' := c;
    if actions != [] {
      HaltsStep(s, actions[0], c);
      StepKeeps(s, actions[0], c);
      c' := HaltsRun(Step(s, actions[0]), actions[1..], AfterStep(s, actions[0], c));
    }
  }

  lemma {:induction false} NoneFollow(s: State, actions: seq<Action>)
    requires PastLoop(s.worker)
    ensures Run(s, actions).attempts == s.attempts
    decreases |actions|
  {
    if actions != [] { NoneFollow(Step(s, actions[0]), actions[1..]); }
  }

  // With stopOnError, whatever cancels do: an error in a stored row is its last result, answers the last
  // attempt, and no attempt ever follows it.
  lemma ErrorStops(messages: seq<Message>, past: seq<Action>, k: nat, future: seq<Action>)
    requires var row := Run(Initial(messages, true), past).row; k < |row.results| && row.results[k].outcome.Rejected?
    ensures var s := Run(Initial(messages, true), past);
      k + 1 == |s.row.results| == |s.attempts| && Run(s, future).attempts == s.attempts
  {
    InitialInv(messages, true);
    var c := HaltsRun(Initial(messages, true), past, InitialContext(messages, true));
    var s := Run(Initial(messages, true), past);
    assert s.row.results[k] == c.h[k];
    NoneFollow(s, future);
  }

  // The answer to an attempt is an error.
  predicate Fails(m: Message, answer: Answer) {
    answer.outcome.Rejected? || m.kind !in ["text", "image", "video", "audio", "document"]
  }

  lemma KindsAre(kind: string)
    ensures kind in SUPPORTED_KINDS <==> kind in ["text", "image", "video", "audio", "document"]
  {
  }

  // After the answer to an attempt, another one can follow exactly if there is another message, no cancel has
  // lowered the flag, and the answer is not an error that stops the batch.
  lemma SendsGoOn(past: seq<Action>, messages: seq<Message>, stopOnError: bool, answer: Answer)
    requires Run(Initial(messages, stopOnError), past).worker.Sending?
    ensures var s := Run(Initial(messages, stopOnError), past);
      && 0 < |s.attempts| <= |messages|
      && ((exists future :: |Run(Step(s, WorkerStep(answer)), future).attempts| > |s.attempts|) <==>
            && |s.attempts| < |messages| && s.flag == Some(true)
            && !(stopOnError && Fails(messages[|s.attempts| - 1], answer)))
  {
    var s := Run(Initial(messages, stopOnError), past);
    InitialInv(messages, stopOnError);
    var c := HaltsRun(Initial(messages, stopOnError), past, InitialContext(messages, stopOnError));
    var t := Step(s, WorkerStep(answer));
    if |s.attempts| < |messages| && s.flag == Some(true)
       && !(stopOnError && Fails(messages[|s.attempts| - 1], answer)) {
      AnswerGoesOn(s, answer, c);
      var future := NextSend(t);
      assert |Run(t, future).attempts| > |s.attempts|;
    } else {
      forall future ensures |Run(t, future).attempts| <= |s.attempts| {
        EndsThere(s, answer, future, c);
      }
    }
  }

  // The worker is behind an answer that does not end the loop.
  predicate Onward(t: State) {
    || (t.worker.Saving? && t.worker.next.Proceed? && t.worker.next.i + 1 < |t.worker.copy.messages|)
    || (t.worker.Sleeping? && t.worker.i < |t.worker.copy.messages|)
  }

  lemma AnswerGoesOn(s: State, answer: Answer, c: Context)
    requires Inv(s, c) && s.worker.Sending? && |s.attempts| < |c.messages| && s.flag == Some(true)
    requires !(c.stopOnError && Fails(c.messages[s.worker.i], answer))
    ensures var t := Step(s, WorkerStep(answer)); Onward(t) && t.flag == Some(true) && t.attempts == s.attempts
  {
    KindsAre(c.messages[s.worker.i].kind);
  }

  lemma EndsThere(s: State, answer: Answer, future: seq<Action>, c: Context)
    requires Inv(s, c) && s.worker.Sending?
    requires s.flag != Some(true) || |s.attempts| == |c.messages|
      || (c.stopOnError && Fails(c.messages[s.worker.i], answer))
    ensures |Run(Step(s, WorkerStep(answer)), future).attempts| <= |s.attempts|
  {
    var t := Step(s, WorkerStep(answer));
    KindsAre(c.messages[s.worker.i].kind);
    StepKeeps(s, WorkerStep(answer), c);
    if s.flag != Some(true) {
      FlagStaysDown(t, future);
    } else if |s.attempts| == |c.messages| {
      var c' := RunKeeps(t, future, AfterStep(s, WorkerStep(answer), c));
    } else {
      NoneFollow(t, future);
    }
  }

  // From behind message i, three steps at most begin the next send.
  lemma NextSend(t: State) returns (future: seq<Action>)
    requires t.flag == Some(true) && Onward(t)
    ensures |Run(t, future).attempts| == |t.attempts| + 1
  {
    var w := WorkerStep(Answer(true, Rejected("")));
    future := [w] + [];
    if t.worker.Saving? {
      var t1 := Step(t, w);
      var t2 := Step(t1, w);
      assert t2.worker == Sleeping(t.worker.copy, t.worker.next.i + 1);
      RunFirst(t2, w, []);
      RunFirst(t1, w, [w] + []);
      RunFirst(t, w, [w] + ([w] + []));
      future := [w] + ([w] + ([w] + []));
    } else {
      RunFirst(t, w, []);
    }
  }

  // Between two sends the worker sleeps: every attempt but the first begins where a sleep ends.
  lemma SendsAreSpaced(s: State, messages: seq<Message>, stopOnError: bool, a: Action)
    requires Reachable(s, messages, stopOnError) && Step(s, a).attempts != s.attempts
    ensures |Step(s, a).attempts| == |s.attempts| + 1
    ensures s.worker.Sleeping? <==> s.attempts != []
  {
    var c := ReachableInv(s, messages, stopOnError);
  }

  // ---------- what is stored on the way ----------

  // The answers that are stored when message i is sent: those up to the last message whose number is a multiple
  // of ten, that one included.
  function Kept(i: nat): nat {
    if i == 0 then 0 else (i - 1) / 10 * 10 + 1
  }

  predicate Stored(row: Row, i: nat) {
    row.status.Processing? && |row.results| == row.currentIndex == Kept(i)
  }

  // A save is due behind message i.
  predicate Due(copy: Row, i: nat) {
    i % 10 == 0 || i + 1 == |copy.messages|
  }

  predicate Saves(s: State) {
    s.cancellers == [] &&
    match s.worker
    case Saving(copy, next) =>
      && (next.Proceed? ==> Stored(s.row, next.i) && Due(copy, next.i))
      && (next.CleanUp? && |copy.results| == |copy.messages| && !Stopped(copy) ==> s.row.results == copy.results)
    case Saved(copy, next) => s.row == copy && (next.Proceed? ==> Due(copy, next.i))
    case Sending(copy, i) => Stored(s.row, i)
    case Sleeping(copy, i) => Stored(s.row, i)
    case _ => true
  }

  lemma KeptNext(i: nat)
    ensures Kept(i + 1) == if i % 10 == 0 then i + 1 else Kept(i)
  {
  }

  lemma SavesAnswered(s: State, copy: Row, i: nat, outcome: Outcome)
    requires s.cancellers == [] && |copy.results| == i < |copy.messages| && Stored(s.row, i)
    ensures Saves(Answered(s, copy, i, outcome))
  {
    KeptNext(i);
  }

  lemma SavesStep(s: State, answer: Answer, c: Context)
    requires Inv(s, c) && Saves(s)
    ensures Saves(WorkerNext(s, answer))
  {
    match s.worker
    case Sending(copy, i) => SavesAnswered(s, copy, i, OutcomeFor(copy.messages[i], answer.outcome));
    case Saved(copy, next) => if next.Proceed? { KeptNext(next.i); }
    case _ =>
  }

  lemma {:induction false} SavesRun(s: State, actions: seq<Action>, c: Context) returns (c': Context)
    requires Inv(s, c) && Saves(s) && forall k :: 0 <= k < |actions| ==> actions[k].WorkerStep?
    ensures Inv(Run(s, actions), c') && c'.messages == c.messages && Saves(Run(s, actions))
    decreases |actions|
  {
    c' := c;
    if actions != [] {
      SavesStep(s, actions[0].answer, c);
      StepKeeps(s, actions[0], c);
      c' := SavesRun(Step(s, actions[0]), actions[1..], AfterStep(s, actions[0], c));
    }
  }

  // While no cancel interferes, the row stored when message i is in hand says PROCESSING, and holds the worker's
  // own answers up to the last message whose number is a multiple of ten: a crash loses nine answers at most.
  lemma SavedEveryTen(messages: seq<Message>, stopOnError: bool, actions: seq<Action>)
    requires forall k :: 0 <= k < |actions| ==> actions[k].WorkerStep?
    requires var w := Run(Initial(messages, stopOnError), actions).worker; w.Sending? || w.Sleeping?
    ensures var s := Run(Initial(messages, stopOnError), actions);
      var i := s.worker.i;
      && |s.worker.copy.results| == i && s.row.results <= s.worker.copy.results
      && Stored(s.row, i) && i - |s.row.results| <= 9
  {
    InitialInv(messages, stopOnError);
    var c := SavesRun(Initial(messages, stopOnError), actions, InitialContext(messages, stopOnError));
  }

  // And before the closing save of a batch whose messages are all answered, all answers are stored already, unless
  // an error has stopped it.
  lemma SavedBeforeClosing(messages: seq<Message>, stopOnError: bool, actions: seq<Action>)
    requires forall k :: 0 <= k < |actions| ==> actions[k].WorkerStep?
    requires var w := Run(Initial(messages, stopOnError), actions).worker; w.Saving? && w.next.CleanUp?
    ensures var s := Run(Initial(messages, stopOnError), actions);
      |s.worker.copy.results| == |messages| && !Stopped(s.worker.copy) ==> s.row.results == s.worker.copy.results
  {
    InitialInv(messages, stopOnError);
    var c := SavesRun(Initial(messages, stopOnError), actions, InitialContext(messages, stopOnError));
  }

  // ---------- no engine ----------

  predicate Untouched(row: Row, messages: seq<Message>) {
    row.results == [] && row.progress == Progress(|messages|, 0, 0, |messages|, 0)
  }

  predicate Engineless(s: State, messages: seq<Message>) {
    && s.cancellers == [] && s.attempts == [] && Untouched(s.row, messages)
    && (Begun(s.worker) ==> s.flag == Some(true))
    && match s.worker
       case NotStarted => true
       case Loaded(copy) => Untouched(copy, messages)
       case Saving(copy, next) => Untouched(copy, messages) && (next.CheckEngine? || Failing(copy, next))
       case Saved(copy, next) => s.row == copy && (next.CheckEngine? || Failing(copy, next))
       case Finished => s.row.status.Failed? && s.row.closed
       case _ => false
  }

  predicate Failing(copy: Row, next: Next) {
    next.Abandon? && copy.status.Failed? && copy.closed
  }

  lemma {:induction false} EnginelessRun(s: State, messages: seq<Message>, actions: seq<Action>)
    requires Engineless(s, messages)
    requires forall k :: 0 <= k < |actions| ==> actions[k].WorkerStep? && !actions[k].answer.engineUp
    ensures Engineless(Run(s, actions), messages)
    decreases |actions|
  {
    if actions != [] { EnginelessRun(Step(s, actions[0]), messages, actions[1..]); }
  }

  predicate NoLoop(w: Worker) {
    !w.Sending? && !w.Sleeping? && ((w.Saving? || w.Saved?) ==> w.next.CheckEngine? || w.next.Abandon?)
  }

  lemma {:induction false} NoLoopRun(s: State, actions: seq<Action>)
    requires NoLoop(s.worker)
    requires forall k :: 0 <= k < |actions| && actions[k].WorkerStep? ==> !actions[k].answer.engineUp
    ensures Run(s, actions).attempts == s.attempts
    decreases |actions|
  {
    if actions != [] { NoLoopRun(Step(s, actions[0]), actions[1..]); }
  }

  // Without an engine nothing is sent, whatever cancels do.
  lemma EnginelessSends(messages: seq<Message>, stopOnError: bool, actions: seq<Action>)
    requires forall k :: 0 <= k < |actions| && actions[k].WorkerStep? ==> !actions[k].answer.engineUp
    ensures Run(Initial(messages, stopOnError), actions).attempts == []
  {
    NoLoopRun(Initial(messages, stopOnError), actions);
  }

  // Without an engine, an undisturbed batch ends as FAILED with nothing sent and all messages pending; and the
  // flag stays up, as only the end of the loop takes it away.
  lemma EnginelessBatch(messages: seq<Message>, stopOnError: bool, actions: seq<Action>)
    requires forall k :: 0 <= k < |actions| ==> actions[k].WorkerStep? && !actions[k].answer.engineUp
    requires Run(Initial(messages, stopOnError), actions).worker.Finished?
    ensures var s := Run(Initial(messages, stopOnError), actions);
      && s.attempts == [] && s.row.status.Failed? && s.row.closed && s.row.results == []
      && s.row.progress == Progress(|messages|, 0, 0, |messages|, 0) && s.flag == Some(true)
  {
    EnginelessRun(Initial(messages, stopOnError), messages, actions);
  }
}
