/**
 The theorems about bulk batches: which rows are ever stored, what is sent, what a cancel achieves,
 and that the worker always ends.
 */
module BatchTheorems {
  import opened Json
  import opened Batch
  import opened BatchSafety
  import opened Template

  lemma ReachableInv(s: State, messages: seq<Message>, stopOnError: bool) returns (c: Context)
    requires Reachable(s, messages, stopOnError)
    ensures Inv(s, c) && c.messages == messages
  {
    var actions :| Run(Initial(messages, stopOnError), actions) == s;
    InitialInv(messages, stopOnError);
    c := RunKeeps(Initial(messages, stopOnError), actions, InitialContext(messages, stopOnError));
  }

  // ---------- Stored rows ----------

  // The attempts are for the first messages, in order, each once, with substituted content.
  ghost predicate Attempted(attempts: seq<Attempt>, messages: seq<Message>) {
    && |attempts| <= |messages|
    && forall k :: 0 <= k < |attempts| ==>
         && attempts[k].chatId == messages[k].chatId && attempts[k].kind == messages[k].kind
         && Applied(messages[k].content, attempts[k].content, messages[k].variables)
  }

  // Every row ever stored records answers to a prefix of the messages and counts them, and what is sent is
  // a prefix of the messages.
  lemma StoredRows(messages: seq<Message>, stopOnError: bool, actions: seq<Action>)
    ensures var s := Run(Initial(messages, stopOnError), actions);
      && RecordsPrefix(s.row, messages)
      && Attempted(s.attempts, messages)
      && |s.row.results| <= |s.attempts|
  {
    InitialInv(messages, stopOnError);
    var c := RunKeeps(Initial(messages, stopOnError), actions, InitialContext(messages, stopOnError));
    var attempts := Run(Initial(messages, stopOnError), actions).attempts;
    forall k | 0 <= k < |attempts|
      ensures Applied(messages[k].content, attempts[k].content, messages[k].variables)
    {
      AppliedIs(messages[k].content, attempts[k].content, messages[k].variables);
    }
  }

  // The worker's first step reads a row that no cancel has closed yet (or the worker takes no step).
  predicate LoadsOpen(s: State, actions: seq<Action>)
    decreases |actions|
  {
    actions != [] ==>
      && (s.worker.NotStarted? && actions[0].WorkerStep? ==> !s.row.status.Cancelled?)
      && LoadsOpen(Step(s, actions[0]), actions[1..])
  }

  predicate Open(s: State, c: Context) {
    !c.phase.Late? && (s.worker.Loaded? ==> !s.worker.copy.status.Cancelled?)
  }

  lemma OpenBalanced(s: State, c: Context)
    requires Inv(s, c) && !c.phase.Late?
    ensures Balanced(s.row.progress)
  {
  }

  lemma {:induction false} OpenRun(s: State, actions: seq<Action>, c: Context)
    requires Inv(s, c) && Open(s, c) && LoadsOpen(s, actions)
    ensures Balanced(Run(s, actions).row.progress)
    decreases |actions|
  {
    if actions == [] {
      OpenBalanced(s, c);
    } else {
      StepKeeps(s, actions[0], c);
      OpenRun(Step(s, actions[0]), actions[1..], AfterStep(s, actions[0], c));
    }
  }

  // Whatever cancels do, if the worker's load comes before the first cancelled row is stored, every
  // stored row balances: sent + failed + pending + cancelled == total, and no counter is negative.
  lemma StoredRowsBalance(messages: seq<Message>, stopOnError: bool, actions: seq<Action>)
    requires LoadsOpen(Initial(messages, stopOnError), actions)
    ensures Balanced(Run(Initial(messages, stopOnError), actions).row.progress)
  {
    InitialInv(messages, stopOnError);
    OpenRun(Initial(messages, stopOnError), actions, InitialContext(messages, stopOnError));
  }

  // From a worker that read a closed row, five steps store a row with a negative counter.
  lemma LateWorkerUnbalances(s: State, c: Context) returns (actions: seq<Action>)
    requires Inv(s, c) && s.worker.Loaded? && s.worker.copy.status.Cancelled? && c.messages != []
    ensures Run(s, actions).row.progress.pending == -1
  {
    var w := WorkerStep(Answer(true, Sent("id")));
    actions := [w, w, w, w, w];
    var s1 := Step(s, w);
    var s2 := Step(s1, w);
    var s3 := Step(s2, w);
    assert s3.worker == Sending(s1.worker.copy, 0);
    var s4 := Step(s3, w);
    assert s4.worker.Saving? && s4.worker.copy.progress.pending == -1;
    var s5 := Step(s4, w);
    calc {
      Run(s, actions);
    == { assert actions[1..] == [w, w, w, w]; }
      Run(s1, [w, w, w, w]);
    == { assert [w, w, w, w][1..] == [w, w, w]; }
      Run(s2, [w, w, w]);
    == { assert [w, w, w][1..] == [w, w]; }
      Run(s3, [w, w]);
    == { assert [w, w][1..] == [w]; }
      Run(s4, [w]);
    == { assert [w][1..] == []; }
      s5;
    }
  }

  // The row the worker loads decides: every row stored from then on balances exactly if it is not
  // cancelled yet (or the batch is empty). The code does not look.
  lemma BalanceAfterLoad(s: State, messages: seq<Message>, stopOnError: bool)
    requires Reachable(s, messages, stopOnError) && s.worker.Loaded?
    ensures (forall actions :: Balanced(Run(s, actions).row.progress))
       <==> !s.worker.copy.status.Cancelled? || messages == []
  {
    var c := ReachableInv(s, messages, stopOnError);
    if s.worker.copy.status.Cancelled? && messages != [] {
      var actions := LateWorkerUnbalances(s, c);
      assert !Balanced(Run(s, actions).row.progress);
    } else {
      forall actions ensures Balanced(Run(s, actions).row.progress) {
        if messages == [] {
          var c' := RunKeeps(s, actions, c);
        } else {
          StartedIsOpen(s, actions);
          OpenRun(s, actions, c);
        }
      }
    }
  }

  lemma {:induction false} StartedIsOpen(s: State, actions: seq<Action>)
    requires !s.worker.NotStarted?
    ensures LoadsOpen(s, actions)
    decreases |actions|
  {
    if actions != [] { StartedIsOpen(Step(s, actions[0]), actions[1..]); }
  }

  // ---------- Cancelling ----------

  predicate Begun(w: Worker) {
    !w.NotStarted? && !w.Loaded?
  }

  lemma {:induction false} FlagStaysDown(s: State, actions: seq<Action>)
    requires Begun(s.worker) && s.flag != Some(true)
    ensures Run(s, actions).attempts == s.attempts
    decreases |actions|
  {
    if actions != [] { FlagStaysDown(Step(s, actions[0]), actions[1..]); }
  }

  // A lowered flag is raised again by a worker that has not begun, and messages go out.
  lemma CancelOverrun(s: State, c: Context) returns (actions: seq<Action>)
    requires Inv(s, c) && !Begun(s.worker) && c.messages != []
    ensures |Run(s, actions).attempts| == |s.attempts| + 1
  {
    var w := WorkerStep(Answer(true, Sent("id")));
    var s1 := if s.worker.NotStarted? then Step(s, w) else s;
    var s2 := Step(s1, w);
    var s3 := Step(s2, w);
    var s4 := Step(s3, w);
    assert s4.worker == Sending(s2.worker.copy, 0);
    actions := [w, w, w];
    calc {
      Run(s1, [w, w, w]);
    == { assert [w, w, w][1..] == [w, w]; }
      Run(s2, [w, w]);
    == { assert [w, w][1..] == [w]; }
      Run(s3, [w]);
    == { assert [w][1..] == []; }
      s4;
    }
    if s.worker.NotStarted? {
      actions := [w, w, w, w];
      assert actions[1..] == [w, w, w];
    }
  }

  // A cancel that has lowered the flag stops all further sends exactly if the worker has raised the
  // flag before (or there is nothing to send); an attempt in flight is in `attempts` already.
  lemma CancelStopsSends(s: State, messages: seq<Message>, stopOnError: bool)
    requires Reachable(s, messages, stopOnError) && s.flag == Some(false)
    ensures (forall actions :: Run(s, actions).attempts == s.attempts) <==> Begun(s.worker) || messages == []
  {
    var c := ReachableInv(s, messages, stopOnError);
    if Begun(s.worker) {
      forall actions ensures Run(s, actions).attempts == s.attempts { FlagStaysDown(s, actions); }
    } else if messages == [] {
      forall actions ensures Run(s, actions).attempts == s.attempts {
        var c' := RunKeeps(s, actions, c);
      }
    } else {
      var actions := CancelOverrun(s, c);
      assert Run(s, actions).attempts != s.attempts;
    }
  }

  // The worker's closing save is never a cancelled row, whatever it overwrites. It leaves PROCESSING
  // only if the flag is down and no error has stopped the batch; with the flag up the batch is worked off,
  // or an error stopped it, and the status is FAILED exactly if something failed and nothing was sent.
  lemma ClosingSave(s: State, messages: seq<Message>, stopOnError: bool, answer: Answer)
    requires Reachable(s, messages, stopOnError) && s.worker.Saving? && s.worker.next.CleanUp?
    ensures var row := Step(s, WorkerStep(answer)).row;
      && row.closed && (row.status.Processing? || row.status.Completed? || row.status.Failed?)
      && (row.status.Processing? ==> s.flag != Some(true) && !Stopped(row))
      && (s.flag == Some(true) ==>
            && (row.status.Failed? <==> row.progress.failed > 0 && row.progress.sent == 0)
            && (|row.results| == |messages| || Stopped(row)))
      && |row.results| == |s.attempts|
  {
    var c := ReachableInv(s, messages, stopOnError);
  }

  // A batch that is worked off: every message answered, or the last answer an error that stops it.
  predicate WorkedOff(row: Row) {
    && row.closed && row.status == ClosingStatus(row.progress)
    && (|row.results| == |row.messages| || Stopped(row))
  }

  predicate Undisturbed(s: State) {
    && s.cancellers == [] && (s.worker.NotStarted? || s.worker.Loaded? ==> s.row.status.Pending?)
    && (Begun(s.worker) && !s.worker.Finished? ==> s.flag == Some(true))
    && (s.worker.Loaded? ==> s.worker.copy == s.row)
    && (s.worker.Saving? ==> !s.worker.next.Abandon?)
    && (s.worker.Saved? ==> s.row == s.worker.copy && !s.worker.next.Abandon?)
    && (s.worker.Finished? ==> s.flag == None && WorkedOff(s.row))
  }

  lemma UndisturbedStep(s: State, answer: Answer, c: Context)
    requires Inv(s, c) && Undisturbed(s) && answer.engineUp
    ensures Undisturbed(WorkerNext(s, answer))
  {
  }

  lemma {:induction false} UndisturbedRun(s: State, actions: seq<Action>, c: Context)
    requires Inv(s, c) && Undisturbed(s)
    requires forall k :: 0 <= k < |actions| ==> actions[k].WorkerStep? && actions[k].answer.engineUp
    ensures Undisturbed(Run(s, actions))
    decreases |actions|
  {
    if actions != [] {
      UndisturbedStep(s, actions[0].answer, c);
      StepKeeps(s, actions[0], c);
      UndisturbedRun(Step(s, actions[0]), actions[1..], AfterStep(s, actions[0], c));
    }
  }

  // Without a cancel, and with the session's engine there, a finished batch is worked off, its flag
  // is gone, and its row balances.
  lemma UncancelledBatch(messages: seq<Message>, stopOnError: bool, actions: seq<Action>)
    requires forall k :: 0 <= k < |actions| ==> actions[k].WorkerStep? && actions[k].answer.engineUp
    requires Run(Initial(messages, stopOnError), actions).worker.Finished?
    ensures var s := Run(Initial(messages, stopOnError), actions);
      WorkedOff(s.row) && s.flag == None && Balanced(s.row.progress)
  {
    InitialInv(messages, stopOnError);
    var c0 := InitialContext(messages, stopOnError);
    UndisturbedRun(Initial(messages, stopOnError), actions, c0);
    UndisturbedOpens(Initial(messages, stopOnError), actions, c0);
    OpenRun(Initial(messages, stopOnError), actions, c0);
  }

  lemma {:induction false} UndisturbedOpens(s: State, actions: seq<Action>, c: Context)
    requires Inv(s, c) && Undisturbed(s)
    requires forall k :: 0 <= k < |actions| ==> actions[k].WorkerStep? && actions[k].answer.engineUp
    ensures LoadsOpen(s, actions)
    decreases |actions|
  {
    if actions != [] {
      UndisturbedStep(s, actions[0].answer, c);
      StepKeeps(s, actions[0], c);
      UndisturbedOpens(Step(s, actions[0]), actions[1..], AfterStep(s, actions[0], c));
    }
  }

  // ---------- Termination ----------

  // An upper bound on the steps the worker has left, for n messages.
  function Rank(w: Worker, n: nat): int {
    match w
    case NotStarted => 4 * n + 6
    case Loaded(_) => 4 * n + 5
    case Saving(_, next) => NextRank(next, n) + 1
    case Saved(_, next) => NextRank(next, n)
    case Sending(_, i) => 4 * (n - i) + 2
    case Sleeping(_, i) => 4 * (n - i) + 3
    case Finished => 0
  }

  function NextRank(next: Next, n: nat): int {
    match next
    case CheckEngine => 4 * n + 3
    case Proceed(i) => 4 * (n - i)
    case Abandon => 1
    case CleanUp => 1
  }

  // The same once the flag is down.
  function RankDown(w: Worker): nat {
    match w
    case NotStarted => 0
    case Loaded(_) => 0
    case Saving(_, next) => if next.Abandon? || next.CleanUp? then 2 else 4
    case Saved(_, next) => if next.Abandon? || next.CleanUp? then 1 else 3
    case Sending(_, _) => 5
    case Sleeping(_, _) => 3
    case Finished => 0
  }

  function WorkerSteps(actions: seq<Action>): nat {
    if actions == [] then 0 else (if actions[0].WorkerStep? then 1 else 0) + WorkerSteps(actions[1..])
  }

  lemma LoopHeadRank(s: State, copy: Row, i: nat)
    requires i <= |copy.messages|
    ensures 0 <= Rank(LoopHead(s, copy, i).worker, |copy.messages|) <= 4 * (|copy.messages| - i) + 2
  {
  }

  lemma LoopTailRank(s: State, copy: Row, i: nat)
    requires i < |copy.messages|
    ensures 0 <= Rank(LoopTail(s, copy, i).worker, |copy.messages|) <= 4 * (|copy.messages| - i) - 1
  {
    LoopHeadRank(s, copy, i + 1);
  }

  lemma AnsweredRank(s: State, copy: Row, i: nat, outcome: Outcome)
    requires i < |copy.messages|
    ensures 0 <= Rank(Answered(s, copy, i, outcome).worker, |copy.messages|) <= 4 * (|copy.messages| - i) + 1
  {
    LoopTailRank(s, Record(copy, i, outcome).(currentIndex := i + 1), i);
  }

  lemma RankDrops(s: State, answer: Answer, c: Context)
    requires Inv(s, c) && !s.worker.Finished?
    ensures 0 <= Rank(WorkerNext(s, answer).worker, |c.messages|) < Rank(s.worker, |c.messages|)
  {
    match s.worker
    case Sending(copy, i) => AnsweredRank(s, copy, i, OutcomeFor(copy.messages[i], answer.outcome));
    case Sleeping(copy, i) => LoopHeadRank(s, copy, i);
    case Saved(copy, next) =>
      if next.CheckEngine? { LoopHeadRank(s, copy, 0); }
      if next.Proceed? { LoopTailRank(s, copy, next.i); }
    case _ =>
  }

  lemma RankPositive(w: Worker, flag: Option<bool>, c: Context)
    requires WorkerOk(w, flag, c)
    ensures Rank(w, |c.messages|) >= 0 && (Rank(w, |c.messages|) == 0 ==> w.Finished?)
  {
  }

  // A step of the worker costs rank until the rank is used up; a step of a canceller costs none.
  lemma RankStep(s: State, a: Action, c: Context)
    requires Inv(s, c)
    ensures Rank(Step(s, a).worker, |c.messages|) <= Rank(s.worker, |c.messages|)
    ensures a.WorkerStep? && Rank(s.worker, |c.messages|) > 0 ==>
      Rank(Step(s, a).worker, |c.messages|) < Rank(s.worker, |c.messages|)
  {
    if a.WorkerStep? && !s.worker.Finished? { RankDrops(s, a.answer, c); }
  }

  lemma {:induction false} RunFinishes(s: State, actions: seq<Action>, c: Context)
    requires Inv(s, c) && WorkerSteps(actions) >= Rank(s.worker, |c.messages|)
    ensures Run(s, actions).worker.Finished?
    decreases |actions|
  {
    RankPositive(s.worker, s.flag, c);
    if actions != [] {
      RankStep(s, actions[0], c);
      StepKeeps(s, actions[0], c);
      RunFinishes(Step(s, actions[0]), actions[1..], AfterStep(s, actions[0], c));
    }
  }

  // Whatever cancels do, a worker that is scheduled 4n + 6 times has finished.
  lemma BatchTerminates(messages: seq<Message>, stopOnError: bool, actions: seq<Action>)
    requires WorkerSteps(actions) >= 4 * |messages| + 6
    ensures Run(Initial(messages, stopOnError), actions).worker.Finished?
  {
    InitialInv(messages, stopOnError);
    RunFinishes(Initial(messages, stopOnError), actions, InitialContext(messages, stopOnError));
  }

  lemma {:induction false} DownFinishes(s: State, actions: seq<Action>)
    requires Begun(s.worker) && s.flag != Some(true) && (s.worker.Sending? ==> s.worker.i < |s.worker.copy.messages|)
    requires WorkerSteps(actions) >= RankDown(s.worker)
    ensures Run(s, actions).worker.Finished?
    decreases |actions|
  {
    if actions != [] { DownFinishes(Step(s, actions[0]), actions[1..]); }
  }

  // And once a cancel has lowered the flag of a worker that has begun, five steps are enough,
  // however many messages are left.
  lemma CancelIsPrompt(s: State, messages: seq<Message>, stopOnError: bool, actions: seq<Action>)
    requires Reachable(s, messages, stopOnError) && Begun(s.worker) && s.flag == Some(false)
    requires WorkerSteps(actions) >= 5
    ensures Run(s, actions).worker.Finished?
  {
    var c := ReachableInv(s, messages, stopOnError);
    DownFinishes(s, actions);
  }
}
