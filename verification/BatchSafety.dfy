/**
 What holds in every run of a bulk batch: the invariant of the machine in Batch, and the theorems
 about stored rows, sends, cancellation and termination that follow from it.
 */
module BatchSafety {
  import opened Json
  import opened Batch

  function CountSent(results: seq<Result>): (n: nat)
    ensures n <= |results|
  {
    if results == [] then 0
    else CountSent(results[..|results| - 1]) + if results[|results| - 1].outcome.Sent? then 1 else 0
  }

  // The counters add up to the total and none is negative.
  predicate Balanced(p: Progress) {
    && p.sent + p.failed + p.pending + p.cancelled == p.total
    && 0 <= p.sent && 0 <= p.failed && 0 <= p.pending && 0 <= p.cancelled
  }

  // The results of a row are answers to the first messages, in order, and the counters count them.
  predicate RecordsPrefix(row: Row, messages: seq<Message>) {
    && row.messages == messages
    && |row.results| <= |messages|
    && (forall k :: 0 <= k < |row.results| ==> row.results[k].chatId == messages[k].chatId)
    && row.progress.total == |messages|
    && row.progress.sent == CountSent(row.results)
    && row.progress.failed == |row.results| - CountSent(row.results)
    && row.currentIndex <= |row.results| <= row.currentIndex + 1
  }

  // The attempts are the first messages, each once, in order, with their variables filled in.
  predicate AttemptsPrefix(attempts: seq<Attempt>, messages: seq<Message>) {
    && |attempts| <= |messages|
    && forall k :: 0 <= k < |attempts| ==> attempts[k] == AttemptFor(messages[k])
  }

  // How far the worker got: it has not begun; or it has begun, from a row that was open (Early) or
  // from one that a cancel had already closed (Late).
  datatype Phase = Waiting | Early | Late

  // Where the messages that are not done are counted. A late worker counts down from zero.
  predicate Remaining(row: Row, phase: Phase) {
    var p, n, done := row.progress, |row.messages|, |row.results|;
    match phase
    case Waiting =>
      && row.currentIndex == 0 && done == 0
      && ((row.status.Pending? && p.pending == n && p.cancelled == 0)
          || (row.status.Cancelled? && p.pending == 0 && p.cancelled == n))
    case Early =>
      if row.status.Cancelled? then p.pending == 0 && p.cancelled == n - done
      else p.pending == n - done && p.cancelled == 0
    case Late =>
      if row.status.Pending? then done == 0 && p.pending == n && p.cancelled == 0
      else if row.status.Cancelled? then p.pending == 0 && (p.cancelled == -done || (done == 0 && p.cancelled == n))
      else p.pending == -done && p.cancelled == n
  }

  // What rows are measured against: the batch, what the worker has recorded so far (h), and its phase.
  datatype Context = Context(messages: seq<Message>, stopOnError: bool, h: seq<Result>, phase: Phase)

  // A row or a copy of one.
  predicate RowOk(row: Row, c: Context) {
    && RecordsPrefix(row, c.messages)
    && row.stopOnError == c.stopOnError
    && row.results <= c.h
    && Remaining(row, c.phase)
  }

  predicate CopyOk(copy: Row, c: Context) {
    && RowOk(copy, c)
    && !c.phase.Waiting?
    && copy.results == c.h
    && !copy.status.Cancelled? && !copy.status.Pending?
  }

  // The loop is about to look at message i, or has it in hand.
  predicate InLoop(copy: Row, i: nat) {
    |copy.results| == copy.currentIndex == i && copy.status.Processing? && !Stopped(copy)
  }

  predicate Stopped(copy: Row) {
    copy.stopOnError && copy.results != [] && copy.results[|copy.results| - 1].outcome.Rejected?
  }

  function ClosingStatus(p: Progress): Status {
    if p.failed > 0 && p.sent == 0 then Failed else Completed
  }

  // The copy of the closing save: either the flag was still up and the batch was worked off (or
  // stopped by an error), or the flag is down and the status is what the loop left.
  predicate ClosingOk(copy: Row, flag: Option<bool>) {
    && copy.closed
    && ((copy.status == ClosingStatus(copy.progress) && (|copy.results| == |copy.messages| || Stopped(copy)))
        || (flag != Some(true) && if Stopped(copy) then copy.status.Failed? else copy.status.Processing?))
  }

  predicate NextOk(copy: Row, next: Next, flag: Option<bool>) {
    match next
    case CheckEngine => copy.results == [] && InLoop(copy, 0)
    case Proceed(i) => i < |copy.messages| && InLoop(copy, i + 1)
    case Abandon => copy.status.Failed? && copy.results == [] && copy.closed
    case CleanUp => ClosingOk(copy, flag)
  }

  predicate WorkerOk(w: Worker, flag: Option<bool>, c: Context) {
    match w
    case NotStarted => c.h == [] && c.phase.Waiting?
    case Loaded(copy) => c.h == [] && c.phase.Waiting? && RowOk(copy, c)
    case Saving(copy, next) => CopyOk(copy, c) && NextOk(copy, next, flag)
    case Saved(copy, next) => CopyOk(copy, c) && NextOk(copy, next, flag)
    case Sending(copy, i) => CopyOk(copy, c) && InLoop(copy, i) && i < |copy.messages|
    case Sleeping(copy, i) => CopyOk(copy, c) && InLoop(copy, i) && 0 < i < |copy.messages|
    case Finished => !c.phase.Waiting?
  }

  predicate CancellerOk(canceller: Canceller, c: Context) {
    match canceller
    case Read(copy) => RowOk(copy, c)
    case Writing(copy) => RowOk(copy, c) && copy.status.Cancelled? && copy.closed
    case Over => true
  }

  predicate CancellersOk(cancellers: seq<Canceller>, c: Context) {
    forall k :: 0 <= k < |cancellers| ==> CancellerOk(cancellers[k], c)
  }

  predicate AttemptsOk(attempts: seq<Attempt>, w: Worker, c: Context) {
    && AttemptsPrefix(attempts, c.messages)
    && |attempts| == |c.h| + (if w.Sending? then 1 else 0)
  }

  predicate Inv(s: State, c: Context) {
    && RowOk(s.row, c)
    && WorkerOk(s.worker, s.flag, c)
    && CancellersOk(s.cancellers, c)
    && AttemptsOk(s.attempts, s.worker, c)
  }

  // ---------- The invariant is kept ----------

  function InitialContext(messages: seq<Message>, stopOnError: bool): Context {
    Context(messages, stopOnError, [], Waiting)
  }

  lemma InitialInv(messages: seq<Message>, stopOnError: bool)
    ensures Inv(Initial(messages, stopOnError), InitialContext(messages, stopOnError))
  {
  }

  // The context after one step of the worker.
  function After(w: Worker, answer: Answer, c: Context): Context {
    match w
    case Loaded(copy) => c.(phase := if copy.status.Cancelled? then Late else Early)
    case Sending(copy, i) =>
      if i >= |copy.messages| then c
      else c.(h := c.h + [Result(copy.messages[i].chatId, OutcomeFor(copy.messages[i], answer.outcome))])
    case _ => c
  }

  lemma CountSentAppend(results: seq<Result>, r: Result)
    ensures CountSent(results + [r]) == CountSent(results) + if r.outcome.Sent? then 1 else 0
  {
    assert (results + [r])[..|results|] == results;
  }

  // Rows stay fine while the worker moves on.
  lemma RowStays(row: Row, w: Worker, flag: Option<bool>, answer: Answer, c: Context)
    requires WorkerOk(w, flag, c) && RowOk(row, c)
    ensures RowOk(row, After(w, answer, c))
  {
  }

  lemma LoopHeadOk(s: State, copy: Row, i: nat, c: Context)
    requires CopyOk(copy, c) && InLoop(copy, i)
    requires AttemptsPrefix(s.attempts, c.messages) && |s.attempts| == |c.h|
    ensures var s' := LoopHead(s, copy, i);
      WorkerOk(s'.worker, s'.flag, c) && AttemptsOk(s'.attempts, s'.worker, c)
  {
  }

  // Recording one more answer: the counters move with the results.
  lemma RecordCounts(copy: Row, i: nat, outcome: Outcome, c: Context, c': Context)
    requires CopyOk(copy, c) && InLoop(copy, i) && i < |copy.messages|
    requires c' == c.(h := c.h + [Result(copy.messages[i].chatId, outcome)])
    ensures CopyOk(Record(copy, i, outcome), c')
  {
    CountSentAppend(copy.results, Result(copy.messages[i].chatId, outcome));
  }

  lemma RecordOk(copy: Row, i: nat, outcome: Outcome, c: Context, c': Context)
    requires CopyOk(copy, c) && InLoop(copy, i) && i < |copy.messages|
    requires c' == c.(h := c.h + [Result(copy.messages[i].chatId, outcome)])
    ensures CopyOk(Record(copy, i, outcome), c')
    ensures outcome.Rejected? && copy.stopOnError ==> Stopped(Record(copy, i, outcome))
    ensures var copy' := Record(copy, i, outcome).(currentIndex := i + 1);
      CopyOk(copy', c') && (!Stopped(copy') ==> InLoop(copy', i + 1))
  {
    RecordCounts(copy, i, outcome, c, c');
  }

  lemma StopOk(s: State, copy: Row, c: Context)
    requires CopyOk(copy, c) && Stopped(copy)
    requires AttemptsPrefix(s.attempts, c.messages) && |s.attempts| == |c.h|
    ensures var s' := Close(s, copy.(status := Failed));
      WorkerOk(s'.worker, s'.flag, c) && AttemptsOk(s'.attempts, s'.worker, c)
  {
  }

  lemma LoopTailOk(s: State, copy: Row, i: nat, c: Context)
    requires CopyOk(copy, c) && InLoop(copy, i + 1)
    requires AttemptsPrefix(s.attempts, c.messages) && |s.attempts| == |c.h|
    ensures var s' := LoopTail(s, copy, i);
      WorkerOk(s'.worker, s'.flag, c) && AttemptsOk(s'.attempts, s'.worker, c)
  {
    LoopHeadOk(s, copy, i + 1, c);
  }

  lemma AnsweredOk(s: State, copy: Row, i: nat, outcome: Outcome, c: Context, c': Context)
    requires CopyOk(copy, c) && InLoop(copy, i) && i < |copy.messages|
    requires AttemptsPrefix(s.attempts, c.messages) && |s.attempts| == |c.h| + 1
    requires c' == c.(h := c.h + [Result(copy.messages[i].chatId, outcome)])
    ensures var s' := Answered(s, copy, i, outcome);
      WorkerOk(s'.worker, s'.flag, c') && AttemptsOk(s'.attempts, s'.worker, c')
  {
    RecordOk(copy, i, outcome, c, c');
    var copy' := Record(copy, i, outcome);
    if outcome.Rejected? && copy.stopOnError {
      StopOk(s, copy', c');
    } else {
      LoopTailOk(s, copy'.(currentIndex := i + 1), i, c');
    }
  }

  lemma CancellersStay(cancellers: seq<Canceller>, w: Worker, flag: Option<bool>, answer: Answer, c: Context)
    requires WorkerOk(w, flag, c) && CancellersOk(cancellers, c)
    ensures CancellersOk(cancellers, After(w, answer, c))
  {
    forall k | 0 <= k < |cancellers| ensures CancellerOk(cancellers[k], After(w, answer, c)) {
      assert CancellerOk(cancellers[k], c);
      if !cancellers[k].Over? { RowStays(cancellers[k].copy, w, flag, answer, c); }
    }
  }

  // Only a save changes the row, and it writes the worker's copy.
  lemma WorkerWrites(s: State, answer: Answer)
    ensures var s' := WorkerNext(s, answer);
      s'.row == (if s.worker.Saving? then s.worker.copy else s.row) && s'.cancellers == s.cancellers
  {
  }

  lemma WorkerKeeps(s: State, answer: Answer, c: Context)
    requires Inv(s, c)
    ensures Inv(WorkerNext(s, answer), After(s.worker, answer, c))
  {
    WorkerWrites(s, answer);
    RowStays(s.row, s.worker, s.flag, answer, c);
    CancellersStay(s.cancellers, s.worker, s.flag, answer, c);
    WorkerMoves(s, answer, c);
  }

  lemma WorkerMoves(s: State, answer: Answer, c: Context)
    requires WorkerOk(s.worker, s.flag, c) && AttemptsOk(s.attempts, s.worker, c)
    ensures var s', c' := WorkerNext(s, answer), After(s.worker, answer, c);
      && ((s.worker.NotStarted? ==> RowOk(s.row, c)) ==> WorkerOk(s'.worker, s'.flag, c'))
      && AttemptsOk(s'.attempts, s'.worker, c')
  {
    match s.worker
    case Sending(copy, i) =>
      AnsweredOk(s, copy, i, OutcomeFor(copy.messages[i], answer.outcome), c, After(s.worker, answer, c));
    case Sleeping(copy, i) => LoopHeadOk(s, copy, i, c);
    case Saved(copy, next) => ResumeOk(s, copy, next, answer, c);
    case _ =>
  }

  lemma ResumeOk(s: State, copy: Row, next: Next, answer: Answer, c: Context)
    requires CopyOk(copy, c) && NextOk(copy, next, s.flag)
    requires AttemptsPrefix(s.attempts, c.messages) && |s.attempts| == |c.h|
    ensures var s' := Resume(s, copy, next, answer);
      && WorkerOk(s'.worker, s'.flag, c) && AttemptsOk(s'.attempts, s'.worker, c) && s'.row == s.row
  {
    match next
    case CheckEngine => LoopHeadOk(s, copy, 0, c);
    case Proceed(i) => LoopTailOk(s, copy, i, c);
    case _ =>
  }

  lemma CancelledCopyOk(copy: Row, c: Context)
    requires RowOk(copy, c) && !copy.status.Completed? && !copy.status.Cancelled?
    ensures RowOk(CancelledCopy(copy), c)
  {
  }

  lemma DecideKeeps(s: State, k: nat, c: Context)
    requires Inv(s, c) && k < |s.cancellers| && s.cancellers[k].Read?
    ensures Inv(Decide(s, k, s.cancellers[k].copy), c)
  {
    assert CancellerOk(s.cancellers[k], c);
    var copy := s.cancellers[k].copy;
    if !copy.status.Completed? && !copy.status.Cancelled? {
      CancelledCopyOk(copy, c);
      assert CancellerOk(Writing(CancelledCopy(copy)), c);
      LoweredOk(s.worker, s.flag, c);
    }
  }

  lemma LoweredOk(w: Worker, flag: Option<bool>, c: Context)
    requires WorkerOk(w, flag, c)
    ensures WorkerOk(w, Some(false), c)
  {
  }

  lemma CancelKeeps(s: State, a: Action, c: Context)
    requires Inv(s, c) && !a.WorkerStep?
    ensures Inv(Step(s, a), c)
  {
    match a
    case CancelRead => assert CancellerOk(Read(s.row), c);
    case CancelDecide(k) => if k < |s.cancellers| && s.cancellers[k].Read? { DecideKeeps(s, k, c); }
    case CancelWrite(k) => if k < |s.cancellers| && s.cancellers[k].Writing? { assert CancellerOk(s.cancellers[k], c); }
  }

  function AfterStep(s: State, a: Action, c: Context): Context {
    if a.WorkerStep? then After(s.worker, a.answer, c) else c
  }

  lemma StepKeeps(s: State, a: Action, c: Context)
    requires Inv(s, c)
    ensures var c' := AfterStep(s, a, c);
      && Inv(Step(s, a), c') && c'.messages == c.messages && c'.stopOnError == c.stopOnError
      && c.h <= c'.h && (!c.phase.Waiting? ==> c'.phase == c.phase)
  {
    if a.WorkerStep? { WorkerKeeps(s, a.answer, c); } else { CancelKeeps(s, a, c); }
  }

  lemma {:induction false} RunKeeps(s: State, actions: seq<Action>, c: Context) returns (c': Context)
    requires Inv(s, c)
    ensures Inv(Run(s, actions), c') && c'.messages == c.messages && c'.stopOnError == c.stopOnError
    ensures c.h <= c'.h && (!c.phase.Waiting? ==> c'.phase == c.phase)
    decreases |actions|
  {
    c' := c;
    if actions != [] {
      StepKeeps(s, actions[0], c);
      c' := RunKeeps(Step(s, actions[0]), actions[1..], AfterStep(s, actions[0], c));
    }
  }
}
