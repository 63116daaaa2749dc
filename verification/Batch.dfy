/**
 One bulk batch as the worker (`processBatch`) and any number of cancellers (`cancelBatch`) see it.
 Control changes hands only at an await, so every stretch of code between two awaits, and every
 read or write the database performs in between, is one atomic step of the machine below.
 */
module Batch {
  import opened Json
  import opened Template

  datatype Status = Pending | Processing | Completed | Cancelled | Failed

  datatype Outcome = Sent(messageId: string) | Rejected(error: string)

  datatype Result = Result(chatId: string, outcome: Outcome)

  datatype Message = Message(chatId: string, kind: string, content: Json, variables: Option<Variables>)

  datatype Progress = Progress(total: int, sent: int, failed: int, pending: int, cancelled: int)

  // A row of the batch table. `closed` says that completedAt is set.
  datatype Row = Row(
    status: Status, messages: seq<Message>, stopOnError: bool, progress: Progress,
    results: seq<Result>, currentIndex: nat, closed: bool)

  // One call of sendMessage.
  datatype Attempt = Attempt(chatId: string, kind: string, content: Json)

  // What the worker does once a save has been answered.
  datatype Next = CheckEngine | Proceed(i: nat) | Abandon | CleanUp

  datatype Worker =
    | NotStarted                          // created, its row not read yet
    | Loaded(copy: Row)                   // row read, nothing done yet
    | Saving(copy: Row, next: Next)       // save issued, row not written yet
    | Saved(copy: Row, next: Next)        // row written, worker not resumed yet
    | Sending(copy: Row, i: nat)          // message i handed to the engine, no answer yet
    | Sleeping(copy: Row, i: nat)         // waiting before message i
    | Finished

  datatype Canceller =
    | Read(copy: Row)                     // row read, status not checked yet
    | Writing(copy: Row)                  // flag lowered, row not written yet
    | Over

  // `flag` is the entry of processingBatches; the last three fields are the two kinds of callers and
  // the calls of sendMessage so far.
  datatype State = State(
    row: Row, flag: Option<bool>, worker: Worker, cancellers: seq<Canceller>, attempts: seq<Attempt>)

  // An answer of the outside world to the worker: is the session's engine there, and how did the send end?
  datatype Answer = Answer(engineUp: bool, outcome: Outcome)

  datatype Action =
    | WorkerStep(answer: Answer)
    | CancelRead
    | CancelDecide(k: nat)
    | CancelWrite(k: nat)

  const SUPPORTED_KINDS := {"text", "image", "video", "audio", "document"}

  const SAVE_EVERY := 10

  // ---------- createBatch ----------

  function NewRow(messages: seq<Message>, stopOnError: bool): Row {
    Row(Pending, messages, stopOnError, Progress(|messages|, 0, 0, |messages|, 0), [], 0, false)
  }

  function Initial(messages: seq<Message>, stopOnError: bool): State {
    State(NewRow(messages, stopOnError), None, NotStarted, [], [])
  }

  // ---------- processBatch ----------

  function AttemptFor(m: Message): Attempt {
    Attempt(m.chatId, m.kind, ApplyVariables(m.content, m.variables))
  }

  // An unsupported kind is rejected without asking the engine.
  function OutcomeFor(m: Message, answer: Outcome): Outcome {
    if m.kind in SUPPORTED_KINDS then answer else Rejected("Unsupported message type: " + m.kind)
  }

  // The copy after message i was answered, before the loop looks at stopOnError.
  function Record(copy: Row, i: nat, outcome: Outcome): Row
    requires i < |copy.messages|
  {
    var p := copy.progress;
    var p' := if outcome.Sent? then p.(sent := p.sent + 1, pending := p.pending - 1)
              else p.(failed := p.failed + 1, pending := p.pending - 1);
    copy.(progress := p', results := copy.results + [Result(copy.messages[i].chatId, outcome)])
  }

  // The closing update (lines behind the loop).
  function Close(s: State, copy: Row): State {
    var status :=
      if s.flag != Some(true) then copy.status
      else if copy.progress.failed > 0 && copy.progress.sent == 0 then Failed
      else Completed;
    s.(worker := Saving(copy.(status := status, closed := true), CleanUp))
  }

  // The head of the loop, up to the next await.
  function LoopHead(s: State, copy: Row, i: nat): State {
    if i < |copy.messages| && s.flag == Some(true) then
      s.(worker := Sending(copy, i), attempts := s.attempts + [AttemptFor(copy.messages[i])])
    else Close(s, copy)
  }

  // The end of the loop body: sleep, or go straight on.
  function LoopTail(s: State, copy: Row, i: nat): State {
    if i + 1 < |copy.messages| && s.flag == Some(true) then s.(worker := Sleeping(copy, i + 1))
    else LoopHead(s, copy, i + 1)
  }

  function Answered(s: State, copy: Row, i: nat, outcome: Outcome): State
    requires i < |copy.messages|
  {
    var copy' := Record(copy, i, outcome);
    if outcome.Rejected? && copy.stopOnError then Close(s, copy'.(status := Failed))
    else
      var copy'' := copy'.(currentIndex := i + 1);
      if i % SAVE_EVERY == 0 || i + 1 == |copy.messages| then s.(worker := Saving(copy'', Proceed(i)))
      else LoopTail(s, copy'', i)
  }

  function Resume(s: State, copy: Row, next: Next, answer: Answer): State {
    match next
    case CheckEngine =>
      if answer.engineUp then LoopHead(s, copy, copy.currentIndex)
      else s.(worker := Saving(copy.(status := Failed, closed := true), Abandon))
    case Proceed(i) => LoopTail(s, copy, i)
    case Abandon => s.(worker := Finished)
    case CleanUp => s.(worker := Finished, flag := None)
  }

  function WorkerNext(s: State, answer: Answer): State {
    match s.worker
    case NotStarted => s.(worker := Loaded(s.row))
    case Loaded(copy) => s.(flag := Some(true), worker := Saving(copy.(status := Processing), CheckEngine))
    case Saving(copy, next) => s.(row := copy, worker := Saved(copy, next))
    case Saved(copy, next) => Resume(s, copy, next, answer)
    case Sending(copy, i) =>
      if i < |copy.messages| then Answered(s, copy, i, OutcomeFor(copy.messages[i], answer.outcome)) else s
    case Sleeping(copy, i) => LoopHead(s, copy, i)
    case Finished => s
  }

  // ---------- cancelBatch ----------

  function CancelledCopy(copy: Row): Row {
    copy.(status := Cancelled, closed := true,
          progress := copy.progress.(cancelled := copy.progress.pending, pending := 0))
  }

  // A batch that is completed or cancelled already is refused.
  function Decide(s: State, k: nat, copy: Row): State
    requires k < |s.cancellers|
  {
    if copy.status.Completed? || copy.status.Cancelled? then s.(cancellers := s.cancellers[k := Over])
    else s.(flag := Some(false), cancellers := s.cancellers[k := Writing(CancelledCopy(copy))])
  }

  // ---------- Runs ----------

  // An action that is not possible leaves the state alone, so every sequence of actions is a run.
  function Step(s: State, a: Action): State {
    match a
    case WorkerStep(answer) => WorkerNext(s, answer)
    case CancelRead => s.(cancellers := s.cancellers + [Read(s.row)])
    case CancelDecide(k) =>
      if k < |s.cancellers| && s.cancellers[k].Read? then Decide(s, k, s.cancellers[k].copy) else s
    case CancelWrite(k) =>
      if k < |s.cancellers| && s.cancellers[k].Writing?
      then s.(row := s.cancellers[k].copy, cancellers := s.cancellers[k := Over]) else s
  }

  function Run(s: State, actions: seq<Action>): State
    decreases |actions|
  {
    if actions == [] then s else Run(Step(s, actions[0]), actions[1..])
  }

  lemma {:induction false} RunAppend(s: State, a: seq<Action>, b: seq<Action>)
    ensures Run(s, a + b) == Run(Run(s, a), b)
    decreases |a|
  {
    if a == [] {
      assert a + b == b;
    } else {
      assert (a + b)[1..] == a[1..] + b;
      RunAppend(Step(s, a[0]), a[1..], b);
    }
  }

  // States that a batch of these messages can reach.
  ghost predicate Reachable(s: State, messages: seq<Message>, stopOnError: bool) {
    exists actions :: Run(Initial(messages, stopOnError), actions) == s
  }
}
