/**
 The bulk message service in the shape of its source: the worker's loop and the canceller's steps
 over one batch. Wherever the source awaits, other callers get their turn; every run of the class is
 a run of the machine in Batch, so the theorems of BatchTheorems hold of it.
 */
module BulkMessages {
  import opened Json
  import opened Batch
  import opened BatchCancels
  import opened BatchSafety

  // Before the worker begins, the row holds the batch with nothing done.
  lemma FreshRow(messages: seq<Message>, stopOnError: bool, actions: seq<Action>)
    requires Run(Initial(messages, stopOnError), actions).worker.NotStarted?
    ensures var row := Run(Initial(messages, stopOnError), actions).row;
      row.messages == messages && row.stopOnError == stopOnError && row.results == [] && row.currentIndex == 0
  {
    InitialInv(messages, stopOnError);
    var c := RunKeeps(Initial(messages, stopOnError), actions, InitialContext(messages, stopOnError));
  }

  // The answer to message m: the engine's, which is not asked to send unknown kinds.
  predicate Answering(r: Result, m: Message, outcome: Outcome) {
    && r.chatId == m.chatId
    && r.outcome == if m.kind in ["text", "image", "video", "audio", "document"] then outcome
                    else Rejected("Unsupported message type: " + m.kind)
  }

  // The results are the answers to the first messages, in order; and if errors stop the batch, all but the last
  // are messages sent.
  predicate Answers(results: seq<Result>, messages: seq<Message>, stopOnError: bool, outcome: nat -> Outcome) {
    && |results| <= |messages|
    && (forall k :: 0 <= k < |results| ==> Answering(results[k], messages[k], outcome(k)))
    && (stopOnError ==> forall k :: 0 <= k < |results| - 1 ==> results[k].outcome.Sent?)
  }

  lemma OneMoreAnswer(results: seq<Result>, messages: seq<Message>, stopOnError: bool, outcome: nat -> Outcome)
    requires Answers(results, messages, stopOnError, outcome) && |results| < |messages|
    requires stopOnError && results != [] ==> results[|results| - 1].outcome.Sent?
    ensures var m := messages[|results|];
      Answers(results + [Result(m.chatId, OutcomeFor(m, outcome(|results|)))], messages, stopOnError, outcome)
  {
  }

  class BulkMessageService {
    var row: Row                        // the stored row
    var processing: Option<bool>        // this batch's entry of processingBatches
    var cancellers: seq<Canceller>      // calls of cancelBatch
    var attempts: seq<Attempt>          // calls of sendMessage

    ghost const start: State
    ghost var trace: seq<Action>

    ghost function Here(w: Worker): State
      reads this
    {
      State(row, processing, w, cancellers, attempts)
    }

    // The run began with a batch as createBatch stores it.
    ghost predicate Created() {
      start == Initial(start.row.messages, start.row.stopOnError)
    }

    // The machine, run along the trace, is in state s.
    ghost predicate At(s: State)
      reads this
    {
      Run(start, trace) == s
    }

    // createBatch stores the row; its worker has not begun.
    constructor CreateBatch(messages: seq<Message>, stopOnError: bool)
      ensures start == Initial(messages, stopOnError) && trace == [] && Created()
      ensures At(Here(NotStarted))
      ensures row == Row(Pending, messages, stopOnError, Progress(|messages|, 0, 0, |messages|, 0), [], 0, false)
      ensures processing == None && cancellers == [] && attempts == []
    {
      row := NewRow(messages, stopOnError);
      processing := None;
      cancellers := [];
      attempts := [];
      start := Initial(messages, stopOnError);
      trace := [];
    }

    ghost method Did(a: Action, before: State)
      requires At(before)
      modifies this`trace
      ensures trace == old(trace) + [a] && At(Step(before, a))
    {
      RunAppend(start, trace, [a]);
      trace := trace + [a];
      assert [a][1..] == [];
    }

    // ---------- cancelBatch, from one await to the next ----------

    method CancelRead(ghost w: Worker)
      requires At(Here(w))
      modifies this`cancellers, this`trace
      ensures trace == old(trace) + [Action.CancelRead] && At(Here(w))
    {
      ghost var s := Here(w);
      cancellers := cancellers + [Read(row)];
      Did(Action.CancelRead, s);
    }

    method CancelDecide(k: nat, ghost w: Worker)
      requires At(Here(w))
      modifies this`cancellers, this`processing, this`trace
      ensures trace == old(trace) + [Action.CancelDecide(k)] && At(Here(w))
      ensures k < |old(cancellers)| && old(cancellers)[k].Read? ==>
        var read := old(cancellers)[k].copy;
        && |cancellers| == |old(cancellers)|
        && if read.status in {Completed, Cancelled} then cancellers[k].Over? && processing == old(processing)
           else cancellers[k].Writing? && Closes(cancellers[k].copy, read) && processing == Some(false)
    {
      ghost var s := Here(w);
      if k < |cancellers| && cancellers[k].Read? {
        var batch := cancellers[k].copy;
        if batch.status == Completed || batch.status == Cancelled {
          cancellers := cancellers[k := Over];
        } else {
          processing := Some(false);
          var p := batch.progress;
          batch := batch.(status := Cancelled, progress := p.(cancelled := p.pending, pending := 0), closed := true);
          cancellers := cancellers[k := Writing(batch)];
        }
      }
      Did(Action.CancelDecide(k), s);
    }

    method CancelWrite(k: nat, ghost w: Worker)
      requires At(Here(w))
      modifies this`row, this`cancellers, this`trace
      ensures trace == old(trace) + [Action.CancelWrite(k)] && At(Here(w))
    {
      ghost var s := Here(w);
      if k < |cancellers| && cancellers[k].Writing? {
        row := cancellers[k].copy;
        cancellers := cancellers[k := Over];
      }
      Did(Action.CancelWrite(k), s);
    }

    // The turns of a list that are a canceller's.
    static ghost function Turns(others: seq<Action>): seq<Action> {
      if others == [] then []
      else Turns(others[..|others| - 1])
           + if others[|others| - 1].WorkerStep? then [] else [others[|others| - 1]]
    }

    // An await of the worker: the cancellers take the turns that `others` lists.
    method Await(others: seq<Action>, ghost w: Worker)
      requires At(Here(w))
      modifies this`row, this`processing, this`cancellers, this`trace
      ensures trace == old(trace) + Turns(others) && At(Here(w))
    {
      for n := 0 to |others|
        invariant trace == old(trace) + Turns(others[..n]) && At(Here(w)) && attempts == old(attempts)
      {
        assert others[..n + 1][..n] == others[..n];
        match others[n]
        case CancelRead => CancelRead(w);
        case CancelDecide(k) => CancelDecide(k, w);
        case CancelWrite(k) => CancelWrite(k, w);
        case WorkerStep(_) =>
      }
      assert others[..|others|] == others;
    }

    // ---------- processBatch ----------

    // A save of the worker: turns of others, the write, and again turns of others.
    method Save(batch: Row, ghost next: Next, others: seq<Action>, later: seq<Action>, ghost answer: Answer)
      requires At(Here(Saving(batch, next)))
      modifies this`row, this`processing, this`cancellers, this`trace
      ensures old(trace) <= trace && At(Here(Saved(batch, next)))
    {
      Await(others, Saving(batch, next));
      ghost var s := Here(Saving(batch, next));
      row := batch;
      Did(WorkerStep(answer), s);
      Await(later, Saved(batch, next));
    }

    // Load the row and mark it as processing.
    method Begin(others: nat -> seq<Action>, ghost answer: Answer) returns (batch: Row)
      requires Created() && At(Here(NotStarted))
      modifies this`row, this`processing, this`cancellers, this`trace
      ensures old(trace) <= trace && At(Here(Saved(batch, CheckEngine)))
      ensures batch.messages == start.row.messages && batch.results == [] && batch.currentIndex == 0
      ensures batch.stopOnError == start.row.stopOnError
    {
      batch := row;
      FreshRow(start.row.messages, start.row.stopOnError, trace);
      Did(WorkerStep(answer), Here(NotStarted));
      Await(others(0), Loaded(batch));

      ghost var s := Here(Loaded(batch));
      processing := Some(true);
      batch := batch.(status := Processing);
      Did(WorkerStep(answer), s);
      Save(batch, CheckEngine, others(1), others(2), answer);
    }

    // The session has no engine: the batch has failed.
    method Abandon(batch: Row, others: nat -> seq<Action>, ghost answer: Answer)
      requires At(Here(Saved(batch, CheckEngine))) && !answer.engineUp
      modifies this`row, this`processing, this`cancellers, this`trace
      ensures old(trace) <= trace && At(Here(Finished))
    {
      Did(WorkerStep(answer), Here(Saved(batch, CheckEngine)));
      var failed := batch.(status := Failed, closed := true);
      Save(failed, Next.Abandon, others(3), others(4), answer);
      Did(WorkerStep(answer), Here(Saved(failed, Next.Abandon)));
    }

    // One turn of the loop: send message i, record the answer, save and sleep where due.
    method SendOne(batch: Row, i: nat, outcome: Outcome, others: nat -> seq<Action>, t: nat)
        returns (next: Row, stopped: bool)
      requires i < |batch.messages| && processing == Some(true) && At(LoopHead(Here(NotStarted), batch, i))
      modifies this
      ensures old(trace) <= trace && next.messages == batch.messages && next.stopOnError == batch.stopOnError
      ensures next.results == batch.results + [Result(batch.messages[i].chatId, OutcomeFor(batch.messages[i], outcome))]
      ensures stopped <==> batch.stopOnError && OutcomeFor(batch.messages[i], outcome).Rejected?
      ensures At(if stopped then Close(Here(NotStarted), next) else LoopHead(Here(NotStarted), next, i + 1))
    {
      var msg := batch.messages[i];
      attempts := attempts + [AttemptFor(msg)];
      Await(others(t), Sending(batch, i));

      Did(WorkerStep(Answer(true, outcome)), Here(Sending(batch, i)));
      var answer := OutcomeFor(msg, outcome);
      var result, p := Result(msg.chatId, answer), batch.progress;
      next, stopped := batch, false;
      if answer.Sent? {
        next := next.(progress := p.(sent := p.sent + 1, pending := p.pending - 1));
      } else {
        next := next.(progress := p.(failed := p.failed + 1, pending := p.pending - 1));
        if batch.stopOnError {
          next := next.(status := Failed, results := next.results + [result]);
          stopped := true;
          return;
        }
      }
      next := next.(results := next.results + [result], currentIndex := i + 1);
      SaveAndSleep(next, i, others, t);
    }

    method SaveAndSleep(batch: Row, i: nat, others: nat -> seq<Action>, t: nat)
      requires i < |batch.messages|
      requires At(if i % SAVE_EVERY == 0 || i + 1 == |batch.messages| then Here(Saving(batch, Proceed(i)))
                  else LoopTail(Here(NotStarted), batch, i))
      modifies this`row, this`processing, this`cancellers, this`trace
      ensures old(trace) <= trace && At(LoopHead(Here(NotStarted), batch, i + 1))
    {
      ghost var any := Answer(true, Rejected(""));
      if i % SAVE_EVERY == 0 || i == |batch.messages| - 1 {
        Save(batch, Proceed(i), others(t + 1), others(t + 2), any);
        Did(WorkerStep(any), Here(Saved(batch, Proceed(i))));
      }
      if i < |batch.messages| - 1 && processing == Some(true) {
        Await(others(t + 3), Sleeping(batch, i + 1));
        Did(WorkerStep(any), Here(Sleeping(batch, i + 1)));
      }
    }

    // Behind the loop: the closing save.
    method Finish(batch: Row, others: nat -> seq<Action>, t: nat)
      requires At(Close(Here(NotStarted), batch))
      modifies this`row, this`processing, this`cancellers, this`trace
      ensures old(trace) <= trace && At(Here(Finished))
    {
      ghost var any := Answer(true, Rejected(""));
      var closing := batch;
      if processing == Some(true) {
        closing := closing.(status :=
          if batch.progress.failed > 0 && batch.progress.sent == 0 then Failed else Completed);
      }
      closing := closing.(closed := true);
      Save(closing, CleanUp, others(t), others(t + 1), any);
      ghost var s := Here(Saved(closing, CleanUp));
      processing := None;
      Did(WorkerStep(any), s);
    }

    // The loop, with its three ends: no message is left, the flag is down, or an error stops it.
    method SendAll(batch: Row, outcome: nat -> Outcome, others: nat -> seq<Action>) returns (next: Row, t: nat)
      requires batch.results == [] && batch.currentIndex == 0 && At(LoopHead(Here(NotStarted), batch, 0))
      modifies this
      ensures old(trace) <= trace && At(Close(Here(NotStarted), next))
      ensures Answers(next.results, batch.messages, batch.stopOnError, outcome)
    {
      next, t := batch, 5;
      var i: nat := batch.currentIndex;
      var stopped := false;
      while i < |next.messages| && !stopped
        invariant old(trace) <= trace
        invariant At(if stopped then Close(Here(NotStarted), next) else LoopHead(Here(NotStarted), next, i))
        invariant next.messages == batch.messages && next.stopOnError == batch.stopOnError
        invariant |next.results| == i && Answers(next.results, batch.messages, batch.stopOnError, outcome)
        invariant batch.stopOnError && i > 0 && !stopped ==> next.results[i - 1].outcome.Sent?
        decreases |next.messages| - i, !stopped
      {
        if processing != Some(true) {
          return;
        }
        ghost var before := next.results;
        next, stopped := SendOne(next, i, outcome(i), others, t);
        OneMoreAnswer(before, batch.messages, batch.stopOnError, outcome);
        i, t := i + 1, t + 4;
      }
    }

    // `engineUp` and `outcome` are the answers of the engine; `others` lists, for each await, the
    // turns that cancellers take meanwhile. `own` is the worker's copy when it is done.
    method ProcessBatch(engineUp: bool, outcome: nat -> Outcome, others: nat -> seq<Action>) returns (ghost own: Row)
      requires Created() && At(Here(NotStarted))
      modifies this
      ensures old(trace) <= trace && At(Here(Finished))
      ensures Answers(own.results, start.row.messages, start.row.stopOnError, outcome)
      ensures !engineUp ==> own.results == []
    {
      ghost var any := Answer(engineUp, Rejected(""));
      var batch := Begin(others, any);
      own := batch;
      if !engineUp {
        Abandon(batch, others, any);
        return;
      }
      Did(WorkerStep(any), Here(Saved(batch, CheckEngine)));
      var done, t := SendAll(batch, outcome, others);
      own := done;
      Finish(done, others, t);
    }
  }
}
