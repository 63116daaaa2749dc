/**
 Running the chain of an event's handlers. What a handler does with the data it is given is a parameter;
 no registration changes while a chain runs.
 */
module HookChain {
  import opened Json
  import opened HookInterfaces

  // What a handler is given: the data, and the rest of what all handlers share and may write into (the other
  // fields of the context object, which is one for the whole chain, and any state the plugins keep).
  datatype Given<D, C> = Given(data: D, rest: C)

  // How a handler ended: it threw, or it returned a result. Data and rest are given by reference, so either way
  // they may have changed: `left` is what they hold then.
  datatype Handled<D, C> =
    | Threw(left: Given<D, C>)
    | Returned(goOn: bool, data: Option<D>, error: bool, left: Given<D, C>)

  type Handlers<!D, !C> = (nat, Given<D, C>) -> Handled<D, C>

  type Call<D, C> = (Registration, Given<D, C>)

  // What a chain came to, and every call it made: the handler and what it saw.
  datatype Chain<D, C> = Chain(goOn: bool, data: D, calls: seq<Call<D, C>>)

  // What the next handler is given: the data of a result, or the data that was left.
  function Next<D, C>(h: Handled<D, C>): Given<D, C> {
    if h.Returned? && h.data.Some? then h.left.(data := h.data.value) else h.left
  }

  // A left fold over the handlers, in which errors play no part.
  function Run<D, C>(registrations: seq<Registration>, given: Given<D, C>, handle: Handlers<D, C>): Chain<D, C> {
    if registrations == [] then Chain(true, given.data, [])
    else
      var r := registrations[0];
      var h := handle(r.handler, given);
      if h.Returned? && !h.goOn then Chain(false, Next(h).data, [(r, given)])
      else Called(r, given, Run(registrations[1..], Next(h), handle))
  }

  function Called<D, C>(r: Registration, given: Given<D, C>, rest: Chain<D, C>): Chain<D, C> {
    rest.(calls := [(r, given)] + rest.calls)
  }

  // ---------- execute ----------

  // How the try block of one handler is left: at its end, by a return, or by an error that is caught.
  datatype Tried<D, C> = Completed(next: Given<D, C>) | Stopped(next: Given<D, C>) | Raised(next: Given<D, C>)

  predicate Stops<D, C>(call: Call<D, C>, handle: Handlers<D, C>) {
    var outcome := handle(call.0.handler, call.1);
    outcome.Returned? && !outcome.goOn
  }

  // A handler fails by throwing, or by an error beside a result that does not stop the chain.
  predicate Fails<D, C>(call: Call<D, C>, handle: Handlers<D, C>) {
    var outcome := handle(call.0.handler, call.1);
    outcome.Threw? || (outcome.goOn && outcome.error)
  }

  // The calls that failed, in order.
  function Failures<D, C>(calls: seq<Call<D, C>>, handle: Handlers<D, C>): seq<Call<D, C>> {
    if calls == [] then []
    else
      var last := calls[|calls| - 1];
      Failures(calls[..|calls| - 1], handle) + if Fails(last, handle) then [last] else []
  }

  // The data that a handler leaves for whoever comes next: that of its result, if it has any, be there an error
  // beside it or not; otherwise what the data object it was given holds then.
  ghost predicate LeavesData<D, C>(call: Call<D, C>, handle: Handlers<D, C>, data: D) {
    match handle(call.0.handler, call.1)
    case Threw(left) => data == left.data
    case Returned(_, None, _, left) => data == left.data
    case Returned(_, Some(returned), _, _) => data == returned
  }

  ghost predicate Leaves<D, C>(call: Call<D, C>, handle: Handlers<D, C>, next: Given<D, C>) {
    LeavesData(call, handle, next.data) && next.rest == handle(call.0.handler, call.1).left.rest
  }

  // The calls of a chain over these registrations: each once, in order, the first on the original data, each later
  // one on what the one before it left; the last one left the result, which is of all calls the only one that may
  // stop the chain.
  ghost predicate Threaded<D, C>(registrations: seq<Registration>, given: Given<D, C>, handle: Handlers<D, C>,
                                 goOn: bool, result: D, calls: seq<Call<D, C>>) {
    && |calls| <= |registrations|
    && (forall k :: 0 <= k < |calls| ==> calls[k].0 == registrations[k])
    && (calls == [] ==> goOn && result == given.data)
    && (calls != [] ==>
          && calls[0].1 == given
          && (forall k :: 0 <= k < |calls| - 1 ==> Leaves(calls[k], handle, calls[k + 1].1))
          && LeavesData(calls[|calls| - 1], handle, result))
    && (forall k :: 0 <= k < |calls| ==>
          var outcome := handle(calls[k].0.handler, calls[k].1);
          (outcome.Returned? && !outcome.goOn) <==> (!goOn && k == |calls| - 1))
    && (goOn ==> |calls| == |registrations|)
    && (!goOn ==> calls != [])
  }

  // The failures are the calls that threw, or returned an error and did not stop the chain.
  ghost predicate Swallowed<D, C>(calls: seq<Call<D, C>>, failures: seq<Call<D, C>>, handle: Handlers<D, C>) {
    forall call <- calls :: call in failures <==>
      var outcome := handle(call.0.handler, call.1);
      outcome.Threw? || (outcome.Returned? && outcome.goOn && outcome.error)
  }

  lemma {:induction false} FailuresAre<D, C>(calls: seq<Call<D, C>>, handle: Handlers<D, C>)
    ensures forall call :: call in Failures(calls, handle) <==>
      var outcome := handle(call.0.handler, call.1);
      call in calls && (outcome.Threw? || (outcome.goOn && outcome.error))
  {
    if calls != [] {
      FailuresAre(calls[..|calls| - 1], handle);
      assert calls == calls[..|calls| - 1] + [calls[|calls| - 1]];
    }
  }

  // The try block. Each statement sees what the ones before it did, also when a later one raises.
  method TryHandler<D, C>(registration: Registration, given: Given<D, C>, handle: Handlers<D, C>)
      returns (t: Tried<D, C>)
    ensures t.next == Next(handle(registration.handler, given)) && Leaves((registration, given), handle, t.next)
    ensures t.Stopped? <==> Stops((registration, given), handle)
    ensures t.Raised? <==> Fails((registration, given), handle)
  {
    var result := handle(registration.handler, given);
    if result.Threw? {
      return Raised(result.left);
    }
    var current := result.left;
    if result.data.Some? {
      current := current.(data := result.data.value);
    }
    if !result.goOn {
      return Stopped(current);
    }
    if result.error {
      return Raised(current);
    }
    return Completed(current);
  }

  // The loop. `failures` are the errors that the catch block swallows (and logs).
  method CallAll<D, C>(registrations: seq<Registration>, given: Given<D, C>, handle: Handlers<D, C>)
      returns (goOn: bool, result: D, calls: seq<Call<D, C>>, failures: seq<Call<D, C>>)
    ensures Chain(goOn, result, calls) == Run(registrations, given, handle)
    ensures failures == Failures(calls, handle)
  {
    calls, failures := [], [];
    var current := given;
    for n := 0 to |registrations|
      invariant Run(registrations, given, handle) == Prepend(calls, Run(registrations[n..], current, handle))
      invariant failures == Failures(calls, handle)
    {
      var registration := registrations[n];
      var seen := current;
      RunNext(registrations, n, calls, seen, handle);
      FailuresPush(calls, (registration, seen), handle);
      calls := calls + [(registration, seen)];
      var tried := TryHandler(registration, current, handle);
      current := tried.next;
      if tried.Stopped? {
        return false, current.data, calls, failures;
      }
      if tried.Raised? {
        failures := failures + [(registration, seen)];
      }
    }
    return true, current.data, calls, failures;
  }

  // What is left of a chain from handler n on.
  lemma RunNext<D, C>(registrations: seq<Registration>, n: nat, calls: seq<Call<D, C>>, given: Given<D, C>,
                      handle: Handlers<D, C>)
    requires n < |registrations|
    ensures var call := (registrations[n], given);
      var next := Next(handle(registrations[n].handler, given));
      Prepend(calls, Run(registrations[n..], given, handle))
      == if Stops(call, handle) then Chain(false, next.data, calls + [call])
         else Prepend(calls + [call], Run(registrations[n + 1..], next, handle))
  {
    var next := Next(handle(registrations[n].handler, given));
    assert registrations[n..][1..] == registrations[n + 1..];
    PrependCall(calls, registrations[n], given, Run(registrations[n + 1..], next, handle));
  }

  lemma FailuresPush<D, C>(calls: seq<Call<D, C>>, call: Call<D, C>, handle: Handlers<D, C>)
    ensures Failures(calls + [call], handle) == Failures(calls, handle) + if Fails(call, handle) then [call] else []
  {
    assert (calls + [call])[..|calls|] == calls;
  }

  method Execute<D, C>(registrations: seq<Registration>, data: D, rest: C, handle: Handlers<D, C>)
      returns (goOn: bool, result: D, calls: seq<Call<D, C>>, failures: seq<Call<D, C>>)
    ensures Threaded(registrations, Given(data, rest), handle, goOn, result, calls)
    ensures Swallowed(calls, failures, handle)
    ensures Chain(goOn, result, calls) == Run(registrations, Given(data, rest), handle)
  {
    if |registrations| == 0 {
      return true, data, [], [];
    }
    goOn, result, calls, failures := CallAll(registrations, Given(data, rest), handle);
    RunThreaded(registrations, Given(data, rest), handle);
    FailuresAre(calls, handle);
  }

  function Prepend<D, C>(calls: seq<Call<D, C>>, rest: Chain<D, C>): Chain<D, C> {
    rest.(calls := calls + rest.calls)
  }

  lemma PrependCall<D, C>(calls: seq<Call<D, C>>, r: Registration, given: Given<D, C>, rest: Chain<D, C>)
    ensures Prepend(calls, Called(r, given, rest)) == Prepend(calls + [(r, given)], rest)
  {
    assert calls + ([(r, given)] + rest.calls) == calls + [(r, given)] + rest.calls;
  }

  // ---------- What a chain does ----------

  // What the handler behind xs is given, if the chain gets that far.
  function Reached<D, C>(xs: seq<Registration>, given: Given<D, C>, handle: Handlers<D, C>): Option<Given<D, C>> {
    if xs == [] then Some(given)
    else
      var h := handle(xs[0].handler, given);
      if h.Returned? && !h.goOn then None else Reached(xs[1..], Next(h), handle)
  }

  // A chain over xs + ys is the chain over xs, and if that goes on, the chain over ys on what it leaves.
  lemma {:induction false} RunConcat<D, C>(xs: seq<Registration>, ys: seq<Registration>, given: Given<D, C>,
                                           handle: Handlers<D, C>)
    ensures var first, reached := Run(xs, given, handle), Reached(xs, given, handle);
      && (first.goOn <==> reached.Some?) && (first.goOn ==> reached.value.data == first.data)
      && Run(xs + ys, given, handle)
        == if first.goOn then Prepend(first.calls, Run(ys, reached.value, handle)) else first
    decreases |xs|
  {
    if xs == [] {
      assert xs + ys == ys;
    } else {
      assert (xs + ys)[0] == xs[0] && (xs + ys)[1..] == xs[1..] + ys;
      var next := Next(handle(xs[0].handler, given));
      RunConcat(xs[1..], ys, next, handle);
      var first, reached := Run(xs[1..], next, handle), Reached(xs[1..], next, handle);
      if first.goOn {
        var last := Run(ys, reached.value, handle).calls;
        assert [(xs[0], given)] + (first.calls + last) == [(xs[0], given)] + first.calls + last;
      }
    }
  }

  // With or without r between xs and ys, the chain goes on or stops alike, with the same data, and all other
  // handlers are called alike and given the same.
  ghost predicate Skippable<D, C>(xs: seq<Registration>, r: Registration, ys: seq<Registration>, given: Given<D, C>,
                                  handle: Handlers<D, C>) {
    var present, absent := Run(xs + [r] + ys, given, handle), Run(xs + ys, given, handle);
    match Reached(xs, given, handle)
    case None => present == absent
    case Some(here) =>
      && present.goOn == absent.goOn && present.data == absent.data
      && |xs| <= |absent.calls| && present.calls == absent.calls[..|xs|] + [(r, here)] + absent.calls[|xs|..]
  }

  // A handler that throws where it stands is the identity, whatever follows it, exactly if it left the data and
  // the rest of what handlers share as they were (or is never reached).
  lemma ThrowerIsIdentity<D, C>(xs: seq<Registration>, r: Registration, given: Given<D, C>, handle: Handlers<D, C>)
    requires var reached := Reached(xs, given, handle);
      reached.Some? ==> handle(r.handler, reached.value).Threw?
    ensures var reached := Reached(xs, given, handle);
      (forall ys :: Skippable(xs, r, ys, given, handle)) <==>
        (reached.Some? ==> handle(r.handler, reached.value).left == reached.value)
  {
    var reached := Reached(xs, given, handle);
    if reached.Some? && handle(r.handler, reached.value).left != reached.value {
      SeenApart(xs, r, given, handle);
    } else {
      forall ys ensures Skippable(xs, r, ys, given, handle) {
        Skipped(xs, r, ys, given, handle);
        CalledUpToStop(xs, given, handle);
        if reached.Some? {
          Split(Run(xs, given, handle).calls, Run(ys, reached.value, handle).calls);
        }
      }
    }
  }

  lemma Split<T>(a: seq<T>, b: seq<T>)
    ensures (a + b)[..|a|] == a && (a + b)[|a|..] == b
    ensures forall x :: a + ([x] + b) == a + [x] + b
  {
    forall x ensures a + ([x] + b) == a + [x] + b {}
  }

  // A second r, behind the first, is given what the first left.
  lemma SeenApart<D, C>(xs: seq<Registration>, r: Registration, given: Given<D, C>, handle: Handlers<D, C>)
    requires var reached := Reached(xs, given, handle);
      && reached.Some? && handle(r.handler, reached.value).Threw?
      && handle(r.handler, reached.value).left != reached.value
    ensures !Skippable(xs, r, [r], given, handle)
  {
    var here := Reached(xs, given, handle).value;
    var left := handle(r.handler, here).left;
    var first := Run(xs, given, handle).calls;
    Skipped(xs, r, [r], given, handle);
    CalledUpToStop(xs, given, handle);
    FirstSees(r, left, handle);
    FirstSees(r, here, handle);
    Split(first, Run([r], here, handle).calls);
    var present, absent := Run(xs + [r] + [r], given, handle).calls, Run(xs + [r], given, handle).calls;
    assert present[|first| + 1] == (r, left);
    assert absent[|first|] == (r, here);
    assert |absent| > |xs| && (absent[..|xs|] + [(r, here)] + absent[|xs|..])[|xs| + 1] == absent[|xs|];
  }

  lemma Skipped<D, C>(xs: seq<Registration>, r: Registration, ys: seq<Registration>, given: Given<D, C>,
                      handle: Handlers<D, C>)
    requires var reached := Reached(xs, given, handle);
      reached.Some? ==> handle(r.handler, reached.value).Threw?
    ensures var first, reached := Run(xs, given, handle), Reached(xs, given, handle);
      var present, absent := Run(xs + [r] + ys, given, handle), Run(xs + ys, given, handle);
      && first.goOn == reached.Some?
      && match reached
         case None => present == first == absent
         case Some(here) =>
           && present == Prepend(first.calls, Called(r, here, Run(ys, handle(r.handler, here).left, handle)))
           && absent == Prepend(first.calls, Run(ys, here, handle))
  {
    assert xs + [r] + ys == xs + ([r] + ys);
    RunConcat(xs, [r] + ys, given, handle);
    RunConcat(xs, ys, given, handle);
    assert ([r] + ys)[1..] == ys;
  }

  // A handler is told apart by what it sees.
  lemma FirstSees<D, C>(r: Registration, given: Given<D, C>, handle: Handlers<D, C>)
    ensures var calls := Run([r], given, handle).calls; |calls| > 0 && calls[0] == (r, given)
  {
  }

  // The same handlers, with the errors beside their results dropped.
  function Forgiving<D, C>(handle: Handlers<D, C>): Handlers<D, C> {
    (h: nat, given: Given<D, C>) =>
      match handle(h, given)
      case Threw(left) => Threw(left)
      case Returned(goOn, data, _, left) => Returned(goOn, data, false, left)
  }

  // An error beside a result changes nothing but the list of failures: its data and its decision count.
  // Without such errors, just the throwers fail.
  lemma {:induction false} ErrorsIgnored<D, C>(xs: seq<Registration>, given: Given<D, C>, handle: Handlers<D, C>)
    ensures Run(xs, given, handle) == Run(xs, given, Forgiving(handle))
    ensures forall call <- Run(xs, given, handle).calls ::
      Fails(call, Forgiving(handle)) <==> handle(call.0.handler, call.1).Threw?
  {
    if xs != [] {
      ErrorsIgnored(xs[1..], Next(handle(xs[0].handler, given)), handle);
    }
  }

  lemma {:induction false} RunThreaded<D, C>(xs: seq<Registration>, given: Given<D, C>, handle: Handlers<D, C>)
    ensures var chain := Run(xs, given, handle); Threaded(xs, given, handle, chain.goOn, chain.data, chain.calls)
  {
    if xs != [] {
      var h, call := handle(xs[0].handler, given), (xs[0], given);
      assert Leaves(call, handle, Next(h));
      if h.Threw? || h.goOn {
        RunThreaded(xs[1..], Next(h), handle);
        Prefixed(xs, call, Run(xs[1..], Next(h), handle), Next(h), handle);
      }
    }
  }

  lemma Prefixed<D, C>(xs: seq<Registration>, call: Call<D, C>, rest: Chain<D, C>, next: Given<D, C>,
                       handle: Handlers<D, C>)
    requires xs != [] && call.0 == xs[0] && Leaves(call, handle, next)
    requires handle(call.0.handler, call.1).Threw? || handle(call.0.handler, call.1).goOn
    requires Threaded(xs[1..], next, handle, rest.goOn, rest.data, rest.calls)
    ensures Threaded(xs, call.1, handle, rest.goOn, rest.data, [call] + rest.calls)
  {
    var calls := [call] + rest.calls;
    forall k | 0 <= k < |calls| - 1 ensures Leaves(calls[k], handle, calls[k + 1].1) {
      if k > 0 { assert calls[k] == rest.calls[k - 1] && calls[k + 1] == rest.calls[k]; }
    }
    assert forall k :: 0 < k < |calls| ==> calls[k] == rest.calls[k - 1];
  }

  // The handlers are called in order, each once; the chain stops at the first that says so, and goes on
  // exactly if none does, in which case all were called.
  lemma {:induction false} CalledUpToStop<D, C>(xs: seq<Registration>, given: Given<D, C>, handle: Handlers<D, C>)
    ensures var chain := Run(xs, given, handle);
      var calls := chain.calls;
      && |calls| <= |xs|
      && (forall k :: 0 <= k < |calls| ==> calls[k].0 == xs[k])
      && (forall k :: 0 <= k < |calls| ==> (Stops(calls[k], handle) <==> !chain.goOn && k == |calls| - 1))
      && (chain.goOn ==> |calls| == |xs|)
      && (!chain.goOn ==> calls != [])
  {
    if xs != [] {
      CalledUpToStop(xs[1..], Next(handle(xs[0].handler, given)), handle);
    }
  }
}
