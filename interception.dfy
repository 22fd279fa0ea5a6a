/** The error-interception operator `shootError` and its chains.

    A source is a list of runs: the n-th subscription to the source replays
    the n-th run, which emits its values and then completes or fails.
    Subscribing past the last listed run yields `Exhausted`, which marks the
    end of what a model trace observes. A pipeline is the source wrapped in
    any number of interception stages; a subscription to a pipeline starting
    at run `pos` produces an `Outcome`: the values forwarded, how the output
    ended, the index of the next unused run, and the calls the outermost
    stage made to its shooter. */
module Interception {
  import opened Errors
  import opened ErrorShooting

  datatype RunEnd = Complete | Fail(error: Error)

  /** What one subscription to the source emits. */
  datatype Run<T> = Run(values: seq<T>, end: RunEnd)

  datatype End = Completed | Failed(error: Error) | Exhausted

  /** One interception stage: the error type it targets and its shooter. */
  datatype Stage = Stage(target: Target, shooter: Shooter)

  datatype Pipeline = Source | Shoot(inner: Pipeline, stage: Stage)

  /** One call of a stage's shooter and the reply it gave. */
  datatype Call = Call(error: Error, attempt: nat, reply: Reply)

  datatype Outcome<T> = Outcome(values: seq<T>, end: End, next: nat, calls: seq<Call>)

  /** What the stage does with a reply: subscribe again, or end its output. */
  datatype Step = Resubscribe | Finish(end: End)

  /** The `takeWhile` over shots: a miss keeps the retry loop going, a hit
      and a failing shooter end the output with that error, a sink ends it
      with completion. Every reply has exactly one meaning. */
  function Interpret(reply: Reply): (s: Step)
    ensures s == Resubscribe <==> reply == Answer(Miss)
    ensures s == Finish(Completed) <==> reply == Answer(Sink)
    ensures s.Finish? && s.end.Failed? <==> reply.Raise? || (reply.Answer? && reply.shot.Hit?)
    ensures s.Finish? && s.end.Failed? && reply.Raise? ==> s.end.error == reply.failure
    ensures s.Finish? && s.end.Failed? && reply.Answer? ==> s.end.error == reply.shot.error
    ensures s != Finish(Exhausted)
  {
    match reply
    case Raise(e) => Finish(Failed(e))
    case Answer(shot) =>
      match shot
      case Miss => Resubscribe
      case Hit(e) => Finish(Failed(e))
      case Sink => Finish(Completed)
  }

  /** One subscription to `p` starting at run `pos`. */
  function Trace<T>(p: Pipeline, runs: seq<Run<T>>, pos: nat): (r: Outcome<T>)
    requires pos <= |runs|
    ensures pos <= r.next <= |runs|
    ensures r.end != Exhausted ==> pos < r.next
    decreases p, 0
  {
    match p
    case Source =>
      if pos == |runs| then Outcome([], Exhausted, pos, [])
      else
        var run := runs[pos];
        Outcome(run.values, if run.end.Complete? then Completed else Failed(run.end.error), pos + 1, [])
    case Shoot(inner, st) => StageTrace(inner, st, runs, pos, 0)
  }

  /** The retry loop of one stage subscription: subscribe to `inner` at
      `pos`; a failure the stage does not target is forwarded, a targeted
      one goes to the shooter with the current attempt number. */
  function StageTrace<T>(inner: Pipeline, st: Stage, runs: seq<Run<T>>, pos: nat, attempt: nat): (r: Outcome<T>)
    requires pos <= |runs|
    ensures pos <= r.next <= |runs|
    ensures r.end != Exhausted ==> pos < r.next
    decreases inner, |runs| - pos + 1
  {
    var o := Trace(inner, runs, pos);
    if !o.end.Failed? || !Matches(st.target, o.end.error) then
      Outcome(o.values, o.end, o.next, [])
    else
      var reply := st.shooter(o.end.error, attempt);
      var call := Call(o.end.error, attempt, reply);
      match Interpret(reply)
      case Resubscribe =>
        var rest := StageTrace(inner, st, runs, o.next, attempt + 1);
        Outcome(o.values + rest.values, rest.end, rest.next, [call] + rest.calls)
      case Finish(end) => Outcome(o.values, end, o.next, [call])
  }

  /** `shootError(shooter:)` with an explicit target type. */
  function ShootError(p: Pipeline, target: Target, shooter: Shooter): (q: Pipeline)
    ensures q.Shoot? && q.inner == p
    ensures q.stage.target == target
    ensures forall e: Error, a: nat :: q.stage.shooter(e, a) == shooter(e, a)
  {
    Shoot(p, Stage(target, shooter))
  }

  /** `shootError(shooter:)` whose shooter takes any `Error`: the stage
      targets every error. */
  function ShootAnyError(p: Pipeline, shooter: Shooter): (q: Pipeline)
    ensures q.Shoot? && q.inner == p
    ensures forall e :: Matches(q.stage.target, e)
    ensures forall e: Error, a: nat :: q.stage.shooter(e, a) == shooter(e, a)
  {
    ShootError(p, AnyError, shooter)
  }

  /** `shootError(with:)`: an `ErrorShooting` object adapted to a shooter. */
  function ShootErrorWith(p: Pipeline, target: Target, shoot: CallbackShooter): (q: Pipeline)
    ensures q.Shoot? && q.inner == p
    ensures q.stage.target == target
    ensures forall e: Error, a: nat :: q.stage.shooter(e, a) == Answer(shoot(e, a))
  {
    ShootError(p, target, FromCallback(shoot))
  }

  /** `values` and `calls` already produced, followed by outcome `o`. */
  function Prepend<T>(values: seq<T>, calls: seq<Call>, o: Outcome<T>): Outcome<T>
  {
    Outcome(values + o.values, o.end, o.next, calls + o.calls)
  }

  /** Subscribes to `p`: the source hands out its next run; a stage runs its
      retry loop with a fresh attempt counter for this subscription. */
  method Subscribe<T>(p: Pipeline, runs: seq<Run<T>>, pos: nat) returns (r: Outcome<T>)
    requires pos <= |runs|
    ensures r == Trace(p, runs, pos)
    decreases p
  {
    match p
    case Source =>
      if pos == |runs| {
        r := Outcome([], Exhausted, pos, []);
      } else {
        var run := runs[pos];
        var end := if run.end.Complete? then Completed else Failed(run.end.error);
        r := Outcome(run.values, end, pos + 1, []);
      }
    case Shoot(inner, st) =>
      var values: seq<T> := [];
      var calls: seq<Call> := [];
      var attempt: nat := 0;
      var cur := pos;
      while true
        invariant pos <= cur <= |runs|
        invariant Trace(p, runs, pos) == Prepend(values, calls, StageTrace(inner, st, runs, cur, attempt))
        decreases |runs| - cur
      {
        var o := Subscribe(inner, runs, cur);
        values := values + o.values;
        if !o.end.Failed? || !Matches(st.target, o.end.error) {
          return Outcome(values, o.end, o.next, calls);
        }
        var error := o.end.error;
        var reply := st.shooter(error, attempt);
        calls := calls + [Call(error, attempt, reply)];
        match reply
        case Answer(Miss) =>
          attempt, cur := attempt + 1, o.next;
        case Answer(Hit(e)) =>
          return Outcome(values, Failed(e), o.next, calls);
        case Answer(Sink) =>
          return Outcome(values, Completed, o.next, calls);
        case Raise(e) =>
          return Outcome(values, Failed(e), o.next, calls);
      }
  }

  /** Concatenation of the values of a list of runs. */
  function Emitted<T>(rs: seq<Run<T>>): seq<T>
  {
    if rs == [] then [] else rs[0].values + Emitted(rs[1..])
  }

  lemma {:induction false} EmittedSplit<T>(rs: seq<Run<T>>, i: nat, j: nat, k: nat)
    requires i <= j <= k <= |rs|
    ensures Emitted(rs[i..k]) == Emitted(rs[i..j]) + Emitted(rs[j..k])
    decreases j - i
  {
    if i < j {
      assert rs[i..k][1..] == rs[i + 1..k];
      assert rs[i..j][1..] == rs[i + 1..j];
      EmittedSplit(rs, i + 1, j, k);
    } else {
      assert rs[i..j] == [];
    }
  }

  /** Nothing is lost, duplicated or reordered: any pipeline forwards
      exactly the values of the runs it consumed, in order. */
  lemma {:induction false} TraceValues<T>(p: Pipeline, runs: seq<Run<T>>, pos: nat)
    requires pos <= |runs|
    ensures Trace(p, runs, pos).values == Emitted(runs[pos..Trace(p, runs, pos).next])
    decreases p, 0
  {
    match p
    case Source =>
      if pos < |runs| {
        assert runs[pos..pos + 1] == [runs[pos]];
        assert runs[pos..pos + 1][1..] == [];
      } else {
        assert runs[pos..pos] == [];
      }
    case Shoot(inner, st) =>
      StageValues(inner, st, runs, pos, 0);
  }

  lemma {:induction false} StageValues<T>(inner: Pipeline, st: Stage, runs: seq<Run<T>>, pos: nat, attempt: nat)
    requires pos <= |runs|
    ensures StageTrace(inner, st, runs, pos, attempt).values
         == Emitted(runs[pos..StageTrace(inner, st, runs, pos, attempt).next])
    decreases inner, |runs| - pos + 1
  {
    var o := Trace(inner, runs, pos);
    TraceValues(inner, runs, pos);
    if o.end.Failed? && Matches(st.target, o.end.error) {
      var reply := st.shooter(o.end.error, attempt);
      if Interpret(reply) == Resubscribe {
        var rest := StageTrace(inner, st, runs, o.next, attempt + 1);
        StageValues(inner, st, runs, o.next, attempt + 1);
        EmittedSplit(runs, pos, o.next, rest.next);
      }
    }
  }

  /** The calls a stage subscription made, starting from attempt `first`:
      consecutive attempt numbers, only targeted errors, each reply the
      shooter's answer to that error and attempt, every call but the last a
      miss. */
  ghost predicate CallsInOrder(calls: seq<Call>, st: Stage, first: nat)
  {
    (forall i :: 0 <= i < |calls| ==>
       calls[i].attempt == first + i &&
       Matches(st.target, calls[i].error) &&
       calls[i].reply == st.shooter(calls[i].error, first + i)) &&
    (forall i :: 0 <= i < |calls| - 1 ==> calls[i].reply == Answer(Miss))
  }

  /** Within one subscription of a stage the shooter sees attempts
      `attempt`, `attempt + 1`, ... in order, only for targeted errors, and
      every call but the last was answered with a miss. */
  lemma {:induction false} StageCalls<T>(inner: Pipeline, st: Stage, runs: seq<Run<T>>, pos: nat, attempt: nat)
    requires pos <= |runs|
    ensures CallsInOrder(StageTrace(inner, st, runs, pos, attempt).calls, st, attempt)
    decreases |runs| - pos
  {
    var o := Trace(inner, runs, pos);
    if o.end.Failed? && Matches(st.target, o.end.error) {
      var reply := st.shooter(o.end.error, attempt);
      if Interpret(reply) == Resubscribe {
        var rest := StageTrace(inner, st, runs, o.next, attempt + 1);
        StageCalls(inner, st, runs, o.next, attempt + 1);
        var calls := StageTrace(inner, st, runs, pos, attempt).calls;
        assert calls == [Call(o.end.error, attempt, reply)] + rest.calls;
        forall i | 1 <= i < |calls|
          ensures calls[i].attempt == attempt + i
          ensures calls[i].reply == st.shooter(calls[i].error, attempt + i)
        {
          assert calls[i] == rest.calls[i - 1];
          assert attempt + 1 + (i - 1) == attempt + i;
        }
      }
    }
  }

  /** Where the (k+1)-th subscription to `inner` made by one stage loop
      begins: the first at `pos`, each later one at the run after the
      previous subscription ended. */
  function SubscriptionStart<T>(inner: Pipeline, runs: seq<Run<T>>, pos: nat, k: nat): (s: nat)
    requires pos <= |runs|
    ensures pos <= s <= |runs|
    ensures k > 0 && Trace(inner, runs, pos).end != Exhausted ==> pos < s
    ensures k > 0 ==> s == Trace(inner, runs, SubscriptionStart(inner, runs, pos, k - 1)).next
    decreases k
  {
    if k == 0 then pos else SubscriptionStart(inner, runs, Trace(inner, runs, pos).next, k - 1)
  }

  /** Call i answers the error that ended the (i+1)-th subscription to
      `inner` made from `pos`. */
  ghost predicate CallsAnswerSubscriptions<T>(calls: seq<Call>, inner: Pipeline, runs: seq<Run<T>>, pos: nat)
    requires pos <= |runs|
  {
    forall i :: 0 <= i < |calls| ==>
      Trace(inner, runs, SubscriptionStart(inner, runs, pos, i)).end == Failed(calls[i].error)
  }

  /** Each shooter call of a stage loop answers the error that ended the
      matching subscription to the inner pipeline. */
  lemma {:induction false} StageCallErrors<T>(inner: Pipeline, st: Stage, runs: seq<Run<T>>, pos: nat, attempt: nat)
    requires pos <= |runs|
    ensures CallsAnswerSubscriptions(StageTrace(inner, st, runs, pos, attempt).calls, inner, runs, pos)
    decreases |runs| - pos
  {
    var o := Trace(inner, runs, pos);
    if o.end.Failed? && Matches(st.target, o.end.error) {
      var reply := st.shooter(o.end.error, attempt);
      var calls := StageTrace(inner, st, runs, pos, attempt).calls;
      if Interpret(reply) == Resubscribe {
        var rest := StageTrace(inner, st, runs, o.next, attempt + 1);
        StageCallErrors(inner, st, runs, o.next, attempt + 1);
        assert calls == [Call(o.end.error, attempt, reply)] + rest.calls;
        forall i | 0 <= i < |calls|
          ensures Trace(inner, runs, SubscriptionStart(inner, runs, pos, i)).end == Failed(calls[i].error)
        {
          if i > 0 {
            assert calls[i] == rest.calls[i - 1];
            assert SubscriptionStart(inner, runs, pos, i) == SubscriptionStart(inner, runs, o.next, i - 1);
          }
        }
      }
    }
  }

  /** Every subscription of a stage numbers its shooter calls from 0, so an
      outer miss that resubscribes an inner stage restarts the inner count. */
  lemma AttemptNumbering<T>(inner: Pipeline, st: Stage, runs: seq<Run<T>>, pos: nat)
    requires pos <= |runs|
    ensures CallsInOrder(Trace(Shoot(inner, st), runs, pos).calls, st, 0)
    ensures CallsAnswerSubscriptions(Trace(Shoot(inner, st), runs, pos).calls, inner, runs, pos)
  {
    StageCalls(inner, st, runs, pos, 0);
    StageCallErrors(inner, st, runs, pos, 0);
  }

  /** A source subscription that never fails passes through every stage of
      any chain unchanged: same values, completion, one run consumed and no
      shooter called. */
  lemma {:induction false} NoFailurePassesThrough<T>(p: Pipeline, runs: seq<Run<T>>, pos: nat)
    requires pos < |runs| && runs[pos].end == Complete
    ensures Trace(p, runs, pos) == Outcome(runs[pos].values, Completed, pos + 1, [])
  {
    match p
    case Source =>
    case Shoot(inner, st) =>
      NoFailurePassesThrough(inner, runs, pos);
  }

  /** An error the stage does not target is rethrown unchanged, without a
      shooter call, whether it ends the first subscription or one made after
      any number of misses. */
  lemma UnmatchedPassesThrough<T>(inner: Pipeline, st: Stage, runs: seq<Run<T>>, pos: nat, attempt: nat)
    requires pos <= |runs|
    requires Trace(inner, runs, pos).end.Failed?
    requires !Matches(st.target, Trace(inner, runs, pos).end.error)
    ensures var o := Trace(inner, runs, pos);
      StageTrace(inner, st, runs, pos, attempt) == Outcome(o.values, Failed(o.end.error), o.next, [])
  {
  }

  /** A miss resubscribes to the inner pipeline at the next unused run: the
      output is the failed subscription's values followed by those of the
      retry, with the next attempt number. */
  lemma MissResubscribes<T>(inner: Pipeline, st: Stage, runs: seq<Run<T>>, pos: nat, attempt: nat)
    requires pos <= |runs|
    requires var o := Trace(inner, runs, pos);
      o.end.Failed? && Matches(st.target, o.end.error) && st.shooter(o.end.error, attempt) == Answer(Miss)
    ensures var o := Trace(inner, runs, pos);
      var rest := StageTrace(inner, st, runs, o.next, attempt + 1);
      StageTrace(inner, st, runs, pos, attempt)
        == Outcome(o.values + rest.values, rest.end, rest.next, [Call(o.end.error, attempt, Answer(Miss))] + rest.calls)
  {
  }

  /** A hit ends the output with the hit's error, whatever error triggered it. */
  lemma HitFails<T>(inner: Pipeline, st: Stage, runs: seq<Run<T>>, pos: nat, attempt: nat, e: Error)
    requires pos <= |runs|
    requires var o := Trace(inner, runs, pos);
      o.end.Failed? && Matches(st.target, o.end.error) && st.shooter(o.end.error, attempt) == Answer(Hit(e))
    ensures var o := Trace(inner, runs, pos);
      StageTrace(inner, st, runs, pos, attempt)
        == Outcome(o.values, Failed(e), o.next, [Call(o.end.error, attempt, Answer(Hit(e)))])
  {
  }

  /** A sink completes the output, keeping the values emitted before the failure. */
  lemma SinkCompletes<T>(inner: Pipeline, st: Stage, runs: seq<Run<T>>, pos: nat, attempt: nat)
    requires pos <= |runs|
    requires var o := Trace(inner, runs, pos);
      o.end.Failed? && Matches(st.target, o.end.error) && st.shooter(o.end.error, attempt) == Answer(Sink)
    ensures var o := Trace(inner, runs, pos);
      StageTrace(inner, st, runs, pos, attempt)
        == Outcome(o.values, Completed, o.next, [Call(o.end.error, attempt, Answer(Sink))])
  {
  }

  /** A shooter that fails ends the output with its own failure. */
  lemma ShooterFailurePropagates<T>(inner: Pipeline, st: Stage, runs: seq<Run<T>>, pos: nat, attempt: nat, e: Error)
    requires pos <= |runs|
    requires var o := Trace(inner, runs, pos);
      o.end.Failed? && Matches(st.target, o.end.error) && st.shooter(o.end.error, attempt) == Raise(e)
    ensures Trace(inner, runs, pos).next == StageTrace(inner, st, runs, pos, attempt).next
    ensures StageTrace(inner, st, runs, pos, attempt).end == Failed(e)
  {
  }

  /** A stage whose shooter never hits nor fails on the errors it targets
      lets out only the failures it does not target: after a sink no error
      leaves the stage. */
  lemma {:induction false} NoHitNoTargetedFailure<T>(inner: Pipeline, st: Stage, runs: seq<Run<T>>, pos: nat, attempt: nat)
    requires pos <= |runs|
    requires forall e: Error, a: nat :: Matches(st.target, e) ==> st.shooter(e, a) in {Answer(Miss), Answer(Sink)}
    ensures var r := StageTrace(inner, st, runs, pos, attempt);
      r.end.Failed? ==> !Matches(st.target, r.end.error)
    decreases |runs| - pos
  {
    var o := Trace(inner, runs, pos);
    if o.end.Failed? && Matches(st.target, o.end.error) {
      var reply := st.shooter(o.end.error, attempt);
      if reply == Answer(Miss) {
        NoHitNoTargetedFailure(inner, st, runs, o.next, attempt + 1);
      }
    }
  }

  /** Chaining: whatever failure ends the inner stage (a rethrown error or a
      hit's error) arrives at the outer stage as an ordinary error, which may
      target and sink it. */
  lemma ChainedSinkCatchesInnerFailure<T>(p: Pipeline, a: Stage, b: Stage, runs: seq<Run<T>>, pos: nat)
    requires pos <= |runs|
    requires var o := Trace(Shoot(p, a), runs, pos);
      o.end.Failed? && Matches(b.target, o.end.error) && b.shooter(o.end.error, 0) == Answer(Sink)
    ensures var o := Trace(Shoot(p, a), runs, pos);
      Trace(Shoot(Shoot(p, a), b), runs, pos)
        == Outcome(o.values, Completed, o.next, [Call(o.end.error, 0, Answer(Sink))])
  {
  }

  /** A stage over the bare source subscribes once per shooter call, plus
      once more when its last call was a miss (or it made none); call i
      answers the failure of run `pos + i`. */
  lemma {:induction false} SourceStageSubscriptions<T>(st: Stage, runs: seq<Run<T>>, pos: nat, attempt: nat)
    requires pos <= |runs|
    ensures var r := StageTrace(Source, st, runs, pos, attempt);
      |r.calls| <= r.next - pos <= |r.calls| + 1
    ensures var r := StageTrace(Source, st, runs, pos, attempt);
      |r.calls| > 0 && r.calls[|r.calls| - 1].reply != Answer(Miss) ==> r.next - pos == |r.calls|
    ensures var r := StageTrace(Source, st, runs, pos, attempt);
      forall i :: 0 <= i < |r.calls| ==> runs[pos + i].end == Fail(r.calls[i].error)
    decreases |runs| - pos
  {
    var o := Trace(Source, runs, pos);
    if o.end.Failed? && Matches(st.target, o.end.error) {
      var reply := st.shooter(o.end.error, attempt);
      if Interpret(reply) == Resubscribe {
        var rest := StageTrace(Source, st, runs, o.next, attempt + 1);
        SourceStageSubscriptions(st, runs, o.next, attempt + 1);
        var r := StageTrace(Source, st, runs, pos, attempt);
        assert r.calls == [Call(o.end.error, attempt, reply)] + rest.calls;
        if |rest.calls| > 0 {
          assert r.calls[|r.calls| - 1] == rest.calls[|rest.calls| - 1];
        }
        forall i | 1 <= i < |r.calls|
          ensures runs[pos + i].end == Fail(r.calls[i].error)
        {
          assert r.calls[i] == rest.calls[i - 1];
          assert pos + i == o.next + (i - 1);
        }
      }
    }
  }
}
