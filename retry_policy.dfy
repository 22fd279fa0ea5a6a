/** The prebuilt two-stage policy `retryThenSinkError`: retry retriable
    errors while they allow it and under a cap, then sink; sink every other
    error of a target type. */
module RetryThenSink {
  import opened Errors
  import opened ErrorShooting
  import opened Interception

  /** Swift's `Int.max` on a 64-bit platform, the default cap. */
  const IntMax: int := 0x7fff_ffff_ffff_ffff

  /** Number of subscriptions the retry stage allows: `maxAttempts`, and at
      least the first one. */
  function AllowedSubscriptions(maxAttempts: int): (n: nat)
    ensures n >= 1 && n >= maxAttempts
    ensures n == 1 || n == maxAttempts
  {
    if maxAttempts < 1 then 1 else maxAttempts
  }

  /** The first stage's shooter: miss iff the error can be retried and the
      attempt is below `maxAttempts - 1`, sink otherwise. */
  function RetryShooter(maxAttempts: int): (s: Shooter)
    ensures forall e: Error, a: nat :: s(e, a) == Answer(Miss) <==> CanRetry(e) && a < maxAttempts - 1
    ensures forall e: Error, a: nat :: s(e, a) == Answer(Miss) || s(e, a) == Answer(Sink)
  {
    (e: Error, a: nat) => if CanRetry(e) && a < maxAttempts - 1 then Answer(Miss) else Answer(Sink)
  }

  /** The second stage's shooter: always sink. */
  function SinkShooter(): (s: Shooter)
    ensures forall e: Error, a: nat :: s(e, a) == Answer(Sink)
  {
    (e: Error, a: nat) => Answer(Sink)
  }

  function RetryStage(maxAttempts: int): Stage
  {
    Stage(Retriable, RetryShooter(maxAttempts))
  }

  function SinkStage(target: Target): Stage
  {
    Stage(target, SinkShooter())
  }

  /** `retryThenSinkError(targetType:maxAttempts:)`. */
  function RetryThenSinkError(p: Pipeline, target: Target, maxAttempts: int := IntMax): (q: Pipeline)
    ensures q.Shoot? && q.inner.Shoot? && q.inner.inner == p
    ensures q.inner.stage.target == Retriable && q.stage.target == target
    ensures q == Shoot(Shoot(p, RetryStage(maxAttempts)), SinkStage(target))
  {
    ShootError(ShootError(p, Retriable, RetryShooter(maxAttempts)), target, SinkShooter())
  }

  /** `retryThenSinkError(maxAttempts:)`: the second stage targets `Error`. */
  function RetryThenSinkAnyError(p: Pipeline, maxAttempts: int := IntMax): (q: Pipeline)
    ensures q.Shoot? && q.inner.Shoot? && q.inner.inner == p
    ensures forall e :: Matches(q.stage.target, e)
    ensures q == RetryThenSinkError(p, AnyError, maxAttempts)
  {
    RetryThenSinkError(p, AnyError, maxAttempts)
  }

  /** The retry stage misses exactly on retriable errors with `canRetry`
      set, while the attempt is below `maxAttempts - 1`; otherwise it sinks.
      It never fails on a retriable error itself: any failure it lets out is
      of an error that is not retriable. */
  lemma RetryStageDecisions<T>(p: Pipeline, maxAttempts: int, runs: seq<Run<T>>, pos: nat)
    requires pos <= |runs|
    ensures var r := Trace(Shoot(p, RetryStage(maxAttempts)), runs, pos);
      forall i :: 0 <= i < |r.calls| ==>
        (r.calls[i].reply == Answer(Miss) <==> CanRetry(r.calls[i].error) && i < maxAttempts - 1) &&
        (r.calls[i].reply == Answer(Miss) || r.calls[i].reply == Answer(Sink))
    ensures var r := Trace(Shoot(p, RetryStage(maxAttempts)), runs, pos);
      r.end.Failed? ==> !Matches(Retriable, r.end.error)
  {
    var st := RetryStage(maxAttempts);
    AttemptNumbering(p, st, runs, pos);
    NoHitNoTargetedFailure(p, st, runs, pos, 0);
  }

  /** Subscribed directly to a source, the retry stage subscribes at most
      `max(maxAttempts, 1)` times, whatever the errors: a cap of 0 or 1
      means no retry at all. */
  lemma RetrySubscriptionBound<T>(maxAttempts: int, runs: seq<Run<T>>, pos: nat)
    requires pos <= |runs|
    ensures Trace(Shoot(Source, RetryStage(maxAttempts)), runs, pos).next - pos
         <= AllowedSubscriptions(maxAttempts)
  {
    var st := RetryStage(maxAttempts);
    var r := Trace(Shoot(Source, st), runs, pos);
    StageCalls(Source, st, runs, pos, 0);
    SourceStageSubscriptions(st, runs, pos, 0);
    var n := |r.calls|;
    if n > 0 {
      if r.calls[n - 1].reply == Answer(Miss) {
        assert n - 1 < maxAttempts - 1;
      } else if n >= 2 {
        assert r.calls[n - 2].reply == Answer(Miss);
        assert n - 2 < maxAttempts - 1;
      }
    }
  }

  /** Against a source that keeps failing with one retriable error whose
      `canRetry` is set, the retry stage subscribes exactly
      `max(maxAttempts, 1)` times from attempt `k` on, then sinks. */
  lemma {:induction false} RetryUntilCap<T>(maxAttempts: int, e: Error, runs: seq<Run<T>>, pos: nat, k: nat)
    requires CanRetry(e) && k < AllowedSubscriptions(maxAttempts)
    requires pos + (AllowedSubscriptions(maxAttempts) - k) <= |runs|
    requires forall j :: pos <= j < |runs| ==> runs[j].end == Fail(e)
    ensures var r := StageTrace(Source, RetryStage(maxAttempts), runs, pos, k);
      r.end == Completed &&
      r.next == pos + (AllowedSubscriptions(maxAttempts) - k) &&
      |r.calls| == AllowedSubscriptions(maxAttempts) - k
    decreases AllowedSubscriptions(maxAttempts) - k
  {
    var st := RetryStage(maxAttempts);
    var o := Trace(Source, runs, pos);
    assert o.end == Failed(e) && o.next == pos + 1;
    if k < maxAttempts - 1 {
      assert st.shooter(e, k) == Answer(Miss);
      RetryUntilCap(maxAttempts, e, runs, pos + 1, k + 1);
    } else {
      assert st.shooter(e, k) == Answer(Sink);
    }
  }

  /** The policy over a source subscribes at most `max(maxAttempts, 1)`
      times, whatever the errors: its second stage never resubscribes. */
  lemma PolicySubscriptionBound<T>(target: Target, maxAttempts: int, runs: seq<Run<T>>, pos: nat)
    requires pos <= |runs|
    ensures Trace(RetryThenSinkError(Source, target, maxAttempts), runs, pos).next - pos
         <= AllowedSubscriptions(maxAttempts)
  {
    var inner := Shoot(Source, RetryStage(maxAttempts));
    RetrySubscriptionBound(maxAttempts, runs, pos);
    assert Trace(RetryThenSinkError(Source, target, maxAttempts), runs, pos).next == Trace(inner, runs, pos).next;
  }

  /** The policy over a source that keeps failing with a retriable error
      whose `canRetry` is set subscribes exactly `max(maxAttempts, 1)`
      times, then completes gracefully. */
  lemma PolicyRetriesUntilCap<T>(target: Target, maxAttempts: int, e: Error, runs: seq<Run<T>>, pos: nat)
    requires CanRetry(e)
    requires pos + AllowedSubscriptions(maxAttempts) <= |runs|
    requires forall j :: pos <= j < |runs| ==> runs[j].end == Fail(e)
    ensures var r := Trace(RetryThenSinkError(Source, target, maxAttempts), runs, pos);
      r.end == Completed && r.next == pos + AllowedSubscriptions(maxAttempts)
  {
    var inner := Shoot(Source, RetryStage(maxAttempts));
    RetryUntilCap(maxAttempts, e, runs, pos, 0);
    assert Trace(inner, runs, pos) == StageTrace(Source, RetryStage(maxAttempts), runs, pos, 0);
    assert Trace(RetryThenSinkError(Source, target, maxAttempts), runs, pos).end == Trace(inner, runs, pos).end;
  }

  /** A retriable error that forbids retrying, or any retriable error under
      a cap of at most 1, is sunk at once: one subscription, one call. */
  lemma SinkAtOnce<T>(maxAttempts: int, runs: seq<Run<T>>, pos: nat, e: Error)
    requires pos < |runs| && runs[pos].end == Fail(e)
    requires e.canRetry == Some(false) || (e.canRetry.Some? && maxAttempts <= 1)
    ensures Trace(Shoot(Source, RetryStage(maxAttempts)), runs, pos)
         == Outcome(runs[pos].values, Completed, pos + 1, [Call(e, 0, Answer(Sink))])
  {
  }

  /** The second stage never misses: every call it makes is a sink. */
  lemma SinkStageOnlySinks<T>(p: Pipeline, target: Target, maxAttempts: int, runs: seq<Run<T>>, pos: nat)
    requires pos <= |runs|
    ensures var r := Trace(RetryThenSinkError(p, target, maxAttempts), runs, pos);
      |r.calls| <= 1 && forall i :: 0 <= i < |r.calls| ==> r.calls[i].reply == Answer(Sink)
  {
    var inner := ShootError(p, Retriable, RetryShooter(maxAttempts));
    var r := Trace(RetryThenSinkError(p, target, maxAttempts), runs, pos);
    assert RetryThenSinkError(p, target, maxAttempts) == Shoot(inner, SinkStage(target));
    AttemptNumbering(inner, SinkStage(target), runs, pos);
    assert CallsInOrder(r.calls, SinkStage(target), 0);
  }

  /** A non-retriable error of the target type is sunk on its first
      occurrence, without any retry. */
  lemma NonRetriableSunkAtOnce<T>(target: Target, maxAttempts: int, runs: seq<Run<T>>, pos: nat, e: Error)
    requires pos < |runs| && runs[pos].end == Fail(e)
    requires e.canRetry.None? && Matches(target, e)
    ensures Trace(RetryThenSinkError(Source, target, maxAttempts), runs, pos)
         == Outcome(runs[pos].values, Completed, pos + 1, [Call(e, 0, Answer(Sink))])
  {
    var inner := Shoot(Source, RetryStage(maxAttempts));
    assert RetryThenSinkError(Source, target, maxAttempts) == Shoot(inner, SinkStage(target));
    assert Trace(inner, runs, pos) == Outcome(runs[pos].values, Failed(e), pos + 1, []);
  }

  /** With the default target `Error`, the policy's output never ends in
      failure, over any pipeline. */
  lemma AnyErrorNeverFails<T>(p: Pipeline, maxAttempts: int, runs: seq<Run<T>>, pos: nat)
    requires pos <= |runs|
    ensures !Trace(RetryThenSinkAnyError(p, maxAttempts), runs, pos).end.Failed?
  {
    var inner := ShootError(p, Retriable, RetryShooter(maxAttempts));
    NoHitNoTargetedFailure(inner, SinkStage(AnyError), runs, pos, 0);
  }
}
