/** The library's documented behaviours on concrete sources: the operator's
    specification examples and the example application's handler chain. */
module Scenarios {
  import opened Errors
  import opened ErrorShooting
  import opened Interception
  import opened RetryThenSink

  /** A plain error type that adopts no trait. */
  const ErrorStub: Error := Error(0, None, false)
  /** A describable error type. */
  const AnotherErrorStub: Error := Error(1, None, true)
  /** The example application's retriable, describable error. */
  const RichError: Error := Error(2, Some(true), true)

  /** `Observable.error(ErrorStub())`, subscribed `n` times. */
  function AlwaysFailing(n: nat): (runs: seq<Run<int>>)
    ensures |runs| == n && forall j :: 0 <= j < n ==> runs[j] == Run([], Fail(ErrorStub))
  {
    seq(n, _ => Run([], Fail(ErrorStub)))
  }

  /** An error that is not of the target type leaves the source unaffected. */
  lemma OffTargetErrorRethrown()
    ensures Trace(ShootError(Source, OfType(AnotherErrorStub.typeId), SinkShooter()), AlwaysFailing(1), 0)
         == Outcome([], Failed(ErrorStub), 1, [])
  {
  }

  /** The shooter sees attempt 0 then attempt 1; missing once and sinking
      the second time leaves an empty, successful output. */
  lemma AttemptsPassedToShooter()
    ensures var shooter := (e: Error, a: nat) => if a == 1 then Answer(Sink) else Answer(Miss);
      Trace(ShootAnyError(Source, shooter), AlwaysFailing(2), 0)
        == Outcome([], Completed, 2, [Call(ErrorStub, 0, Answer(Miss)), Call(ErrorStub, 1, Answer(Sink))])
  {
  }

  /** A miss restarts the source: a first subscription that fails and a
      second that emits 2 give exactly [2]. */
  lemma MissRestartsSource()
    ensures var runs := [Run([], Fail(ErrorStub)), Run([2], Complete)];
      Trace(ShootAnyError(Source, (e: Error, a: nat) => Answer(Miss)), runs, 0)
        == Outcome([2], Completed, 2, [Call(ErrorStub, 0, Answer(Miss))])
  {
    var runs := [Run([], Fail(ErrorStub)), Run([2], Complete)];
    var st := Stage(AnyError, (e: Error, a: nat) => Answer(Miss));
    assert StageTrace(Source, st, runs, 1, 1) == Outcome([2], Completed, 2, []);
  }

  /** A hit sends its error on to the next observer. */
  lemma HitSendsError()
    ensures Trace(ShootError(Source, OfType(ErrorStub.typeId), (e: Error, a: nat) => Answer(Hit(e))), AlwaysFailing(1), 0).end
         == Failed(ErrorStub)
  {
  }

  /** A sink recovers: the values before the error are kept and the output
      completes. */
  lemma SinkRecovers()
    ensures Trace(ShootAnyError(Source, SinkShooter()), [Run([2], Fail(ErrorStub))], 0)
         == Outcome([2], Completed, 1, [Call(ErrorStub, 0, Answer(Sink))])
  {
  }

  /** Without errors the source is unaffected, even by a shooter that would hit. */
  lemma NoErrorsUnaffected()
    ensures Trace(ShootAnyError(Source, (e: Error, a: nat) => Answer(Hit(e))), [Run([1, 2], Complete)], 0)
         == Outcome([1, 2], Completed, 1, [])
  {
  }

  /** The example application's logger: it always rethrows what it logs. */
  function Logger(): (s: CallbackShooter)
    ensures forall e: Error, a: nat :: s(e, a) == Hit(e)
  {
    (e: Error, a: nat) => Hit(e)
  }

  /** The example chain without its interactive first stage: a logger that
      hits on describable errors, a stage that sinks every error, then the
      retry policy with a cap of 0. The logger's hit reaches the sinking
      stage, which recovers, so the chain completes. */
  lemma LoggedErrorIsSunk()
    ensures var runs: seq<Run<int>> := [Run([], Fail(RichError))];
      var logged := ShootErrorWith(Source, Describable, Logger());
      var chain := RetryThenSinkAnyError(ShootAnyError(logged, SinkShooter()), 0);
      Trace(logged, runs, 0) == Outcome([], Failed(RichError), 1, [Call(RichError, 0, Answer(Hit(RichError)))]) &&
      Trace(chain, runs, 0).end == Completed
  {
    var runs: seq<Run<int>> := [Run([], Fail(RichError))];
    var logged := ShootErrorWith(Source, Describable, Logger());
    var sunk := ShootAnyError(logged, SinkShooter());
    assert Trace(logged, runs, 0) == Outcome([], Failed(RichError), 1, [Call(RichError, 0, Answer(Hit(RichError)))]);
    assert Trace(sunk, runs, 0).end == Completed;
  }
}
