/**
 One submission and at most one retry with another keyset (keyset_retry.rs).  The callbacks
 read and change state outside the helper; that state is passed through them.  The log
 records what was submitted, and in which state.
 */
module KeysetRetry {
  import opened Wrappers

  datatype Callbacks<!W, !K, !A, !T, !P, !S> = Callbacks(
    keysetId: K -> string,
    select: W -> (W, Result<K, P>),
    prepare: (W, K) -> (W, Result<A, P>),
    submit: (W, A) -> (W, Result<T, S>),
    shouldRetry: S -> bool,
    cleanup: (W, A, S) -> (W, Option<P>),
    refresh: W -> (W, Option<P>))

  /** A submission, the state it was made in and the state it left. */
  datatype Submission<W, K, A, T, S> = Submission(keyset: K, attempt: A, before: W, after: W, outcome: Result<T, S>)

  datatype Success<A, T> = Success(attempt: A, value: T, retried: bool)

  datatype RetryError<A, P, S> =
    | SelectFailed(cause: P)
    | PrepareFailed(cause: P)
    | RefreshFailed(cause: P)
    | CleanupFailed(cause: P)
    | SubmitFailed(attempt: A, error: S, retried: bool)
    | KeysetUnchanged(attempt: A, error: S, keysetId: string)

  datatype Ended<W, K, A, T, P, S> =
    Ended(world: W, result: Result<Success<A, T>, RetryError<A, P, S>>, log: seq<Submission<W, K, A, T, S>>)

  // ------------------------------------------------------------------------
  // The two attempts
  // ------------------------------------------------------------------------

  /** Build an attempt for a keyset and submit it. */
  function Attempted<W, K, A, T, P, S>(cb: Callbacks<W, K, A, T, P, S>, w: W, k: K): (W, Result<Submission<W, K, A, T, S>, P>) {
    var (w1, prepared) := cb.prepare(w, k);
    match prepared
    case Err(e) => (w1, Err(e))
    case Ok(a) =>
      var (w2, outcome) := cb.submit(w1, a);
      (w2, Ok(Submission(k, a, w1, w2, outcome)))
  }

  function WithRetry<W, K, A, T, P, S>(cb: Callbacks<W, K, A, T, P, S>, w: W): Ended<W, K, A, T, P, S> {
    var (w1, selected) := cb.select(w);
    match selected
    case Err(e) => Ended(w1, Err(SelectFailed(e)), [])
    case Ok(k) =>
      var (w2, tried) := Attempted(cb, w1, k);
      match tried
      case Err(e) => Ended(w2, Err(PrepareFailed(e)), [])
      case Ok(first) =>
        if first.outcome.Ok? then Ended(w2, Ok(Success(first.attempt, first.outcome.value, false)), [first])
        else if !cb.shouldRetry(first.outcome.error) then
          Ended(w2, Err(SubmitFailed(first.attempt, first.outcome.error, false)), [first])
        else Again(cb, w2, first)
  }

  /** After a retryable rejection: clean up, refresh, select again, and submit for another keyset. */
  function Again<W, K, A, T, P, S>(cb: Callbacks<W, K, A, T, P, S>, w: W, first: Submission<W, K, A, T, S>):
    Ended<W, K, A, T, P, S>
    requires first.outcome.Err?
  {
    var (w1, cleaned) := cb.cleanup(w, first.attempt, first.outcome.error);
    if cleaned.Some? then Ended(w1, Err(CleanupFailed(cleaned.value)), [first])
    else
      var (w2, refreshed) := cb.refresh(w1);
      if refreshed.Some? then Ended(w2, Err(RefreshFailed(refreshed.value)), [first])
      else
        var (w3, selected) := cb.select(w2);
        match selected
        case Err(e) => Ended(w3, Err(SelectFailed(e)), [first])
        case Ok(k) =>
          if cb.keysetId(k) == cb.keysetId(first.keyset) then
            Ended(w3, Err(KeysetUnchanged(first.attempt, first.outcome.error, cb.keysetId(k))), [first])
          else
            var (w4, tried) := Attempted(cb, w3, k);
            match tried
            case Err(e) => Ended(w4, Err(PrepareFailed(e)), [first])
            case Ok(second) =>
              Ended(w4,
                    if second.outcome.Ok? then Ok(Success(second.attempt, second.outcome.value, true))
                    else Err(SubmitFailed(second.attempt, second.outcome.error, true)),
                    [first, second])
  }

  /** A submission that permits another one. */
  predicate Retryable<W, K, A, T, P, S>(cb: Callbacks<W, K, A, T, P, S>, s: Submission<W, K, A, T, S>) {
    s.outcome.Err? && cb.shouldRetry(s.outcome.error)
  }

  /**
   At most two submissions; the second only after a retryable error and for a different
   keyset.  A result or a submission error is that of the last submission.  With any other
   error everything submitted was retryable.
   */
  ghost predicate AtMostOneRetry<W, K, A, T, P, S>(cb: Callbacks<W, K, A, T, P, S>, e: Ended<W, K, A, T, P, S>) {
    var n := |e.log|;
    && n <= 2
    && (forall i | 0 <= i < n :: cb.submit(e.log[i].before, e.log[i].attempt) == (e.log[i].after, e.log[i].outcome))
    && (n == 2 ==> Retryable(cb, e.log[0]) && cb.keysetId(e.log[0].keyset) != cb.keysetId(e.log[1].keyset))
    && (e.result.Ok? ==> n > 0 && e.log[n - 1].outcome == Ok(e.result.value.value) && e.log[n - 1].attempt == e.result.value.attempt)
    && (e.result.Err? && e.result.error.SubmitFailed? ==>
          n > 0 && e.log[n - 1].outcome == Err(e.result.error.error) && (n == 1 ==> !Retryable(cb, e.log[0])))
    && (e.result.Err? && e.result.error.KeysetUnchanged? ==> n == 1 && e.log[0].outcome == Err(e.result.error.error))
    && (e.result.Err? && !e.result.error.SubmitFailed? ==> forall i | 0 <= i < n :: Retryable(cb, e.log[i]))
  }

  lemma RetryIsBounded<W, K, A, T, P, S>(cb: Callbacks<W, K, A, T, P, S>, w: W)
    ensures AtMostOneRetry(cb, WithRetry(cb, w))
  {
  }

  /**
   Exactly when the first submission is made, and for what: a keyset is selected and an
   attempt can be prepared for it.
   */
  ghost predicate FirstIsMade<W, K, A, T, P, S>(cb: Callbacks<W, K, A, T, P, S>, w: W, e: Ended<W, K, A, T, P, S>) {
    var (w1, selected) := cb.select(w);
    if selected.Err? then e.log == [] && e.result == Err(SelectFailed(selected.error))
    else
      var prepared := cb.prepare(w1, selected.value).1;
      if prepared.Err? then e.log == [] && e.result == Err(PrepareFailed(prepared.error))
      else e.log != [] && e.log[0].keyset == selected.value && e.log[0].attempt == prepared.value
  }

  /**
   Exactly when a second submission follows: the first is retryable, cleaning up and
   refreshing report nothing, and the selection made then gives another keyset for which an
   attempt can be prepared.  It is that attempt.  The same keyset again, or an error on the
   way, is reported as such.
   */
  ghost predicate SecondIsMade<W, K, A, T, P, S>(cb: Callbacks<W, K, A, T, P, S>, e: Ended<W, K, A, T, P, S>)
    requires e.log != []
  {
    var first := e.log[0];
    if !Retryable(cb, first) then |e.log| == 1
    else
      var (w1, cleaned) := cb.cleanup(first.after, first.attempt, first.outcome.error);
      var (w2, refreshed) := cb.refresh(w1);
      var (w3, selected) := cb.select(w2);
      var another := selected.Ok? && cb.keysetId(selected.value) != cb.keysetId(first.keyset);
      var prepared := if selected.Ok? then cb.prepare(w3, selected.value).1 else Err(selected.error);
      && (|e.log| == 2 <==> cleaned.None? && refreshed.None? && another && prepared.Ok?)
      && (|e.log| == 2 ==> e.log[1].keyset == selected.value && e.log[1].attempt == prepared.value)
      && (e.result.Err? && e.result.error.KeysetUnchanged? <==>
            cleaned.None? && refreshed.None? && selected.Ok? && !another)
      && (cleaned.Some? ==> e.result == Err(CleanupFailed(cleaned.value)))
      && (cleaned.None? && refreshed.Some? ==> e.result == Err(RefreshFailed(refreshed.value)))
      && (cleaned.None? && refreshed.None? && selected.Err? ==> e.result == Err(SelectFailed(selected.error)))
      && (cleaned.None? && refreshed.None? && another && prepared.Err? ==> e.result == Err(PrepareFailed(prepared.error)))
  }

  /** A result or a submission error says that it was retried exactly when there were two submissions. */
  predicate SaysRetried<W, K, A, T, P, S>(e: Ended<W, K, A, T, P, S>) {
    && (e.result.Ok? ==> (e.result.value.retried <==> |e.log| == 2))
    && (e.result.Err? && e.result.error.SubmitFailed? ==> (e.result.error.retried <==> |e.log| == 2))
  }

  lemma AgainIff<W, K, A, T, P, S>(cb: Callbacks<W, K, A, T, P, S>, first: Submission<W, K, A, T, S>)
    requires Retryable(cb, first)
    ensures var e := Again(cb, first.after, first);
            e.log != [] && e.log[0] == first && SecondIsMade(cb, e) && SaysRetried(e)
  {
    var (w1, cleaned) := cb.cleanup(first.after, first.attempt, first.outcome.error);
    var (w2, refreshed) := cb.refresh(w1);
    var (w3, selected) := cb.select(w2);
    if cleaned.None? && refreshed.None? && selected.Ok? {
      var (_, prepared) := cb.prepare(w3, selected.value);
      assert prepared.Ok? <==> Attempted(cb, w3, selected.value).1.Ok?;
    }
  }

  /** The helper tries again whenever it may, and not otherwise. */
  lemma RetriesIff<W, K, A, T, P, S>(cb: Callbacks<W, K, A, T, P, S>, w: W)
    ensures FirstIsMade(cb, w, WithRetry(cb, w))
    ensures WithRetry(cb, w).log != [] ==> SecondIsMade(cb, WithRetry(cb, w))
    ensures SaysRetried(WithRetry(cb, w))
  {
    hide Again;
    var (w1, selected) := cb.select(w);
    if selected.Ok? {
      var (_, tried) := Attempted(cb, w1, selected.value);
      if tried.Ok? && Retryable(cb, tried.value) {
        AgainIff(cb, tried.value);
      }
    }
  }

  lemma FirstIsAttempted<W, K, A, T, P, S>(cb: Callbacks<W, K, A, T, P, S>, w: W)
    requires WithRetry(cb, w).log != []
    ensures var first := WithRetry(cb, w).log[0];
            var (w1, selected) := cb.select(w);
            selected.Ok? && Attempted(cb, w1, selected.value) == (first.after, Ok(first))
  {
  }

  /** with_active_keyset_retry, as it runs. */
  method WithActiveKeysetRetry<W, K, A, T, P, S>(cb: Callbacks<W, K, A, T, P, S>, w: W)
    returns (r: Result<Success<A, T>, RetryError<A, P, S>>, world: W, log: seq<Submission<W, K, A, T, S>>)
    ensures Ended(world, r, log) == WithRetry(cb, w)
    ensures AtMostOneRetry(cb, Ended(world, r, log))
    ensures FirstIsMade(cb, w, Ended(world, r, log)) && SaysRetried(Ended(world, r, log))
    ensures log != [] ==> SecondIsMade(cb, Ended(world, r, log))
  {
    RetryIsBounded(cb, w);
    RetriesIff(cb, w);
    hide FirstIsMade, SecondIsMade, AtMostOneRetry, SaysRetried;
    log := [];
    var selection := cb.select(w);
    world := selection.0;
    var first := selection.1;
    if first.Err? {
      return Err(SelectFailed(first.error)), world, log;
    }
    var tried := Attempted(cb, world, first.value);
    world := tried.0;
    if tried.1.Err? {
      return Err(PrepareFailed(tried.1.error)), world, log;
    }
    var submission := tried.1.value;
    log := [submission];
    if submission.outcome.Ok? {
      return Ok(Success(submission.attempt, submission.outcome.value, false)), world, log;
    }
    var error := submission.outcome.error;
    if !cb.shouldRetry(error) {
      return Err(SubmitFailed(submission.attempt, error, false)), world, log;
    }
    var cleaned := cb.cleanup(world, submission.attempt, error);
    world := cleaned.0;
    if cleaned.1.Some? {
      return Err(CleanupFailed(cleaned.1.value)), world, log;
    }
    var refreshed := cb.refresh(world);
    world := refreshed.0;
    if refreshed.1.Some? {
      return Err(RefreshFailed(refreshed.1.value)), world, log;
    }
    selection := cb.select(world);
    world := selection.0;
    var second := selection.1;
    if second.Err? {
      return Err(SelectFailed(second.error)), world, log;
    }
    if cb.keysetId(second.value) == cb.keysetId(first.value) {
      return Err(KeysetUnchanged(submission.attempt, error, cb.keysetId(second.value))), world, log;
    }
    tried := Attempted(cb, world, second.value);
    world := tried.0;
    if tried.1.Err? {
      return Err(PrepareFailed(tried.1.error)), world, log;
    }
    log := log + [tried.1.value];
    var outcome := tried.1.value.outcome;
    r := if outcome.Ok? then Ok(Success(tried.1.value.attempt, outcome.value, true))
         else Err(SubmitFailed(tried.1.value.attempt, outcome.error, true));
  }
}
