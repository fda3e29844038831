/**
 Running an opening (client_bridge.rs): the all-in-one submission as the program performs
 it on its storage, and the automatic retry around it.  Each run is shown to be a run of
 the opening protocol, and the error it reports to be honest about the inputs.
 */
module OpenRun {
  import opened Wrappers
  import opened ClientStorage
  import P = OpenProtocol
  import R = Restore
  import C = Completion
  import opened KeysetRetry
  import opened MintOutcome

  datatype Stage = BeforeOpeningSaved | MintRejected | SwapSubmitted | FundingProofsReceived | RestoreVerification | MarkOpen

  datatype OpenError = OpenError(stage: Stage, id: Option<string>, mintError: Option<MintError>)

  predicate InputMayBeSpent(e: OpenError) {
    e.stage in {SwapSubmitted, FundingProofsReceived, RestoreVerification, Stage.MarkOpen}
  }

  predicate IsRetryable(e: OpenError) {
    e.stage == MintRejected && !InputMayBeSpent(e) && e.mintError.Some? && PermitsKeysetRetry(e.mintError.value)
  }

  /** How the mint and the network behave towards one submission. */
  datatype Exchange = Exchange(
    executed: bool,                        // whether the mint executes the swap
    reply: Option<MintError>,              // None: a success reply arrives
    completes: bool,                       // the reply unblinds and verifies
    restoreRequested: bool,                // the restore request can be built
    restored: Result<string, Option<MintError>>)

  /** A success reply means executed; a keyset rejection means not executed; nothing else is evidence. */
  predicate Honest(x: Exchange) {
    && (x.reply.None? ==> x.executed)
    && (x.reply.Some? && PermitsKeysetRetry(x.reply.value) ==> !x.executed)
  }

  /** What one submission leaves behind. */
  datatype Outcome = Outcome(store: Store, result: Result<string, OpenError>, submitted: bool)

  function Fail(st: Store, stage: Stage, id: Option<string>, evidence: Option<MintError>, submitted: bool): Outcome {
    Outcome(st, Err(OpenError(stage, id, evidence)), submitted)
  }

  const REJECTED := "mint_rejected"

  /** open_network_error: record an explicit keyset rejection, call everything else ambiguous. */
  function NetworkError(st: Store, p: P.PreparedOpen, evidence: MintError, now: nat): Outcome {
    if !PermitsKeysetRetry(evidence) then
      Fail(st, SwapSubmitted, Some(p.id), Some(evidence), true)
    else
      var r := Step(st, SetOpeningFailed(p.id, Failure(REJECTED, "", now)));
      Fail(r.0, if r.1 == None then MintRejected else Stage.MarkOpen, Some(p.id), Some(evidence), true)
  }

  /** From a success reply on: complete, check against the restore, mark open. */
  function Finish(st: Store, p: P.PreparedOpen, x: Exchange, proofs: Opening -> string): Outcome {
    if !x.completes then Fail(st, SwapSubmitted, Some(p.id), None, true)
    else if !x.restoreRequested then Fail(st, FundingProofsReceived, Some(p.id), None, true)
    else if x.restored.Err? then Fail(st, RestoreVerification, Some(p.id), x.restored.error, true)
    else if x.restored.value != proofs(p.record) then Fail(st, RestoreVerification, Some(p.id), None, true)
    else
      var r := Step(st, SetOpen(p.id, proofs(p.record)));
      if r.1 != None then Fail(r.0, Stage.MarkOpen, Some(p.id), None, true) else Outcome(r.0, Ok(p.id), true)
  }

  /** submit_prepared_open_with_network */
  function SubmitOpen(st: Store, p: P.PreparedOpen, x: Exchange, now: nat, proofs: Opening -> string): Outcome {
    if GetOpening(st, p.id) != Ok(None) then
      Fail(st, SwapSubmitted, Some(p.id), None, false)
    else
      var saved := Step(st, SaveOpening(p.id, p.record));
      if saved.1 != None then Fail(saved.0, BeforeOpeningSaved, None, None, false)
      else if x.reply.Some? then NetworkError(saved.0, p, x.reply.value, now)
      else Finish(saved.0, p, x, proofs)
  }

  class ClientBridge {
    const storage: MemoryClientStorage
    const proofs: Opening -> string

    constructor (storage: MemoryClientStorage, proofs: Opening -> string)
      ensures this.storage == storage && this.proofs == proofs
    {
      this.storage := storage;
      this.proofs := proofs;
    }

    method OpenNetworkError(p: P.PreparedOpen, evidence: MintError, now: nat) returns (e: OpenError)
      modifies storage
      ensures Outcome(storage.View(), Err(e), true) == NetworkError(old(storage.View()), p, evidence, now)
    {
      if !PermitsKeysetRetry(evidence) {
        return OpenError(SwapSubmitted, Some(p.id), Some(evidence));
      }
      var err := storage.SetOpeningFailed(p.id, Failure(REJECTED, "", now));
      if err != None {
        return OpenError(Stage.MarkOpen, Some(p.id), Some(evidence));
      }
      e := OpenError(MintRejected, Some(p.id), Some(evidence));
    }

    method SubmitPreparedOpen(p: P.PreparedOpen, x: Exchange, now: nat) returns (r: Result<string, OpenError>, submitted: bool)
      modifies storage
      ensures Outcome(storage.View(), r, submitted) == SubmitOpen(old(storage.View()), p, x, now, proofs)
    {
      submitted := false;
      var existing := storage.GetOpeningFromSwap(p.id);
      if existing.Err? || existing.value.Some? {
        return Err(OpenError(SwapSubmitted, Some(p.id), None)), submitted;
      }
      var saved := storage.SaveOpeningFromSwap(p.id, p.record);
      if saved != None {
        return Err(OpenError(BeforeOpeningSaved, None, None)), submitted;
      }
      submitted := true;
      if x.reply.Some? {
        var e := OpenNetworkError(p, x.reply.value, now);
        return Err(e), submitted;
      }
      if !x.completes {
        return Err(OpenError(SwapSubmitted, Some(p.id), None)), submitted;
      }
      if !x.restoreRequested {
        return Err(OpenError(FundingProofsReceived, Some(p.id), None)), submitted;
      }
      if x.restored.Err? {
        return Err(OpenError(RestoreVerification, Some(p.id), x.restored.error)), submitted;
      }
      if x.restored.value != proofs(p.record) {
        return Err(OpenError(RestoreVerification, Some(p.id), None)), submitted;
      }
      var marked := storage.SetOpen(p.id, x.restored.value);
      if marked != None {
        return Err(OpenError(Stage.MarkOpen, Some(p.id), None)), submitted;
      }
      r := Ok(p.id);
    }
  }

  // ------------------------------------------------------------------------
  // A submission is a run of the protocol
  // ------------------------------------------------------------------------

  lemma {:induction false} RunConcat(s: P.State, a: seq<P.Event>, b: seq<P.Event>, proofs: Opening -> string)
    ensures P.Run(s, a + b, proofs) == P.Run(P.Run(s, a, proofs), b, proofs)
    decreases |a|
  {
    if a == [] {
      assert a + b == b;
    } else {
      assert (a + b)[1..] == a[1..] + b;
      RunConcat(P.Next(s, a[0], proofs), a[1..], b, proofs);
    }
  }

  lemma RunTwo(s: P.State, a: P.Event, b: P.Event, proofs: Opening -> string)
    ensures P.Run(s, [a, b], proofs) == P.Next(P.Next(s, a, proofs), b, proofs)
  {
    assert [a, b][1..] == [b] && [b][1..] == [];
    assert P.Run(P.Next(s, a, proofs), [b], proofs) == P.Run(P.Next(P.Next(s, a, proofs), b, proofs), [], proofs);
  }

  lemma SaveRun(s: P.State, p: P.PreparedOpen, proofs: Opening -> string)
    requires s.phase.Idle? && GetOpening(s.store, p.id) == Ok(None)
    ensures var r := Step(s.store, SaveOpening(p.id, p.record));
            P.Run(s, [P.Begin(p), P.Save], proofs)
              == P.State(r.0, if r.1 == None then P.Saved(p) else P.Idle, s.net)
  {
    RunTwo(s, P.Begin(p), P.Save, proofs);
  }

  function FateOf(x: Exchange): P.Fate {
    if x.executed then P.Executed else P.Rejected
  }

  lemma SubmitRun(s: P.State, x: Exchange, proofs: Opening -> string)
    requires s.phase.Saved?
    ensures var n := |s.net|; var p := s.phase.p;
            P.Run(s, [P.Submit, if x.executed then P.MintExecutes(n) else P.MintRejects(n)], proofs)
              == P.State(s.store, P.Awaiting(p, n), s.net + [P.Message(p, FateOf(x))])
  {
    var n := |s.net|;
    RunTwo(s, P.Submit, if x.executed then P.MintExecutes(n) else P.MintRejects(n), proofs);
  }

  lemma RejectRun(s: P.State, failure: Failure, proofs: Opening -> string)
    requires s.phase.Awaiting? && s.phase.n < |s.net| && s.net[s.phase.n].fate == P.Rejected
    ensures P.Run(s, [P.HearRejection, P.MarkFailed(failure)], proofs)
         == P.State(Step(s.store, SetOpeningFailed(s.phase.p.id, failure)).0, P.Idle, s.net)
  {
    RunTwo(s, P.HearRejection, P.MarkFailed(failure), proofs);
  }

  lemma OpenRunThree(s: P.State, proofs: Opening -> string)
    requires s.phase.Awaiting? && s.phase.n < |s.net| && s.net[s.phase.n].fate == P.Executed
    ensures P.Run(s, [P.HearSuccess, P.CheckRestore, P.MarkOpen], proofs)
         == P.State(Step(s.store, SetOpen(s.phase.p.id, proofs(s.phase.p.record))).0, P.Idle, s.net)
  {
    P.RunThree(s, P.HearSuccess, P.CheckRestore, P.MarkOpen, proofs);
  }

  lemma StopRun(s: P.State, proofs: Opening -> string)
    ensures P.Run(s, [P.Stop], proofs) == s.(phase := P.Idle)
  {
    assert [P.Stop][1..] == [];
    assert P.Run(s, [P.Stop], proofs) == P.Run(P.Next(s, P.Stop, proofs), [], proofs);
  }

  /** The events after the mint has decided. */
  function Ending(x: Exchange, now: nat, p: P.PreparedOpen, proofs: Opening -> string): seq<P.Event> {
    if x.reply.Some? then
      if PermitsKeysetRetry(x.reply.value) then [P.HearRejection, P.MarkFailed(Failure(REJECTED, "", now))] else [P.Stop]
    else if x.completes && x.restoreRequested && x.restored == Ok(proofs(p.record)) then
      [P.HearSuccess, P.CheckRestore, P.MarkOpen]
    else
      [P.Stop]
  }

  function Events(st: Store, n: nat, p: P.PreparedOpen, x: Exchange, now: nat, proofs: Opening -> string): seq<P.Event> {
    if GetOpening(st, p.id) != Ok(None) then []
    else if Step(st, SaveOpening(p.id, p.record)).1 != None then [P.Begin(p), P.Save]
    else [P.Begin(p), P.Save] + ([P.Submit, if x.executed then P.MintExecutes(n) else P.MintRejects(n)] + Ending(x, now, p, proofs))
  }

  lemma EndingRun(s: P.State, p: P.PreparedOpen, x: Exchange, now: nat, proofs: Opening -> string)
    requires Honest(x) && s.phase.Awaiting? && s.phase.p == p
    requires s.phase.n < |s.net| && s.net[s.phase.n].fate == FateOf(x)
    ensures P.Run(s, Ending(x, now, p, proofs), proofs)
         == P.State((if x.reply.Some? then NetworkError(s.store, p, x.reply.value, now) else Finish(s.store, p, x, proofs)).store,
                    P.Idle, s.net)
  {
    StopRun(s, proofs);
    if x.reply.Some? {
      if PermitsKeysetRetry(x.reply.value) {
        RejectRun(s, Failure(REJECTED, "", now), proofs);
      }
    } else if x.completes && x.restoreRequested && x.restored == Ok(proofs(p.record)) {
      OpenRunThree(s, proofs);
    }
  }

  /** Against an honest mint, storage after a submission is that of a protocol run in which the mint did what it did. */
  lemma SubmissionIsARun(s: P.State, p: P.PreparedOpen, x: Exchange, now: nat, proofs: Opening -> string)
    requires Honest(x) && s.phase.Idle?
    ensures var o := SubmitOpen(s.store, p, x, now, proofs);
            P.Run(s, Events(s.store, |s.net|, p, x, now, proofs), proofs)
              == P.State(o.store, P.Idle, if o.submitted then s.net + [P.Message(p, FateOf(x))] else s.net)
  {
    if GetOpening(s.store, p.id) == Ok(None) {
      SaveRun(s, p, proofs);
      var s2 := P.Run(s, [P.Begin(p), P.Save], proofs);
      if s2.phase.Saved? {
        SubmitRun(s2, x, proofs);
        var sub := [P.Submit, if x.executed then P.MintExecutes(|s.net|) else P.MintRejects(|s.net|)];
        var s4 := P.Run(s2, sub, proofs);
        EndingRun(s4, p, x, now, proofs);
        RunConcat(s2, sub, Ending(x, now, p, proofs), proofs);
        RunConcat(s, [P.Begin(p), P.Save], sub + Ending(x, now, p, proofs), proofs);
      }
    }
  }

  /** An error that calls the inputs unspent means nothing was executed; success means the executed channel is open. */
  lemma SubmissionIsHonest(st: Store, p: P.PreparedOpen, x: Exchange, now: nat, proofs: Opening -> string)
    requires Honest(x) && Consistent(st)
    ensures var o := SubmitOpen(st, p, x, now, proofs);
            && (o.result.Err? && !InputMayBeSpent(o.result.error) ==> !o.submitted || !x.executed)
            && (o.result.Err? && IsRetryable(o.result.error) ==> Get(o.store.states, p.id) == Some(OpeningFailed))
            && (o.result.Ok? ==> && o.submitted && x.executed
                                 && Get(o.store.states, p.id) == Some(Open)
                                 && Get(o.store.funding, p.id) == Some(FundingFrom(p.record, proofs(p.record))))
            && (o.submitted && x.executed ==> P.Kept(o.store, p, proofs))
  {
    StepConsistent(st, SaveOpening(p.id, p.record));
    assert ConsistentAt(st, p.id);
    assert ConsistentAt(Step(st, SaveOpening(p.id, p.record)).0, p.id);
  }

  // ------------------------------------------------------------------------
  // The restore check
  // ------------------------------------------------------------------------

  /** A submission that the mint executed, answered and restored with these signatures. */
  ghost function ExchangeFrom(sigs: seq<R.BlindSignature>, restore: R.RestoreResponse, funding: seq<C.OutputSecret>,
                              change: seq<C.OutputSecret>, k: C.Keys, d: C.Dhke, encode: seq<C.Token> -> string): Exchange
  {
    var restored := C.RestoreFunding(restore, funding, k, d);
    Exchange(true, None, C.CompleteSwap(sigs, funding, change, k, d).Ok?, true,
             if restored.Ok? then Ok(encode(restored.value)) else Err(None))
  }

  /**
   A mint that executes the swap, signs every output and restores those signatures in any
   order gets the channel opened, exactly when the funding outputs asked for were distinct:
   the restore check never refuses proofs that direct completion produced.
   */
  lemma HonestMintOpens(st: Store, p: P.PreparedOpen, now: nat, proofs: Opening -> string, encode: seq<C.Token> -> string,
                        sigs: seq<R.BlindSignature>, restore: R.RestoreResponse,
                        funding: seq<C.OutputSecret>, change: seq<C.OutputSecret>, k: C.Keys, d: C.Dhke)
    requires |sigs| == |funding| + |change| && C.CompleteSwap(sigs, funding, change, k, d).Ok?
    requires R.Reorders(restore, C.OpeningOutputs(funding, k, d), sigs[..|funding|])
    requires proofs(p.record) == encode(C.CompleteSwap(sigs, funding, change, k, d).value.funding)
    requires GetOpening(st, p.id) == Ok(None) && Step(st, SaveOpening(p.id, p.record)).1 == None
    ensures var o := SubmitOpen(st, p, ExchangeFrom(sigs, restore, funding, change, k, d, encode), now, proofs);
            if R.Distinct(C.OpeningOutputs(funding, k, d)) then o.result == Ok(p.id)
            else o.result == Err(OpenError(RestoreVerification, Some(p.id), None))
  {
    FundingRestores(sigs, restore, funding, change, k, d);
    hide C.RestoreFunding, C.CompleteSwap, R.Distinct, R.Reorders, C.OpeningOutputs;
  }

  lemma FundingRestores(sigs: seq<R.BlindSignature>, restore: R.RestoreResponse,
                        funding: seq<C.OutputSecret>, change: seq<C.OutputSecret>, k: C.Keys, d: C.Dhke)
    requires |sigs| == |funding| + |change| && C.CompleteSwap(sigs, funding, change, k, d).Ok?
    requires R.Reorders(restore, C.OpeningOutputs(funding, k, d), sigs[..|funding|])
    ensures C.RestoreFunding(restore, funding, k, d).Ok? <==> R.Distinct(C.OpeningOutputs(funding, k, d))
    ensures C.RestoreFunding(restore, funding, k, d).Ok? ==>
              C.RestoreFunding(restore, funding, k, d).value == C.CompleteSwap(sigs, funding, change, k, d).value.funding
  {
    var rest := R.RestoreResponse(C.OpeningOutputs(change, k, d), sigs[|funding|..]);
    C.RestoreAgreesWithSwap(sigs, funding, change, k, d, restore, rest);
  }

  /** The channel so opened keeps funding proofs that the mint redeems, one for each funding output, and the change likewise. */
  lemma OpenedCanBeSpent(st: Store, p: P.PreparedOpen, now: nat, proofs: Opening -> string, encode: seq<C.Token> -> string,
                         sigs: seq<R.BlindSignature>, restore: R.RestoreResponse,
                         funding: seq<C.OutputSecret>, change: seq<C.OutputSecret>, k: C.Keys, d: C.Dhke, m: C.Signer)
    requires |sigs| == |funding| + |change| && C.CompleteSwap(sigs, funding, change, k, d).Ok? && C.DhkeOk(d, m)
    requires R.Reorders(restore, C.OpeningOutputs(funding, k, d), sigs[..|funding|])
    requires R.Distinct(C.OpeningOutputs(funding, k, d))
    requires proofs(p.record) == encode(C.CompleteSwap(sigs, funding, change, k, d).value.funding)
    requires Consistent(st) && GetOpening(st, p.id) == Ok(None) && Step(st, SaveOpening(p.id, p.record)).1 == None
    ensures var o := SubmitOpen(st, p, ExchangeFrom(sigs, restore, funding, change, k, d, encode), now, proofs);
            var tokens := C.CompleteSwap(sigs, funding, change, k, d).value;
            && Get(o.store.funding, p.id) == Some(FundingFrom(p.record, encode(tokens.funding)))
            && C.Redeems(tokens.funding, funding, k, m) && C.Redeems(tokens.change, change, k, m)
  {
    HonestMintOpens(st, p, now, proofs, encode, sigs, restore, funding, change, k, d);
    C.OpeningIsRedeemable(sigs, funding, change, k, d,
                          Some(C.OpeningOutputs(funding, k, d) + C.OpeningOutputs(change, k, d)), m);
    var x := ExchangeFrom(sigs, restore, funding, change, k, d, encode);
    assert Honest(x);
    hide ExchangeFrom, SubmitOpen, C.CompleteSwap;
    SubmissionIsHonest(st, p, x, now, proofs);
  }

  // ------------------------------------------------------------------------
  // The automatic openers
  // ------------------------------------------------------------------------

  datatype Keyset = Keyset(id: string, info: string)

  /**
   What the outside answers during an automatic opening, call by call.  Preparing may yield
   metadata from which no channel can be computed; then the submission fails before saving.
   */
  datatype Answers = Answers(
    select: nat -> Result<Keyset, OpenError>,
    prepare: (nat, Keyset) -> Result<Option<P.PreparedOpen>, OpenError>,
    refresh: nat -> Option<OpenError>,
    exchange: nat -> Exchange,
    now: nat -> nat)

  /** Storage, and how often each callback has been called. */
  datatype OpenWorld = OpenWorld(store: Store, selected: nat, prepared: nat, refreshed: nat, sent: nat)

  function SubmitAttempt(w: OpenWorld, a: Option<P.PreparedOpen>, ans: Answers, proofs: Opening -> string):
    (OpenWorld, Result<string, OpenError>)
  {
    match a
    case None => (w.(sent := w.sent + 1), Err(OpenError(BeforeOpeningSaved, None, None)))
    case Some(p) =>
      var o := SubmitOpen(w.store, p, ans.exchange(w.sent), ans.now(w.sent), proofs);
      (w.(store := o.store, sent := w.sent + 1), o.result)
  }

  function OpenCallbacks(ans: Answers, proofs: Opening -> string):
    Callbacks<OpenWorld, Keyset, Option<P.PreparedOpen>, string, OpenError, OpenError>
  {
    Callbacks(
      (k: Keyset) => k.id,
      (w: OpenWorld) => (w.(selected := w.selected + 1), ans.select(w.selected)),
      (w: OpenWorld, k: Keyset) => (w.(prepared := w.prepared + 1), ans.prepare(w.prepared, k)),
      (w: OpenWorld, a: Option<P.PreparedOpen>) => SubmitAttempt(w, a, ans, proofs),
      (e: OpenError) => IsRetryable(e),
      (w: OpenWorld, a: Option<P.PreparedOpen>, e: OpenError) => (w, None),
      (w: OpenWorld) => (w.(refreshed := w.refreshed + 1), ans.refresh(w.refreshed)))
  }

  type OpenSubmission = Submission<OpenWorld, Keyset, Option<P.PreparedOpen>, string, OpenError>

  type AutoEnded = Ended<OpenWorld, Keyset, Option<P.PreparedOpen>, string, OpenError, OpenError>

  function OpenAuto(st: Store, ans: Answers, proofs: Opening -> string): AutoEnded {
    WithRetry(OpenCallbacks(ans, proofs), OpenWorld(st, 0, 0, 0, 0))
  }

  /** unwrap_open_channel_retry_result */
  function Unwrapped(e: AutoEnded): Result<string, OpenError> {
    match e.result
    case Ok(success) => Ok(success.value)
    case Err(error) =>
      match error
      case SubmitFailed(_, cause, _) => Err(cause)
      case KeysetUnchanged(_, cause, _) => Err(cause)
      case SelectFailed(cause) => Err(cause)
      case PrepareFailed(cause) => Err(cause)
      case RefreshFailed(cause) => Err(cause)
      case CleanupFailed(cause) => Err(cause)
  }

  /** The submission got as far as the mint. */
  predicate ReachedMint(s: OpenSubmission, ans: Answers, proofs: Opening -> string) {
    s.attempt.Some? &&
    SubmitOpen(s.before.store, s.attempt.value, ans.exchange(s.before.sent), ans.now(s.before.sent), proofs).submitted
  }

  predicate Executed(s: OpenSubmission, ans: Answers, proofs: Opening -> string) {
    ReachedMint(s, ans, proofs) && ans.exchange(s.before.sent).executed
  }

  /** One submission within an automatic opening says truthfully whether it may have spent the inputs. */
  lemma AttemptIsHonest(s: OpenSubmission, ans: Answers, proofs: Opening -> string)
    requires Honest(ans.exchange(s.before.sent)) && SubmitAttempt(s.before, s.attempt, ans, proofs) == (s.after, s.outcome)
    ensures s.outcome.Err? && !InputMayBeSpent(s.outcome.error) ==> !Executed(s, ans, proofs)
    ensures s.outcome.Ok? ==> Executed(s, ans, proofs) && s.attempt.Some? && s.outcome.value == s.attempt.value.id
  {
  }

  lemma AutoIsBounded(st: Store, ans: Answers, proofs: Opening -> string)
    ensures AtMostOneRetry(OpenCallbacks(ans, proofs), OpenAuto(st, ans, proofs))
  {
    RetryIsBounded(OpenCallbacks(ans, proofs), OpenWorld(st, 0, 0, 0, 0));
  }

  lemma LoggedIsHonest(st: Store, ans: Answers, proofs: Opening -> string, i: nat)
    requires i < |OpenAuto(st, ans, proofs).log| && Honest(ans.exchange(OpenAuto(st, ans, proofs).log[i].before.sent))
    ensures var s := OpenAuto(st, ans, proofs).log[i];
            && SubmitAttempt(s.before, s.attempt, ans, proofs) == (s.after, s.outcome)
            && (s.outcome.Err? && !InputMayBeSpent(s.outcome.error) ==> !Executed(s, ans, proofs))
            && (s.outcome.Ok? ==> Executed(s, ans, proofs))
  {
    hide OpenAuto, SubmitAttempt;
    var cb, s := OpenCallbacks(ans, proofs), OpenAuto(st, ans, proofs).log[i];
    AutoIsBounded(st, ans, proofs);
    assert cb.submit(s.before, s.attempt) == (s.after, s.outcome);
    AttemptIsHonest(s, ans, proofs);
  }

  /**
   The whole automatic opening is honest: an error that calls the inputs unspent means that
   the mint executed nothing, neither the first submission nor the retry; and a retry is
   only ever made after a submission that was not executed.
   */
  lemma AutoIsHonest(st: Store, ans: Answers, proofs: Opening -> string)
    requires forall i :: Honest(ans.exchange(i))
    ensures var e := OpenAuto(st, ans, proofs);
            && |e.log| <= 2
            && (|e.log| == 2 ==> e.log[0].keyset.id != e.log[1].keyset.id && !Executed(e.log[0], ans, proofs))
            && (Unwrapped(e).Err? && !InputMayBeSpent(Unwrapped(e).error) ==>
                  forall i | 0 <= i < |e.log| :: !Executed(e.log[i], ans, proofs))
            && (Unwrapped(e).Ok? ==> e.log != [] && Executed(e.log[|e.log| - 1], ans, proofs))
  {
    hide OpenAuto, SubmitAttempt, Executed;
    AutoIsBounded(st, ans, proofs);
    forall i | 0 <= i < |OpenAuto(st, ans, proofs).log|
      ensures var s := OpenAuto(st, ans, proofs).log[i];
              && (s.outcome.Err? && !InputMayBeSpent(s.outcome.error) ==> !Executed(s, ans, proofs))
              && (s.outcome.Ok? ==> Executed(s, ans, proofs))
    {
      LoggedIsHonest(st, ans, proofs, i);
    }
  }

  /**
   Exactly when an automatic opening submits, and submits again: after a retryable first
   answer it is repeated exactly when the refresh works, another keyset is then selected
   and an opening can be prepared for it; what is submitted is that opening.
   */
  lemma AutoRetriesIff(st: Store, ans: Answers, proofs: Opening -> string)
    ensures var e := OpenAuto(st, ans, proofs);
            && (e.log != [] <==> ans.select(0).Ok? && ans.prepare(0, ans.select(0).value).Ok?)
            && (e.log != [] ==>
                  var first := e.log[0];
                  && first.keyset == ans.select(0).value && first.attempt == ans.prepare(0, first.keyset).value
                  && (|e.log| == 2 <==>
                        && first.outcome.Err? && IsRetryable(first.outcome.error)
                        && ans.refresh(0).None?
                        && ans.select(1).Ok? && ans.select(1).value.id != first.keyset.id
                        && ans.prepare(1, ans.select(1).value).Ok?)
                  && (|e.log| == 2 ==>
                        && e.log[1].keyset == ans.select(1).value
                        && e.log[1].attempt == ans.prepare(1, e.log[1].keyset).value))
  {
    hide SubmitOpen, WithRetry, IsRetryable;
    var cb, w, e := OpenCallbacks(ans, proofs), OpenWorld(st, 0, 0, 0, 0), OpenAuto(st, ans, proofs);
    RetriesIff(cb, w);
    if e.log != [] {
      FirstIsAttempted(cb, w);
      var first := e.log[0];
      assert first.after == OpenWorld(first.after.store, 1, 1, 0, 1);
    }
  }

  // ------------------------------------------------------------------------
  // An automatic opening is a run of the protocol
  // ------------------------------------------------------------------------

  /** Each submission starts from the storage the one before left. */
  predicate Chained(st: Store, log: seq<OpenSubmission>, ans: Answers, proofs: Opening -> string)
    decreases |log|
  {
    log == [] ||
    (&& log[0].before.store == st
     && SubmitAttempt(log[0].before, log[0].attempt, ans, proofs) == (log[0].after, log[0].outcome)
     && Chained(log[0].after.store, log[1..], ans, proofs))
  }

  function LastStore(st: Store, log: seq<OpenSubmission>): Store {
    if log == [] then st else log[|log| - 1].after.store
  }

  lemma AutoIsChained(st: Store, ans: Answers, proofs: Opening -> string)
    ensures var e := OpenAuto(st, ans, proofs);
            Chained(st, e.log, ans, proofs) && e.world.store == LastStore(st, e.log)
  {
    hide SubmitAttempt;
    var e := OpenAuto(st, ans, proofs);
    if |e.log| == 1 {
      assert e.log[1..] == [];
      assert Chained(e.log[0].after.store, [], ans, proofs);
    } else if |e.log| == 2 {
      assert e.log[1..][1..] == [];
      assert Chained(e.log[1].after.store, [], ans, proofs);
      assert Chained(e.log[0].after.store, e.log[1..], ans, proofs);
    }
  }

  /** What the mint has seen of a log. */
  function MessagesOf(log: seq<OpenSubmission>, ans: Answers, proofs: Opening -> string): seq<P.Message> {
    if log == [] then []
    else
      (if ReachedMint(log[0], ans, proofs) then [P.Message(log[0].attempt.value, FateOf(ans.exchange(log[0].before.sent)))] else [])
      + MessagesOf(log[1..], ans, proofs)
  }

  /** The events of one submission when n have reached the mint before. */
  function EventsOf(n: nat, s: OpenSubmission, ans: Answers, proofs: Opening -> string): seq<P.Event> {
    if s.attempt.None? then []
    else Events(s.before.store, n, s.attempt.value, ans.exchange(s.before.sent), ans.now(s.before.sent), proofs)
  }

  function LogEvents(n: nat, log: seq<OpenSubmission>, ans: Answers, proofs: Opening -> string): seq<P.Event>
    decreases |log|
  {
    if log == [] then []
    else
      EventsOf(n, log[0], ans, proofs)
      + LogEvents(n + |MessagesOf(log[..1], ans, proofs)|, log[1..], ans, proofs)
  }

  lemma OneMessage(log: seq<OpenSubmission>, ans: Answers, proofs: Opening -> string)
    requires log != []
    ensures MessagesOf(log[..1], ans, proofs)
         == if ReachedMint(log[0], ans, proofs) then [P.Message(log[0].attempt.value, FateOf(ans.exchange(log[0].before.sent)))]
            else []
    ensures MessagesOf(log, ans, proofs) == MessagesOf(log[..1], ans, proofs) + MessagesOf(log[1..], ans, proofs)
  {
    assert log[..1][1..] == [];
    assert MessagesOf(log[..1][1..], ans, proofs) == [];
  }

  lemma OneSubmissionRun(s: P.State, one: OpenSubmission, ans: Answers, proofs: Opening -> string)
    requires s.phase.Idle? && one.before.store == s.store && Honest(ans.exchange(one.before.sent))
    requires SubmitAttempt(one.before, one.attempt, ans, proofs) == (one.after, one.outcome)
    ensures P.Run(s, EventsOf(|s.net|, one, ans, proofs), proofs)
         == P.State(one.after.store, P.Idle, s.net + MessagesOf([one], ans, proofs))
  {
    OneMessage([one], ans, proofs);
    assert [one][..1] == [one];
    hide P.Run, P.Next, SubmitOpen, Events;
    if one.attempt.Some? {
      SubmissionIsARun(s, one.attempt.value, ans.exchange(one.before.sent), ans.now(one.before.sent), proofs);
      assert s.net + [] == s.net;
    } else {
      NoRun(s, proofs);
    }
  }

  lemma NoRun(s: P.State, proofs: Opening -> string)
    ensures P.Run(s, [], proofs) == s
  {
  }

  lemma ChainStep(st: Store, log: seq<OpenSubmission>, ans: Answers, proofs: Opening -> string)
    requires log != [] && Chained(st, log, ans, proofs)
    ensures log[0].before.store == st
    ensures SubmitAttempt(log[0].before, log[0].attempt, ans, proofs) == (log[0].after, log[0].outcome)
    ensures Chained(log[0].after.store, log[1..], ans, proofs)
    ensures LastStore(st, log) == LastStore(log[0].after.store, log[1..])
  {
    hide SubmitAttempt;
  }

  /** Protocol state after the first submission of a log. */
  function AfterFirst(s: P.State, log: seq<OpenSubmission>, ans: Answers, proofs: Opening -> string): P.State
    requires log != []
  {
    P.State(log[0].after.store, P.Idle, s.net + MessagesOf(log[..1], ans, proofs))
  }

  lemma FirstOfLog(s: P.State, log: seq<OpenSubmission>, ans: Answers, proofs: Opening -> string)
    requires s.phase.Idle? && log != [] && Chained(s.store, log, ans, proofs) && Honest(ans.exchange(log[0].before.sent))
    ensures P.Run(s, EventsOf(|s.net|, log[0], ans, proofs), proofs) == AfterFirst(s, log, ans, proofs)
  {
    hide P.Run, P.Next, SubmitAttempt, EventsOf, MessagesOf, Chained;
    ChainStep(s.store, log, ans, proofs);
    OneSubmissionRun(s, log[0], ans, proofs);
    assert log[..1] == [log[0]];
  }

  lemma LogSplit(s: P.State, log: seq<OpenSubmission>, ans: Answers, proofs: Opening -> string)
    requires log != []
    ensures LogEvents(|s.net|, log, ans, proofs)
         == EventsOf(|s.net|, log[0], ans, proofs) + LogEvents(|AfterFirst(s, log, ans, proofs).net|, log[1..], ans, proofs)
    ensures s.net + MessagesOf(log, ans, proofs) == AfterFirst(s, log, ans, proofs).net + MessagesOf(log[1..], ans, proofs)
  {
    hide EventsOf, MessagesOf, ReachedMint;
    OneMessage(log, ans, proofs);
    var a, b := MessagesOf(log[..1], ans, proofs), MessagesOf(log[1..], ans, proofs);
    assert s.net + (a + b) == (s.net + a) + b;
    assert |s.net + a| == |s.net| + |a|;
  }

  /** Any chain of submissions against honest answers is a run of the opening protocol. */
  lemma {:induction false} LogIsARun(s: P.State, log: seq<OpenSubmission>, ans: Answers, proofs: Opening -> string)
    requires s.phase.Idle? && Chained(s.store, log, ans, proofs) && forall i :: Honest(ans.exchange(i))
    ensures P.Run(s, LogEvents(|s.net|, log, ans, proofs), proofs)
         == P.State(LastStore(s.store, log), P.Idle, s.net + MessagesOf(log, ans, proofs))
    decreases |log|
  {
    if log == [] {
      NoRun(s, proofs);
    } else {
      hide P.Run, P.Next, LogEvents, EventsOf, MessagesOf, Honest, Chained, LastStore, SubmitAttempt;
      var t := AfterFirst(s, log, ans, proofs);
      ChainStep(s.store, log, ans, proofs);
      FirstOfLog(s, log, ans, proofs);
      LogSplit(s, log, ans, proofs);
      LogIsARun(t, log[1..], ans, proofs);
      RunConcat(s, EventsOf(|s.net|, log[0], ans, proofs), LogEvents(|t.net|, log[1..], ans, proofs), proofs);
    }
  }

  /**
   An automatic opening started after any run is itself a run, so that whatever the mint
   executed in it, first submission or retry, can still be recovered from storage.
   */
  lemma AutoKeepsExecuted(es: seq<P.Event>, ans: Answers, proofs: Opening -> string, p: P.PreparedOpen)
    requires P.Run(P.START, es, proofs).phase.Idle? && forall i :: Honest(ans.exchange(i))
    ensures var s := P.Run(P.START, es, proofs);
            var e := OpenAuto(s.store, ans, proofs);
            && P.Run(P.START, es + LogEvents(|s.net|, e.log, ans, proofs), proofs)
               == P.State(e.world.store, P.Idle, s.net + MessagesOf(e.log, ans, proofs))
            && (P.WasExecuted(s.net + MessagesOf(e.log, ans, proofs), p) ==> P.Kept(e.world.store, p, proofs))
  {
    hide P.Run, P.Next, OpenAuto, LogEvents, P.Kept, P.WasExecuted;
    var s := P.Run(P.START, es, proofs);
    var e := OpenAuto(s.store, ans, proofs);
    var more := LogEvents(|s.net|, e.log, ans, proofs);
    AutoIsChained(s.store, ans, proofs);
    LogIsARun(s, e.log, ans, proofs);
    RunConcat(P.START, es, more, proofs);
    if P.WasExecuted(s.net + MessagesOf(e.log, ans, proofs), p) {
      P.ExecutedIsKept(es + more, proofs, p);
    }
  }
}
