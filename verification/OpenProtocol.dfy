/**
 Opening a channel (client_bridge.rs): check, save, submit, complete, verify by restore,
 mark open, as separate steps of one client process that may stop between any two of them.
 The mint may execute a submitted swap whether or not the client ever hears of it, at any
 later time.  Deleting a channel is not among the steps.

 Safety: whatever the mint executed can still be recovered from storage, a channel marked
 as failed was never executed, and no channel's swap is ever submitted while an earlier
 submission of it may still be executed.
 */
module OpenProtocol {
  import opened Wrappers
  import opened ClientStorage

  /** A prepared opening: the record to save, which determines the swap to submit. */
  datatype PreparedOpen = PreparedOpen(id: string, record: Opening)

  /** What became of a submission at the mint. */
  datatype Fate = InFlight | Executed | Rejected

  datatype Message = Message(open: PreparedOpen, fate: Fate)

  /** Where the client is in an opening or a recovery. */
  datatype Phase =
    | Idle
    | Checked(p: PreparedOpen)
    | Saved(p: PreparedOpen)
    | Awaiting(p: PreparedOpen, n: nat)
    | Refused(p: PreparedOpen)
    | Received(p: PreparedOpen, n: nat)
    | Verified(p: PreparedOpen, n: nat)
    | Recovering(id: string, record: Opening)

  datatype State = State(store: Store, phase: Phase, net: seq<Message>)

  const START := State(EMPTY, Idle, [])

  datatype Event =
    | Begin(p: PreparedOpen)          // require_fresh_open_submission
    | Save                            // mark_prepared_open_saved
    | Submit                          // call_mint_swap
    | MintExecutes(n: nat)
    | MintRejects(n: nat)             // a keyset rejection, which permits a retry
    | HearSuccess                     // complete_prepared_open_channel
    | HearRejection
    | MarkFailed(failure: Failure)    // mark_prepared_open_rejected
    | CheckRestore                    // verify_completed_open_matches_restore
    | MarkOpen                        // mark_completed_open
    | BeginRecovery(id: string)       // prepare_open_channel_recovery
    | FinishRecovery                  // complete and mark_completed_open_recovery
    | Stop                            // a crash, a transport failure or any other error
    | MarkUnusable(id: string)
    | CloseLocally(id: string)
    | RecordPayment(id: string, payment: PaymentState)

  predicate WasExecuted(net: seq<Message>, p: PreparedOpen) {
    exists n :: 0 <= n < |net| && net[n] == Message(p, Executed)
  }

  function Do(s: State, op: Op): State {
    s.(store := Step(s.store, op).0)
  }

  /** One step; an event that is not enabled changes nothing.  Funding proofs are a function of the opening record. */
  function Next(s: State, e: Event, proofs: Opening -> string): State {
    match e
    case Begin(p) =>
      if s.phase.Idle? && GetOpening(s.store, p.id) == Ok(None) then s.(phase := Checked(p)) else s
    case Save =>
      if s.phase.Checked? then
        var p := s.phase.p;
        var r := Step(s.store, SaveOpening(p.id, p.record));
        s.(store := r.0, phase := if r.1 == None then Saved(p) else Idle)
      else s
    case Submit =>
      if s.phase.Saved? then
        s.(net := s.net + [Message(s.phase.p, InFlight)], phase := Awaiting(s.phase.p, |s.net|))
      else s
    case MintExecutes(n) =>
      if n < |s.net| && s.net[n].fate == InFlight then s.(net := s.net[n := s.net[n].(fate := Executed)]) else s
    case MintRejects(n) =>
      if n < |s.net| && s.net[n].fate == InFlight then s.(net := s.net[n := s.net[n].(fate := Rejected)]) else s
    case HearSuccess =>
      if s.phase.Awaiting? && s.phase.n < |s.net| && s.net[s.phase.n].fate == Executed
      then s.(phase := Received(s.phase.p, s.phase.n)) else s
    case HearRejection =>
      if s.phase.Awaiting? && s.phase.n < |s.net| && s.net[s.phase.n].fate == Rejected
      then s.(phase := Refused(s.phase.p)) else s
    case MarkFailed(failure) =>
      if s.phase.Refused? then Do(s, SetOpeningFailed(s.phase.p.id, failure)).(phase := Idle) else s
    case CheckRestore =>
      if s.phase.Received? then s.(phase := Verified(s.phase.p, s.phase.n)) else s
    case MarkOpen =>
      if s.phase.Verified? then Do(s, SetOpen(s.phase.p.id, proofs(s.phase.p.record))).(phase := Idle) else s
    case BeginRecovery(id) =>
      if s.phase.Idle? && GetOpening(s.store, id).Ok? && GetOpening(s.store, id).value.Some?
      then s.(phase := Recovering(id, GetOpening(s.store, id).value.value)) else s
    case FinishRecovery =>
      if s.phase.Recovering? then
        var p := PreparedOpen(s.phase.id, s.phase.record);
        if WasExecuted(s.net, p) then Do(s, SetOpen(p.id, proofs(p.record))).(phase := Idle) else s.(phase := Idle)
      else s
    case Stop => s.(phase := Idle)
    case MarkUnusable(id) => Do(s, SetClosing(id))
    case CloseLocally(id) => Do(s, SetClosed(id))
    case RecordPayment(id, payment) => Do(s, SavePayment(id, payment))
  }

  function Run(s: State, es: seq<Event>, proofs: Opening -> string): State
    decreases |es|
  {
    if es == [] then s else Run(Next(s, es[0], proofs), es[1..], proofs)
  }

  // ------------------------------------------------------------------------
  // The invariant
  // ------------------------------------------------------------------------

  /** Not rejected: the mint executed it or still may. */
  predicate Live(m: Message) {
    m.fate != Rejected
  }

  /** Storage holds the opening record, or the funding record made from it. */
  predicate Kept(st: Store, p: PreparedOpen, proofs: Opening -> string) {
    || Get(st.opening, p.id) == Some(p.record)
    || Get(st.funding, p.id) == Some(FundingFrom(p.record, proofs(p.record)))
  }

  predicate NotFailed(st: Store, id: string) {
    id in st.states && !st.states[id].OpeningFailed?
  }

  /** No submission for this channel, other than number n, can have been or still be executed. */
  ghost predicate OnlyLive(net: seq<Message>, id: string, n: nat) {
    forall m | 0 <= m < |net| && net[m].open.id == id && m != n :: !Live(net[m])
  }

  ghost predicate NoneLive(net: seq<Message>, id: string) {
    forall m | 0 <= m < |net| && net[m].open.id == id :: !Live(net[m])
  }

  ghost predicate PhaseOk(s: State) {
    match s.phase
    case Idle => true
    case Checked(p) => Get(s.store.states, p.id) != Some(OpeningFromSwap)
    case Saved(p) => Get(s.store.opening, p.id) == Some(p.record) && NotFailed(s.store, p.id) && NoneLive(s.net, p.id)
    case Awaiting(p, n) => n < |s.net| && s.net[n].open == p && OnlyLive(s.net, p.id, n)
    case Refused(p) => NoneLive(s.net, p.id)
    case Received(p, n) => n < |s.net| && s.net[n] == Message(p, Executed)
    case Verified(p, n) => n < |s.net| && s.net[n] == Message(p, Executed)
    case Recovering(id, record) => true
  }

  ghost predicate LiveOk(s: State, proofs: Opening -> string) {
    forall n | 0 <= n < |s.net| && Live(s.net[n]) ::
      && Kept(s.store, s.net[n].open, proofs)
      && NotFailed(s.store, s.net[n].open.id)
      && OnlyLive(s.net, s.net[n].open.id, n)
  }

  /** A funded channel was funded by a swap the mint executed. */
  ghost predicate FundedOk(s: State, proofs: Opening -> string) {
    forall id | id in s.store.funding ::
      exists n :: 0 <= n < |s.net| && s.net[n].fate == Executed && s.net[n].open.id == id
                  && s.store.funding[id] == FundingFrom(s.net[n].open.record, proofs(s.net[n].open.record))
  }

  ghost predicate Inv(s: State, proofs: Opening -> string) {
    Consistent(s.store) && LiveOk(s, proofs) && FundedOk(s, proofs) && PhaseOk(s)
  }

  // ------------------------------------------------------------------------
  // Every step keeps it
  // ------------------------------------------------------------------------

  lemma SaveKeeps(s: State, proofs: Opening -> string)
    requires Inv(s, proofs) && s.phase.Checked?
    ensures Inv(Next(s, Save, proofs), proofs)
  {
    var p := s.phase.p;
    StepConsistent(s.store, SaveOpening(p.id, p.record));
    var s' := Next(s, Save, proofs);
    if s'.phase.Saved? {
      assert ConsistentAt(s.store, p.id);
      assert NoneLive(s'.net, p.id);
    }
  }

  lemma SubmitKeeps(s: State, proofs: Opening -> string)
    requires Inv(s, proofs) && s.phase.Saved?
    ensures Inv(Next(s, Submit, proofs), proofs)
  {
    var s' := Next(s, Submit, proofs);
    forall n | 0 <= n < |s'.net| && Live(s'.net[n])
      ensures Kept(s'.store, s'.net[n].open, proofs) && NotFailed(s'.store, s'.net[n].open.id)
              && OnlyLive(s'.net, s'.net[n].open.id, n)
    {
      if n < |s.net| {
        assert s.net[n] == s'.net[n];
      }
    }
    assert FundedOk(s', proofs) by { FundedExtends(s, s', proofs); }
  }

  /** Nothing that was executed is forgotten by the mint, so funded channels stay accounted for. */
  lemma FundedExtends(s: State, s': State, proofs: Opening -> string)
    requires FundedOk(s, proofs) && s'.store.funding == s.store.funding && |s.net| <= |s'.net|
    requires forall n | 0 <= n < |s.net| && s.net[n].fate == Executed :: s'.net[n] == s.net[n]
    ensures FundedOk(s', proofs)
  {
    forall id | id in s'.store.funding
      ensures exists n :: 0 <= n < |s'.net| && s'.net[n].fate == Executed && s'.net[n].open.id == id
                  && s'.store.funding[id] == FundingFrom(s'.net[n].open.record, proofs(s'.net[n].open.record))
    {
      var n :| 0 <= n < |s.net| && s.net[n].fate == Executed && s.net[n].open.id == id
               && s.store.funding[id] == FundingFrom(s.net[n].open.record, proofs(s.net[n].open.record));
      assert s'.net[n] == s.net[n];
    }
  }

  /** The mint decides a request that was in flight. */
  lemma FateKeeps(s: State, n: nat, fate: Fate, proofs: Opening -> string)
    requires Inv(s, proofs) && n < |s.net| && s.net[n].fate == InFlight
    ensures Inv(s.(net := s.net[n := s.net[n].(fate := fate)]), proofs)
  {
    var s' := s.(net := s.net[n := s.net[n].(fate := fate)]);
    assert forall m | 0 <= m < |s'.net| :: s'.net[m].open == s.net[m].open && (Live(s'.net[m]) ==> Live(s.net[m]));
    FundedExtends(s, s', proofs);
  }

  lemma MintKeeps(s: State, e: Event, proofs: Opening -> string)
    requires Inv(s, proofs) && (e.MintExecutes? || e.MintRejects?)
    ensures Inv(Next(s, e, proofs), proofs)
  {
    hide Inv;
    if e.n < |s.net| && s.net[e.n].fate == InFlight {
      FateKeeps(s, e.n, if e.MintExecutes? then Executed else Rejected, proofs);
    }
  }

  /** Completing a channel from a swap the mint executed, in the opening or in a recovery. */
  lemma OpenKeeps(s: State, p: PreparedOpen, n: nat, proofs: Opening -> string)
    requires Inv(s, proofs) && n < |s.net| && s.net[n] == Message(p, Executed)
    ensures Inv(Do(s, SetOpen(p.id, proofs(p.record))).(phase := Idle), proofs)
  {
    var op := SetOpen(p.id, proofs(p.record));
    var s' := Do(s, op).(phase := Idle);
    StepConsistent(s.store, op);
    assert Live(s.net[n]);
    assert ConsistentAt(s.store, p.id);
    forall m | 0 <= m < |s'.net| && Live(s'.net[m])
      ensures Kept(s'.store, s'.net[m].open, proofs) && NotFailed(s'.store, s'.net[m].open.id)
              && OnlyLive(s'.net, s'.net[m].open.id, m)
    {
      assert s'.net[m].open.id == p.id ==> m == n;
    }
    forall id | id in s'.store.funding
      ensures exists m :: 0 <= m < |s'.net| && s'.net[m].fate == Executed && s'.net[m].open.id == id
                  && s'.store.funding[id] == FundingFrom(s'.net[m].open.record, proofs(s'.net[m].open.record))
    {
      if id == p.id && id !in s.store.funding {
        assert s'.net[n].open.id == id;
      }
    }
  }

  /** Marking a refused opening as failed, and the calls that only touch lifecycle or payment state. */
  lemma LifecycleKeeps(s: State, e: Event, proofs: Opening -> string)
    requires Inv(s, proofs)
    requires e.MarkUnusable? || e.CloseLocally? || e.RecordPayment? || (e.MarkFailed? && s.phase.Refused?)
    ensures Inv(Next(s, e, proofs), proofs)
  {
    var op := match e
      case MarkUnusable(id) => SetClosing(id)
      case CloseLocally(id) => SetClosed(id)
      case RecordPayment(id, payment) => SavePayment(id, payment)
      case MarkFailed(failure) => SetOpeningFailed(s.phase.p.id, failure);
    StepConsistent(s.store, op);
    var s' := Next(s, e, proofs);
    assert s'.net == s.net && s'.store.funding == s.store.funding && s'.store.opening == s.store.opening;
    FundedExtends(s, s', proofs);
  }

  lemma NextKeeps(s: State, e: Event, proofs: Opening -> string)
    requires Inv(s, proofs)
    ensures Inv(Next(s, e, proofs), proofs)
  {
    match e
    case Save => if s.phase.Checked? { SaveKeeps(s, proofs); }
    case Submit => if s.phase.Saved? { SubmitKeeps(s, proofs); }
    case MintExecutes(n) => MintKeeps(s, e, proofs);
    case MintRejects(n) => MintKeeps(s, e, proofs);
    case MarkOpen => if s.phase.Verified? { OpenKeeps(s, s.phase.p, s.phase.n, proofs); }
    case FinishRecovery =>
      if s.phase.Recovering? {
        var p := PreparedOpen(s.phase.id, s.phase.record);
        if WasExecuted(s.net, p) {
          var n :| 0 <= n < |s.net| && s.net[n] == Message(p, Executed);
          OpenKeeps(s, p, n, proofs);
        }
      }
    case MarkFailed(_) => if s.phase.Refused? { LifecycleKeeps(s, e, proofs); }
    case MarkUnusable(_) => LifecycleKeeps(s, e, proofs);
    case CloseLocally(_) => LifecycleKeeps(s, e, proofs);
    case RecordPayment(_, _) => LifecycleKeeps(s, e, proofs);
    case _ =>
  }

  lemma {:induction false} RunKeeps(s: State, es: seq<Event>, proofs: Opening -> string)
    requires Inv(s, proofs)
    ensures Inv(Run(s, es, proofs), proofs)
    decreases |es|
  {
    if es != [] {
      NextKeeps(s, es[0], proofs);
      RunKeeps(Next(s, es[0], proofs), es[1..], proofs);
    }
  }

  // ------------------------------------------------------------------------
  // Main results, over every run
  // ------------------------------------------------------------------------

  /** Whatever the mint executed is still held: its opening record with every secret, or the funding made from it. */
  lemma ExecutedIsKept(es: seq<Event>, proofs: Opening -> string, p: PreparedOpen)
    requires WasExecuted(Run(START, es, proofs).net, p)
    ensures Kept(Run(START, es, proofs).store, p, proofs)
  {
    RunKeeps(START, es, proofs);
    var s := Run(START, es, proofs);
    var n :| 0 <= n < |s.net| && s.net[n] == Message(p, Executed);
    assert Live(s.net[n]);
  }

  /** A channel marked as failed was never executed and never will be: all its submissions were rejected. */
  lemma FailedWasNeverExecuted(es: seq<Event>, proofs: Opening -> string, id: string)
    requires Get(Run(START, es, proofs).store.states, id) == Some(OpeningFailed)
    ensures NoneLive(Run(START, es, proofs).net, id)
  {
    RunKeeps(START, es, proofs);
  }

  /** At most one submission per channel was executed or may still be. */
  lemma NeverSubmittedTwice(es: seq<Event>, proofs: Opening -> string, n: nat, m: nat)
    requires var net := Run(START, es, proofs).net;
             n < |net| && m < |net| && net[n].open.id == net[m].open.id && Live(net[n]) && Live(net[m])
    ensures n == m
  {
    RunKeeps(START, es, proofs);
  }

  /** A channel is open only on the proofs of a swap the mint executed. */
  lemma OpenMeansExecuted(es: seq<Event>, proofs: Opening -> string, id: string)
    requires id in Run(START, es, proofs).store.funding
    ensures exists p: PreparedOpen :: p.id == id && WasExecuted(Run(START, es, proofs).net, p)
              && Run(START, es, proofs).store.funding[id] == FundingFrom(p.record, proofs(p.record))
  {
    RunKeeps(START, es, proofs);
    var s := Run(START, es, proofs);
    var n :| 0 <= n < |s.net| && s.net[n].fate == Executed && s.net[n].open.id == id
             && s.store.funding[id] == FundingFrom(s.net[n].open.record, proofs(s.net[n].open.record));
    assert s.net[n] == Message(s.net[n].open, Executed);
    assert WasExecuted(s.net, s.net[n].open);
  }

  /** After a stop anywhere, recovery opens an executed channel exactly when it is still in OpeningFromSwap. */
  lemma RecoveryOpensIff(es: seq<Event>, proofs: Opening -> string, p: PreparedOpen)
    requires WasExecuted(Run(START, es, proofs).net, p) && p.id !in Run(START, es, proofs).store.funding
    ensures var s := Run(START, es, proofs);
            var t := Run(s, [Stop, BeginRecovery(p.id), FinishRecovery], proofs);
            (Get(t.store.funding, p.id) == Some(FundingFrom(p.record, proofs(p.record))))
              <==> Get(s.store.states, p.id) == Some(OpeningFromSwap)
  {
    hide LiveOk, FundedOk, PhaseOk;
    var s := Run(START, es, proofs);
    RunKeeps(START, es, proofs);
    ExecutedIsKept(es, proofs, p);
    assert ConsistentAt(s.store, p.id);
    var s1 := Next(s, Stop, proofs);
    var s2 := Next(s1, BeginRecovery(p.id), proofs);
    var s3 := Next(s2, FinishRecovery, proofs);
    RunThree(s, Stop, BeginRecovery(p.id), FinishRecovery, proofs);
  }

  lemma RunThree(s: State, a: Event, b: Event, c: Event, proofs: Opening -> string)
    ensures Run(s, [a, b, c], proofs) == Next(Next(Next(s, a, proofs), b, proofs), c, proofs)
  {
    assert [a, b, c][1..] == [b, c] && [b, c][1..] == [c] && [c][1..] == [];
    assert Run(Next(Next(s, a, proofs), b, proofs), [c], proofs) == Run(Next(Next(Next(s, a, proofs), b, proofs), c, proofs), [], proofs);
    assert Run(Next(s, a, proofs), [b, c], proofs) == Run(Next(Next(s, a, proofs), b, proofs), [c], proofs);
  }

  /** Lifecycle calls are made on open channels only. */
  ghost predicate Careful(s: State, es: seq<Event>, proofs: Opening -> string)
    decreases |es|
  {
    es == [] ||
    (&& (es[0].MarkUnusable? || es[0].CloseLocally? ==> es[0].id in s.store.funding)
     && Careful(Next(s, es[0], proofs), es[1..], proofs))
  }

  ghost predicate LiveUnopenedIsOpening(s: State) {
    forall n | 0 <= n < |s.net| && Live(s.net[n]) && s.net[n].open.id !in s.store.funding ::
      Get(s.store.states, s.net[n].open.id) == Some(OpeningFromSwap)
  }

  ghost predicate SavedIsOpening(s: State) {
    s.phase.Saved? ==> Get(s.store.states, s.phase.p.id) == Some(OpeningFromSwap)
  }

  /** An operation that leaves a channel in OpeningFromSwap, opens it, or concerns one without live submissions. */
  lemma CarefulOp(s: State, op: Op, proofs: Opening -> string)
    requires Inv(s, proofs) && LiveUnopenedIsOpening(s)
    requires !op.Delete?
    requires op.SetClosing? || op.SetClosed? ==> op.id in s.store.funding
    requires op.SetOpeningFailed? ==> NoneLive(s.net, op.id)
    ensures LiveUnopenedIsOpening(Do(s, op))
  {
    var st := Step(s.store, op).0;
    forall n | 0 <= n < |s.net| && Live(s.net[n]) && s.net[n].open.id !in st.funding
      ensures Get(st.states, s.net[n].open.id) == Some(OpeningFromSwap)
    {
      assert ConsistentAt(s.store, s.net[n].open.id);
    }
  }

  /** The steps that leave storage alone. */
  lemma CarefulNetStep(s: State, e: Event, proofs: Opening -> string)
    requires Inv(s, proofs) && LiveUnopenedIsOpening(s) && SavedIsOpening(s)
    requires Next(s, e, proofs).store == s.store && !e.Save?
    ensures LiveUnopenedIsOpening(Next(s, e, proofs)) && SavedIsOpening(Next(s, e, proofs))
  {
    var s' := Next(s, e, proofs);
    forall n | 0 <= n < |s'.net| && Live(s'.net[n]) && s'.net[n].open.id !in s'.store.funding
      ensures Get(s'.store.states, s'.net[n].open.id) == Some(OpeningFromSwap)
    {
      if n < |s.net| {
        assert Live(s.net[n]) && s.net[n].open == s'.net[n].open;
      }
    }
  }

  lemma CarefulLifecycle(s: State, id: string, closed: bool, proofs: Opening -> string)
    requires Inv(s, proofs) && LiveUnopenedIsOpening(s) && SavedIsOpening(s) && id in s.store.funding
    ensures var s' := Do(s, if closed then SetClosed(id) else SetClosing(id));
            LiveUnopenedIsOpening(s') && SavedIsOpening(s')
  {
    CarefulOp(s, if closed then SetClosed(id) else SetClosing(id), proofs);
    assert ConsistentAt(s.store, id);
  }

  lemma CarefulStep(s: State, e: Event, proofs: Opening -> string)
    requires Inv(s, proofs) && LiveUnopenedIsOpening(s) && SavedIsOpening(s)
    requires e.MarkUnusable? || e.CloseLocally? ==> e.id in s.store.funding
    ensures LiveUnopenedIsOpening(Next(s, e, proofs)) && SavedIsOpening(Next(s, e, proofs))
  {
    hide LiveOk, FundedOk, Consistent;
    if e.Save? && s.phase.Checked? {
      CarefulOp(s, SaveOpening(s.phase.p.id, s.phase.p.record), proofs);
    } else if e.MarkFailed? && s.phase.Refused? {
      CarefulOp(s, SetOpeningFailed(s.phase.p.id, e.failure), proofs);
    } else if e.MarkOpen? && s.phase.Verified? {
      CarefulOp(s, SetOpen(s.phase.p.id, proofs(s.phase.p.record)), proofs);
    } else if e.FinishRecovery? && s.phase.Recovering? {
      CarefulOp(s, SetOpen(s.phase.id, proofs(s.phase.record)), proofs);
    } else if e.MarkUnusable? || e.CloseLocally? {
      CarefulLifecycle(s, e.id, e.CloseLocally?, proofs);
    } else if !e.RecordPayment? && !e.Save? {
      CarefulNetStep(s, e, proofs);
    }
  }

  lemma {:induction false} CarefulRun(s: State, es: seq<Event>, proofs: Opening -> string)
    requires Inv(s, proofs) && LiveUnopenedIsOpening(s) && SavedIsOpening(s) && Careful(s, es, proofs)
    ensures LiveUnopenedIsOpening(Run(s, es, proofs))
    decreases |es|
  {
    if es != [] {
      CarefulStep(s, es[0], proofs);
      NextKeeps(s, es[0], proofs);
      CarefulRun(Next(s, es[0], proofs), es[1..], proofs);
    }
  }

  /** With lifecycle calls on open channels only, every executed channel can be opened after any stop. */
  lemma AlwaysRecoverable(es: seq<Event>, proofs: Opening -> string, p: PreparedOpen)
    requires Careful(START, es, proofs)
    requires WasExecuted(Run(START, es, proofs).net, p) && p.id !in Run(START, es, proofs).store.funding
    ensures var t := Run(Run(START, es, proofs), [Stop, BeginRecovery(p.id), FinishRecovery], proofs);
            Get(t.store.funding, p.id) == Some(FundingFrom(p.record, proofs(p.record)))
  {
    CarefulRun(START, es, proofs);
    RecoveryOpensIff(es, proofs, p);
    var s := Run(START, es, proofs);
    var n :| 0 <= n < |s.net| && s.net[n] == Message(p, Executed);
    assert Live(s.net[n]);
  }

  /** Once a channel is open its change secrets are gone from storage, so change not yet handed over cannot be restored. */
  lemma OpenForgetsChange(es: seq<Event>, proofs: Opening -> string, id: string)
    requires id in Run(START, es, proofs).store.funding
    ensures id !in Run(START, es, proofs).store.opening && GetOpening(Run(START, es, proofs).store, id) == Ok(None)
  {
    RunKeeps(START, es, proofs);
    assert ConsistentAt(Run(START, es, proofs).store, id);
  }
  lemma RunFive(s: State, a: Event, b: Event, c: Event, d: Event, e: Event, proofs: Opening -> string)
    ensures Run(s, [a, b, c, d, e], proofs) == Next(Next(Next(Next(Next(s, a, proofs), b, proofs), c, proofs), d, proofs), e, proofs)
  {
    hide Next;
    var t := Next(s, a, proofs);
    var u := Next(t, b, proofs);
    assert [a, b, c, d, e][1..] == [b, c, d, e] && [b, c, d, e][1..] == [c, d, e];
    assert Run(t, [b, c, d, e], proofs) == Run(u, [c, d, e], proofs);
    RunThree(u, c, d, e, proofs);
  }

  /** State after a channel's swap was saved, submitted and executed, and the channel then closed locally. */
  function ClosedEarly(p: PreparedOpen): State {
    State(EMPTY.(opening := map[p.id := p.record], states := map[p.id := Closed]),
          Awaiting(p, 0), [Message(p, Executed)])
  }

  lemma ClosedEarlyIsReached(p: PreparedOpen, proofs: Opening -> string)
    ensures Run(START, [Begin(p), Save, Submit, MintExecutes(0), CloseLocally(p.id)], proofs) == ClosedEarly(p)
  {
    var st := EMPTY.(opening := map[p.id := p.record], states := map[p.id := OpeningFromSwap]);
    var s1, s2 := START.(phase := Checked(p)), State(st, Saved(p), []);
    var s3 := State(st, Awaiting(p, 0), [Message(p, InFlight)]);
    var s4 := s3.(net := [Message(p, Executed)]);
    assert Next(START, Begin(p), proofs) == s1;
    assert Next(s1, Save, proofs) == s2;
    assert Next(s2, Submit, proofs) == s3;
    assert Next(s3, MintExecutes(0), proofs) == s4;
    assert Next(s4, CloseLocally(p.id), proofs) == ClosedEarly(p);
    hide Next;
    RunFive(START, Begin(p), Save, Submit, MintExecutes(0), CloseLocally(p.id), proofs);
  }

  /** Such a run exists for every channel, and recovery does not open it although the mint executed its swap. */
  lemma LocalCloseBlocksRecovery(p: PreparedOpen, proofs: Opening -> string)
    ensures var s := Run(START, [Begin(p), Save, Submit, MintExecutes(0), CloseLocally(p.id)], proofs);
            && WasExecuted(s.net, p)
            && Get(Run(s, [Stop, BeginRecovery(p.id), FinishRecovery], proofs).store.funding, p.id)
               != Some(FundingFrom(p.record, proofs(p.record)))
  {
    ClosedEarlyIsReached(p, proofs);
    assert ClosedEarly(p).net[0] == Message(p, Executed);
    RecoveryOpensIff([Begin(p), Save, Submit, MintExecutes(0), CloseLocally(p.id)], proofs, p);
    hide Run, Next;
  }
}
