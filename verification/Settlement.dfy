/**
 What the receiver is promised about every run of CloseProtocol: it is never owed more than
 it can claim, a closed channel paid exactly what its signed balance commits to, settlement
 is final, and an interrupted close can be resumed or recovered, with the exact conditions.
 */
module Settlement {
  import opened Arith
  import opened Wrappers
  import opened Channel
  import A = Amounts
  import opened Pricing
  import opened Stores
  import Sql = SqliteStores
  import opened Restore
  import opened CloseRequest
  import opened CloseCompletion
  import opened Receiver
  import opened Lifecycle
  import opened CloseProtocol

  lemma ReachableInv(w: World, steps: seq<Step>)
    requires ValidWorld(w)
    ensures Inv(w, Run(w, INITIAL, steps))
  {
    InitialInv(w);
    RunKeeps(w, INITIAL, steps);
  }

  // ------------------------------------------------------------------------
  // The receiver is always covered
  // ------------------------------------------------------------------------

  /** A claimable payment is within capacity, and its commitment is worth all that is due once the closing fees are paid. */
  lemma ClaimPays(env: Env, b: Books, id: string, p: Payment)
    requires ValidEnv(env) && Claimable(env, b, id, p)
    ensures var f := b.funding[id];
            && ParamsOk(f) && A.ForBalance(p.balance, TermsOf(f)).Ok?
            && var k := A.ForBalance(p.balance, TermsOf(f)).value;
            && DueNow(env, b, id) <= p.balance <= f.params.capacity
            && DueNow(env, b, id) <= A.ValueAfterFees(k.receiver, f.keyset.feePpk)
            && A.Sum(k.receiver) + A.Sum(k.sender) == A.AfterStage1(TermsOf(f))
  {
    A.CommitmentPays(p.balance, TermsOf(b.funding[id]));
  }

  /** In every reachable state every channel's stored balance is signed by the sender and covers what is due. */
  lemma AlwaysCovered(w: World, steps: seq<Step>, id: string)
    requires ValidWorld(w) && id in Run(w, INITIAL, steps).books.funding
    ensures var b := Run(w, INITIAL, steps).books;
            && id in b.balance
            && SenderSigned(w.env.crypto, b.funding[id], b.balance[id])
            && Authorised(w.env.crypto, b.funding[id], b.balance[id].balance)
            && A.ForBalance(b.balance[id].balance, TermsOf(b.funding[id])).Ok?
            && DueNow(w.env, b, id) <= b.balance[id].balance <= b.funding[id].params.capacity
            && DueNow(w.env, b, id)
               <= A.ValueAfterFees(A.ForBalance(b.balance[id].balance, TermsOf(b.funding[id])).value.receiver,
                                   b.funding[id].keyset.feePpk)
  {
    var b := Run(w, INITIAL, steps).books;
    ReachableInv(w, steps);
    assert SolventAt(w.env, b, id);
    ClaimPays(w.env, b, id, b.balance[id]);
    VerifiedIsAuthorised(w.env, b.funding[id], b.balance[id]);
  }

  /** The sender signed every balance that the receiver could ever claim. */
  lemma ClaimIsSigned(env: Env, b: Books, id: string, p: Payment, signed: iset<(string, string)>)
    requires ValidEnv(env) && Claimable(env, b, id, p) && Unforgeable(env.crypto, signed)
    ensures Signed(env.crypto, b.funding[id], p.balance, signed)
  {
    VerifiedIsAuthorised(env, b.funding[id], p);
  }

  /**
   Take any account of what has been signed outside which no signature verifies.  In every
   reachable state it holds, under the channel's sender key, the digest of the swap for the
   stored balance, for the balance on file of a closing channel, for the balance of every
   submission, and for the balance at which a channel was settled and closed.
   */
  lemma EveryBalanceWasSigned(w: World, steps: seq<Step>, id: string, signed: iset<(string, string)>)
    requires ValidWorld(w) && Unforgeable(w.env.crypto, signed) && id in Run(w, INITIAL, steps).books.funding
    ensures var s := Run(w, INITIAL, steps); var c, f := w.env.crypto, s.books.funding[id];
            && id in s.books.balance && Signed(c, f, s.books.balance[id].balance, signed)
            && (id in s.books.closing ==> Signed(c, f, s.books.closing[id].payment.balance, signed))
            && (forall a | a in s.submitted && a.prepared.id == id :: Signed(c, f, a.payment.balance, signed))
            && (id in s.spent && s.spent[id].Settled? ==> Signed(c, f, s.spent[id].attempt.payment.balance, signed))
            && (id in s.books.closed ==> Signed(c, f, s.books.closed[id].amount, signed))
  {
    var s := Run(w, INITIAL, steps);
    ReachableInv(w, steps);
    assert SolventAt(w.env, s.books, id) && SpentOk(s, id) && ClosedOk(s, id);
    hide Signed, Unforgeable, SignatureVerifies, PrepareClose, DueNow, ExecOk;
    ClaimIsSigned(w.env, s.books, id, s.books.balance[id], signed);
    if id in s.books.closing {
      ClaimIsSigned(w.env, s.books, id, s.books.closing[id].payment, signed);
    }
    forall a | a in s.submitted && a.prepared.id == id
      ensures Signed(w.env.crypto, s.books.funding[id], a.payment.balance, signed)
    {
      assert AttemptOk(w, s.books, a);
      ClaimIsSigned(w.env, s.books, id, a.payment, signed);
    }
  }

  /**
   A closed channel: one swap spent its funding; the sender had signed that swap's balance;
   the record holds that balance, which is at least what is due; and the two parties' sums
   are those of its commitment, together all that spending the funding left.
   */
  lemma ClosedIsPaid(w: World, steps: seq<Step>, id: string)
    requires ValidWorld(w) && id in Run(w, INITIAL, steps).books.closed
    ensures var s := Run(w, INITIAL, steps);
            && id in s.books.funding && id in s.spent && s.spent[id].Settled?
            && var f, d, p := s.books.funding[id], s.books.closed[id], s.spent[id].attempt.payment;
            && SenderSigned(w.env.crypto, f, p) && d.amount == p.balance && d.expiry == f.params.expiry
            && DueNow(w.env, s.books, id) <= d.amount <= f.params.capacity
            && var k := A.ForBalance(d.amount, TermsOf(f)).value;
            && d.receiverSum == A.Sum(k.receiver) && d.senderSum == A.Sum(k.sender)
            && d.receiverSum + d.senderSum == d.valueAfterStage1 == A.AfterStage1(TermsOf(f))
            && d.amount <= A.ValueAfterFees(k.receiver, f.keyset.feePpk)
  {
    var s := Run(w, INITIAL, steps);
    ReachableInv(w, steps);
    assert ClosedOk(s, id) && SpentOk(s, id);
    assert AttemptOk(w, s.books, s.spent[id].attempt);
    A.CommitmentPays(s.books.closed[id].amount, TermsOf(s.books.funding[id]));
  }

  /** The exact price of the recorded usage of a channel whose unit is priced. */
  ghost function ExactPrice(env: Env, b: Books, id: string): nat
    requires id in b.funding && b.funding[id].params.unit in env.cfg.pricing
  {
    ExactDue(env.cfg.pricing[b.funding[id].params.unit].variables, Scale(env.cfg), Counts(GetUsage(b, id), map[]))
  }

  /** The wrapped amount due is the exact price exactly when the scaled total fits 64 bits. */
  lemma DueIsExactIff(env: Env, b: Books, id: string)
    requires ValidEnv(env) && id in b.funding && b.funding[id].params.unit in env.cfg.pricing
    ensures var prices := env.cfg.pricing[b.funding[id].params.unit].variables;
            DueNow(env, b, id) == ExactPrice(env, b, id) <==>
              Total(prices.Keys, prices, Counts(GetUsage(b, id), map[])) + Scale(env.cfg) - 1 < U64
  {
    var prices := env.cfg.pricing[b.funding[id].params.unit].variables;
    DueExactIff(Total(prices.Keys, prices, Counts(GetUsage(b, id), map[])), Scale(env.cfg));
  }

  // ------------------------------------------------------------------------
  // Submissions and finality
  // ------------------------------------------------------------------------

  /** Every swap ever submitted for a channel spends all of its funding proofs, pays out a signed commitment, and balances. */
  lemma SubmittedSpendsFunding(w: World, steps: seq<Step>, a: Attempt)
    requires ValidWorld(w) && a in Run(w, INITIAL, steps).submitted
    ensures var b := Run(w, INITIAL, steps).books;
            && a.prepared.id in b.funding
            && var f := b.funding[a.prepared.id];
            && SenderSigned(w.env.crypto, f, a.payment)
            && DueNow(w.env, b, a.prepared.id) <= a.payment.balance
            && Unsigned(a.prepared.request).inputs == f.proofs
            && a.prepared.request.outputs
               == MessagesFor(w.env.crypto, a.prepared.outputKeyset.id,
                              CloseSecrets(w.env.crypto, f, A.ForBalance(a.payment.balance, TermsOf(f)).value))
            && var fee := ProofTotal(a.prepared.request.inputs) - OutputTotal(a.prepared.request.outputs);
            var rates := f.keyset.feePpk * |A.Split(f.params.fundingAmount, f.params.maxOutput, f.keyset.amounts).0|;
            rates <= 1000 * fee < rates + 1000
  {
    var b := Run(w, INITIAL, steps).books;
    ReachableInv(w, steps);
    assert AttemptOk(w, b, a);
    SwapShape(w, b, a);
    var f, r := b.funding[a.prepared.id], a.prepared.request;
    hide Inv, AttemptOk, MessagesFor, CloseSecrets, DueNow;
    SignedFunding(w.env.crypto, f, a.payment);
    SameTotal(r, f.proofs);
    SwapBalances(w.env.crypto, f, a.payment.balance, a.prepared.outputKeyset.id);
  }

  lemma SignedFunding(c: Crypto, f: Funding, p: Payment)
    requires SenderSigned(c, f, p)
    ensures CanCommit(f, p.balance)
  {
  }

  /** Signatures do not change what inputs are worth. */
  lemma SameTotal(r: SwapRequest, ps: seq<Proof>)
    requires Unsigned(r).inputs == ps
    ensures ProofTotal(r.inputs) == ProofTotal(ps)
  {
    if ps != [] {
      assert r.inputs[1..] == ps[1..];
    }
  }

  lemma SwapShape(w: World, b: Books, a: Attempt)
    requires ValidEnv(w.env) && AttemptOk(w, b, a) && SolventAt(w.env, b, a.prepared.id)
    ensures var f := b.funding[a.prepared.id];
            && Unsigned(a.prepared.request).inputs == f.proofs
            && a.prepared.request.outputs
               == MessagesFor(w.env.crypto, a.prepared.outputKeyset.id,
                              CloseSecrets(w.env.crypto, f, A.ForBalance(a.payment.balance, TermsOf(f)).value))
  {
    var c, f, out := w.env.crypto, b.funding[a.prepared.id], a.prepared.outputKeyset;
    var k := A.ForBalance(a.payment.balance, TermsOf(f)).value;
    PreparedIsSigned(c, a.prepared.id, a.payment, f, out, a.nonce);
    PreparedUnsigned(c, a.prepared.id, a.payment, f, out, a.nonce);
    SortCommutes(c, out.id, AllSecrets(c, f, k));
    assert f.proofs[0].(sigs := None) == f.proofs[0];
    assert f.proofs[0 := f.proofs[0]] == f.proofs;
  }

  /** An execution holds to the payment it read, and submits again only when all it submitted before was refused. */
  lemma RetriedOnlyAfterRefusal(w: World, steps: seq<Step>, exec: nat, i: nat)
    requires ValidWorld(w) && exec in Run(w, INITIAL, steps).execs
    requires i < |Run(w, INITIAL, steps).execs[exec].attempts|
    ensures var s := Run(w, INITIAL, steps);
            var x := s.execs[exec];
            && x.attempts[i].payment == x.closing.payment
            && (i + 1 < |x.attempts| ==> x.attempts[i].serial in s.refused)
  {
    var s := Run(w, INITIAL, steps);
    ReachableInv(w, steps);
    assert ExecOk(w, s, s.execs[exec]);
  }

  lemma {:induction false} RefusedStays(w: World, s: State, steps: seq<Step>)
    requires ValidEnv(w.env)
    ensures s.refused <= Run(w, s, steps).refused
    decreases |steps|
  {
    hide StepOps, CanSubmit, NewAttempt, StateOf;
    if steps != [] {
      RefusedStays(w, Next(w, s, steps[0]), steps[1..]);
    }
  }

  /** A refused submission never settles its channel, whatever happens later; so of all that an execution submits at most the last can. */
  lemma RefusedNeverSettles(w: World, s: State, steps: seq<Step>, a: Attempt)
    requires ValidWorld(w) && Inv(w, s) && a.serial in s.refused
    ensures Get(Run(w, s, steps).spent, a.prepared.id) != Some(Settled(a))
  {
    hide Next, StepOps;
    RunKeeps(w, s, steps);
    RefusedStays(w, s, steps);
    assert SpentOk(Run(w, s, steps), a.prepared.id);
  }

  lemma SpentStays(w: World, s: State, step: Step, id: string)
    requires ValidEnv(w.env) && id in s.spent
    ensures Get(Next(w, s, step).spent, id) == Some(s.spent[id])
  {
    hide StepOps, CanSubmit, NewAttempt, StateOf;
  }

  /** How a channel's funding was spent never changes. */
  lemma {:induction false} SpentIsFinal(w: World, s: State, steps: seq<Step>, id: string)
    requires ValidEnv(w.env) && id in s.spent
    ensures Get(Run(w, s, steps).spent, id) == Some(s.spent[id])
    decreases |steps|
  {
    hide Next;
    if steps != [] {
      SpentStays(w, s, steps[0], id);
      SpentIsFinal(w, Next(w, s, steps[0]), steps[1..], id);
    }
  }

  /** Once the sender has reclaimed the funding, the channel is never recorded as closed. */
  lemma RefundedNeverCloses(w: World, s: State, steps: seq<Step>, id: string)
    requires ValidWorld(w) && Inv(w, s) && Get(s.spent, id) == Some(Refunded)
    ensures id !in Run(w, s, steps).books.closed
  {
    hide Next, StepOps;
    RunKeeps(w, s, steps);
    SpentIsFinal(w, s, steps, id);
    assert ClosedOk(Run(w, s, steps), id);
  }

  /** Two closed records of one channel, at any two points of a run, are the same record. */
  lemma ClosedIsFinal(w: World, s: State, steps: seq<Step>, id: string)
    requires ValidWorld(w) && Inv(w, s) && id in s.books.closed
    ensures Get(Run(w, s, steps).books.closed, id) == Some(s.books.closed[id])
    ensures DueNow(w.env, Run(w, s, steps).books, id) == DueNow(w.env, s.books, id)
  {
    hide Next, StepOps;
    RunKeeps(w, s, steps);
    assert LaterAt(s.books, Run(w, s, steps).books, id) && SolventAt(w.env, s.books, id);
    SameDue(w.env, s.books, Run(w, s, steps).books, id);
  }

  // ------------------------------------------------------------------------
  // Resuming and recovering a close
  // ------------------------------------------------------------------------

  predicate CanonicalMint(f: Funding) {
    TrimSlashes(f.params.mint) == f.params.mint
  }

  /** The mint's reply to a close at a balance carries a valid signature, under the output keyset's keys, for every output. */
  ghost predicate GoodReply(w: World, f: Funding, balance: nat, out: A.KeysetInfo, sigs: seq<BlindSignature>) {
    && ParamsOk(f) && A.ForBalance(balance, TermsOf(f)).Ok?
    && CompleteReply(w.env.crypto, w.dh, KeysOf(out), CloseSecrets(w.env.crypto, f, A.ForBalance(balance, TermsOf(f)).value), sigs).Ok?
  }

  /** Given a good reply, the settled swap is recorded exactly when the stored mint URL is canonical. */
  lemma CompletionClosesIff(w: World, b: Books, a: Attempt, sigs: seq<BlindSignature>)
    requires ValidWorld(w) && AttemptOk(w, b, a) && SolventAt(w.env, b, a.prepared.id)
    requires StateOf(b, a.prepared.id) == Some(IsClosing)
    requires GoodReply(w, b.funding[a.prepared.id], a.payment.balance, a.prepared.outputKeyset, sigs)
    ensures var f := b.funding[a.prepared.id];
            CompletionOps(w, b, a.prepared, sigs)
            == if CanonicalMint(f) then [Op.MarkClosed(a.prepared.id, Record(f, a.payment.balance))] else []
  {
    hide CommitmentRequest, CompleteReply, CloseSecrets, MessagesFor, Claimable, SenderSigned, Established;
    var c, f, out := w.env.crypto, b.funding[a.prepared.id], a.prepared.outputKeyset;
    PreparedSecrets(c, a.prepared.id, a.payment, f, out, a.nonce);
    PreparedIsBoundIff(c, a.prepared.id, a.payment, f, out, a.nonce);
    if CanonicalMint(f) {
      CompletionIsExact(c, w.dh, a.prepared, sigs);
      CompletedRecord(w, b, a, sigs);
    }
  }

  lemma PreparedSecrets(c: Crypto, id: string, p: Payment, f: Funding, out: A.KeysetInfo, nonce: string)
    requires A.ValidKeyset(out) && PrepareClose(c, id, p, f, out, nonce).Ok?
    ensures PrepareClose(c, id, p, f, out, nonce).value.secrets
         == CloseSecrets(c, f, A.ForBalance(p.balance, TermsOf(f)).value)
  {
  }

  /** Books after recording one close. */
  lemma MarkedClosed(b: Books, id: string, data: ClosedData)
    requires id !in b.closed
    ensures ApplyAll(b, [Op.MarkClosed(id, data)]).closed == b.closed[id := data]
  {
    assert [Op.MarkClosed(id, data)][1..] == [];
    assert ApplyAll(Apply(b, Op.MarkClosed(id, data)), []) == Apply(b, Op.MarkClosed(id, data));
  }

  /** The swap that resuming a close would submit. */
  ghost function ResumedAttempt(w: World, s: State, id: string, pick: A.KeysetInfo, nonce: string): Attempt
    requires id in s.books.funding && id in s.books.closing && A.ValidKeyset(pick)
    requires PrepareClose(w.env.crypto, id, s.books.closing[id].payment, s.books.funding[id], pick, nonce).Ok?
  {
    var p := s.books.closing[id].payment;
    Attempt(s.sent, p, nonce, PrepareClose(w.env.crypto, id, p, s.books.funding[id], pick, nonce).value)
  }

  /**
   A channel in Closing has closing data that the sender signed, within capacity and
   covering what is due; from it alone the close can be prepared again, exactly for the
   output keysets that can carry the funding amount.
   */
  lemma ClosingCanBePrepared(w: World, s: State, id: string, pick: A.KeysetInfo, nonce: string)
    requires ValidEnv(w.env) && Inv(w, s) && id in s.books.closing && A.ValidKeyset(pick)
    ensures id in s.books.funding
    ensures var f, p := s.books.funding[id], s.books.closing[id].payment;
            && SenderSigned(w.env.crypto, f, p)
            && DueNow(w.env, s.books, id) <= p.balance <= f.params.capacity
            && (PrepareClose(w.env.crypto, id, p, f, pick, nonce).Ok? <==>
                  A.Forward(f.params.fundingAmount, f.params.maxOutput, pick).Ok?)
  {
    hide PrepareClose, DueNow;
    assert SolventAt(w.env, s.books, id);
    A.CommitmentPays(s.books.closing[id].payment.balance, TermsOf(s.books.funding[id]));
    PrepareSucceedsIff(w.env.crypto, id, s.books.closing[id].payment, s.books.funding[id], pick, nonce);
  }

  ghost function Resumed(w: World, s: State, exec: nat, id: string, pick: A.KeysetInfo, nonce: string): State
    requires ValidEnv(w.env) && id in s.books.funding && id in s.books.closing && A.ValidKeyset(pick)
    requires PrepareClose(w.env.crypto, id, s.books.closing[id].payment, s.books.funding[id], pick, nonce).Ok?
  {
    Run(w, s, [Begin(exec, id), Submit(exec, pick, nonce), Settle(ResumedAttempt(w, s, id, pick, nonce))])
  }

  lemma RunThree(w: World, s: State, a: Step, b: Step, c: Step)
    requires ValidEnv(w.env)
    ensures Run(w, s, [a, b, c]) == Next(w, Next(w, Next(w, s, a), b), c)
  {
    hide Next;
    var t := Next(w, Next(w, s, a), b);
    assert [a, b, c][1..] == [b, c] && [b, c][1..] == [c] && [c][1..] == [];
    assert Run(w, t, [c]) == Run(w, Next(w, t, c), []);
    assert Run(w, Next(w, s, a), [b, c]) == Run(w, t, [c]);
  }

  lemma BeginEffect(w: World, s: State, exec: nat, id: string)
    requires ValidEnv(w.env) && exec !in s.execs && StateOf(s.books, id) == Some(IsClosing)
    ensures Next(w, s, Begin(exec, id)) == s.(execs := s.execs[exec := Exec(id, s.books.closing[id], [], false)])
  {
  }

  lemma SubmitEffect(w: World, s: State, exec: nat, pick: A.KeysetInfo, nonce: string)
    requires ValidEnv(w.env) && CanSubmit(w, s, exec, pick, nonce)
    ensures Next(w, s, Submit(exec, pick, nonce)) == AfterSubmit(s, exec, NewAttempt(w, s, exec, pick, nonce))
  {
    hide CanSubmit, NewAttempt;
  }

  lemma SettleEffect(w: World, s: State, a: Attempt)
    requires ValidEnv(w.env) && CanSettle(s, a)
    ensures Next(w, s, Settle(a)) == s.(spent := s.spent[a.prepared.id := Settled(a)])
  {
  }

  /** Beginning, submitting and settling leave the books alone and an answer waiting. */
  lemma ResumedIsAnswered(w: World, s: State, exec: nat, id: string, pick: A.KeysetInfo, nonce: string)
    requires ValidEnv(w.env) && StateOf(s.books, id) == Some(IsClosing) && exec !in s.execs && id !in s.spent
    requires s.sent !in s.refused
    requires id in s.books.funding && OutputFor(s.books.funding[id], pick)
    requires PrepareClose(w.env.crypto, id, s.books.closing[id].payment, s.books.funding[id], pick, nonce).Ok?
    ensures var t := Resumed(w, s, exec, id, pick, nonce);
            && t.books == s.books && Answered(t, exec)
            && LastAttempt(t, exec) == ResumedAttempt(w, s, id, pick, nonce)
  {
    hide Next, PrepareClose;
    var a := ResumedAttempt(w, s, id, pick, nonce);
    RunThree(w, s, Begin(exec, id), Submit(exec, pick, nonce), Settle(a));
    BeginEffect(w, s, exec, id);
    var s1 := Next(w, s, Begin(exec, id));
    SubmitEffect(w, s1, exec, pick, nonce);
    PreparedIsSigned(w.env.crypto, id, a.payment, s.books.funding[id], pick, nonce);
    SettleEffect(w, AfterSubmit(s1, exec, a), a);
  }

  lemma FinishEffect(w: World, s: State, exec: nat, sigs: seq<BlindSignature>)
    requires ValidEnv(w.env) && Answered(s, exec)
    ensures Next(w, s, Finish(exec, sigs)).books
         == ApplyAll(s.books, CompletionOps(w, s.books, LastAttempt(s, exec).prepared, sigs))
  {
    hide CompletionOps;
  }

  /**
   Whatever happened before, a channel in Closing whose funding is unspent can be closed from
   its stored data: begin, submit, let the mint execute, take the reply.  It is then recorded
   at its closing balance exactly when the stored mint URL has no trailing slash.
   */
  lemma ResumeClosesIff(w: World, s: State, exec: nat, id: string, pick: A.KeysetInfo, nonce: string,
                        sigs: seq<BlindSignature>)
    requires ValidWorld(w) && Inv(w, s) && StateOf(s.books, id) == Some(IsClosing) && exec !in s.execs && id !in s.spent
    requires id in s.books.funding && OutputFor(s.books.funding[id], pick)
    requires PrepareClose(w.env.crypto, id, s.books.closing[id].payment, s.books.funding[id], pick, nonce).Ok?
    requires GoodReply(w, s.books.funding[id], s.books.closing[id].payment.balance, pick, sigs)
    ensures var f := s.books.funding[id];
            var t := Next(w, Resumed(w, s, exec, id, pick, nonce), Finish(exec, sigs));
            && (id in t.books.closed <==> CanonicalMint(f))
            && (id in t.books.closed ==> t.books.closed[id] == Record(f, s.books.closing[id].payment.balance))
            && (id !in t.books.closed ==> t.books == s.books)
  {
    hide Next, PrepareClose, CompleteReply, CompletionOps, Resumed, Answered, AttemptOk, SolventAt, Record;
    var a, t := ResumedAttempt(w, s, id, pick, nonce), Resumed(w, s, exec, id, pick, nonce);
    ResumedIsAnswered(w, s, exec, id, pick, nonce);
    FinishEffect(w, t, exec, sigs);
    ResumedAttemptOk(w, s, id, pick, nonce);
    CompletionClosesIff(w, s.books, a, sigs);
    MarkedClosed(s.books, id, Record(s.books.funding[id], a.payment.balance));
  }

  lemma ResumedAttemptOk(w: World, s: State, id: string, pick: A.KeysetInfo, nonce: string)
    requires ValidEnv(w.env) && Inv(w, s) && id in s.books.closing
    requires id in s.books.funding && OutputFor(s.books.funding[id], pick)
    requires PrepareClose(w.env.crypto, id, s.books.closing[id].payment, s.books.funding[id], pick, nonce).Ok?
    ensures var a := ResumedAttempt(w, s, id, pick, nonce);
            && AttemptOk(w, s.books, a) && a.prepared.id == id && a.prepared.outputKeyset == pick
            && SolventAt(w.env, s.books, id)
  {
    assert SolventAt(w.env, s.books, id);
    PreparedIsSigned(w.env.crypto, id, s.books.closing[id].payment, s.books.funding[id], pick, nonce);
  }

  function PreparedOf(attempts: seq<Attempt>): (r: seq<PreparedClose>)
    ensures |r| == |attempts| && forall i | 0 <= i < |r| :: r[i] == attempts[i].prepared
  {
    seq(|attempts|, i requires 0 <= i < |attempts| => attempts[i].prepared)
  }

  /** A list of the channel's submissions that contains the one that settled. */
  predicate Retained(s: State, id: string, attempts: seq<Attempt>) {
    && (forall i | 0 <= i < |attempts| :: attempts[i] in s.submitted && attempts[i].prepared.id == id)
    && id in s.spent && s.spent[id].Settled? && s.spent[id].attempt in attempts
  }

  /**
   Recovery from any list of retained submissions that contains the settled one finds it
   exactly when the stored mint URL is canonical and the closing payment on file is, in
   canonical form, the payment of every one of them.
   */
  lemma RecoverIff(w: World, s: State, id: string, attempts: seq<Attempt>, nonce: string)
    requires ValidWorld(w) && Inv(w, s) && StateOf(s.books, id) == Some(IsClosing) && Retained(s, id, attempts)
    ensures id in s.books.funding
    ensures CanRecover(w, s, id, PreparedOf(attempts), nonce) <==>
              && CanonicalMint(s.books.funding[id])
              && forall i | 0 <= i < |attempts| ::
                   CanonicalFormOf(w.env.crypto, attempts[i].payment, s.books.closing[id].payment)
  {
    hide Authentic, PrepareClose, SignatureVerifies, ParamsOk, DueNow, CanonicalFormOf;
    var b, kept := s.books, PreparedOf(attempts);
    assert SpentOk(s, id) && SolventAt(w.env, b, id);
    ClaimFacts(w.env, b, id, b.closing[id].payment);
    forall i | 0 <= i < |attempts|
      ensures Authentic(w, kept[i], b.funding[id], b.closing[id].payment, nonce) <==>
                CanonicalMint(b.funding[id]) && CanonicalFormOf(w.env.crypto, attempts[i].payment, b.closing[id].payment)
    {
      assert AttemptOk(w, b, attempts[i]);
      AttemptAuthenticIff(w, b, attempts[i], b.closing[id].payment, nonce);
    }
    SettledIsKept(s, id, attempts);
  }

  /** In particular, a closing payment at another balance than a retained swap's keeps recovery from succeeding. */
  lemma OverwrittenBlocksRecovery(w: World, s: State, id: string, attempts: seq<Attempt>, nonce: string, i: nat)
    requires ValidWorld(w) && Inv(w, s) && StateOf(s.books, id) == Some(IsClosing) && Retained(s, id, attempts)
    requires i < |attempts| && attempts[i].payment.balance != s.books.closing[id].payment.balance
    ensures !CanRecover(w, s, id, PreparedOf(attempts), nonce)
  {
    hide Inv, CanRecover, Retained, ValidWorld;
    RecoverIff(w, s, id, attempts, nonce);
    assert !CanonicalFormOf(w.env.crypto, attempts[i].payment, s.books.closing[id].payment);
  }

  lemma SettledIsKept(s: State, id: string, attempts: seq<Attempt>)
    requires Retained(s, id, attempts)
    ensures s.spent[id].attempt.prepared in PreparedOf(attempts)
  {
    var i :| 0 <= i < |attempts| && attempts[i] == s.spent[id].attempt;
    assert PreparedOf(attempts)[i] == attempts[i].prepared;
  }

  lemma ClaimFacts(env: Env, b: Books, id: string, p: Payment)
    requires ValidEnv(env) && Claimable(env, b, id, p)
    ensures Established(b.funding[id]) && ParamsOk(b.funding[id])
  {
  }

  lemma AttemptAuthenticIff(w: World, b: Books, a: Attempt, q: Payment, nonce: string)
    requires ValidWorld(w) && AttemptOk(w, b, a) && SolventAt(w.env, b, a.prepared.id)
    ensures var f := b.funding[a.prepared.id];
            Authentic(w, a.prepared, f, q, nonce) <==> CanonicalMint(f) && CanonicalFormOf(w.env.crypto, a.payment, q)
  {
    hide VerifyPrepared, PrepareClose, SignatureVerifies, ParamsOk, DueNow;
    var f := b.funding[a.prepared.id];
    assert f.proofs != [] by {
      PreparedIsSigned(w.env.crypto, a.prepared.id, a.payment, f, a.prepared.outputKeyset, a.nonce);
    }
    PreparedCloseAcceptedIff(w.env.crypto, a.prepared.id, a.payment, q, f, a.prepared.outputKeyset, a.nonce, nonce);
  }

  lemma RecoverEffect(w: World, s: State, id: string, kept: seq<PreparedClose>, nonce: string, sigs: seq<BlindSignature>)
    requires ValidEnv(w.env) && CanRecover(w, s, id, kept, nonce)
    ensures Next(w, s, Recover(id, kept, nonce, sigs)).books
         == ApplyAll(s.books, CompletionOps(w, s.books, s.spent[id].attempt.prepared, sigs))
  {
    hide CompletionOps, CanRecover;
  }

  lemma SettledFacts(w: World, s: State, id: string)
    requires ValidEnv(w.env) && Inv(w, s) && id in s.spent && s.spent[id].Settled?
    ensures var a := s.spent[id].attempt;
            a.prepared.id == id && AttemptOk(w, s.books, a) && SolventAt(w.env, s.books, id)
  {
    hide AttemptOk, SolventAt, ExecOk, ClosedOk;
    assert SpentOk(s, id);
  }

  /** A recovery that finds the settled swap, with a good reply, closes the channel at that swap's balance, the one on file. */
  lemma RecoveryCloses(w: World, s: State, id: string, attempts: seq<Attempt>, nonce: string, sigs: seq<BlindSignature>)
    requires ValidWorld(w) && Inv(w, s) && StateOf(s.books, id) == Some(IsClosing) && Retained(s, id, attempts)
    requires CanRecover(w, s, id, PreparedOf(attempts), nonce)
    requires GoodReply(w, s.books.funding[id], s.books.closing[id].payment.balance, s.spent[id].attempt.prepared.outputKeyset, sigs)
    ensures var t := Next(w, s, Recover(id, PreparedOf(attempts), nonce, sigs));
            Get(t.books.closed, id) == Some(Record(s.books.funding[id], s.books.closing[id].payment.balance))
  {
    hide Inv, Next, AttemptOk, SolventAt, CanRecover, CompletionOps, CompleteReply, Record;
    var a := s.spent[id].attempt;
    RecoverIff(w, s, id, attempts, nonce);
    assert a.payment.balance == s.books.closing[id].payment.balance;
    SettledFacts(w, s, id);
    RecoverEffect(w, s, id, PreparedOf(attempts), nonce, sigs);
    CompletionClosesIff(w, s.books, a, sigs);
    MarkedClosed(s.books, id, Record(s.books.funding[id], a.payment.balance));
  }

  // ------------------------------------------------------------------------
  // The store behind the receiver
  // ------------------------------------------------------------------------

  /** A run's books are its log applied in order, and every entry of the log is proper where it is applied. */
  lemma {:induction false} LogIsProper(w: World, s: State, steps: seq<Step>)
    requires ValidWorld(w) && Inv(w, s)
    ensures ProperRun(s.books, Log(w, s, steps))
    ensures Run(w, s, steps).books == ApplyAll(s.books, Log(w, s, steps))
    decreases |steps|
  {
    hide Inv, Next, StepOps;
    if steps != [] {
      var n, ops := Next(w, s, steps[0]), StepOps(w, s, steps[0]);
      NextKeeps(w, s, steps[0]);
      LogIsProper(w, n, steps[1..]);
      ProperConcat(s.books, ops, Log(w, n, steps[1..]));
      ApplyConcat(s.books, ops, Log(w, n, steps[1..]));
    }
  }

  /**
   Over every run the SQLite store answers as the in-memory store does, at every point,
   exactly when every balance and every usage count of the run stays below 2^63.
   */
  lemma EitherStoreIff(w: World, steps: seq<Step>)
    requires ValidWorld(w)
    ensures AgreeThroughout(EMPTY, Sql.EMPTY_DB, Log(w, INITIAL, steps)) <==> AllFit(EMPTY, Log(w, INITIAL, steps))
  {
    InitialInv(w);
    LogIsProper(w, INITIAL, steps);
    Sql.EmptyAgree();
    AgreeThroughoutIff(EMPTY, Sql.EMPTY_DB, Log(w, INITIAL, steps));
  }
}
