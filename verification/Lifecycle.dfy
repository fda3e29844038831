/**
 What the receiver's requests may do to the stores.  Every operation a decision issues is
 Proper where it is applied.  Proper operations only move channels forward, and either
 store (in memory or SQLite) answers alike after them exactly as long as numbers stay below 2^63.
 */
module Lifecycle {
  import opened Arith
  import opened Wrappers
  import opened Channel
  import A = Amounts
  import opened Pricing
  import opened Stores
  import opened SqliteStores
  import opened CloseRequest
  import opened Receiver

  predicate Settling(b: Books, id: string) {
    id in b.closing || id in b.closed
  }

  /** The operation respects the lifecycle of the channel it names. */
  predicate Proper(b: Books, op: Op) {
    match op
    case InsertFunding(id, data) => true
    case UpdateBalance(id, p) =>
      id in b.funding && p.signature != "" && (id in b.balance ==> b.balance[id].signature != "")
    case IncrementUsage(id, incs) => !Settling(b, id)
    case MarkClosing(id, data) => id in b.funding && id !in b.closed
    case MarkClosed(id, data) => id in b.funding && id in b.closing
  }

  predicate ProperRun(b: Books, ops: seq<Op>)
    decreases |ops|
  {
    ops == [] || (Proper(b, ops[0]) && ProperRun(Apply(b, ops[0]), ops[1..]))
  }

  // ------------------------------------------------------------------------
  // Channels only move forward
  // ------------------------------------------------------------------------

  /**
   Forward movement of one channel: funding never changes, the stored balance never falls,
   a channel that is closing or closed never opens again and is never charged again, and a
   closed channel's record is final.
   */
  ghost predicate LaterAt(b: Books, b': Books, id: string) {
    && (id in b.funding ==> Get(b'.funding, id) == Get(b.funding, id))
    && (id in b.balance ==> id in b'.balance && b.balance[id].balance <= b'.balance[id].balance)
    && (Settling(b, id) ==> Settling(b', id) && Get(b'.usage, id) == Get(b.usage, id))
    && (id in b.closed ==> Get(b'.closed, id) == Get(b.closed, id))
  }

  ghost predicate Later(b: Books, b': Books) {
    forall id: string :: LaterAt(b, b', id)
  }

  lemma ProperIsLater(b: Books, op: Op)
    requires Proper(b, op)
    ensures Later(b, Apply(b, op))
  {
    forall id: string ensures LaterAt(b, Apply(b, op), id) {
      if id != op.id {
        ApplyElsewhere(b, op, id);
      }
    }
  }

  lemma LaterTransitive(b: Books, b': Books, b'': Books)
    requires Later(b, b') && Later(b', b'')
    ensures Later(b, b'')
  {
    forall id: string ensures LaterAt(b, b'', id) {
      assert LaterAt(b, b', id) && LaterAt(b', b'', id);
    }
  }

  lemma {:induction false} ProperRunIsLater(b: Books, ops: seq<Op>)
    requires ProperRun(b, ops)
    ensures Later(b, ApplyAll(b, ops))
    decreases |ops|
  {
    if ops != [] {
      ProperIsLater(b, ops[0]);
      ProperRunIsLater(Apply(b, ops[0]), ops[1..]);
      LaterTransitive(b, Apply(b, ops[0]), ApplyAll(b, ops));
    }
  }

  lemma {:induction false} ProperConcat(b: Books, xs: seq<Op>, ys: seq<Op>)
    requires ProperRun(b, xs) && ProperRun(ApplyAll(b, xs), ys)
    ensures ProperRun(b, xs + ys)
    decreases |xs|
  {
    if xs == [] {
      assert xs + ys == ys;
    } else {
      assert (xs + ys)[1..] == xs[1..] + ys;
      ProperConcat(Apply(b, xs[0]), xs[1..], ys);
    }
  }

  lemma ProperTwo(b: Books, a: Op, c: Op)
    requires Proper(b, a) && Proper(Apply(b, a), c)
    ensures ProperRun(b, [a, c])
  {
    assert [a, c][1..] == [c] && [c][1..] == [];
    assert ProperRun(Apply(Apply(b, a), c), []);
    assert ProperRun(Apply(b, a), [c]);
  }

  // ------------------------------------------------------------------------
  // Every decision is proper
  // ------------------------------------------------------------------------

  lemma StoredSignature(env: Env, b: Books, id: string)
    requires ValidEnv(env) && Solvent(env, b)
    ensures id in b.balance ==> id in b.funding && b.balance[id].signature != ""
  {
    assert SolventAt(env, b, id);
  }

  lemma RegisterProper(env: Env, keysets: KeysetCache, now: nat, b: Books, r: Request, missing: BridgeError)
    requires ValidEnv(env) && Solvent(env, b) && !Malformed(r)
    ensures ProperRun(b, Register(env, keysets, now, r, missing).ops)
  {
    StoredSignature(env, b, r.id);
    var d := Register(env, keysets, now, r, missing);
    if d.error.None? {
      ProperTwo(b, d.ops[0], d.ops[1]);
      assert d.ops == [d.ops[0], d.ops[1]];
    }
  }

  lemma FundProper(env: Env, keysets: KeysetCache, now: nat, b: Books, r: Request)
    requires ValidEnv(env) && Solvent(env, b)
    ensures ProperRun(b, FundChannel(env, keysets, now, b, r).ops)
  {
    if !Malformed(r) && StateOf(b, r.id).None? {
      RegisterProper(env, keysets, now, b, r, InvalidRequest);
    }
  }

  lemma ChargeProper(env: Env, b: Books, r: Request, context: Usage)
    requires ValidEnv(env) && Solvent(env, b) && !Malformed(r) && StateOf(b, r.id) == Some(IsOpen)
    ensures ProperRun(b, Charge(env, b, r, context).ops)
  {
    StoredSignature(env, b, r.id);
    var d := Charge(env, b, r, context);
    if d.error.None? {
      ProperTwo(b, Op.IncrementUsage(r.id, context), Op.UpdateBalance(r.id, r.payment));
    }
  }

  lemma PayProper(env: Env, keysets: KeysetCache, now: nat, b: Books, r: Request, context: Usage)
    requires ValidEnv(env) && Solvent(env, b)
    ensures ProperRun(b, ProcessPayment(env, keysets, now, b, r, context).ops)
  {
    if Malformed(r) {
    } else if StateOf(b, r.id) == Some(IsOpen) {
      ChargeProper(env, b, r, context);
    } else if StateOf(b, r.id).None? {
      var first := Register(env, keysets, now, r, UnknownChannel);
      RegisterProper(env, keysets, now, b, r, UnknownChannel);
      if first.error.None? {
        var mid := ApplyAll(b, first.ops);
        RegisterKeepsSolvent(env, keysets, now, b, r, UnknownChannel);
        ChargeProper(env, mid, r, context);
        ProperConcat(b, first.ops, Charge(env, mid, r, context).ops);
      }
    }
  }

  lemma MarkClosingProper(env: Env, keysets: KeysetCache, now: nat, b: Books, id: string, p: Payment,
                          exactDue: bool, pick: A.KeysetInfo, nonce: string)
    requires ValidEnv(env) && Solvent(env, b) && p.signature != ""
    ensures ProperRun(b, MarkClosingDecision(env, keysets, now, b, id, p, exactDue, pick, nonce).ops)
  {
    StoredSignature(env, b, id);
    var d := MarkClosingDecision(env, keysets, now, b, id, p, exactDue, pick, nonce);
    if d.error.None? {
      ProperTwo(b, d.ops[0], d.ops[1]);
      assert d.ops == [d.ops[0], d.ops[1]];
    }
  }

  lemma CooperativeProper(env: Env, keysets: KeysetCache, now: nat, b: Books, r: Request, pick: A.KeysetInfo, nonce: string)
    requires ValidEnv(env) && Solvent(env, b)
    ensures ProperRun(b, CooperativeClose(env, keysets, now, b, r, pick, nonce).ops)
  {
    if Malformed(r) {
    } else if StateOf(b, r.id).Some? || r.offer.None? {
      MarkClosingProper(env, keysets, now, b, r.id, r.payment, true, pick, nonce);
    } else {
      var first := Register(env, keysets, now, r, UnknownChannel);
      RegisterProper(env, keysets, now, b, r, UnknownChannel);
      if first.error.None? {
        var mid := ApplyAll(b, first.ops);
        RegisterKeepsSolvent(env, keysets, now, b, r, UnknownChannel);
        MarkClosingProper(env, keysets, now, mid, r.id, r.payment, true, pick, nonce);
        ProperConcat(b, first.ops, MarkClosingDecision(env, keysets, now, mid, r.id, r.payment, true, pick, nonce).ops);
      }
    }
  }

  lemma UnilateralProper(env: Env, keysets: KeysetCache, now: nat, b: Books, id: string, pick: A.KeysetInfo, nonce: string)
    requires ValidEnv(env) && Solvent(env, b)
    ensures ProperRun(b, UnilateralClose(env, keysets, now, b, id, pick, nonce).ops)
  {
    StoredSignature(env, b, id);
    if id in b.funding && id in b.balance {
      MarkClosingProper(env, keysets, now, b, id, b.balance[id], false, pick, nonce);
    }
  }

  // ------------------------------------------------------------------------
  // What an accepted request leaves
  // ------------------------------------------------------------------------

  /** The channel is open, its usage grew by exactly this request, and the payment, which the sender signed, covers all that is due. */
  ghost predicate Paid(env: Env, b: Books, b': Books, r: Request, context: Usage)
    requires ValidEnv(env)
  {
    && StateOf(b', r.id) == Some(IsOpen)
    && GetUsage(b', r.id) == Increment(GetUsage(b, r.id), context)
    && r.id in b'.balance && r.payment.balance <= b'.balance[r.id].balance
    && DueNow(env, b', r.id) <= r.payment.balance
    && r.id in b'.funding && Authorised(env.crypto, b'.funding[r.id], r.payment.balance)
  }

  lemma VerifiedIsAuthorised(env: Env, f: Funding, p: Payment)
    requires SignatureVerifies(env, f, p)
    ensures Authorised(env.crypto, f, p.balance)
  {
    CheckedIsAuthorised(env.crypto, f, p);
  }

  lemma ChargedIsPaid(env: Env, b: Books, r: Request, context: Usage)
    requires ValidEnv(env) && Solvent(env, b) && StateOf(b, r.id) == Some(IsOpen) && !Malformed(r)
    ensures var d := Charge(env, b, r, context);
            if d.error.None? then Paid(env, b, ApplyAll(b, d.ops), r, context) else d.ops == []
  {
    hide SignatureVerifies, Solvent, Authorised;
    StoredSignature(env, b, r.id);
    var d := Charge(env, b, r, context);
    if d.error.None? {
      var b' := ApplyAll(b, d.ops);
      RecordEffect(b, r.id, r.payment, context);
      RecordedDue(env, b, b', r.id, context);
      VerifiedIsAuthorised(env, b.funding[r.id], r.payment);
    }
  }

  lemma SaveLeaves(b: Books, id: string, f: Funding, p: Payment)
    ensures ApplyAll(b, SaveOps(id, f, p)).usage == b.usage
  {
    ApplyTwo(b, Op.InsertFunding(id, f), Op.UpdateBalance(id, p));
  }

  /** An accepted payment is paid for; a refused one is not charged, and changes nothing about a known channel. */
  lemma AcceptedIsPaid(env: Env, keysets: KeysetCache, now: nat, b: Books, r: Request, context: Usage)
    requires ValidEnv(env) && Solvent(env, b)
    ensures var d := ProcessPayment(env, keysets, now, b, r, context);
            var b' := ApplyAll(b, d.ops);
            && (d.error.None? ==> Paid(env, b, b', r, context))
            && (d.error.Some? ==> b'.usage == b.usage && (StateOf(b, r.id).Some? ==> b' == b))
  {
    hide Authorised;
    if Malformed(r) {
    } else if StateOf(b, r.id) == Some(IsOpen) {
      ChargedIsPaid(env, b, r, context);
    } else if StateOf(b, r.id).None? {
      var first := Register(env, keysets, now, r, UnknownChannel);
      if first.error.None? {
        var mid := ApplyAll(b, first.ops);
        SaveLeaves(b, r.id, first.ops[0].data, r.payment);
        RegisterKeepsSolvent(env, keysets, now, b, r, UnknownChannel);
        ChargedIsPaid(env, mid, r, context);
        ApplyConcat(b, first.ops, Charge(env, mid, r, context).ops);
        assert first.ops + [] == first.ops;
      }
    }
  }

  /** An accepted registration, of a new channel or again of an open one, leaves it open, and the sender signed the balance offered. */
  lemma FundedIsAuthorised(env: Env, keysets: KeysetCache, now: nat, b: Books, r: Request)
    requires ValidEnv(env) && Solvent(env, b)
    ensures var d := FundChannel(env, keysets, now, b, r);
            var b' := ApplyAll(b, d.ops);
            d.error.None? ==>
              StateOf(b', r.id) == Some(IsOpen) && r.id in b'.funding && Authorised(env.crypto, b'.funding[r.id], r.payment.balance)
  {
    hide Authorised, SignatureVerifies, Solvent;
    var d := FundChannel(env, keysets, now, b, r);
    if d.error.None? {
      if StateOf(b, r.id).None? {
        var f := ValidateNewFunding(env, keysets, now, r.id, r.offer.value, r.payment).value;
        VerifiedIsAuthorised(env, f, r.payment);
        StoredSignature(env, b, r.id);
        ApplyTwo(b, Op.InsertFunding(r.id, f), Op.UpdateBalance(r.id, r.payment));
        RegisterOpens(env, keysets, now, b, r, InvalidRequest);
      } else {
        VerifiedIsAuthorised(env, b.funding[r.id], r.payment);
      }
    }
  }

  /** The channel is Closing with this payment on file, which the sender signed and which covers all that is due. */
  ghost predicate ClosesAt(env: Env, b: Books, id: string, p: Payment)
    requires ValidEnv(env)
  {
    && StateOf(b, id) == Some(IsClosing) && b.closing[id].payment == p
    && DueNow(env, b, id) <= p.balance
    && id in b.funding && Authorised(env.crypto, b.funding[id], p.balance)
  }

  lemma MarkedCloses(env: Env, keysets: KeysetCache, now: nat, b: Books, id: string, p: Payment,
                     exactDue: bool, pick: A.KeysetInfo, nonce: string)
    requires ValidEnv(env) && Solvent(env, b) && p.signature != ""
    requires !exactDue ==> DueNow(env, b, id) <= p.balance
    ensures var d := MarkClosingDecision(env, keysets, now, b, id, p, exactDue, pick, nonce);
            var b' := ApplyAll(b, d.ops);
            if d.error.None? then ClosesAt(env, b', id, p) && (exactDue ==> DueNow(env, b', id) == p.balance) else b' == b
  {
    if PrepareError(env, keysets, now, b, id, p, exactDue, pick, nonce).None? {
      PreparedIsClaimable(env, keysets, now, b, id, p, exactDue, pick, nonce);
      ClosingEffect(env, b, id, ClosingData(b.funding[id].params.expiry, p));
      VerifiedIsAuthorised(env, b.funding[id], p);
    }
  }

  /** An accepted cooperative close is at exactly the amount due; a refused one changes nothing about a known channel. */
  lemma CooperationCloses(env: Env, keysets: KeysetCache, now: nat, b: Books, r: Request, pick: A.KeysetInfo, nonce: string)
    requires ValidEnv(env) && Solvent(env, b)
    ensures var d := CooperativeClose(env, keysets, now, b, r, pick, nonce);
            var b' := ApplyAll(b, d.ops);
            && (d.error.None? ==> ClosesAt(env, b', r.id, r.payment) && DueNow(env, b', r.id) == r.payment.balance)
            && (d.error.Some? && StateOf(b, r.id).Some? ==> b' == b)
  {
    if Malformed(r) {
    } else if StateOf(b, r.id).Some? || r.offer.None? {
      MarkedCloses(env, keysets, now, b, r.id, r.payment, true, pick, nonce);
    } else {
      var first := Register(env, keysets, now, r, UnknownChannel);
      RegisterKeepsSolvent(env, keysets, now, b, r, UnknownChannel);
      if first.error.None? {
        var mid := ApplyAll(b, first.ops);
        MarkedCloses(env, keysets, now, mid, r.id, r.payment, true, pick, nonce);
        ApplyConcat(b, first.ops, MarkClosingDecision(env, keysets, now, mid, r.id, r.payment, true, pick, nonce).ops);
      }
    }
  }

  /** An accepted unilateral close is at the stored balance; a refused one changes nothing. */
  lemma UnilateralCloses(env: Env, keysets: KeysetCache, now: nat, b: Books, id: string, pick: A.KeysetInfo, nonce: string)
    requires ValidEnv(env) && Solvent(env, b)
    ensures var d := UnilateralClose(env, keysets, now, b, id, pick, nonce);
            var b' := ApplyAll(b, d.ops);
            if d.error.None? then id in b.balance && ClosesAt(env, b', id, b.balance[id]) else b' == b
  {
    StoredSignature(env, b, id);
    if id in b.funding && id in b.balance {
      assert SolventAt(env, b, id);
      MarkedCloses(env, keysets, now, b, id, b.balance[id], false, pick, nonce);
    }
  }

  // ------------------------------------------------------------------------
  // Requests close nothing
  // ------------------------------------------------------------------------

  predicate ClosesNothing(ops: seq<Op>) {
    forall i | 0 <= i < |ops| :: !ops[i].MarkClosed?
  }

  lemma {:induction false} ClosedUntouched(b: Books, ops: seq<Op>)
    requires ClosesNothing(ops)
    ensures ApplyAll(b, ops).closed == b.closed
    decreases |ops|
  {
    if ops != [] {
      ClosedUntouched(Apply(b, ops[0]), ops[1..]);
    }
  }

  /** Funding, paying and preparing a close never mark a channel closed. */
  lemma RequestsCloseNothing(env: Env, keysets: KeysetCache, now: nat, b: Books, r: Request, context: Usage,
                             pick: A.KeysetInfo, nonce: string)
    requires ValidEnv(env)
    ensures ClosesNothing(FundChannel(env, keysets, now, b, r).ops)
    ensures ClosesNothing(ProcessPayment(env, keysets, now, b, r, context).ops)
    ensures ClosesNothing(CooperativeClose(env, keysets, now, b, r, pick, nonce).ops)
    ensures ClosesNothing(UnilateralClose(env, keysets, now, b, r.id, pick, nonce).ops)
  {
    hide ValidateNewFunding, PrepareError, ValidatePayment, StateOf;
    assert forall missing :: ClosesNothing(Register(env, keysets, now, r, missing).ops);
    assert forall b :: ClosesNothing(Charge(env, b, r, context).ops);
    assert forall b, p, exact :: ClosesNothing(MarkClosingDecision(env, keysets, now, b, r.id, p, exact, pick, nonce).ops);
  }

  // ------------------------------------------------------------------------
  // Either store will do
  // ------------------------------------------------------------------------

  /** The balance, or each count after the increment, is below 2^63. */
  predicate Fits(b: Books, op: Op) {
    && (op.UpdateBalance? ==> op.payment.balance < I64)
    && (op.IncrementUsage? ==> forall v | v in op.incs :: At(GetUsage(b, op.id), v) + op.incs[v] < I64)
  }

  /** Every number fits its column while the operations run. */
  predicate AllFit(b: Books, ops: seq<Op>)
    decreases |ops|
  {
    ops == [] || (Fits(b, ops[0]) && AllFit(Apply(b, ops[0]), ops[1..]))
  }

  /** The two stores give the same answers before, between and after the operations. */
  ghost predicate AgreeThroughout(b: Books, d: Db, ops: seq<Op>)
    decreases |ops|
  {
    SameAnswers(b, d) && (ops == [] || AgreeThroughout(Apply(b, ops[0]), Execute(d, ops[0]), ops[1..]))
  }

  /** The receiver cannot tell the stores apart, at any point of a run, exactly when every number stays below 2^63. */
  lemma {:induction false} AgreeThroughoutIff(b: Books, d: Db, ops: seq<Op>)
    requires SameAnswers(b, d) && Readable(d) && ProperRun(b, ops)
    ensures AgreeThroughout(b, d, ops) <==> AllFit(b, ops)
    decreases |ops|
  {
    hide SameAnswers;
    if ops != [] {
      AgreeIff(b, d, ops[0]);
      if Aligned(b, ops[0]) {
        AgreeThroughoutIff(Apply(b, ops[0]), Execute(d, ops[0]), ops[1..]);
      }
    }
  }
}
