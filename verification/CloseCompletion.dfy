/**
 Completing a close from the mint's reply (bridge.rs, swap_completion.rs): check that the
 retained request belongs to the channel, unblind every output, and split the proofs
 between receiver and sender.
 */
module CloseCompletion {
  import opened Wrappers
  import opened Channel
  import A = Amounts
  import opened Restore
  import opened Completion
  import opened CloseRequest

  datatype CompletedClose = CompletedClose(
    id: string, expiry: nat, balance: nat,
    receiverProofs: seq<Token>, senderProofs: seq<Token>,
    receiverSum: nat, senderSum: nat)

  datatype Unblinded = Unblinded(receiverProofs: seq<Token>, senderProofs: seq<Token>, receiverSum: nat, senderSum: nat)

  function TokenTotal(ts: seq<Token>): nat {
    if ts == [] then 0 else ts[0].amount + TokenTotal(ts[1..])
  }

  /** The proofs of one party, in the order in which they came. */
  function PartOf(ts: seq<Token>, ss: seq<CloseSecret>, isReceiver: bool): seq<Token>
    requires |ts| == |ss|
  {
    if ts == [] then []
    else
      var n := |ts| - 1;
      PartOf(ts[..n], ss[..n], isReceiver) + if ss[n].isReceiver == isReceiver then [ts[n]] else []
  }

  lemma {:induction false} TokenTotalSnoc(ts: seq<Token>, t: Token)
    ensures TokenTotal(ts + [t]) == TokenTotal(ts) + t.amount
  {
    if ts == [] {
      assert ts + [t] == [t];
    } else {
      assert (ts + [t])[1..] == ts[1..] + [t];
      TokenTotalSnoc(ts[1..], t);
    }
  }

  /** Every proof of the receiver is locked to the receiver's key for that output. */
  predicate LocksOk(c: Crypto, f: Funding, ts: seq<Token>, ss: seq<CloseSecret>)
    requires |ts| == |ss|
  {
    forall i | 0 <= i < |ts| && ss[i].isReceiver ::
      c.lockedTo(ts[i].secret) == c.stage2Key(Core(f), ss[i].amount, ss[i].index)
  }

  function SplitError(c: Crypto, f: Funding, ts: seq<Token>, ss: seq<CloseSecret>): string
    requires |ts| == |ss|
  {
    if LocksOk(c, f, ts, ss) then "receiver nominal mismatch" else "receiver proof locked to wrong pubkey"
  }

  /** The splitting loop, and the final check of the receiver's sum against the signed balance. */
  method SplitProofs(c: Crypto, f: Funding, ts: seq<Token>, ss: seq<CloseSecret>, nominal: nat)
    returns (r: Result<Unblinded, string>)
    requires |ts| == |ss|
    ensures r.Ok? <==> LocksOk(c, f, ts, ss) && TokenTotal(PartOf(ts, ss, true)) == nominal
    ensures r.Err? ==> r.error == SplitError(c, f, ts, ss)
    ensures r.Ok? ==>
              && r.value.receiverProofs == PartOf(ts, ss, true)
              && r.value.senderProofs == PartOf(ts, ss, false)
              && r.value.receiverSum == TokenTotal(PartOf(ts, ss, true))
              && r.value.senderSum == TokenTotal(PartOf(ts, ss, false))
  {
    var receiverProofs, senderProofs: seq<Token> := [], [];
    var receiverSum, senderSum := 0, 0;
    for i := 0 to |ts|
      invariant receiverProofs == PartOf(ts[..i], ss[..i], true) && receiverSum == TokenTotal(receiverProofs)
      invariant senderProofs == PartOf(ts[..i], ss[..i], false) && senderSum == TokenTotal(senderProofs)
      invariant LocksOk(c, f, ts[..i], ss[..i])
    {
      assert ts[..i + 1][..i] == ts[..i] && ss[..i + 1][..i] == ss[..i];
      if ss[i].isReceiver {
        if c.lockedTo(ts[i].secret) != c.stage2Key(Core(f), ss[i].amount, ss[i].index) {
          return Err("receiver proof locked to wrong pubkey");
        }
        TokenTotalSnoc(receiverProofs, ts[i]);
        receiverSum := receiverSum + ts[i].amount;
        receiverProofs := receiverProofs + [ts[i]];
      } else {
        TokenTotalSnoc(senderProofs, ts[i]);
        senderSum := senderSum + ts[i].amount;
        senderProofs := senderProofs + [ts[i]];
      }
    }
    assert ts[..|ts|] == ts && ss[..|ss|] == ss;
    if receiverSum != nominal {
      return Err("receiver nominal mismatch");
    }
    r := Ok(Unblinded(receiverProofs, senderProofs, receiverSum, senderSum));
  }

  // ------------------------------------------------------------------------
  // Nothing is lost or moved between the parties
  // ------------------------------------------------------------------------

  /** Amounts of one party among close outputs. */
  function RoleTotal(ss: seq<CloseSecret>, isReceiver: bool): nat {
    if ss == [] then 0
    else (if ss[0].isReceiver == isReceiver then ss[0].amount else 0) + RoleTotal(ss[1..], isReceiver)
  }

  lemma {:induction false} RoleTotalConcat(xs: seq<CloseSecret>, ys: seq<CloseSecret>, isReceiver: bool)
    ensures RoleTotal(xs + ys, isReceiver) == RoleTotal(xs, isReceiver) + RoleTotal(ys, isReceiver)
  {
    if xs == [] {
      assert xs + ys == ys;
    } else {
      assert (xs + ys)[1..] == xs[1..] + ys;
      RoleTotalConcat(xs[1..], ys, isReceiver);
    }
  }

  lemma {:induction false} InsertKeepsRoleTotal(s: CloseSecret, ss: seq<CloseSecret>, isReceiver: bool)
    ensures RoleTotal(InsertBy(s, ss, SecretAmount), isReceiver) == RoleTotal([s], isReceiver) + RoleTotal(ss, isReceiver)
  {
    if ss != [] && s.amount > ss[0].amount {
      InsertKeepsRoleTotal(s, ss[1..], isReceiver);
      var rest := InsertBy(s, ss[1..], SecretAmount);
      assert ([ss[0]] + rest)[1..] == rest;
    } else {
      RoleTotalConcat([s], ss, isReceiver);
    }
  }

  lemma {:induction false} SortKeepsRoleTotal(ss: seq<CloseSecret>, isReceiver: bool)
    ensures RoleTotal(SortBy(ss, SecretAmount), isReceiver) == RoleTotal(ss, isReceiver)
  {
    if ss != [] {
      SortKeepsRoleTotal(ss[1..], isReceiver);
      InsertKeepsRoleTotal(ss[0], SortBy(ss[1..], SecretAmount), isReceiver);
    }
  }

  lemma {:induction false} SumReverse(xs: seq<nat>)
    ensures A.Sum(Reverse(xs)) == A.Sum(xs)
  {
    if xs != [] {
      SumReverse(xs[1..]);
      A.SumConcat(Reverse(xs[1..]), [xs[0]]);
    }
  }

  /** A list of one party's outputs adds up to its amounts, and contributes nothing to the other party. */
  lemma {:induction false} UniformRoleTotal(ss: seq<CloseSecret>, amounts: seq<nat>, isReceiver: bool)
    requires |ss| == |amounts|
    requires forall i | 0 <= i < |ss| :: ss[i].amount == amounts[i] && ss[i].isReceiver == isReceiver
    ensures RoleTotal(ss, isReceiver) == A.Sum(amounts) && RoleTotal(ss, !isReceiver) == 0
  {
    if ss != [] {
      UniformRoleTotal(ss[1..], amounts[1..], isReceiver);
    }
  }

  /** The close outputs carry exactly the commitment's two sums. */
  lemma CloseSecretsSplit(c: Crypto, f: Funding, k: A.Commitment)
    ensures RoleTotal(CloseSecrets(c, f, k), true) == A.Sum(k.receiver)
    ensures RoleTotal(CloseSecrets(c, f, k), false) == A.Sum(k.sender)
  {
    var xs, ys := PartySecrets(c, f, Reverse(k.receiver), true), PartySecrets(c, f, Reverse(k.sender), false);
    SumReverse(k.receiver);
    SumReverse(k.sender);
    UniformRoleTotal(xs, Reverse(k.receiver), true);
    UniformRoleTotal(ys, Reverse(k.sender), false);
    RoleTotalConcat(xs, ys, true);
    RoleTotalConcat(xs, ys, false);
    SortKeepsRoleTotal(xs + ys, true);
    SortKeepsRoleTotal(xs + ys, false);
  }

  function OutputTotal(ms: seq<BlindedMessage>): nat {
    if ms == [] then 0 else ms[0].amount + OutputTotal(ms[1..])
  }

  lemma {:induction false} OutputsAddUp(c: Crypto, keysetId: string, ss: seq<CloseSecret>)
    ensures OutputTotal(MessagesFor(c, keysetId, ss)) == RoleTotal(ss, true) + RoleTotal(ss, false)
  {
    if ss != [] {
      OutputsAddUp(c, keysetId, ss[1..]);
      assert MessagesFor(c, keysetId, ss)[1..] == MessagesFor(c, keysetId, ss[1..]);
    }
  }

  /**
   The swap of a commitment balances: the funding proofs are its outputs plus the stage 1
   fee, which in thousandths covers the rate of every funding output and is less than one
   unit more.
   */
  lemma SwapBalances(c: Crypto, f: Funding, balance: nat, keysetId: string)
    requires Established(f) && CanCommit(f, balance)
    ensures var outputs := MessagesFor(c, keysetId, CloseSecrets(c, f, A.ForBalance(balance, TermsOf(f)).value));
            var fee := ProofTotal(f.proofs) - OutputTotal(outputs);
            var rates := f.keyset.feePpk * |A.Split(f.params.fundingAmount, f.params.maxOutput, f.keyset.amounts).0|;
            rates <= 1000 * fee < rates + 1000
  {
    var k := A.ForBalance(balance, TermsOf(f)).value;
    CloseSecretsSplit(c, f, k);
    OutputsAddUp(c, keysetId, CloseSecrets(c, f, k));
    hide CloseSecrets, RoleTotal, OutputTotal;
    A.CommitmentPays(balance, TermsOf(f));
    A.ForwardBounds(f.params.fundingAmount, f.params.maxOutput, f.keyset);
  }

  /** Proofs whose amounts are those of the outputs split as the outputs do. */
  lemma {:induction false} PartOfTotals(ts: seq<Token>, ss: seq<CloseSecret>, isReceiver: bool)
    requires |ts| == |ss| && forall i | 0 <= i < |ts| :: ts[i].amount == ss[i].amount
    ensures TokenTotal(PartOf(ts, ss, isReceiver)) == RoleTotal(ss, isReceiver)
  {
    if ts != [] {
      var n := |ts| - 1;
      PartOfTotals(ts[..n], ss[..n], isReceiver);
      TokenTotalSnoc(PartOf(ts[..n], ss[..n], isReceiver), ts[n]);
      assert ss == ss[..n] + [ss[n]];
      RoleTotalConcat(ss[..n], [ss[n]], isReceiver);
      assert PartOf(ts[..n], ss[..n], isReceiver) + [] == PartOf(ts[..n], ss[..n], isReceiver);
    }
  }

  /** The positions, ascending, at which this part of the proofs stood: all those of that party's outputs. */
  predicate StoodAt(part: seq<Token>, ts: seq<Token>, ss: seq<CloseSecret>, isReceiver: bool, at: seq<nat>)
    requires |ts| == |ss|
  {
    && |at| == |part|
    && (forall j | 0 <= j < |at| :: at[j] < |ts| && part[j] == ts[at[j]] && ss[at[j]].isReceiver == isReceiver)
    && (forall i, j | 0 <= i < j < |at| :: at[i] < at[j])
    && (forall i | 0 <= i < |ts| && ss[i].isReceiver == isReceiver :: i in at)
  }

  /** The order-keeping sublist of one party's proofs. */
  ghost predicate IsPart(part: seq<Token>, ts: seq<Token>, ss: seq<CloseSecret>, isReceiver: bool)
    requires |ts| == |ss|
  {
    exists at: seq<nat> :: StoodAt(part, ts, ss, isReceiver, at)
  }

  lemma {:induction false} PartOfIsPart(ts: seq<Token>, ss: seq<CloseSecret>, isReceiver: bool) returns (at: seq<nat>)
    requires |ts| == |ss|
    ensures StoodAt(PartOf(ts, ss, isReceiver), ts, ss, isReceiver, at)
  {
    at := [];
    if ts != [] {
      var n := |ts| - 1;
      at := PartOfIsPart(ts[..n], ss[..n], isReceiver);
      StandsAt(PartOf(ts[..n], ss[..n], isReceiver), ts, ss, isReceiver, at);
      if ss[n].isReceiver == isReceiver {
        at := at + [n];
      }
    }
  }

  /** One more proof at the end belongs to the part exactly when it is that party's. */
  lemma StandsAt(part: seq<Token>, ts: seq<Token>, ss: seq<CloseSecret>, isReceiver: bool, at: seq<nat>)
    requires |ts| == |ss| > 0 && StoodAt(part, ts[..|ts| - 1], ss[..|ts| - 1], isReceiver, at)
    ensures var n := |ts| - 1;
            if ss[n].isReceiver == isReceiver then StoodAt(part + [ts[n]], ts, ss, isReceiver, at + [n])
            else StoodAt(part + [], ts, ss, isReceiver, at)
  {
    var n := |ts| - 1;
    assert part + [] == part;
    assert n in at + [n];
    forall i | 0 <= i < n && ss[i].isReceiver == isReceiver ensures i in at && i in at + [n] {
      assert ss[..n][i] == ss[i];
    }
  }

  /** No proof is lost or given twice. */
  lemma {:induction false} PartsAreAll(ts: seq<Token>, ss: seq<CloseSecret>)
    requires |ts| == |ss|
    ensures multiset(PartOf(ts, ss, true)) + multiset(PartOf(ts, ss, false)) == multiset(ts)
  {
    if ts != [] {
      var n := |ts| - 1;
      PartsAreAll(ts[..n], ss[..n]);
      assert ts == ts[..n] + [ts[n]];
      assert PartOf(ts[..n], ss[..n], true) + [] == PartOf(ts[..n], ss[..n], true);
      assert PartOf(ts[..n], ss[..n], false) + [] == PartOf(ts[..n], ss[..n], false);
    }
  }

  /** The proof is locked to the receiver's key for the output it answers. */
  ghost predicate LockedToReceiver(c: Crypto, f: Funding, t: Token, ss: seq<CloseSecret>) {
    exists s :: s in ss && s.isReceiver && t.amount == s.amount && t.secret == s.secret
                && c.lockedTo(t.secret) == c.stage2Key(Core(f), s.amount, s.index)
  }

  /** A completed close divides the mint's proofs between the parties, as their outputs say. */
  ghost predicate Divides(c: Crypto, f: Funding, r: CompletedClose, ts: seq<Token>, ss: seq<CloseSecret>)
    requires |ts| == |ss|
  {
    && IsPart(r.receiverProofs, ts, ss, true) && IsPart(r.senderProofs, ts, ss, false)
    && multiset(r.receiverProofs) + multiset(r.senderProofs) == multiset(ts)
    && TokenTotal(r.receiverProofs) == r.receiverSum && TokenTotal(r.senderProofs) == r.senderSum
    && (forall t | t in r.receiverProofs :: LockedToReceiver(c, f, t, ss))
  }

  // ------------------------------------------------------------------------
  // Completing a prepared close
  // ------------------------------------------------------------------------

  function PreparedOutputs(c: Crypto, keysetId: string, ss: seq<CloseSecret>): (r: seq<PreparedOutput>)
    ensures |r| == |ss|
  {
    seq(|ss|, i requires 0 <= i < |ss| => PreparedOutput(MessageFor(c, keysetId, ss[i]), ss[i].secret, ss[i].blinding))
  }

  /** complete_swap_response: distinct points and secrets, known denominations, then exact completion. */
  ghost function CompleteReply(c: Crypto, dh: Dhke, keys: Keys, ss: seq<CloseSecret>, sigs: seq<BlindSignature>):
    (r: Result<seq<Token>, string>)
    ensures r.Ok? ==> |r.value| == |ss|
  {
    var outputs := PreparedOutputs(c, keys.id, ss);
    if |sigs| != |ss| then Err("length mismatch between signatures and secrets")
    else if ss == [] then Err("empty prepared swap outputs")
    else if !Distinct(seq(|ss|, i requires 0 <= i < |ss| => outputs[i].message.point)) then Err("duplicate outputs")
    else if !Distinct(seq(|ss|, i requires 0 <= i < |ss| => ss[i].secret)) then Err("output binding mismatch")
    else Complete(sigs, outputs, keys, dh, None)
  }

  /** The channel a retained request was prepared for. */
  function ChannelOf(p: PreparedClose): Funding {
    Funding(p.params, [], p.channelSecret, p.keyset)
  }

  /** complete_prepared_close up to the splitting loop: the retained request is bound to its channel. */
  predicate Bound(c: Crypto, p: PreparedClose) {
    var f := ChannelOf(p);
    && ParamsOk(f)
    && c.channelId(p.params, p.channelSecret) == p.id
    && TrimSlashes(p.params.mint) == p.mintUrl
    && p.params.unit == p.outputKeyset.unit
    && p.balance <= p.params.capacity
    && A.ForBalance(p.balance, TermsOf(f)).Ok?
    && p.secrets == CloseSecrets(c, f, A.ForBalance(p.balance, TermsOf(f)).value)
    && p.request.outputs == MessagesFor(c, p.outputKeyset.id, p.secrets)
  }

  function NominalFor(f: Funding, balance: nat): nat
    requires ParamsOk(f) && A.Inverse(balance, f.params.maxOutput, f.keyset).Ok?
  {
    A.Inverse(balance, f.params.maxOutput, f.keyset).value.nominal
  }

  /** The keys a retained request is completed with are those of its own output keyset. */
  function KeysOf(k: A.KeysetInfo): Keys {
    Keys(k.id, k.keys)
  }

  ghost function CompleteClose(c: Crypto, dh: Dhke, p: PreparedClose, sigs: seq<BlindSignature>):
    Result<CompletedClose, string>
  {
    var f := ChannelOf(p);
    if !Bound(c, p) then Err("prepared close binding mismatch")
    else
      match CompleteReply(c, dh, KeysOf(p.outputKeyset), p.secrets, sigs)
      case Err(e) => Err(e)
      case Ok(ts) =>
        var receiver, sender := PartOf(ts, p.secrets, true), PartOf(ts, p.secrets, false);
        if !LocksOk(c, f, ts, p.secrets) || TokenTotal(receiver) != NominalFor(f, p.balance) then
          Err(SplitError(c, f, ts, p.secrets))
        else Ok(CompletedClose(p.id, p.params.expiry, p.balance, receiver, sender, TokenTotal(receiver), TokenTotal(sender)))
  }

  lemma {:induction false} InsertKeeps(s: CloseSecret, ss: seq<CloseSecret>)
    ensures forall x | x in InsertBy(s, ss, SecretAmount) :: x == s || x in ss
  {
    if ss != [] && s.amount > ss[0].amount {
      InsertKeeps(s, ss[1..]);
    }
  }

  lemma {:induction false} SortKeeps(ss: seq<CloseSecret>)
    ensures forall x | x in SortBy(ss, SecretAmount) :: x in ss
  {
    if ss != [] {
      SortKeeps(ss[1..]);
      InsertKeeps(ss[0], SortBy(ss[1..], SecretAmount));
    }
  }

  /** Receiver outputs of a commitment are derived for the receiver, so their locks are right. */
  lemma DerivedLocks(c: Crypto, f: Funding, k: A.Commitment, s: CloseSecret)
    requires CryptoOk(c) && s in CloseSecrets(c, f, k) && s.isReceiver
    ensures c.lockedTo(s.secret) == c.stage2Key(Core(f), s.amount, s.index)
  {
    SortKeeps(AllSecrets(c, f, k));
    var xs, ys := PartySecrets(c, f, Reverse(k.receiver), true), PartySecrets(c, f, Reverse(k.sender), false);
    assert s in xs + ys;
    assert s in xs;
  }

  /** Of a bound request's outputs, those of the receiver are locked to the receiver. */
  lemma BoundLocks(c: Crypto, p: PreparedClose, ts: seq<Token>)
    requires CryptoOk(c) && Bound(c, p) && |ts| == |p.secrets|
    requires forall i | 0 <= i < |ts| :: ts[i].secret == p.secrets[i].secret
    ensures LocksOk(c, ChannelOf(p), ts, p.secrets)
  {
    var f := ChannelOf(p);
    forall i | 0 <= i < |ts| && p.secrets[i].isReceiver
      ensures c.lockedTo(ts[i].secret) == c.stage2Key(Core(f), p.secrets[i].amount, p.secrets[i].index)
    {
      assert p.secrets[i] in p.secrets;
      DerivedLocks(c, f, A.ForBalance(p.balance, TermsOf(f)).value, p.secrets[i]);
    }
  }

  /** A bound request's outputs split into the commitment's two sums; the receiver's is the nominal value checked. */
  lemma BoundTotals(c: Crypto, p: PreparedClose, ts: seq<Token>)
    requires Bound(c, p) && |ts| == |p.secrets|
    requires forall i | 0 <= i < |ts| :: ts[i].amount == p.secrets[i].amount
    ensures var k := A.ForBalance(p.balance, TermsOf(ChannelOf(p))).value;
            && TokenTotal(PartOf(ts, p.secrets, true)) == A.Sum(k.receiver) == NominalFor(ChannelOf(p), p.balance)
            && TokenTotal(PartOf(ts, p.secrets, false)) == A.Sum(k.sender)
  {
    var f := ChannelOf(p);
    CloseSecretsSplit(c, f, A.ForBalance(p.balance, TermsOf(f)).value);
    A.SplitConserves(NominalFor(f, p.balance), f.params.maxOutput, f.keyset.amounts);
    PartOfTotals(ts, p.secrets, true);
    PartOfTotals(ts, p.secrets, false);
  }

  /** Unblinded proofs carry the amounts and secrets of the outputs they answer. */
  lemma ReplyShape(c: Crypto, dh: Dhke, keys: Keys, ss: seq<CloseSecret>, sigs: seq<BlindSignature>)
    requires CompleteReply(c, dh, keys, ss, sigs).Ok?
    ensures var ts := CompleteReply(c, dh, keys, ss, sigs).value;
            forall i | 0 <= i < |ts| :: ts[i].amount == ss[i].amount && ts[i].secret == ss[i].secret
  {
  }

  /**
   For a request that is bound to its channel, completion depends on the mint's reply alone:
   the lock check and the nominal check never fail.  What is completed adds up to the value
   left after stage 1, and the receiver's part is worth at least the balance when spent.
   The proofs of the reply are divided between the parties, in order and without loss, and
   those of the receiver are locked to the receiver.
   */
  lemma CompletionIsExact(c: Crypto, dh: Dhke, p: PreparedClose, sigs: seq<BlindSignature>)
    requires CryptoOk(c) && Bound(c, p)
    ensures var f := ChannelOf(p);
            var r := CompleteClose(c, dh, p, sigs);
            var k := A.ForBalance(p.balance, TermsOf(f)).value;
            && (r.Ok? <==> CompleteReply(c, dh, KeysOf(p.outputKeyset), p.secrets, sigs).Ok?)
            && (r.Ok? ==> && Divides(c, f, r.value, CompleteReply(c, dh, KeysOf(p.outputKeyset), p.secrets, sigs).value, p.secrets)
                          && r.value.id == p.id && r.value.balance == p.balance && r.value.expiry == p.params.expiry
                          && r.value.receiverSum == A.Sum(k.receiver)
                          && r.value.senderSum == A.Sum(k.sender)
                          && r.value.receiverSum + r.value.senderSum == A.AfterStage1(TermsOf(f))
                          && A.ValueAfterFees(k.receiver, f.keyset.feePpk) >= p.balance)
  {
    var reply := CompleteReply(c, dh, KeysOf(p.outputKeyset), p.secrets, sigs);
    if reply.Ok? {
      A.CommitmentPays(p.balance, TermsOf(ChannelOf(p)));
      ReplyShape(c, dh, KeysOf(p.outputKeyset), p.secrets, sigs);
      BoundLocks(c, p, reply.value);
      BoundTotals(c, p, reply.value);
      CompletedDivides(c, dh, p, sigs);
    }
  }

  /** The proofs of a completed close are those of the reply, divided by the parties' outputs. */
  lemma CompletedDivides(c: Crypto, dh: Dhke, p: PreparedClose, sigs: seq<BlindSignature>)
    requires CompleteClose(c, dh, p, sigs).Ok?
    ensures var reply := CompleteReply(c, dh, KeysOf(p.outputKeyset), p.secrets, sigs);
            reply.Ok? && Divides(c, ChannelOf(p), CompleteClose(c, dh, p, sigs).value, reply.value, p.secrets)
  {
    var f, r := ChannelOf(p), CompleteClose(c, dh, p, sigs).value;
    var ts := CompleteReply(c, dh, KeysOf(p.outputKeyset), p.secrets, sigs).value;
    ReplyShape(c, dh, KeysOf(p.outputKeyset), p.secrets, sigs);
    hide CompleteReply, Bound, PartOf, TokenTotal, LockedToReceiver;
    PartsAreAll(ts, p.secrets);
    var at := PartOfIsPart(ts, p.secrets, true);
    var _ := PartOfIsPart(ts, p.secrets, false);
    forall t | t in r.receiverProofs ensures LockedToReceiver(c, f, t, p.secrets) {
      var j :| 0 <= j < |r.receiverProofs| && r.receiverProofs[j] == t;
      IsLocked(c, f, ts, p.secrets, at[j]);
    }
  }

  lemma IsLocked(c: Crypto, f: Funding, ts: seq<Token>, ss: seq<CloseSecret>, i: nat)
    requires |ts| == |ss| && LocksOk(c, f, ts, ss) && i < |ts| && ss[i].isReceiver
    requires ts[i].amount == ss[i].amount && ts[i].secret == ss[i].secret
    ensures LockedToReceiver(c, f, ts[i], ss)
  {
    assert ss[i] in ss;
  }

  // ------------------------------------------------------------------------
  // What a close pays out can be spent
  // ------------------------------------------------------------------------

  /** The client and the completion blind alike. */
  ghost predicate BlindsAlike(c: Crypto, dh: Dhke) {
    forall secret, r :: c.blind(secret, r) == dh.blind(secret, r)
  }

  /**
   Every proof of a completed close, of either party, is the mint's signature on its own
   secret under the key of its own amount; the receiver's are locked to the receiver's
   stage 2 keys.
   */
  lemma ClosedCanBeSpent(c: Crypto, dh: Dhke, p: PreparedClose, sigs: seq<BlindSignature>, m: Signer)
    requires DhkeOk(dh, m) && BlindsAlike(c, dh) && CompleteClose(c, dh, p, sigs).Ok?
    ensures var r := CompleteClose(c, dh, p, sigs).value; var k := KeysOf(p.outputKeyset);
            && (forall t | t in r.receiverProofs :: Redeemable(t, k, m) && LockedToReceiver(c, ChannelOf(p), t, p.secrets))
            && (forall t | t in r.senderProofs :: Redeemable(t, k, m))
  {
    var k, ss, r := KeysOf(p.outputKeyset), p.secrets, CompleteClose(c, dh, p, sigs).value;
    var ts := CompleteReply(c, dh, k, ss, sigs).value;
    CompletedDivides(c, dh, p, sigs);
    ReplyIsRedeemable(c, dh, k, ss, sigs, m);
    hide CompleteClose, CompleteReply, Redeemable, DhkeOk, LockedToReceiver, IsPart;
    forall t | t in r.receiverProofs || t in r.senderProofs ensures Redeemable(t, k, m) {
      assert t in multiset(r.receiverProofs) + multiset(r.senderProofs);
      assert t in multiset(ts);
    }
  }

  lemma ReplyIsRedeemable(c: Crypto, dh: Dhke, k: Keys, ss: seq<CloseSecret>, sigs: seq<BlindSignature>, m: Signer)
    requires DhkeOk(dh, m) && BlindsAlike(c, dh) && CompleteReply(c, dh, k, ss, sigs).Ok?
    ensures forall t | t in CompleteReply(c, dh, k, ss, sigs).value :: Redeemable(t, k, m)
  {
    CompletedIsRedeemable(sigs, PreparedOutputs(c, k.id, ss), k, dh, None, m);
  }

  // ------------------------------------------------------------------------
  // Completion as it runs
  // ------------------------------------------------------------------------

  /** Distinctness as it is computed, by the size of a set. */
  predicate AllDifferent<T(==)>(xs: seq<T>) {
    |set x | x in xs| == |xs|
  }

  lemma AllDifferentIff<T(!new)>(xs: seq<T>)
    ensures AllDifferent(xs) <==> Distinct(xs)
  {
    if AllDifferent(xs) {
      FullSizeDistinct(xs);
    }
    if Distinct(xs) {
      DistinctSize(xs);
    }
  }

  method CompleteSwapReply(c: Crypto, dh: Dhke, keys: Keys, ss: seq<CloseSecret>, sigs: seq<BlindSignature>)
    returns (r: Result<seq<Token>, string>)
    ensures r == CompleteReply(c, dh, keys, ss, sigs)
  {
    var outputs := PreparedOutputs(c, keys.id, ss);
    var points := seq(|ss|, i requires 0 <= i < |ss| => outputs[i].message.point);
    var secrets := seq(|ss|, i requires 0 <= i < |ss| => ss[i].secret);
    AllDifferentIff(points);
    AllDifferentIff(secrets);
    if |sigs| != |ss| {
      return Err("length mismatch between signatures and secrets");
    }
    if ss == [] {
      return Err("empty prepared swap outputs");
    }
    if !AllDifferent(points) {
      return Err("duplicate outputs");
    }
    if !AllDifferent(secrets) {
      return Err("output binding mismatch");
    }
    r := Complete(sigs, outputs, keys, dh, None);
  }

  /** complete_prepared_close: check the binding, complete the reply, split the proofs. */
  method CompletePreparedClose(c: Crypto, dh: Dhke, p: PreparedClose, sigs: seq<BlindSignature>)
    returns (r: Result<CompletedClose, string>)
    ensures r == CompleteClose(c, dh, p, sigs)
    ensures r.Ok? ==>
              var reply := CompleteReply(c, dh, KeysOf(p.outputKeyset), p.secrets, sigs);
              reply.Ok? && Divides(c, ChannelOf(p), r.value, reply.value, p.secrets)
  {
    hide CompleteReply, LocksOk, Divides;
    if !Bound(c, p) {
      return Err("prepared close binding mismatch");
    }
    var reply := CompleteSwapReply(c, dh, KeysOf(p.outputKeyset), p.secrets, sigs);
    if reply.Err? {
      return Err(reply.error);
    }
    var split := SplitProofs(c, ChannelOf(p), reply.value, p.secrets, NominalFor(ChannelOf(p), p.balance));
    if split.Err? {
      return Err(split.error);
    }
    r := Ok(CompletedClose(p.id, p.params.expiry, p.balance, split.value.receiverProofs, split.value.senderProofs,
                           split.value.receiverSum, split.value.senderSum));
    CompletedDivides(c, dh, p, sigs);
  }

  /** A close the bridge prepared is bound to its channel exactly under the conditions that it verifies with. */
  lemma PreparedIsBoundIff(c: Crypto, id: string, payment: Payment, f: Funding, out: A.KeysetInfo, nonce: string)
    requires A.ValidKeyset(out) && PrepareClose(c, id, payment, f, out, nonce).Ok?
    ensures Bound(c, PrepareClose(c, id, payment, f, out, nonce).value)
       <==> && c.channelId(f.params, f.secret) == id
            && TrimSlashes(f.params.mint) == f.params.mint
            && f.params.unit == out.unit
  {
    var p := PrepareClose(c, id, payment, f, out, nonce).value;
    var k := A.ForBalance(payment.balance, TermsOf(f)).value;
    SortCommutes(c, out.id, AllSecrets(c, f, k));
    assert ChannelOf(p) == Core(f);
    SameSecrets(c, f, k);
  }

  lemma SameParty(c: Crypto, f: Funding, asc: seq<nat>, isReceiver: bool)
    ensures PartySecrets(c, f, asc, isReceiver) == PartySecrets(c, Core(f), asc, isReceiver)
  {
    assert Core(Core(f)) == Core(f);
    forall i | 0 <= i < |asc|
      ensures PartySecrets(c, f, asc, isReceiver)[i] == PartySecrets(c, Core(f), asc, isReceiver)[i]
    {
    }
  }

  /** The funding proofs play no part in deriving the outputs. */
  lemma SameSecrets(c: Crypto, f: Funding, k: A.Commitment)
    ensures CloseSecrets(c, f, k) == CloseSecrets(c, Core(f), k)
  {
    SameParty(c, f, Reverse(k.receiver), true);
    SameParty(c, f, Reverse(k.sender), false);
  }
}
