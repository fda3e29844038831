/**
 The sender's side of a payment (client_bridge.rs, balance_update.rs, bindings.rs) against
 the receiver's: what the sender signs is what the receiver checks, so a signed payment is
 refused only for reasons the receiver's policy or the amount due gives.
 */
module Payments {
  import opened Wrappers
  import opened Channel
  import A = Amounts
  import opened Pricing
  import opened Stores
  import opened CloseRequest
  import opened Receiver

  /** Reading a signature gives its canonical text, which reads as itself; the empty text is no signature. */
  ghost predicate ParserOk(c: Crypto) {
    c.parse("").None? && forall s :: c.parse(s).Some? ==> c.parse(c.parse(s).value) == c.parse(s)
  }

  /** sign_payment_internal for a stored channel: payable says that its state is Open. */
  function SignPayment(c: Crypto, f: Funding, payable: bool, balance: nat, nonce: string): Result<Payment, string> {
    if !payable then Err("channel is not usable for payments")
    else if balance > f.params.capacity then Err("balance exceeds channel capacity")
    else if !ParamsOk(f) then Err("failed to create channel parameters")
    else
      match A.ForBalance(balance, TermsOf(f))
      case Err(e) => Err(e)
      case Ok(k) =>
        if !Established(f) then Err("funding does not match parameters")
        else
          var digest := DigestOf(c, CommitmentRequest(c, f, k, f.keyset.id));
          match c.parse(c.sign(c.senderKey(Core(f)), digest, nonce))
          case None => Err("invalid signature")
          case Some(text) => Ok(Payment(balance, text))
  }

  /** Exactly the balances that can be committed to can be signed. */
  lemma SignsIff(c: Crypto, f: Funding, payable: bool, balance: nat, nonce: string)
    requires CryptoOk(c)
    ensures SignPayment(c, f, payable, balance, nonce).Ok?
       <==> payable && ParamsOk(f) && Established(f) && A.ForBalance(balance, TermsOf(f)).Ok?
  {
    if ParamsOk(f) && A.ForBalance(balance, TermsOf(f)).Ok? {
      A.CommitmentPays(balance, TermsOf(f));
    }
  }

  /** The sender can sign every balance up to the capacity exactly when the keyset has a unit denomination, and none above it. */
  lemma SignsEveryBalanceIff(c: Crypto, f: Funding, nonce: string)
    requires CryptoOk(c) && ParamsOk(f) && Established(f)
    ensures (forall b: nat | b <= f.params.capacity :: SignPayment(c, f, true, b, nonce).Ok?)
       <==> f.params.capacity == 0 || A.HasUnit(f.keyset)
    ensures forall b: nat | SignPayment(c, f, true, b, nonce).Ok? :: b <= f.params.capacity
  {
    A.EveryBalanceCommitsIff(TermsOf(f));
    forall b: nat
      ensures SignPayment(c, f, true, b, nonce).Ok? <==> A.ForBalance(b, TermsOf(f)).Ok?
    {
      SignsIff(c, f, true, b, nonce);
    }
  }

  /** Round trip: what the sender signs, the receiver verifies, for that balance, in canonical form. */
  lemma SignedVerifies(env: Env, f: Funding, balance: nat, nonce: string)
    requires CryptoOk(env.crypto) && ParserOk(env.crypto)
    requires SignPayment(env.crypto, f, true, balance, nonce).Ok?
    ensures var p := SignPayment(env.crypto, f, true, balance, nonce).value;
            && p.balance == balance && p.signature != ""
            && SignatureVerifies(env, f, p)
            && CanonicalFormOf(env.crypto, p, p)
            && Authorised(env.crypto, f, balance)
            && env.crypto.parse(env.crypto.sign(env.crypto.senderKey(Core(f)), SwapDigest(env.crypto, f, balance), nonce))
               == Some(p.signature)
  {
    hide DigestOf, CommitmentRequest, SwapDigest;
    CheckedIsSwap(env.crypto, f, balance);
    CheckedIsAuthorised(env.crypto, f, SignPayment(env.crypto, f, true, balance, nonce).value);
  }

  /** The text reads as a signature that the sender's key verifies on the digest of the swap for this balance. */
  predicate Genuine(c: Crypto, f: Funding, p: Payment) {
    && CanCommit(f, p.balance)
    && c.parse(p.signature).Some?
    && c.verify(c.senderKey(Core(f)), SwapDigest(c, f, p.balance), c.parse(p.signature).value)
  }

  lemma VerifiesIff(env: Env, b: Books, id: string, p: Payment)
    requires ValidEnv(env) && Solvent(env, b) && id in b.funding
    ensures SignatureVerifies(env, b.funding[id], p) <==> Genuine(env.crypto, b.funding[id], p)
    ensures ParamsOk(b.funding[id]) && Established(b.funding[id])
  {
    hide SenderSigned, Established, SwapDigest, DueNow;
    assert SolventAt(env, b, id);
    SenderSignedIff(env.crypto, b.funding[id], p);
  }

  /**
   For an open channel, a well-formed request within capacity is refused for its signature
   exactly when that is not the sender's on the swap for this balance, and then nothing
   changes.  The same signature decides alone whether the channel may be registered again.
   */
  lemma ForgedIsRefused(env: Env, keysets: KeysetCache, now: nat, b: Books, r: Request, context: Usage)
    requires ValidEnv(env) && Solvent(env, b) && StateOf(b, r.id) == Some(IsOpen)
    requires r.id != "" && r.payment.signature != "" && r.payment.balance <= b.funding[r.id].params.capacity
    ensures var pay := ProcessPayment(env, keysets, now, b, r, context);
            var fund := FundChannel(env, keysets, now, b, r);
            if Genuine(env.crypto, b.funding[r.id], r.payment) then
              pay.error != Some(InvalidSignature) && fund == Decision([], None)
            else
              pay == fund == Decision([], Some(InvalidSignature))
  {
    hide Solvent, Genuine, SignatureVerifies, DueWith;
    VerifiesIff(env, b, r.id, r.payment);
  }

  /** No close is accepted without the sender's signature on the swap for its balance; what is refused changes nothing. */
  lemma ForgedCloseIsRefused(env: Env, keysets: KeysetCache, now: nat, b: Books, r: Request, pick: A.KeysetInfo, nonce: string)
    requires ValidEnv(env) && Solvent(env, b) && StateOf(b, r.id) == Some(IsOpen)
    requires !Genuine(env.crypto, b.funding[r.id], r.payment)
    ensures var close := CooperativeClose(env, keysets, now, b, r, pick, nonce);
            close.error.Some? && close.ops == []
    ensures UsableKeyset(keysets, now, b.funding[r.id], pick) && r.id != "" && r.payment.signature != ""
            && r.payment.balance == DueNow(env, b, r.id) <= b.funding[r.id].params.capacity ==>
              CooperativeClose(env, keysets, now, b, r, pick, nonce).error == Some(InvalidSignature)
  {
    hide Solvent, Genuine, SenderSigned, Established, DueNow, PrepareClose, ParamsOk;
    VerifiesIff(env, b, r.id, r.payment);
    if UsableKeyset(keysets, now, b.funding[r.id], pick) {
      PrepareSucceedsIff(env.crypto, r.id, r.payment, b.funding[r.id], pick, nonce);
    }
  }

  /** For a channel the receiver holds open, a payment the sender signed is accepted exactly when it covers what is due. */
  lemma SignedPaymentAcceptedIff(env: Env, keysets: KeysetCache, now: nat, b: Books, id: string, balance: nat, nonce: string,
                                 context: Usage)
    requires ValidEnv(env) && CryptoOk(env.crypto) && ParserOk(env.crypto)
    requires id != "" && StateOf(b, id) == Some(IsOpen)
    requires SignPayment(env.crypto, b.funding[id], true, balance, nonce).Ok?
    ensures var p := SignPayment(env.crypto, b.funding[id], true, balance, nonce).value;
            var d := ProcessPayment(env, keysets, now, b, Request(id, p, None), context);
            && (d.error.None? <==> DueWith(env, b, id, context) <= balance)
            && (d.error.Some? ==> d.error.value == InsufficientBalance(balance, DueWith(env, b, id, context)))
  {
    hide SignatureVerifies;
    SignedVerifies(env, b.funding[id], balance, nonce);
    assert balance <= b.funding[id].params.capacity;
  }

  /** The mint is one that is trusted for the unit of an active, cached keyset; a single slash may follow its URL. */
  ghost predicate TrustedMint(env: Env, keysets: KeysetCache, mint: string, keysetId: string) {
    && (mint, keysetId) in keysets && keysets[(mint, keysetId)].active
    && exists url :: url in env.cfg.mints && keysets[(mint, keysetId)].unit in env.cfg.mints[url]
                     && (mint == url + "/" || (mint == url && !EndsInSlash(mint)))
  }

  predicate EndsInSlash(url: string) {
    url != [] && url[|url| - 1] == '/'
  }

  lemma TrustedMintIff(env: Env, keysets: KeysetCache, mint: string, keysetId: string)
    ensures MintAndKeysetAcceptable(env, keysets, mint, keysetId) <==> TrustedMint(env, keysets, mint, keysetId)
  {
    assert EndsInSlash(mint) ==> mint == TrimSuffix(mint) + "/";
    if TrustedMint(env, keysets, mint, keysetId) {
      var url :| url in env.cfg.mints && keysets[(mint, keysetId)].unit in env.cfg.mints[url]
                 && (mint == url + "/" || (mint == url && !EndsInSlash(mint)));
      assert url == TrimSuffix(mint);
    }
  }

  /** The receiver's side of a registration: what its policy, its keyset cache and its own checks of the proofs require. */
  ghost predicate PolicyAccepts(env: Env, keysets: KeysetCache, now: nat, f: Funding) {
    var q := f.params;
    && q.receiver == env.cfg.pubkey
    && TrustedMint(env, keysets, q.mint, q.keysetId)
    && q.unit in env.cfg.pricing
    && var policy := env.cfg.pricing[q.unit];
    && policy.minCapacity <= q.capacity
    && (policy.maxOutput.Some? && policy.maxOutput.value > 0 ==> q.maxOutput <= policy.maxOutput.value)
    && now + env.cfg.minExpiry <= q.expiry
    && (forall i | 0 <= i < |f.proofs| :: f.proofs[i].sigs.None?)
    && env.proofsValid(f)
  }

  /** Both parties know the channel alike: the derived secret, the funding keyset, the channel id. */
  predicate SharedView(env: Env, keysets: KeysetCache, id: string, f: Funding) {
    && env.channelSecret(f.params.receiver, f.params.sender) == Some(f.secret)
    && ((f.params.mint, f.params.keysetId) in keysets ==> keysets[(f.params.mint, f.params.keysetId)].info == f.keyset)
    && env.crypto.channelId(f.params, f.secret) == id
  }

  /** A verified offer passes the receiver's validation exactly when its policy accepts the funding. */
  lemma ValidatesIff(env: Env, keysets: KeysetCache, now: nat, id: string, f: Funding, p: Payment)
    requires SharedView(env, keysets, id, f) && SignatureVerifies(env, f, p) && ParamsOk(f) && p.balance <= f.params.capacity
    ensures var v := ValidateNewFunding(env, keysets, now, id, Offer(f.params, f.proofs), p);
            && (v.Ok? <==> PolicyAccepts(env, keysets, now, f))
            && (v.Ok? ==> v.value == f)
  {
    hide SignatureVerifies, MintAndKeysetAcceptable, TrustedMint, ParamsOk;
    TrustedMintIff(env, keysets, f.params.mint, f.params.keysetId);
    AcceptableIsCached(env, keysets, f.params.mint, f.params.keysetId);
  }

  lemma AcceptableIsCached(env: Env, keysets: KeysetCache, mint: string, keysetId: string)
    ensures MintAndKeysetAcceptable(env, keysets, mint, keysetId) ==> (mint, keysetId) in keysets
  {
  }

  /** A first payment the sender signed registers its channel exactly when the receiver's policy accepts the funding. */
  lemma SignedRegistrationAcceptedIff(env: Env, keysets: KeysetCache, now: nat, b: Books, id: string, f: Funding,
                                      balance: nat, nonce: string)
    requires CryptoOk(env.crypto) && ParserOk(env.crypto)
    requires id != "" && StateOf(b, id).None? && SharedView(env, keysets, id, f)
    requires SignPayment(env.crypto, f, true, balance, nonce).Ok?
    ensures var p := SignPayment(env.crypto, f, true, balance, nonce).value;
            var d := FundChannel(env, keysets, now, b, Request(id, p, Some(Offer(f.params, f.proofs))));
            && (d.error.None? <==> PolicyAccepts(env, keysets, now, f))
            && (d.error.None? ==> d.ops == SaveOps(id, f, p))
  {
    SignedVerifies(env, f, balance, nonce);
    SignsIff(env.crypto, f, true, balance, nonce);
    var p := SignPayment(env.crypto, f, true, balance, nonce).value;
    assert balance <= f.params.capacity;
    hide SignatureVerifies, ValidateNewFunding, PolicyAccepts, SignPayment, ParamsOk;
    ValidatesIff(env, keysets, now, id, f, p);
  }

  /**
   A cooperative close that the sender signed is accepted exactly when it is at the amount
   due, the funding is not empty, and the keyset at hand is usable and can carry it.
   */
  lemma SignedCloseAcceptedIff(env: Env, keysets: KeysetCache, now: nat, b: Books, id: string, balance: nat, nonce: string,
                               pick: A.KeysetInfo, nonce': string)
    requires ValidEnv(env) && CryptoOk(env.crypto) && ParserOk(env.crypto)
    requires id != "" && StateOf(b, id) == Some(IsOpen)
    requires SignPayment(env.crypto, b.funding[id], true, balance, nonce).Ok?
    ensures var f := b.funding[id];
            var p := SignPayment(env.crypto, f, true, balance, nonce).value;
            var d := CooperativeClose(env, keysets, now, b, Request(id, p, None), pick, nonce');
            && (d.error.None? <==>
                  && balance == DueNow(env, b, id) && f.proofs != []
                  && UsableKeyset(keysets, now, f, pick)
                  && A.Forward(f.params.fundingAmount, f.params.maxOutput, pick).Ok?)
            && (d.error.None? ==> d.ops == ClosingOps(id, ClosingData(f.params.expiry, p)))
  {
    SignedVerifies(env, b.funding[id], balance, nonce);
    hide SignPayment, SignatureVerifies, PrepareError, DueNow, UsableKeyset;
    PreparesIff(env, keysets, now, b, id, SignPayment(env.crypto, b.funding[id], true, balance, nonce).value, pick, nonce');
  }

  /** A close of a known channel that is accepted now is accepted later exactly until the final expiry of the output keyset. */
  lemma ClosableUntilExpiry(env: Env, keysets: KeysetCache, now: nat, later: nat, b: Books, r: Request, pick: A.KeysetInfo,
                            nonce: string)
    requires ValidEnv(env) && StateOf(b, r.id).Some? && now <= later
    requires CooperativeClose(env, keysets, now, b, r, pick, nonce).error.None?
    ensures pick.finalExpiry.None? || now <= pick.finalExpiry.value
    ensures var d := CooperativeClose(env, keysets, later, b, r, pick, nonce);
            if pick.finalExpiry.None? || later <= pick.finalExpiry.value then
              d == CooperativeClose(env, keysets, now, b, r, pick, nonce)
            else
              d == Decision([], Some(Internal))
  {
    hide PrepareClose, DueNow, ParamsOk, SenderSigned;
  }

  lemma PreparesIff(env: Env, keysets: KeysetCache, now: nat, b: Books, id: string, p: Payment, pick: A.KeysetInfo, nonce: string)
    requires ValidEnv(env) && StateOf(b, id) == Some(IsOpen) && SignatureVerifies(env, b.funding[id], p)
    ensures var f := b.funding[id];
            PrepareError(env, keysets, now, b, id, p, true, pick, nonce).None? <==>
              && p.balance == DueNow(env, b, id) && f.proofs != []
              && UsableKeyset(keysets, now, f, pick)
              && A.Forward(f.params.fundingAmount, f.params.maxOutput, pick).Ok?
  {
    SignedIsWithin(env.crypto, b.funding[id], p);
    hide SenderSigned, Established, PrepareClose, DueNow, ParamsOk;
    if UsableKeyset(keysets, now, b.funding[id], pick) {
      PrepareSucceedsIff(env.crypto, id, p, b.funding[id], pick, nonce);
    }
  }

  lemma SignedIsWithin(c: Crypto, f: Funding, p: Payment)
    requires SenderSigned(c, f, p)
    ensures ParamsOk(f) && p.balance <= f.params.capacity
  {
    A.CommitmentPays(p.balance, TermsOf(f));
  }
}
