/**
 The receiver (integration-kits/go/host.go over stores.go, and the payment and close
 preparation of bridge.rs).  Each request is decided against the stored books and the
 keyset cache; a decision is a list of store operations and an answer.  The invariant
 Solvent says that what is owed is always covered by a balance the sender signed.
 */
module Receiver {
  import opened Arith
  import opened Wrappers
  import opened Channel
  import A = Amounts
  import opened Pricing
  import opened Stores
  import opened CloseRequest

  datatype PricingEntry = PricingEntry(minCapacity: nat, maxOutput: Option<nat>, variables: map<string, nat>)

  datatype KeysetEntry = KeysetEntry(info: A.KeysetInfo, active: bool, unit: string)

  type KeysetCache = map<(string, string), KeysetEntry>

  datatype Config = Config(
    pubkey: string,
    mints: map<string, set<string>>,
    pricing: map<string, PricingEntry>,
    scale: nat,
    minExpiry: nat)

  /** Host configuration, cryptography, and the two registration checks that rest on it. */
  datatype Env = Env(
    cfg: Config,
    crypto: Crypto,
    channelSecret: (string, string) -> Option<string>,
    proofsValid: Funding -> bool)

  predicate ValidEnv(env: Env) {
    env.cfg.scale < U64
  }

  /** A pricing scale of zero counts as one. */
  function Scale(cfg: Config): nat {
    if cfg.scale == 0 then 1 else cfg.scale
  }

  datatype BridgeError =
    | InvalidRequest
    | ChannelClosed
    | ChannelClosing
    | ServerMisconfigured
    | CapacityTooSmall(capacity: nat, minCapacity: nat)
    | ExpiryTooSoon(expiry: nat, minExpiry: nat)
    | MaxAmountExceeded(amount: nat, maxAllowed: nat)
    | BalanceExceedsCapacity(balance: nat, capacity: nat)
    | UnsupportedUnit
    | ChannelIdMismatch
    | ValidationFailed
    | UnknownChannel
    | InvalidSignature
    | InsufficientBalance(balance: nat, due: nat)
    | BalanceMismatch(expected: nat, actual: nat)
    | Internal
    | ReceiverKeyNotAcceptable
    | MintOrKeysetNotAcceptable

  datatype ChannelState = IsOpen | IsClosing | IsClosed

  /** Funding offered with a first payment. */
  datatype Offer = Offer(params: Params, proofs: seq<Proof>)

  datatype Request = Request(id: string, payment: Payment, offer: Option<Offer>)

  /** Store operations to perform, in order, and the answer to give. */
  datatype Decision = Decision(ops: seq<Op>, error: Option<BridgeError>)

  // ------------------------------------------------------------------------
  // Host
  // ------------------------------------------------------------------------

  function StateOf(b: Books, id: string): Option<ChannelState> {
    if id in b.closed then Some(IsClosed)
    else if id in b.closing then Some(IsClosing)
    else if id in b.funding then Some(IsOpen)
    else None
  }

  /** The amount due, recorded usage plus a pending request. */
  ghost function DueWith(env: Env, b: Books, id: string, pend: Usage): nat
    requires ValidEnv(env)
  {
    if id !in b.funding || b.funding[id].params.unit !in env.cfg.pricing then 0
    else Due(env.cfg.pricing[b.funding[id].params.unit].variables, Scale(env.cfg), GetUsage(b, id), pend)
  }

  ghost function DueNow(env: Env, b: Books, id: string): nat
    requires ValidEnv(env)
  {
    DueWith(env, b, id, map[])
  }

  /**
   What a priced channel owes, when the total stays within 64 bits: the least amount that
   covers it at the configured scale; a scale of zero prices by the unit.
   */
  lemma DueCovers(env: Env, b: Books, id: string, pend: Usage)
    requires ValidEnv(env) && id in b.funding && b.funding[id].params.unit in env.cfg.pricing
    ensures var prices := env.cfg.pricing[b.funding[id].params.unit].variables;
            var total := Total(prices.Keys, prices, Counts(GetUsage(b, id), pend));
            var due := DueWith(env, b, id, pend);
            && (env.cfg.scale == 0 && total < U64 ==> due == total)
            && (env.cfg.scale > 0 && total + env.cfg.scale <= U64 ==>
                  total <= env.cfg.scale * due < total + env.cfg.scale)
  {
    var prices := env.cfg.pricing[b.funding[id].params.unit].variables;
    var total := Total(prices.Keys, prices, Counts(GetUsage(b, id), pend));
    DueExactIff(total, Scale(env.cfg));
    CeilCovers(total, Scale(env.cfg));
  }

  function SaveOps(id: string, f: Funding, p: Payment): seq<Op> {
    [Op.InsertFunding(id, f), Op.UpdateBalance(id, p)]
  }

  function RecordOps(id: string, p: Payment, context: Usage): seq<Op> {
    [Op.IncrementUsage(id, context), Op.UpdateBalance(id, p)]
  }

  function ClosingOps(id: string, data: ClosingData): seq<Op> {
    [Op.UpdateBalance(id, data.payment), Op.MarkClosing(id, data)]
  }

  function TrimSuffix(url: string): string {
    if url != [] && url[|url| - 1] == '/' then url[..|url| - 1] else url
  }

  predicate MintAndKeysetAcceptable(env: Env, keysets: KeysetCache, mint: string, keysetId: string) {
    && TrimSuffix(mint) in env.cfg.mints
    && (mint, keysetId) in keysets
    && keysets[(mint, keysetId)].active
    && keysets[(mint, keysetId)].unit in env.cfg.mints[TrimSuffix(mint)]
  }

  // ------------------------------------------------------------------------
  // Registration
  // ------------------------------------------------------------------------

  /** verify_signature: parameters and proofs rebuild, and the sender signed this balance. */
  predicate SignatureVerifies(env: Env, f: Funding, p: Payment) {
    Established(f) && SenderSigned(env.crypto, f, p)
  }

  /** validate_new_channel_funding */
  function ValidateNewFunding(env: Env, keysets: KeysetCache, now: nat, id: string, offer: Offer, p: Payment):
    (r: Result<Funding, BridgeError>)
  {
    var q := offer.params;
    if q.receiver != env.cfg.pubkey then Err(ReceiverKeyNotAcceptable)
    else if !MintAndKeysetAcceptable(env, keysets, q.mint, q.keysetId) then Err(MintOrKeysetNotAcceptable)
    else if q.unit !in env.cfg.pricing then Err(UnsupportedUnit)
    else
      var policy := env.cfg.pricing[q.unit];
      if q.capacity < policy.minCapacity then Err(CapacityTooSmall(q.capacity, policy.minCapacity))
      else if policy.maxOutput.Some? && policy.maxOutput.value > 0 && q.maxOutput > policy.maxOutput.value then
        Err(MaxAmountExceeded(q.maxOutput, policy.maxOutput.value))
      else if q.expiry < now + env.cfg.minExpiry then Err(ExpiryTooSoon(q.expiry, now + env.cfg.minExpiry))
      else if p.balance > q.capacity then Err(BalanceExceedsCapacity(p.balance, q.capacity))
      else
        match env.channelSecret(q.receiver, q.sender)
        case None => Err(ServerMisconfigured)
        case Some(secret) =>
          var f := Funding(q, offer.proofs, secret, keysets[(q.mint, q.keysetId)].info);
          if !ParamsOk(f) then Err(Internal)
          else if env.crypto.channelId(q, secret) != id then Err(ChannelIdMismatch)
          else if !ProofsAcceptable(env, f) then Err(ValidationFailed)
          else if !SignatureVerifies(env, f, p) then Err(InvalidSignature)
          else Ok(f)
  }

  /** verify_valid_channel: no proof may come with a witness; the rest is cryptographic. */
  predicate ProofsAcceptable(env: Env, f: Funding) {
    (forall i | 0 <= i < |f.proofs| :: f.proofs[i].sigs.None?) && env.proofsValid(f)
  }

  /** First use of a channel: validate what was offered, and save it. */
  function Register(env: Env, keysets: KeysetCache, now: nat, r: Request, missing: BridgeError): Decision {
    match r.offer
    case None => Decision([], Some(missing))
    case Some(offer) =>
      match ValidateNewFunding(env, keysets, now, r.id, offer, r.payment)
      case Err(e) => Decision([], Some(e))
      case Ok(f) => Decision(SaveOps(r.id, f, r.payment), None)
  }

  predicate Malformed(r: Request) {
    r.id == "" || r.payment.signature == ""
  }

  /** fund_channel */
  function FundChannel(env: Env, keysets: KeysetCache, now: nat, b: Books, r: Request): Decision {
    if Malformed(r) then Decision([], Some(InvalidRequest))
    else
      match StateOf(b, r.id)
      case Some(IsClosed) => Decision([], Some(ChannelClosed))
      case Some(IsClosing) => Decision([], Some(ChannelClosing))
      case Some(IsOpen) =>
        if !SignatureVerifies(env, b.funding[r.id], r.payment) then Decision([], Some(InvalidSignature))
        else Decision([], None)
      case None => Register(env, keysets, now, r, InvalidRequest)
  }

  // ------------------------------------------------------------------------
  // Payments
  // ------------------------------------------------------------------------

  /** validate_payment for a channel whose state has been looked up */
  ghost function ValidatePayment(env: Env, b: Books, id: string, p: Payment, context: Usage): Option<BridgeError>
    requires ValidEnv(env)
  {
    if id !in b.funding then Some(UnknownChannel)
    else if p.balance > b.funding[id].params.capacity then
      Some(BalanceExceedsCapacity(p.balance, b.funding[id].params.capacity))
    else if !SignatureVerifies(env, b.funding[id], p) then Some(InvalidSignature)
    else if p.balance < DueWith(env, b, id, context) then
      Some(InsufficientBalance(p.balance, DueWith(env, b, id, context)))
    else None
  }

  ghost function Charge(env: Env, b: Books, r: Request, context: Usage): Decision
    requires ValidEnv(env)
  {
    match ValidatePayment(env, b, r.id, r.payment, context)
    case Some(e) => Decision([], Some(e))
    case None => Decision(RecordOps(r.id, r.payment, context), None)
  }

  /** process_payment: register on first use, then validate and record. */
  ghost function ProcessPayment(env: Env, keysets: KeysetCache, now: nat, b: Books, r: Request, context: Usage): Decision
    requires ValidEnv(env)
  {
    if Malformed(r) then Decision([], Some(InvalidRequest))
    else
      match StateOf(b, r.id)
      case Some(IsClosed) => Decision([], Some(ChannelClosed))
      case Some(IsClosing) => Decision([], Some(ChannelClosing))
      case Some(IsOpen) => Charge(env, b, r, context)
      case None =>
        var first := Register(env, keysets, now, r, UnknownChannel);
        if first.error.Some? then first
        else
          var then' := Charge(env, ApplyAll(b, first.ops), r, context);
          Decision(first.ops + then'.ops, then'.error)
  }

  // ------------------------------------------------------------------------
  // Closing
  // ------------------------------------------------------------------------

  predicate Unexpired(k: A.KeysetInfo, now: nat) {
    k.finalExpiry.None? || now <= k.finalExpiry.value
  }

  /** A cached, active, unexpired keyset of the channel's mint and unit. */
  predicate UsableKeyset(keysets: KeysetCache, now: nat, f: Funding, k: A.KeysetInfo) {
    var key := (TrimSlashes(f.params.mint), k.id);
    && key in keysets
    && keysets[key].active && keysets[key].unit == f.params.unit && keysets[key].info == k
    && k.unit == f.params.unit
    && Unexpired(k, now)
    && A.ValidKeyset(k)
  }

  /** prepare_close_data: pick is the keyset the host's cache yields first. */
  ghost function PrepareError(env: Env, keysets: KeysetCache, now: nat, b: Books, id: string, p: Payment,
                              exactDue: bool, pick: A.KeysetInfo, nonce: string): Option<BridgeError>
    requires ValidEnv(env)
  {
    if StateOf(b, id) == Some(IsClosed) then Some(ChannelClosed)
    else if id !in b.funding then Some(UnknownChannel)
    else
      var f := b.funding[id];
      if !ParamsOk(f) || !UsableKeyset(keysets, now, f, pick) then Some(Internal)
      else if p.balance > f.params.capacity then Some(BalanceExceedsCapacity(p.balance, f.params.capacity))
      else if exactDue && p.balance != DueNow(env, b, id) then Some(BalanceMismatch(DueNow(env, b, id), p.balance))
      else if PrepareClose(env.crypto, id, p, f, pick, nonce).Err? then
        if SenderSigned(env.crypto, f, p) then Some(Internal) else Some(InvalidSignature)
      else None
  }

  ghost function MarkClosingDecision(env: Env, keysets: KeysetCache, now: nat, b: Books, id: string, p: Payment,
                                     exactDue: bool, pick: A.KeysetInfo, nonce: string): Decision
    requires ValidEnv(env)
  {
    match PrepareError(env, keysets, now, b, id, p, exactDue, pick, nonce)
    case Some(e) => Decision([], Some(e))
    case None => Decision(ClosingOps(id, ClosingData(b.funding[id].params.expiry, p)), None)
  }

  /** Cooperative close up to the durable Closing state, registering on first use. */
  ghost function CooperativeClose(env: Env, keysets: KeysetCache, now: nat, b: Books, r: Request, pick: A.KeysetInfo, nonce: string):
    Decision
    requires ValidEnv(env)
  {
    if Malformed(r) then Decision([], Some(InvalidRequest))
    else if StateOf(b, r.id).Some? || r.offer.None? then
      MarkClosingDecision(env, keysets, now, b, r.id, r.payment, true, pick, nonce)
    else
      var first := Register(env, keysets, now, r, UnknownChannel);
      if first.error.Some? then first
      else
        var then' := MarkClosingDecision(env, keysets, now, ApplyAll(b, first.ops), r.id, r.payment, true, pick, nonce);
        Decision(first.ops + then'.ops, then'.error)
  }

  /** Unilateral close at the stored balance up to the durable Closing state. */
  ghost function UnilateralClose(env: Env, keysets: KeysetCache, now: nat, b: Books, id: string, pick: A.KeysetInfo, nonce: string):
    Decision
    requires ValidEnv(env)
  {
    if id !in b.funding then Decision([], Some(UnknownChannel))
    else if id !in b.balance then Decision([], Some(InvalidRequest))
    else MarkClosingDecision(env, keysets, now, b, id, b.balance[id], false, pick, nonce)
  }

  // ------------------------------------------------------------------------
  // Solvency
  // ------------------------------------------------------------------------

  /** A balance the receiver can claim for everything owed so far. */
  ghost predicate Claimable(env: Env, b: Books, id: string, p: Payment)
    requires ValidEnv(env)
  {
    && id in b.funding
    && p.signature != ""
    && SignatureVerifies(env, b.funding[id], p)
    && DueNow(env, b, id) <= p.balance
  }

  /** A registered channel's record as validation left it. */
  ghost predicate Registered(env: Env, id: string, f: Funding) {
    && ParamsOk(f)
    && f.params.receiver == env.cfg.pubkey
    && env.crypto.channelId(f.params, f.secret) == id
    && ProofsAcceptable(env, f)
  }

  ghost predicate SolventAt(env: Env, b: Books, id: string)
    requires ValidEnv(env)
  {
    && (id in b.funding ==> Registered(env, id, b.funding[id]) && id in b.balance && Claimable(env, b, id, b.balance[id]))
    && (id in b.balance || id in b.usage || id in b.closing || id in b.closed ==> id in b.funding)
    && (id in b.closing ==> && Claimable(env, b, id, b.closing[id].payment)
                            && b.funding[id].proofs != []
                            && b.closing[id].expiry == b.funding[id].params.expiry
                            && id !in b.closed)
    && (id in b.closed ==> DueNow(env, b, id) <= b.closed[id].amount)
  }

  ghost predicate Solvent(env: Env, b: Books)
    requires ValidEnv(env)
  {
    forall id: string :: SolventAt(env, b, id)
  }

  /** Two books that say the same about a channel. */
  ghost predicate SameAbout(b: Books, b': Books, id: string) {
    && Get(b.funding, id) == Get(b'.funding, id)
    && Get(b.balance, id) == Get(b'.balance, id)
    && Get(b.usage, id) == Get(b'.usage, id)
    && Get(b.closing, id) == Get(b'.closing, id)
    && Get(b.closed, id) == Get(b'.closed, id)
  }

  lemma SameDue(env: Env, b: Books, b': Books, id: string)
    requires ValidEnv(env) && Get(b.funding, id) == Get(b'.funding, id) && Get(b.usage, id) == Get(b'.usage, id)
    ensures DueNow(env, b, id) == DueNow(env, b', id)
  {
    assert GetUsage(b, id) == GetUsage(b', id);
  }

  /** A claim depends on the channel's funding and on what is due, and on nothing else. */
  lemma ClaimTransfers(env: Env, b: Books, b': Books, id: string, p: Payment)
    requires ValidEnv(env) && Claimable(env, b, id, p)
    requires Get(b.funding, id) == Get(b'.funding, id) && DueNow(env, b', id) <= p.balance
    ensures Claimable(env, b', id, p)
  {
  }

  lemma SameSolvent(env: Env, b: Books, b': Books, id: string)
    requires ValidEnv(env) && SameAbout(b, b', id) && SolventAt(env, b, id)
    ensures SolventAt(env, b', id)
  {
    SameDue(env, b, b', id);
    if id in b.funding {
      ClaimTransfers(env, b, b', id, b.balance[id]);
      if id in b.closing {
        ClaimTransfers(env, b, b', id, b.closing[id].payment);
      }
    }
  }

  lemma ApplyElsewhere(b: Books, op: Op, id: string)
    requires id != op.id
    ensures SameAbout(b, Apply(b, op), id)
  {
  }

  lemma ApplyTwo(b: Books, a: Op, c: Op)
    ensures ApplyAll(b, [a, c]) == Apply(Apply(b, a), c)
  {
    assert [a, c][1..] == [c] && [c][1..] == [];
    assert ApplyAll(Apply(b, a), [c]) == ApplyAll(Apply(Apply(b, a), c), []);
  }

  /** Two operations on one channel leave every other channel as it was. */
  lemma TwoElsewhere(b: Books, a: Op, c: Op, id: string)
    requires a.id == c.id && id != a.id
    ensures SameAbout(b, ApplyAll(b, [a, c]), id)
  {
    ApplyTwo(b, a, c);
    ApplyElsewhere(b, a, id);
    ApplyElsewhere(Apply(b, a), c, id);
  }

  lemma SolventByChannel(env: Env, b: Books, a: Op, c: Op)
    requires ValidEnv(env) && Solvent(env, b) && a.id == c.id
    requires SolventAt(env, ApplyAll(b, [a, c]), a.id)
    ensures Solvent(env, ApplyAll(b, [a, c]))
  {
    forall id: string ensures SolventAt(env, ApplyAll(b, [a, c]), id) {
      if id != a.id {
        TwoElsewhere(b, a, c, id);
        SameSolvent(env, b, ApplyAll(b, [a, c]), id);
      }
    }
  }

  /** Registration starts a channel with nothing due. */
  lemma SaveKeepsSolvent(env: Env, b: Books, id: string, f: Funding, p: Payment)
    requires ValidEnv(env) && Solvent(env, b) && StateOf(b, id).None?
    requires Registered(env, id, f) && SignatureVerifies(env, f, p) && p.signature != ""
    ensures Solvent(env, ApplyAll(b, SaveOps(id, f, p)))
    ensures StateOf(ApplyAll(b, SaveOps(id, f, p)), id) == Some(IsOpen)
  {
    hide SignatureVerifies, ParamsOk, ProofsAcceptable;
    assert SolventAt(env, b, id);
    ApplyTwo(b, Op.InsertFunding(id, f), Op.UpdateBalance(id, p));
    if f.params.unit in env.cfg.pricing {
      NothingDue(env.cfg.pricing[f.params.unit].variables, Scale(env.cfg));
    }
    SolventByChannel(env, b, Op.InsertFunding(id, f), Op.UpdateBalance(id, p));
  }

  lemma RecordedDue(env: Env, b: Books, b': Books, id: string, context: Usage)
    requires ValidEnv(env) && b'.funding == b.funding && GetUsage(b', id) == Increment(GetUsage(b, id), context)
    ensures DueNow(env, b', id) == DueWith(env, b, id, context)
  {
    if id in b.funding && b.funding[id].params.unit in env.cfg.pricing {
      DueBeforeIsDueAfter(env.cfg.pricing[b.funding[id].params.unit].variables, Scale(env.cfg), GetUsage(b, id), context);
    }
  }

  /** What recording does: the two operations touch different maps. */
  lemma RecordEffect(b: Books, id: string, p: Payment, context: Usage)
    ensures ApplyAll(b, RecordOps(id, p, context))
         == b.(balance := Apply(b, Op.UpdateBalance(id, p)).balance,
               usage := b.usage[id := Increment(GetUsage(b, id), context)])
  {
    ApplyTwo(b, Op.IncrementUsage(id, context), Op.UpdateBalance(id, p));
  }

  /** The balance kept after an update covers what the new one covers. */
  lemma UpdatedBalanceClaimable(env: Env, b: Books, id: string, p: Payment)
    requires ValidEnv(env) && Claimable(env, b, id, p)
    requires id in b.balance ==> SignatureVerifies(env, b.funding[id], b.balance[id]) && b.balance[id].signature != ""
    ensures var b' := Apply(b, Op.UpdateBalance(id, p));
            id in b'.balance && Claimable(env, b, id, b'.balance[id]) && p.balance <= b'.balance[id].balance
  {
  }

  /** A validated payment leaves a balance that covers the amount it was validated against. */
  lemma RecordedClaim(env: Env, b: Books, b': Books, id: string, p: Payment, context: Usage)
    requires ValidEnv(env) && SolventAt(env, b, id) && p.signature != ""
    requires ValidatePayment(env, b, id, p, context).None?
    requires b'.funding == b.funding && b'.balance == Apply(b, Op.UpdateBalance(id, p)).balance
    requires DueNow(env, b', id) == DueWith(env, b, id, context)
    ensures id in b'.balance && Claimable(env, b', id, b'.balance[id])
  {
    var kept := b'.balance[id];
    assert p.balance <= kept.balance && kept.signature != "";
    assert SignatureVerifies(env, b.funding[id], kept);
  }

  /** Recording a validated payment: the amount due grows to what was checked, and the balance covers it. */
  lemma RecordKeepsSolvent(env: Env, b: Books, id: string, p: Payment, context: Usage)
    requires ValidEnv(env) && Solvent(env, b) && StateOf(b, id) == Some(IsOpen) && p.signature != ""
    requires ValidatePayment(env, b, id, p, context).None?
    ensures Solvent(env, ApplyAll(b, RecordOps(id, p, context)))
  {
    assert SolventAt(env, b, id);
    RecordEffect(b, id, p, context);
    RecordedDue(env, b, ApplyAll(b, RecordOps(id, p, context)), id, context);
    RecordedClaim(env, b, ApplyAll(b, RecordOps(id, p, context)), id, p, context);
    SolventByChannel(env, b, Op.IncrementUsage(id, context), Op.UpdateBalance(id, p));
  }

  lemma ClosingEffect(env: Env, b: Books, id: string, data: ClosingData)
    requires ValidEnv(env) && id !in b.closed
    ensures var b' := ApplyAll(b, ClosingOps(id, data));
            && b'.funding == b.funding && b'.usage == b.usage && b'.closed == b.closed
            && b'.balance == Apply(b, Op.UpdateBalance(id, data.payment)).balance
            && b'.closing == b.closing[id := data]
            && DueNow(env, b', id) == DueNow(env, b, id)
  {
    ApplyTwo(b, Op.UpdateBalance(id, data.payment), Op.MarkClosing(id, data));
    SameDue(env, b, ApplyAll(b, ClosingOps(id, data)), id);
  }

  /** Entering Closing at a claimable balance. */
  lemma ClosingKeepsSolvent(env: Env, b: Books, id: string, data: ClosingData)
    requires ValidEnv(env) && Solvent(env, b) && id !in b.closed
    requires Claimable(env, b, id, data.payment) && b.funding[id].proofs != []
    requires data.expiry == b.funding[id].params.expiry
    ensures Solvent(env, ApplyAll(b, ClosingOps(id, data)))
    ensures ApplyAll(b, ClosingOps(id, data)).closing == b.closing[id := data]
  {
    assert SolventAt(env, b, id);
    var b' := ApplyAll(b, ClosingOps(id, data));
    ClosingEffect(env, b, id, data);
    UpdatedBalanceClaimable(env, b, id, data.payment);
    ClaimTransfers(env, b, b', id, b'.balance[id]);
    ClaimTransfers(env, b, b', id, data.payment);
    SolventByChannel(env, b, Op.UpdateBalance(id, data.payment), Op.MarkClosing(id, data));
  }

  lemma RegisterKeepsSolvent(env: Env, keysets: KeysetCache, now: nat, b: Books, r: Request, missing: BridgeError)
    requires ValidEnv(env) && Solvent(env, b) && StateOf(b, r.id).None? && !Malformed(r)
    ensures var d := Register(env, keysets, now, r, missing);
            Solvent(env, ApplyAll(b, d.ops)) && (d.error.None? ==> StateOf(ApplyAll(b, d.ops), r.id) == Some(IsOpen))
  {
    if r.offer.Some? {
      var v := ValidateNewFunding(env, keysets, now, r.id, r.offer.value, r.payment);
      if v.Ok? {
        SaveKeepsSolvent(env, b, r.id, v.value, r.payment);
      }
    }
  }

  /** A registration that is not refused opens the channel. */
  lemma RegisterOpens(env: Env, keysets: KeysetCache, now: nat, b: Books, r: Request, missing: BridgeError)
    requires StateOf(b, r.id).None?
    ensures var d := Register(env, keysets, now, r, missing);
            if d.error.None? then StateOf(ApplyAll(b, d.ops), r.id) == Some(IsOpen) else d.ops == []
  {
    hide ValidateNewFunding;
    var d := Register(env, keysets, now, r, missing);
    if d.error.None? {
      ApplyTwo(b, d.ops[0], d.ops[1]);
      assert d.ops == [d.ops[0], d.ops[1]];
    }
  }

  lemma FundKeepsSolvent(env: Env, keysets: KeysetCache, now: nat, b: Books, r: Request)
    requires ValidEnv(env) && Solvent(env, b)
    ensures Solvent(env, ApplyAll(b, FundChannel(env, keysets, now, b, r).ops))
  {
    if !Malformed(r) && StateOf(b, r.id).None? {
      RegisterKeepsSolvent(env, keysets, now, b, r, InvalidRequest);
    }
  }

  lemma {:induction false} ApplyConcat(b: Books, xs: seq<Op>, ys: seq<Op>)
    ensures ApplyAll(b, xs + ys) == ApplyAll(ApplyAll(b, xs), ys)
    decreases |xs|
  {
    if xs == [] {
      assert xs + ys == ys;
    } else {
      assert (xs + ys)[1..] == xs[1..] + ys;
      ApplyConcat(Apply(b, xs[0]), xs[1..], ys);
    }
  }

  lemma PayKeepsSolvent(env: Env, keysets: KeysetCache, now: nat, b: Books, r: Request, context: Usage)
    requires ValidEnv(env) && Solvent(env, b)
    ensures Solvent(env, ApplyAll(b, ProcessPayment(env, keysets, now, b, r, context).ops))
  {
    if Malformed(r) {
    } else if StateOf(b, r.id) == Some(IsOpen) {
      if ValidatePayment(env, b, r.id, r.payment, context).None? {
        RecordKeepsSolvent(env, b, r.id, r.payment, context);
      }
    } else if StateOf(b, r.id).None? {
      var first := Register(env, keysets, now, r, UnknownChannel);
      RegisterKeepsSolvent(env, keysets, now, b, r, UnknownChannel);
      if first.error.None? {
        var mid := ApplyAll(b, first.ops);
        var rest := Charge(env, mid, r, context);
        ApplyConcat(b, first.ops, rest.ops);
        if rest.error.None? {
          RecordKeepsSolvent(env, mid, r.id, r.payment, context);
        }
      }
    }
  }

  /** What a successful preparation establishes about the balance it was asked for. */
  lemma PreparedIsClaimable(env: Env, keysets: KeysetCache, now: nat, b: Books, id: string, p: Payment,
                            exactDue: bool, pick: A.KeysetInfo, nonce: string)
    requires ValidEnv(env) && Solvent(env, b) && p.signature != ""
    requires PrepareError(env, keysets, now, b, id, p, exactDue, pick, nonce).None?
    requires !exactDue ==> DueNow(env, b, id) <= p.balance
    ensures Claimable(env, b, id, p) && b.funding[id].proofs != [] && id !in b.closed
  {
    PreparedIsSigned(env.crypto, id, p, b.funding[id], pick, nonce);
  }

  lemma MarkClosingKeepsSolvent(env: Env, keysets: KeysetCache, now: nat, b: Books, id: string, p: Payment,
                                exactDue: bool, pick: A.KeysetInfo, nonce: string)
    requires ValidEnv(env) && Solvent(env, b) && p.signature != ""
    requires !exactDue ==> DueNow(env, b, id) <= p.balance
    ensures Solvent(env, ApplyAll(b, MarkClosingDecision(env, keysets, now, b, id, p, exactDue, pick, nonce).ops))
  {
    if PrepareError(env, keysets, now, b, id, p, exactDue, pick, nonce).None? {
      PreparedIsClaimable(env, keysets, now, b, id, p, exactDue, pick, nonce);
      ClosingKeepsSolvent(env, b, id, ClosingData(b.funding[id].params.expiry, p));
    }
  }

  lemma CooperativeKeepsSolvent(env: Env, keysets: KeysetCache, now: nat, b: Books, r: Request, pick: A.KeysetInfo, nonce: string)
    requires ValidEnv(env) && Solvent(env, b)
    ensures Solvent(env, ApplyAll(b, CooperativeClose(env, keysets, now, b, r, pick, nonce).ops))
  {
    if Malformed(r) {
    } else if StateOf(b, r.id).Some? || r.offer.None? {
      MarkClosingKeepsSolvent(env, keysets, now, b, r.id, r.payment, true, pick, nonce);
    } else {
      var first := Register(env, keysets, now, r, UnknownChannel);
      RegisterKeepsSolvent(env, keysets, now, b, r, UnknownChannel);
      if first.error.None? {
        var mid := ApplyAll(b, first.ops);
        MarkClosingKeepsSolvent(env, keysets, now, mid, r.id, r.payment, true, pick, nonce);
        ApplyConcat(b, first.ops, MarkClosingDecision(env, keysets, now, mid, r.id, r.payment, true, pick, nonce).ops);
      }
    }
  }

  lemma UnilateralKeepsSolvent(env: Env, keysets: KeysetCache, now: nat, b: Books, id: string, pick: A.KeysetInfo, nonce: string)
    requires ValidEnv(env) && Solvent(env, b)
    ensures Solvent(env, ApplyAll(b, UnilateralClose(env, keysets, now, b, id, pick, nonce).ops))
  {
    if id in b.funding && id in b.balance {
      assert SolventAt(env, b, id);
      MarkClosingKeepsSolvent(env, keysets, now, b, id, b.balance[id], false, pick, nonce);
    }
  }
}
