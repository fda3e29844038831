/**
 Close requests (bridge.rs, deterministic.rs): preparing one from a signed balance,
 authenticating a retained one, and completing the mint's answer to it.

 Derivation, blinding, hashing and signing are arbitrary functions.  What is assumed of
 them, and only where stated, is CryptoOk: what a key signs verifies under it, and a
 receiver output is locked to the receiver's key for that output.  Results about who signed
 a balance are for every account of signatures that is Unforgeable.
 */
module CloseRequest {
  import opened Wrappers
  import opened Channel
  import A = Amounts
  import opened Restore

  datatype Crypto = Crypto(
    channelId: (Params, string) -> string,
    derive: (Funding, bool, nat, nat) -> (string, string),   // secret and blinding of an output
    blind: (string, string) -> string,
    lockedTo: string -> string,
    stage2Key: (Funding, nat, nat) -> string,
    digest: (seq<Proof>, seq<BlindedMessage>) -> string,
    senderKey: Funding -> string,
    receiverKey: Funding -> string,
    parse: string -> Option<string>,                          // signature text to canonical text
    verify: (string, string, string) -> bool,
    sign: (string, string, string) -> string)                 // key, digest, nonce

  ghost predicate CryptoOk(c: Crypto) {
    && (forall key, digest, nonce ::
          var s := c.parse(c.sign(key, digest, nonce)); s.Some? && c.verify(key, digest, s.value))
    && (forall f, amount, index :: c.lockedTo(c.derive(f, true, amount, index).0) == c.stage2Key(f, amount, index))
  }

  /** One output of a close, with what is needed to unblind it. */
  datatype CloseSecret = CloseSecret(secret: string, blinding: string, amount: nat, index: nat, isReceiver: bool)

  datatype SwapRequest = SwapRequest(inputs: seq<Proof>, outputs: seq<BlindedMessage>)

  datatype PreparedClose = PreparedClose(
    id: string,
    balance: nat,
    mintUrl: string,
    request: SwapRequest,
    digest: string,
    receiverKey: string,
    secrets: seq<CloseSecret>,
    outputKeyset: A.KeysetInfo,
    params: Params,
    keyset: A.KeysetInfo,
    channelSecret: string)

  // ------------------------------------------------------------------------
  // Channel parameters as the bridge rebuilds them
  // ------------------------------------------------------------------------

  /** Mint URLs lose their trailing slashes when parameters are rebuilt. */
  function TrimSlashes(url: string): string {
    if url != [] && url[|url| - 1] == '/' then TrimSlashes(url[..|url| - 1]) else url
  }

  /** ChannelParameters::from_json_with_channel_secret succeeds. */
  predicate ParamsOk(f: Funding) {
    f.params.keysetId == f.keyset.id && A.ValidTerms(TermsOf(f))
  }

  /** What keys and outputs are derived from: parameters, keyset and channel secret, not the proofs. */
  function Core(f: Funding): Funding {
    f.(proofs := [])
  }

  function ProofTotal(ps: seq<Proof>): nat {
    if ps == [] then 0 else ps[0].amount + ProofTotal(ps[1..])
  }

  /** EstablishedChannel::new succeeds. */
  predicate Established(f: Funding) {
    && (forall i | 0 <= i < |f.proofs| :: f.proofs[i].keysetId == f.keyset.id)
    && ProofTotal(f.proofs) == f.params.fundingAmount
  }

  // ------------------------------------------------------------------------
  // The outputs of a commitment
  // ------------------------------------------------------------------------

  function Reverse(xs: seq<nat>): seq<nat> {
    if xs == [] then [] else Reverse(xs[1..]) + [xs[0]]
  }

  /** Outputs of one party, smallest first; the index counts outputs of equal amount. */
  function PartySecrets(c: Crypto, f: Funding, asc: seq<nat>, isReceiver: bool): (r: seq<CloseSecret>)
    ensures |r| == |asc|
  {
    seq(|asc|, i requires 0 <= i < |asc| =>
      var index := A.Count(asc[..i], asc[i]);
      var d := c.derive(Core(f), isReceiver, asc[i], index);
      CloseSecret(d.0, d.1, asc[i], index, isReceiver))
  }

  /** Stable insertion by key. */
  function InsertBy<T>(x: T, xs: seq<T>, key: T -> nat): seq<T> {
    if xs == [] || key(x) <= key(xs[0]) then [x] + xs else [xs[0]] + InsertBy(x, xs[1..], key)
  }

  function SortBy<T>(xs: seq<T>, key: T -> nat): seq<T> {
    if xs == [] then [] else InsertBy(xs[0], SortBy(xs[1..], key), key)
  }

  const SecretAmount: CloseSecret -> nat := (s: CloseSecret) => s.amount
  const MessageAmount: BlindedMessage -> nat := (m: BlindedMessage) => m.amount

  function AllSecrets(c: Crypto, f: Funding, k: A.Commitment): seq<CloseSecret> {
    PartySecrets(c, f, Reverse(k.receiver), true) + PartySecrets(c, f, Reverse(k.sender), false)
  }

  /** Secrets in request order: receiver before sender, then sorted by amount. */
  function CloseSecrets(c: Crypto, f: Funding, k: A.Commitment): seq<CloseSecret> {
    SortBy(AllSecrets(c, f, k), SecretAmount)
  }

  function MessageFor(c: Crypto, keysetId: string, s: CloseSecret): BlindedMessage {
    BlindedMessage(s.amount, keysetId, c.blind(s.secret, s.blinding))
  }

  function MessagesFor(c: Crypto, keysetId: string, ss: seq<CloseSecret>): seq<BlindedMessage> {
    if ss == [] then [] else [MessageFor(c, keysetId, ss[0])] + MessagesFor(c, keysetId, ss[1..])
  }

  /** create_swap_request: the messages are built first and sorted by amount afterwards. */
  function CommitmentRequest(c: Crypto, f: Funding, k: A.Commitment, keysetId: string): SwapRequest {
    SwapRequest(f.proofs, SortBy(MessagesFor(c, keysetId, AllSecrets(c, f, k)), MessageAmount))
  }

  /** No two outputs of one party share amount and index, so each has its own derivation. */
  lemma PartyPairsDistinct(c: Crypto, f: Funding, asc: seq<nat>, isReceiver: bool, i: nat, j: nat)
    requires i < j < |asc|
    ensures var ss := PartySecrets(c, f, asc, isReceiver);
            (ss[i].amount, ss[i].index) != (ss[j].amount, ss[j].index)
  {
    if asc[i] == asc[j] {
      assert asc[..i + 1] == asc[..i] + [asc[i]];
      A.CountSnoc(asc[..i], asc[i], asc[i]);
      A.CountGrows(asc, i + 1, j, asc[i]);
    }
  }

  predicate Ascending<T>(xs: seq<T>, key: T -> nat) {
    forall i, j | 0 <= i < j < |xs| :: key(xs[i]) <= key(xs[j])
  }

  lemma {:induction false} InsertRearranges<T>(x: T, xs: seq<T>, key: T -> nat)
    ensures multiset(InsertBy(x, xs, key)) == multiset(xs) + multiset{x}
  {
    if xs != [] && key(x) > key(xs[0]) {
      InsertRearranges(x, xs[1..], key);
      assert xs == [xs[0]] + xs[1..];
    }
  }

  lemma {:induction false} InsertAscends<T>(x: T, xs: seq<T>, key: T -> nat)
    requires Ascending(xs, key)
    ensures Ascending(InsertBy(x, xs, key), key)
    ensures xs != [] ==> key(InsertBy(x, xs, key)[0]) >= (if key(x) <= key(xs[0]) then key(x) else key(xs[0]))
  {
    if xs != [] && key(x) > key(xs[0]) {
      InsertAscends(x, xs[1..], key);
      PrependAscends(xs[0], InsertBy(x, xs[1..], key), key);
    }
  }

  lemma PrependAscends<T>(x: T, xs: seq<T>, key: T -> nat)
    requires Ascending(xs, key) && (xs != [] ==> key(x) <= key(xs[0]))
    ensures Ascending([x] + xs, key)
  {
  }

  /** Sorting orders by key. */
  lemma {:induction false} SortAscends<T>(xs: seq<T>, key: T -> nat)
    ensures Ascending(SortBy(xs, key), key)
  {
    hide Ascending, InsertBy;
    if xs == [] {
      NoneAscends(key);
    } else {
      SortAscends(xs[1..], key);
      InsertAscends(xs[0], SortBy(xs[1..], key), key);
    }
  }

  lemma NoneAscends<T>(key: T -> nat)
    ensures Ascending([], key)
  {
  }

  /** Sorting only rearranges. */
  lemma {:induction false} SortRearranges<T>(xs: seq<T>, key: T -> nat)
    ensures multiset(SortBy(xs, key)) == multiset(xs)
  {
    hide InsertBy;
    if xs != [] {
      SortRearranges(xs[1..], key);
      InsertRearranges(xs[0], SortBy(xs[1..], key), key);
      assert xs == [xs[0]] + xs[1..];
    }
  }

  lemma {:induction false} MessagesConcat(c: Crypto, keysetId: string, xs: seq<CloseSecret>, ys: seq<CloseSecret>)
    ensures MessagesFor(c, keysetId, xs + ys) == MessagesFor(c, keysetId, xs) + MessagesFor(c, keysetId, ys)
  {
    if xs == [] {
      assert xs + ys == ys;
    } else {
      assert (xs + ys)[1..] == xs[1..] + ys;
      MessagesConcat(c, keysetId, xs[1..], ys);
    }
  }

  /** A request asks, smallest first, for exactly the outputs of the two parties. */
  lemma RequestOrder(c: Crypto, f: Funding, k: A.Commitment, keysetId: string)
    ensures var outputs := CommitmentRequest(c, f, k, keysetId).outputs;
            && Ascending(outputs, MessageAmount)
            && multiset(outputs)
               == multiset(MessagesFor(c, keysetId, PartySecrets(c, f, Reverse(k.receiver), true)))
                  + multiset(MessagesFor(c, keysetId, PartySecrets(c, f, Reverse(k.sender), false)))
  {
    MessagesConcat(c, keysetId, PartySecrets(c, f, Reverse(k.receiver), true), PartySecrets(c, f, Reverse(k.sender), false));
    SortAscends(MessagesFor(c, keysetId, AllSecrets(c, f, k)), MessageAmount);
    SortRearranges(MessagesFor(c, keysetId, AllSecrets(c, f, k)), MessageAmount);
  }

  lemma {:induction false} InsertCommutes(c: Crypto, keysetId: string, s: CloseSecret, ss: seq<CloseSecret>)
    ensures MessagesFor(c, keysetId, InsertBy(s, ss, SecretAmount))
         == InsertBy(MessageFor(c, keysetId, s), MessagesFor(c, keysetId, ss), MessageAmount)
  {
    if ss != [] && s.amount > ss[0].amount {
      InsertCommutes(c, keysetId, s, ss[1..]);
      var rest := InsertBy(s, ss[1..], SecretAmount);
      assert ([ss[0]] + rest)[1..] == rest;
      assert MessagesFor(c, keysetId, ss)[1..] == MessagesFor(c, keysetId, ss[1..]);
    } else {
      assert ([s] + ss)[1..] == ss;
    }
  }

  /** Sorting the secrets and sorting the messages give the same order: output i belongs to secret i. */
  lemma {:induction false} SortCommutes(c: Crypto, keysetId: string, ss: seq<CloseSecret>)
    ensures MessagesFor(c, keysetId, SortBy(ss, SecretAmount)) == SortBy(MessagesFor(c, keysetId, ss), MessageAmount)
  {
    if ss != [] {
      SortCommutes(c, keysetId, ss[1..]);
      InsertCommutes(c, keysetId, ss[0], SortBy(ss[1..], SecretAmount));
      assert MessagesFor(c, keysetId, ss)[1..] == MessagesFor(c, keysetId, ss[1..]);
    }
  }

  // ------------------------------------------------------------------------
  // Preparing
  // ------------------------------------------------------------------------

  function AttachSignature(r: SwapRequest, sig: string): (o: Option<SwapRequest>) {
    if r.inputs == [] then None
    else
      var first := r.inputs[0];
      var sigs := if first.sigs.Some? then first.sigs.value + [sig] else [sig];
      Some(r.(inputs := r.inputs[0 := first.(sigs := Some(sigs))]))
  }

  /** The request without the signatures on its first input; this is what is signed. */
  function Unsigned(r: SwapRequest): SwapRequest {
    if r.inputs == [] then r else r.(inputs := r.inputs[0 := r.inputs[0].(sigs := None)])
  }

  function DigestOf(c: Crypto, r: SwapRequest): string {
    c.digest(Unsigned(r).inputs, r.outputs)
  }

  /** verify_sender_signature: the sender signed the commitment for this balance. */
  predicate SenderSigned(c: Crypto, f: Funding, p: Payment) {
    && ParamsOk(f)
    && A.ForBalance(p.balance, TermsOf(f)).Ok?
    && c.parse(p.signature).Some?
    && c.verify(c.senderKey(Core(f)),
                DigestOf(c, CommitmentRequest(c, f, A.ForBalance(p.balance, TermsOf(f)).value, f.keyset.id)),
                c.parse(p.signature).value)
  }

  // ------------------------------------------------------------------------
  // What a checked signature shows
  // ------------------------------------------------------------------------

  /** The proofs as they are signed for: without the witness on the first. */
  function Bare(ps: seq<Proof>): seq<Proof> {
    if ps == [] then [] else ps[0 := ps[0].(sigs := None)]
  }

  predicate CanCommit(f: Funding, balance: nat) {
    ParamsOk(f) && A.ForBalance(balance, TermsOf(f)).Ok?
  }

  /** The digest of the swap that pays this balance: the channel's proofs against its own commitment's outputs, in request order. */
  function SwapDigest(c: Crypto, f: Funding, balance: nat): string
    requires CanCommit(f, balance)
  {
    c.digest(Bare(f.proofs),
             MessagesFor(c, f.keyset.id, CloseSecrets(c, f, A.ForBalance(balance, TermsOf(f)).value)))
  }

  /** A complete account of what has been signed, by key and digest: nothing else verifies. */
  ghost predicate Unforgeable(c: Crypto, signed: iset<(string, string)>) {
    forall key, digest, s :: c.verify(key, digest, s) ==> (key, digest) in signed
  }

  /** The channel's sender has signed the swap that pays this balance. */
  ghost predicate Signed(c: Crypto, f: Funding, balance: nat, signed: iset<(string, string)>) {
    CanCommit(f, balance) && (c.senderKey(Core(f)), SwapDigest(c, f, balance)) in signed
  }

  /** By every account of what has been signed. */
  ghost predicate Authorised(c: Crypto, f: Funding, balance: nat) {
    forall signed | Unforgeable(c, signed) :: Signed(c, f, balance, signed)
  }

  /** What is checked is a signature on that swap's digest. */
  lemma CheckedIsSwap(c: Crypto, f: Funding, balance: nat)
    requires CanCommit(f, balance)
    ensures DigestOf(c, CommitmentRequest(c, f, A.ForBalance(balance, TermsOf(f)).value, f.keyset.id)) == SwapDigest(c, f, balance)
  {
    var k := A.ForBalance(balance, TermsOf(f)).value;
    SortCommutes(c, f.keyset.id, AllSecrets(c, f, k));
  }

  /** A signature is accepted exactly when it reads as one that the sender's key verifies on the swap's digest. */
  lemma SenderSignedIff(c: Crypto, f: Funding, p: Payment)
    ensures SenderSigned(c, f, p) <==>
              && CanCommit(f, p.balance)
              && c.parse(p.signature).Some?
              && c.verify(c.senderKey(Core(f)), SwapDigest(c, f, p.balance), c.parse(p.signature).value)
  {
    hide DigestOf, CommitmentRequest, SwapDigest;
    if CanCommit(f, p.balance) {
      CheckedIsSwap(c, f, p.balance);
    }
  }

  /** So the sender has signed the swap for exactly this balance. */
  lemma CheckedIsAuthorised(c: Crypto, f: Funding, p: Payment)
    requires SenderSigned(c, f, p)
    ensures Authorised(c, f, p.balance)
  {
    SenderSignedIff(c, f, p);
    hide SwapDigest, SenderSigned, CanCommit;
  }

  // ------------------------------------------------------------------------
  // Preparing from a signed balance
  // ------------------------------------------------------------------------

  /** prepare_close_data_impl and wrap_close_data, without the check against the amount due. */
  function PrepareClose(c: Crypto, id: string, p: Payment, f: Funding, out: A.KeysetInfo, nonce: string):
    (r: Result<PreparedClose, string>)
    requires A.ValidKeyset(out)
  {
    if !ParamsOk(f) then Err("internal")
    else if p.balance > f.params.capacity then Err("balance exceeds capacity")
    else if c.parse(p.signature).None? then Err("invalid signature")
    else
      match A.ForBalance(p.balance, TermsOf(f))
      case Err(e) => Err(e)
      case Ok(k) =>
        match AttachSignature(CommitmentRequest(c, f, k, out.id), c.parse(p.signature).value)
        case None => Err("swap request has no inputs")
        case Some(half) =>
          if !Established(f) then Err("internal")
          else if !SenderSigned(c, f, p) then Err("invalid signature")
          else
            var digest := DigestOf(c, half);
            match AttachSignature(half, c.sign(c.receiverKey(Core(f)), digest, nonce))
            case None => Err("swap request has no inputs")
            case Some(full) =>
              if A.Forward(f.params.fundingAmount, f.params.maxOutput, out).Err? then Err("internal")
              else
                Ok(PreparedClose(id, p.balance, f.params.mint, full, digest, c.receiverKey(Core(f)),
                                 CloseSecrets(c, f, k), out, f.params, f.keyset, f.secret))
  }

  /** What a successful preparation has established about the payment and the funding. */
  lemma PreparedIsSigned(c: Crypto, id: string, p: Payment, f: Funding, out: A.KeysetInfo, nonce: string)
    requires A.ValidKeyset(out) && PrepareClose(c, id, p, f, out, nonce).Ok?
    ensures SenderSigned(c, f, p) && Established(f) && f.proofs != [] && p.balance <= f.params.capacity
    ensures Authorised(c, f, p.balance)
    ensures var r := PrepareClose(c, id, p, f, out, nonce).value;
            r.id == id && r.balance == p.balance && r.outputKeyset == out
  {
    CheckedIsAuthorised(c, f, p);
  }

  /** Exactly when a close can be prepared: a signed balance, funding that adds up, and an output keyset that can carry it. */
  lemma PrepareSucceedsIff(c: Crypto, id: string, p: Payment, f: Funding, out: A.KeysetInfo, nonce: string)
    requires A.ValidKeyset(out)
    ensures PrepareClose(c, id, p, f, out, nonce).Ok?
       <==> && SenderSigned(c, f, p) && Established(f) && f.proofs != []
            && A.Forward(f.params.fundingAmount, f.params.maxOutput, out).Ok?
  {
    hide DigestOf, CloseSecrets;
    if SenderSigned(c, f, p) {
      A.CommitmentPays(p.balance, TermsOf(f));
    }
  }

  // ------------------------------------------------------------------------
  // Authenticating a retained request
  // ------------------------------------------------------------------------

  function ParsedSignatures(c: Crypto, sigs: seq<string>): seq<string> {
    if sigs == [] then []
    else
      var rest := ParsedSignatures(c, sigs[1..]);
      match c.parse(sigs[0])
      case None => rest
      case Some(s) => [s] + rest
  }

  /** verify_prepared_close; the nonce is whatever the receiver's signer uses while rebuilding. */
  predicate VerifyPrepared(c: Crypto, p: PreparedClose, f: Funding, payment: Payment, receiver: string, nonce: string)
    requires A.ValidKeyset(p.outputKeyset)
  {
    && p.balance == payment.balance
    && p.params == f.params && p.keyset == f.keyset && p.channelSecret == f.secret
    && ParamsOk(f)
    && f.params.receiver == receiver
    && c.channelId(f.params, f.secret) == p.id
    && TrimSlashes(f.params.mint) == p.mintUrl
    && f.params.unit == p.outputKeyset.unit
    && var expected := PrepareClose(c, p.id, payment, f, p.outputKeyset, nonce);
    && expected.Ok?
    && expected.value.secrets == p.secrets
    && DigestOf(c, p.request) == p.digest
    && c.receiverKey(Core(f)) == p.receiverKey
    && p.request.inputs != []
    && p.request.inputs[0].sigs.Some?
    && |p.request.inputs[0].sigs.value| == 2
    && p.request.inputs[0].sigs.value[0] == payment.signature
    && var sigs := ParsedSignatures(c, p.request.inputs[0].sigs.value);
    && |sigs| == 2
    && sigs[0] == payment.signature
    && c.verify(c.receiverKey(Core(f)), DigestOf(c, p.request), sigs[1])
    && Unsigned(p.request) == Unsigned(expected.value.request)
  }

  /** The same close, signed by the receiver with another signature. */
  function WithReceiverSignature(p: PreparedClose, sig: string): PreparedClose
    requires TwiceSigned(p.request)
  {
    var first := p.request.inputs[0];
    p.(request := p.request.(inputs := p.request.inputs[0 := first.(sigs := Some([first.sigs.value[0], sig]))]))
  }

  /** Attaching a signature does not change what is signed. */
  lemma AttachKeepsUnsigned(r: SwapRequest, sig: string)
    requires r.inputs != []
    ensures AttachSignature(r, sig).Some? && Unsigned(AttachSignature(r, sig).value) == Unsigned(r)
  {
    assert Unsigned(AttachSignature(r, sig).value).inputs == Unsigned(r).inputs;
  }

  /** The unsigned request of a close is that of its commitment. */
  lemma PreparedUnsigned(c: Crypto, id: string, p: Payment, f: Funding, out: A.KeysetInfo, nonce: string)
    requires A.ValidKeyset(out) && PrepareClose(c, id, p, f, out, nonce).Ok?
    ensures Unsigned(PrepareClose(c, id, p, f, out, nonce).value.request)
         == Unsigned(CommitmentRequest(c, f, A.ForBalance(p.balance, TermsOf(f)).value, out.id))
  {
    var r := CommitmentRequest(c, f, A.ForBalance(p.balance, TermsOf(f)).value, out.id);
    var half := AttachSignature(r, c.parse(p.signature).value).value;
    AttachKeepsUnsigned(r, c.parse(p.signature).value);
    AttachKeepsUnsigned(half, c.sign(c.receiverKey(Core(f)), DigestOf(c, half), nonce));
  }

  /** The signer's randomness decides only the receiver's signature. */
  lemma PreparedShape(c: Crypto, id: string, p: Payment, f: Funding, out: A.KeysetInfo, nonce: string, nonce': string)
    requires A.ValidKeyset(out) && PrepareClose(c, id, p, f, out, nonce).Ok?
    ensures var r, r' := PrepareClose(c, id, p, f, out, nonce), PrepareClose(c, id, p, f, out, nonce');
            r'.Ok? && Unsigned(r.value.request) == Unsigned(r'.value.request) && r.value.secrets == r'.value.secrets
  {
    PreparedUnsigned(c, id, p, f, out, nonce);
    PreparedUnsigned(c, id, p, f, out, nonce');
  }

  predicate TwiceSigned(r: SwapRequest) {
    r.inputs != [] && r.inputs[0].sigs.Some? && |r.inputs[0].sigs.value| == 2
  }

  /** Requests that agree but for their signatures, and agree on the first of these, differ at most in the second. */
  lemma SameButReceiver(p: PreparedClose, q: PreparedClose)
    requires TwiceSigned(p.request) && TwiceSigned(q.request) && Unsigned(p.request) == Unsigned(q.request)
    requires p.request.inputs[0].sigs.value[0] == q.request.inputs[0].sigs.value[0]
    requires p.(request := q.request) == q
    ensures q == WithReceiverSignature(p, q.request.inputs[0].sigs.value[1])
  {
    var ps, qs := p.request.inputs, q.request.inputs;
    forall i | 1 <= i < |ps| ensures ps[i] == qs[i] {
      assert Unsigned(p.request).inputs[i] == Unsigned(q.request).inputs[i];
    }
    assert Unsigned(p.request).inputs[0] == Unsigned(q.request).inputs[0];
    assert qs[0].sigs.value == [ps[0].sigs.value[0], qs[0].sigs.value[1]];
    assert qs == WithReceiverSignature(p, qs[0].sigs.value[1]).request.inputs;
  }

  /** Two accepted closes for one funding, payment and output keyset differ at most in the receiver's signature. */
  lemma AcceptedCloseIsUnique(c: Crypto, p: PreparedClose, q: PreparedClose, f: Funding, payment: Payment, receiver: string,
                              n: string, m: string)
    requires A.ValidKeyset(p.outputKeyset) && p.outputKeyset == q.outputKeyset
    requires VerifyPrepared(c, p, f, payment, receiver, n) && VerifyPrepared(c, q, f, payment, receiver, m)
    ensures q == WithReceiverSignature(p, q.request.inputs[0].sigs.value[1])
  {
    PreparedShape(c, p.id, payment, f, p.outputKeyset, n, m);
    SameButReceiver(p, q);
  }

  lemma TwoParsed(c: Crypto, a: string, b: string)
    ensures ParsedSignatures(c, [a, b])
         == (if c.parse(a).Some? then [c.parse(a).value] else []) + (if c.parse(b).Some? then [c.parse(b).value] else [])
  {
    assert [a, b][1..] == [b] && [b][1..] == [];
    assert ParsedSignatures(c, []) == [];
    assert ParsedSignatures(c, [b]) == if c.parse(b).Some? then [c.parse(b).value] + [] else [];
  }

  /** Of an accepted close the second signature may be replaced, exactly by another of the receiver's on the same digest. */
  lemma ReceiverSignatureIff(c: Crypto, p: PreparedClose, f: Funding, payment: Payment, receiver: string, nonce: string, sig: string)
    requires A.ValidKeyset(p.outputKeyset) && VerifyPrepared(c, p, f, payment, receiver, nonce)
    ensures VerifyPrepared(c, WithReceiverSignature(p, sig), f, payment, receiver, nonce) <==>
              c.parse(sig).Some? && c.verify(p.receiverKey, p.digest, c.parse(sig).value)
  {
    var q, sigs := WithReceiverSignature(p, sig), p.request.inputs[0].sigs.value;
    assert Unsigned(q.request).inputs == Unsigned(p.request).inputs;
    assert DigestOf(c, q.request) == DigestOf(c, p.request);
    hide PrepareClose, ParamsOk, DigestOf, Unsigned, TrimSlashes;
    assert sigs == [sigs[0], sigs[1]];
    TwoParsed(c, sigs[0], sigs[1]);
    TwoParsed(c, sigs[0], sig);
  }

  predicate Unwitnessed(p: Proof) {
    p.sigs.None? || p.sigs.value == []
  }

  /** The later payment is the earlier one with its signature in canonical form. */
  predicate CanonicalFormOf(c: Crypto, p: Payment, q: Payment) {
    && q.balance == p.balance
    && c.parse(p.signature) == Some(q.signature)
    && c.parse(q.signature) == Some(q.signature)
  }

  /** Preparing from the canonical form of a payment gives the same close. */
  lemma SamePreparation(c: Crypto, id: string, p: Payment, q: Payment, f: Funding, out: A.KeysetInfo, nonce: string)
    requires A.ValidKeyset(out) && CanonicalFormOf(c, p, q) && PrepareClose(c, id, p, f, out, nonce).Ok?
    ensures PrepareClose(c, id, q, f, out, nonce).Ok?
    ensures PrepareClose(c, id, q, f, out, nonce).value == PrepareClose(c, id, p, f, out, nonce).value
  {
  }

  /** The digest and signatures of a prepared request, when its first proof came unsigned. */
  lemma PreparedSignatures(c: Crypto, id: string, p: Payment, f: Funding, out: A.KeysetInfo, nonce: string)
    requires CryptoOk(c) && A.ValidKeyset(out) && PrepareClose(c, id, p, f, out, nonce).Ok? && Unwitnessed(f.proofs[0])
    ensures var r := PrepareClose(c, id, p, f, out, nonce).value;
            && DigestOf(c, r.request) == r.digest
            && r.request.inputs != []
            && var sigs := r.request.inputs[0].sigs;
            && sigs.Some? && |sigs.value| == 2
            && Some(sigs.value[0]) == c.parse(p.signature)
            && c.parse(sigs.value[1]).Some?
            && c.verify(r.receiverKey, r.digest, c.parse(sigs.value[1]).value)
  {
    var r := PrepareClose(c, id, p, f, out, nonce).value;
    var k := A.ForBalance(p.balance, TermsOf(f)).value;
    var sender := c.parse(p.signature).value;
    var half := AttachSignature(CommitmentRequest(c, f, k, out.id), sender).value;
    AttachKeepsUnsigned(half, c.sign(r.receiverKey, r.digest, nonce));
    assert r.request.inputs[0].sigs.value == [sender, c.sign(r.receiverKey, r.digest, nonce)];
  }

  /** A funding proof that came signed gives a request with more than two signatures. */
  lemma WitnessedIsRejected(c: Crypto, id: string, p: Payment, f: Funding, out: A.KeysetInfo, nonce: string)
    requires A.ValidKeyset(out) && PrepareClose(c, id, p, f, out, nonce).Ok? && !Unwitnessed(f.proofs[0])
    ensures var r := PrepareClose(c, id, p, f, out, nonce).value;
            r.request.inputs != [] && r.request.inputs[0].sigs.Some? && |r.request.inputs[0].sigs.value| > 2
  {
  }

  /**
   Exactly when a close the bridge itself prepared passes its own authentication against a
   stored payment: the channel id is the derived one, the output keyset has the channel's
   unit, the funding proof came without signatures, the stored mint URL has no trailing
   slash, and the stored payment is the canonical form of the one the close was prepared from.
   */
  lemma PreparedCloseAcceptedIff(c: Crypto, id: string, p: Payment, q: Payment, f: Funding, out: A.KeysetInfo,
                                 nonce: string, nonce': string)
    requires CryptoOk(c) && A.ValidKeyset(out)
    requires PrepareClose(c, id, p, f, out, nonce).Ok?
    ensures VerifyPrepared(c, PrepareClose(c, id, p, f, out, nonce).value, f, q, f.params.receiver, nonce')
       <==> && c.channelId(f.params, f.secret) == id
            && TrimSlashes(f.params.mint) == f.params.mint
            && f.params.unit == out.unit
            && Unwitnessed(f.proofs[0])
            && CanonicalFormOf(c, p, q)
  {
    var r := PrepareClose(c, id, p, f, out, nonce).value;
    if !Unwitnessed(f.proofs[0]) {
      WitnessedIsRejected(c, id, p, f, out, nonce);
    } else {
      PreparedSignatures(c, id, p, f, out, nonce);
      var sigs := r.request.inputs[0].sigs.value;
      assert sigs == [sigs[0], sigs[1]];
      TwoParsed(c, sigs[0], sigs[1]);
      if CanonicalFormOf(c, p, q) {
        SamePreparation(c, id, p, q, f, out, nonce);
        PreparedShape(c, id, q, f, out, nonce, nonce');
      }
    }
  }
}
