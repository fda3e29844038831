/**
 Completing blind signatures into proofs, and the agreement between the two ways of doing
 it (bindings.rs): directly from the swap reply, or from NUT-09 restores of the funding
 outputs and of the change outputs.  Blinding, DLEQ checking and unblinding are arbitrary
 functions here.  The one thing ever assumed of them, and only where stated, is DhkeOk:
 what the mint signs blindly can be unblinded to its signature on the secret.
 */
module Completion {
  import opened Arith
  import opened Wrappers
  import opened Restore

  datatype Dhke = Dhke(
    blind: (string, string) -> string,
    dleqOk: (BlindSignature, string, string) -> bool,
    unblind: (string, string, string) -> string)

  /** Denomination keys of a keyset. */
  datatype Keys = Keys(id: string, byAmount: map<nat, string>)

  /** What the wallet keeps about an output it asked for. */
  datatype OutputSecret = OutputSecret(secret: string, blinding: string, amount: nat)

  datatype PreparedOutput = PreparedOutput(message: BlindedMessage, secret: string, blinding: string)

  datatype Token = Token(amount: nat, keysetId: string, secret: string, c: string)

  /** The mint's signatures, by public key: on a blinded point, and on a secret. */
  datatype Signer = Signer(onPoint: (string, string) -> string, onSecret: (string, string) -> string)

  /**
   The law of the blind signatures: an accepted DLEQ proof means that the mint signed that
   point, and its signature on a blinded secret unblinds to its signature on the secret.
   */
  ghost predicate DhkeOk(d: Dhke, m: Signer) {
    && (forall s, key, point :: d.dleqOk(s, key, point) ==> s.c == m.onPoint(key, point))
    && (forall key, secret, r :: d.unblind(m.onPoint(key, d.blind(secret, r)), r, key) == m.onSecret(key, secret))
  }

  /** The mint takes this token for its amount: it is its own signature on the secret, under the key of that amount. */
  predicate Redeemable(t: Token, k: Keys, m: Signer) {
    t.keysetId == k.id && t.amount in k.byAmount && t.c == m.onSecret(k.byAmount[t.amount], t.secret)
  }

  /** Redeemable tokens for these outputs: in order, each with its own amount and secret. */
  predicate Redeems(ts: seq<Token>, secrets: seq<OutputSecret>, k: Keys, m: Signer) {
    && |ts| == |secrets|
    && forall i | 0 <= i < |ts| ::
         Redeemable(ts[i], k, m) && ts[i].amount == secrets[i].amount && ts[i].secret == secrets[i].secret
  }

  function Prepare(o: OutputSecret, k: Keys, d: Dhke): PreparedOutput {
    PreparedOutput(BlindedMessage(o.amount, k.id, d.blind(o.secret, o.blinding)), o.secret, o.blinding)
  }

  function PrepareAll(secrets: seq<OutputSecret>, k: Keys, d: Dhke): (r: seq<PreparedOutput>)
    ensures |r| == |secrets|
  {
    seq(|secrets|, i requires 0 <= i < |secrets| => Prepare(secrets[i], k, d))
  }

  function Messages(outputs: seq<PreparedOutput>): (r: seq<BlindedMessage>)
    ensures |r| == |outputs|
  {
    seq(|outputs|, i requires 0 <= i < |outputs| => outputs[i].message)
  }

  predicate Denominated(secrets: seq<OutputSecret>, k: Keys) {
    forall i | 0 <= i < |secrets| :: secrets[i].amount in k.byAmount
  }

  function MessageTotal(outputs: seq<PreparedOutput>): nat {
    if outputs == [] then 0 else outputs[0].message.amount + MessageTotal(outputs[1..])
  }

  function SignatureTotal(sigs: seq<BlindSignature>): nat {
    if sigs == [] then 0 else sigs[0].amount + SignatureTotal(sigs[1..])
  }

  predicate SignatureOk(s: BlindSignature, o: PreparedOutput, k: Keys, d: Dhke) {
    && s.amount == o.message.amount
    && s.keysetId == o.message.keysetId
    && o.message.amount in k.byAmount
    && d.dleqOk(s, k.byAmount[o.message.amount], o.message.point)
  }

  predicate SignaturesOk(sigs: seq<BlindSignature>, outputs: seq<PreparedOutput>, k: Keys, d: Dhke) {
    |sigs| == |outputs| && forall i | 0 <= i < |sigs| :: SignatureOk(sigs[i], outputs[i], k, d)
  }

  function Unblind(s: BlindSignature, o: PreparedOutput, k: Keys, d: Dhke): Token
    requires SignatureOk(s, o, k, d)
  {
    Token(s.amount, s.keysetId, o.secret, d.unblind(s.c, o.blinding, k.byAmount[s.amount]))
  }

  function UnblindAll(sigs: seq<BlindSignature>, outputs: seq<PreparedOutput>, k: Keys, d: Dhke): (r: seq<Token>)
    requires SignaturesOk(sigs, outputs, k, d)
    ensures |r| == |sigs|
  {
    seq(|sigs|, i requires 0 <= i < |sigs| => Unblind(sigs[i], outputs[i], k, d))
  }

  /** complete_exact_signatures: every check passes for the whole batch, or nothing is returned. */
  function Complete(sigs: seq<BlindSignature>, outputs: seq<PreparedOutput>, k: Keys, d: Dhke,
                    exact: Option<seq<BlindedMessage>>): (r: Result<seq<Token>, string>)
    ensures r.Ok? ==> |r.value| == |outputs|
  {
    if |sigs| != |outputs| then Err("signature count mismatch")
    else if exact.Some? && exact.value != Messages(outputs) then Err("prepared outputs do not match opening secrets")
    else if MessageTotal(outputs) >= U64 then Err("expected output total overflow")
    else if SignatureTotal(sigs) >= U64 then Err("response signature total overflow")
    else if SignatureTotal(sigs) != MessageTotal(outputs) then Err("signature total mismatch")
    else if !SignaturesOk(sigs, outputs, k, d) then Err("invalid signature")
    else Ok(UnblindAll(sigs, outputs, k, d))
  }

  /** Funding tokens and change tokens of one opening. */
  datatype Opened = Opened(funding: seq<Token>, change: seq<Token>)

  /** complete_exact_opening_signatures: funding outputs first, then change. */
  function CompleteOpening(sigs: seq<BlindSignature>, funding: seq<OutputSecret>, change: seq<OutputSecret>, k: Keys, d: Dhke,
                           exact: Option<seq<BlindedMessage>>): (r: Result<Opened, string>)
    ensures r.Ok? ==> |r.value.funding| == |funding| && |r.value.change| == |change|
  {
    if !Denominated(funding, k) || !Denominated(change, k) then
      Err("no denomination key")
    else
      match Complete(sigs, PrepareAll(funding, k, d) + PrepareAll(change, k, d), k, d, exact)
      case Err(e) => Err(e)
      case Ok(tokens) => Ok(Opened(tokens[..|funding|], tokens[|funding|..]))
  }

  function OpeningOutputs(secrets: seq<OutputSecret>, k: Keys, d: Dhke): (r: seq<BlindedMessage>)
    ensures |r| == |secrets|
  {
    Messages(PrepareAll(secrets, k, d))
  }

  /** complete_funding_restore */
  ghost function RestoreFunding(r: RestoreResponse, funding: seq<OutputSecret>, k: Keys, d: Dhke): Result<seq<Token>, string> {
    var expected := OpeningOutputs(funding, k, d);
    match Matched(r, expected)
    case None => Err("restore does not match")
    case Some(sigs) =>
      match CompleteOpening(sigs, funding, [], k, d, Some(expected))
      case Err(e) => Err(e)
      case Ok(parts) => Ok(parts.funding)
  }

  /** complete_plain_change_restore */
  ghost function RestoreChange(r: RestoreResponse, change: seq<OutputSecret>, k: Keys, d: Dhke): Result<seq<Token>, string> {
    var expected := OpeningOutputs(change, k, d);
    match Matched(r, expected)
    case None => Err("restore does not match")
    case Some(sigs) =>
      match CompleteOpening(sigs, [], change, k, d, Some(expected))
      case Err(e) => Err(e)
      case Ok(parts) => Ok(parts.change)
  }

  /** Completing the swap reply against the outputs that were submitted. */
  function CompleteSwap(sigs: seq<BlindSignature>, funding: seq<OutputSecret>, change: seq<OutputSecret>, k: Keys, d: Dhke):
    Result<Opened, string>
  {
    CompleteOpening(sigs, funding, change, k, d, Some(OpeningOutputs(funding, k, d) + OpeningOutputs(change, k, d)))
  }

  // ------------------------------------------------------------------------
  // A completed batch is completed part by part
  // ------------------------------------------------------------------------

  lemma {:induction false} TotalsAgree(sigs: seq<BlindSignature>, outputs: seq<PreparedOutput>, k: Keys, d: Dhke)
    requires SignaturesOk(sigs, outputs, k, d)
    ensures SignatureTotal(sigs) == MessageTotal(outputs)
  {
    if sigs != [] {
      TotalsAgree(sigs[1..], outputs[1..], k, d);
    }
  }

  lemma {:induction false} MessageTotalConcat(xs: seq<PreparedOutput>, ys: seq<PreparedOutput>)
    ensures MessageTotal(xs + ys) == MessageTotal(xs) + MessageTotal(ys)
  {
    if xs == [] {
      assert xs + ys == ys;
    } else {
      assert (xs + ys)[1..] == xs[1..] + ys;
      MessageTotalConcat(xs[1..], ys);
    }
  }

  /** Completion succeeds exactly when every signature is good and the total fits 64 bits. */
  lemma CompletesIff(sigs: seq<BlindSignature>, outputs: seq<PreparedOutput>, k: Keys, d: Dhke)
    ensures Complete(sigs, outputs, k, d, Some(Messages(outputs))).Ok?
       <==> SignaturesOk(sigs, outputs, k, d) && MessageTotal(outputs) < U64
  {
    if SignaturesOk(sigs, outputs, k, d) {
      TotalsAgree(sigs, outputs, k, d);
    }
  }

  /** The output asks for a signature of this keyset on its own secret, blinded. */
  predicate Asks(o: PreparedOutput, k: Keys, d: Dhke) {
    o.message.keysetId == k.id && o.message.point == d.blind(o.secret, o.blinding)
  }

  /** An accepted signature on an output becomes a token that the mint redeems. */
  lemma UnblindedIsRedeemable(s: BlindSignature, o: PreparedOutput, k: Keys, d: Dhke, m: Signer)
    requires DhkeOk(d, m) && SignatureOk(s, o, k, d) && Asks(o, k, d)
    ensures var t := Unblind(s, o, k, d);
            Redeemable(t, k, m) && t.amount == o.message.amount && t.secret == o.secret
  {
    var key := k.byAmount[o.message.amount];
    assert s.c == m.onPoint(key, d.blind(o.secret, o.blinding));
  }

  /** Whatever completes consists of tokens that the mint redeems, each for the output it answers. */
  lemma CompletedIsRedeemable(sigs: seq<BlindSignature>, outputs: seq<PreparedOutput>, k: Keys, d: Dhke,
                              exact: Option<seq<BlindedMessage>>, m: Signer)
    requires DhkeOk(d, m) && Complete(sigs, outputs, k, d, exact).Ok?
    requires forall i | 0 <= i < |outputs| :: Asks(outputs[i], k, d)
    ensures var ts := Complete(sigs, outputs, k, d, exact).value;
            forall i | 0 <= i < |ts| ::
              Redeemable(ts[i], k, m) && ts[i].amount == outputs[i].message.amount && ts[i].secret == outputs[i].secret
  {
    var ts := Complete(sigs, outputs, k, d, exact).value;
    forall i | 0 <= i < |ts|
      ensures Redeemable(ts[i], k, m) && ts[i].amount == outputs[i].message.amount && ts[i].secret == outputs[i].secret
    {
      UnblindedIsRedeemable(sigs[i], outputs[i], k, d, m);
    }
  }

  /** Both parts of a completed opening can be spent. */
  lemma OpeningIsRedeemable(sigs: seq<BlindSignature>, funding: seq<OutputSecret>, change: seq<OutputSecret>, k: Keys, d: Dhke,
                            exact: Option<seq<BlindedMessage>>, m: Signer)
    requires DhkeOk(d, m) && CompleteOpening(sigs, funding, change, k, d, exact).Ok?
    ensures var r := CompleteOpening(sigs, funding, change, k, d, exact).value;
            Redeems(r.funding, funding, k, m) && Redeems(r.change, change, k, m)
  {
    var xs, ys := PrepareAll(funding, k, d), PrepareAll(change, k, d);
    CompletedIsRedeemable(sigs, xs + ys, k, d, exact, m);
    var ts := Complete(sigs, xs + ys, k, d, exact).value;
    hide Complete, Redeemable, DhkeOk;
    forall i | 0 <= i < |change|
      ensures Redeemable(ts[|xs| + i], k, m) && ts[|xs| + i].amount == change[i].amount && ts[|xs| + i].secret == change[i].secret
    {
      assert (xs + ys)[|xs| + i] == ys[i];
    }
    forall i | 0 <= i < |funding|
      ensures Redeemable(ts[i], k, m) && ts[i].amount == funding[i].amount && ts[i].secret == funding[i].secret
    {
      assert (xs + ys)[i] == xs[i];
    }
  }

  /** What is restored can be spent, whatever the mint restores. */
  lemma RestoredIsRedeemable(r: RestoreResponse, secrets: seq<OutputSecret>, k: Keys, d: Dhke, m: Signer)
    requires DhkeOk(d, m)
    ensures RestoreFunding(r, secrets, k, d).Ok? ==> Redeems(RestoreFunding(r, secrets, k, d).value, secrets, k, m)
    ensures RestoreChange(r, secrets, k, d).Ok? ==> Redeems(RestoreChange(r, secrets, k, d).value, secrets, k, m)
  {
    hide DhkeOk, CompleteOpening, Redeems;
    var expected := OpeningOutputs(secrets, k, d);
    if RestoreFunding(r, secrets, k, d).Ok? {
      OpeningIsRedeemable(Matched(r, expected).value, secrets, [], k, d, Some(expected), m);
    }
    if RestoreChange(r, secrets, k, d).Ok? {
      OpeningIsRedeemable(Matched(r, expected).value, [], secrets, k, d, Some(expected), m);
    }
  }

  lemma SplitSignatures(sigs: seq<BlindSignature>, xs: seq<PreparedOutput>, ys: seq<PreparedOutput>, k: Keys, d: Dhke)
    requires |sigs| == |xs| + |ys|
    ensures SignaturesOk(sigs, xs + ys, k, d) <==>
            SignaturesOk(sigs[..|xs|], xs, k, d) && SignaturesOk(sigs[|xs|..], ys, k, d)
  {
    if SignaturesOk(sigs[..|xs|], xs, k, d) && SignaturesOk(sigs[|xs|..], ys, k, d) {
      forall i | 0 <= i < |sigs| ensures SignatureOk(sigs[i], (xs + ys)[i], k, d) {
        if i < |xs| {
          assert sigs[..|xs|][i] == sigs[i];
        } else {
          assert sigs[|xs|..][i - |xs|] == sigs[i];
        }
      }
    }
    if SignaturesOk(sigs, xs + ys, k, d) {
      forall i | 0 <= i < |ys| ensures SignatureOk(sigs[|xs|..][i], ys[i], k, d) {
        assert (xs + ys)[|xs| + i] == ys[i];
      }
      forall i | 0 <= i < |xs| ensures SignatureOk(sigs[..|xs|][i], xs[i], k, d) {
        assert (xs + ys)[i] == xs[i];
      }
    }
  }

  lemma SplitTokens(sigs: seq<BlindSignature>, xs: seq<PreparedOutput>, ys: seq<PreparedOutput>, k: Keys, d: Dhke)
    requires SignaturesOk(sigs, xs + ys, k, d)
    requires SignaturesOk(sigs[..|xs|], xs, k, d) && SignaturesOk(sigs[|xs|..], ys, k, d)
    ensures UnblindAll(sigs, xs + ys, k, d)[..|xs|] == UnblindAll(sigs[..|xs|], xs, k, d)
    ensures UnblindAll(sigs, xs + ys, k, d)[|xs|..] == UnblindAll(sigs[|xs|..], ys, k, d)
  {
  }

  /** A part of an opening completes by itself. */
  ghost predicate PartOk(sigs: seq<BlindSignature>, secrets: seq<OutputSecret>, k: Keys, d: Dhke) {
    && Denominated(secrets, k)
    && SignaturesOk(sigs, PrepareAll(secrets, k, d), k, d)
    && MessageTotal(PrepareAll(secrets, k, d)) < U64
  }

  /** What completes against its own messages is the unblinded batch. */
  lemma CompletesTo(sigs: seq<BlindSignature>, outputs: seq<PreparedOutput>, k: Keys, d: Dhke)
    ensures var r := Complete(sigs, outputs, k, d, Some(Messages(outputs)));
            && (r.Ok? <==> SignaturesOk(sigs, outputs, k, d) && MessageTotal(outputs) < U64)
            && (r.Ok? ==> r.value == UnblindAll(sigs, outputs, k, d))
  {
    CompletesIff(sigs, outputs, k, d);
  }

  lemma FundingPart(sigs: seq<BlindSignature>, funding: seq<OutputSecret>, k: Keys, d: Dhke)
    ensures var r := CompleteOpening(sigs, funding, [], k, d, Some(OpeningOutputs(funding, k, d)));
            && (r.Ok? <==> PartOk(sigs, funding, k, d))
            && (r.Ok? ==> r.value.funding == UnblindAll(sigs, PrepareAll(funding, k, d), k, d))
  {
    hide Complete, SignaturesOk, UnblindAll, MessageTotal;
    var xs := PrepareAll(funding, k, d);
    CompletesTo(sigs, xs, k, d);
    assert xs + PrepareAll([], k, d) == xs;
  }

  lemma ChangePart(sigs: seq<BlindSignature>, change: seq<OutputSecret>, k: Keys, d: Dhke)
    ensures var r := CompleteOpening(sigs, [], change, k, d, Some(OpeningOutputs(change, k, d)));
            && (r.Ok? <==> PartOk(sigs, change, k, d))
            && (r.Ok? ==> r.value.change == UnblindAll(sigs, PrepareAll(change, k, d), k, d))
  {
    hide Complete, SignaturesOk, UnblindAll, MessageTotal;
    var ys := PrepareAll(change, k, d);
    CompletesTo(sigs, ys, k, d);
    assert PrepareAll([], k, d) + ys == ys;
  }

  /** The swap reply completes exactly when both parts do and the grand total fits 64 bits. */
  lemma SwapParts(sigs: seq<BlindSignature>, funding: seq<OutputSecret>, change: seq<OutputSecret>, k: Keys, d: Dhke)
    requires |sigs| == |funding| + |change|
    ensures var r := CompleteSwap(sigs, funding, change, k, d); var n := |funding|;
            && (r.Ok? <==> PartOk(sigs[..n], funding, k, d) && PartOk(sigs[n..], change, k, d)
                           && MessageTotal(PrepareAll(funding, k, d)) + MessageTotal(PrepareAll(change, k, d)) < U64)
            && (r.Ok? ==> r.value == Opened(UnblindAll(sigs[..n], PrepareAll(funding, k, d), k, d),
                                            UnblindAll(sigs[n..], PrepareAll(change, k, d), k, d)))
  {
    var xs, ys := PrepareAll(funding, k, d), PrepareAll(change, k, d);
    assert Messages(xs + ys) == Messages(xs) + Messages(ys);
    CompletesIff(sigs, xs + ys, k, d);
    SplitSignatures(sigs, xs, ys, k, d);
    MessageTotalConcat(xs, ys);
    if SignaturesOk(sigs, xs + ys, k, d) {
      SplitTokens(sigs, xs, ys, k, d);
    }
  }

  lemma FundingRestored(r: RestoreResponse, sigs: seq<BlindSignature>, funding: seq<OutputSecret>, k: Keys, d: Dhke)
    requires |sigs| == |funding| && Reorders(r, OpeningOutputs(funding, k, d), sigs)
    ensures var res := RestoreFunding(r, funding, k, d);
            && (res.Ok? <==> Distinct(OpeningOutputs(funding, k, d)) && PartOk(sigs, funding, k, d))
            && (res.Ok? ==> res.value == UnblindAll(sigs, PrepareAll(funding, k, d), k, d))
  {
    if Distinct(OpeningOutputs(funding, k, d)) {
      ReorderingIsUndone(r, OpeningOutputs(funding, k, d), sigs);
      FundingPart(sigs, funding, k, d);
    }
  }

  lemma ChangeRestored(r: RestoreResponse, sigs: seq<BlindSignature>, change: seq<OutputSecret>, k: Keys, d: Dhke)
    requires |sigs| == |change| && Reorders(r, OpeningOutputs(change, k, d), sigs)
    ensures var res := RestoreChange(r, change, k, d);
            && (res.Ok? <==> Distinct(OpeningOutputs(change, k, d)) && PartOk(sigs, change, k, d))
            && (res.Ok? ==> res.value == UnblindAll(sigs, PrepareAll(change, k, d), k, d))
  {
    if Distinct(OpeningOutputs(change, k, d)) {
      ReorderingIsUndone(r, OpeningOutputs(change, k, d), sigs);
      ChangePart(sigs, change, k, d);
    }
  }

  /**
   Whenever the swap reply completes and the mint restores those same signatures in any
   order, restoring funding and change separately gives exactly the two parts of the
   direct completion; a restore fails only if the outputs asked for were not distinct.
   Either way every token is the mint's signature on its own secret.
   */
  lemma RestoreAgreesWithSwap(sigs: seq<BlindSignature>, funding: seq<OutputSecret>, change: seq<OutputSecret>, k: Keys, d: Dhke,
                              rf: RestoreResponse, rc: RestoreResponse)
    requires |sigs| == |funding| + |change|
    requires CompleteSwap(sigs, funding, change, k, d).Ok?
    requires Reorders(rf, OpeningOutputs(funding, k, d), sigs[..|funding|])
    requires Reorders(rc, OpeningOutputs(change, k, d), sigs[|funding|..])
    ensures var direct := CompleteSwap(sigs, funding, change, k, d).value;
            var f, c := RestoreFunding(rf, funding, k, d), RestoreChange(rc, change, k, d);
            && (f.Ok? <==> Distinct(OpeningOutputs(funding, k, d)))
            && (c.Ok? <==> Distinct(OpeningOutputs(change, k, d)))
            && (f.Ok? ==> f.value == direct.funding)
            && (c.Ok? ==> c.value == direct.change)
            && (forall m | DhkeOk(d, m) :: Redeems(direct.funding, funding, k, m) && Redeems(direct.change, change, k, m))
  {
    forall m | DhkeOk(d, m)
      ensures var direct := CompleteSwap(sigs, funding, change, k, d).value;
              Redeems(direct.funding, funding, k, m) && Redeems(direct.change, change, k, m)
    {
      OpeningIsRedeemable(sigs, funding, change, k, d,
                          Some(OpeningOutputs(funding, k, d) + OpeningOutputs(change, k, d)), m);
    }
    hide DhkeOk, Redeems;
    SwapParts(sigs, funding, change, k, d);
    FundingRestored(rf, sigs[..|funding|], funding, k, d);
    ChangeRestored(rc, sigs[|funding|..], change, k, d);
  }

  /** And the other way round: if both parts restore, the swap reply itself would have completed to them. */
  lemma RestoredPartsCompleteTheSwap(sigs: seq<BlindSignature>, funding: seq<OutputSecret>, change: seq<OutputSecret>, k: Keys, d: Dhke,
                                     rf: RestoreResponse, rc: RestoreResponse)
    requires |sigs| == |funding| + |change|
    requires Reorders(rf, OpeningOutputs(funding, k, d), sigs[..|funding|])
    requires Reorders(rc, OpeningOutputs(change, k, d), sigs[|funding|..])
    requires RestoreFunding(rf, funding, k, d).Ok? && RestoreChange(rc, change, k, d).Ok?
    ensures CompleteSwap(sigs, funding, change, k, d).Ok?
       <==> MessageTotal(PrepareAll(funding, k, d)) + MessageTotal(PrepareAll(change, k, d)) < U64
    ensures var swap := CompleteSwap(sigs, funding, change, k, d);
            swap.Ok? ==> swap.value == Opened(RestoreFunding(rf, funding, k, d).value, RestoreChange(rc, change, k, d).value)
  {
    SwapParts(sigs, funding, change, k, d);
    FundingRestored(rf, sigs[..|funding|], funding, k, d);
    ChangeRestored(rc, sigs[|funding|..], change, k, d);
  }
}
