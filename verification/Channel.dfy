/** The records that sender, receiver and stores exchange about one channel. */
module Channel {
  import opened Wrappers
  import Amounts

  /** Channel parameters, fixed when the channel is opened. */
  datatype Params = Params(
    sender: string,
    receiver: string,
    mint: string,
    unit: string,
    capacity: nat,
    fundingAmount: nat,
    expiry: nat,
    maxOutput: nat,
    keysetId: string)

  /** A funding proof; only its first input ever carries a witness, and none may when registered. */
  datatype Proof = Proof(amount: nat, keysetId: string, secret: string, c: string, sigs: Option<seq<string>>)

  /** Everything the receiver keeps about a funded channel. */
  datatype Funding = Funding(params: Params, proofs: seq<Proof>, secret: string, keyset: Amounts.KeysetInfo)

  /** A balance and the sender's signature over it. */
  datatype Payment = Payment(balance: nat, signature: string)

  datatype ClosingData = ClosingData(expiry: nat, payment: Payment)

  datatype ClosedData = ClosedData(
    expiry: nat,
    amount: nat,
    valueAfterStage1: nat,
    receiverSum: nat,
    senderSum: nat)

  function TermsOf(f: Funding): Amounts.Terms {
    Amounts.Terms(f.params.capacity, f.params.fundingAmount, f.params.maxOutput, f.keyset)
  }
}
