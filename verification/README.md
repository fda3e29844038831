# Spilman channels over ecash: a verified model

A Spilman channel lets a sender pay a receiver many times out of one ecash funding token.
Each payment is a cumulative balance with the sender's signature over the swap that would
pay it out.  The receiver meters usage, refuses a balance below the amount due, and closes
by submitting the latest signed swap to the mint.  This project models the protocol core of
`crates/cdk-spilman` and the receiver kit in `integration-kits/go`, and proves what the two
parties rely on over every run.

## How it is organised

| file | models |
|---|---|
| `Amounts.dfy` | denominations, fees, the inverse fee search, commitments, minimum funding |
| `InputFees.dfy` | fees of mixed-keyset inputs and the sizing of a channel from proofs |
| `Pricing.dfy` | metered usage and the amount due, in wrapping 64-bit arithmetic |
| `Channel.dfy`, `Stores.dfy` | channel records; the in-memory store as an object over plain maps |
| `SqliteStores.dfy`, `FundingCache.dfy` | the SQLite store with its cache, alone and under interleaving |
| `Restore.dfy`, `Completion.dfy` | matching a restore reply; completing an opening directly or by restore |
| `CloseRequest.dfy`, `CloseCompletion.dfy` | preparing, authenticating and completing a close swap |
| `Receiver.dfy`, `Host.dfy` | the receiver's decisions, and the bridge object that carries them out |
| `Lifecycle.dfy` | what the receiver's store operations may do, and that either store will do |
| `CloseProtocol.dfy`, `Settlement.dfy` | every run of receiver, close executions and mint; the results about them |
| `MintOutcome.dfy`, `CloseRun.dfy` | what a mint answers; one close execution, with its retry, as a run of the protocol |
| `Witnesses.dfy` | concrete runs on both sides of the conditions found |
| `Payments.dfy` | the sender's signing, against the receiver's checks |
| `ClientStorage.dfy`, `OpenProtocol.dfy` | the sender's storage; opening a channel with a stop possible anywhere |
| `KeysetRetry.dfy`, `OpenRun.dfy` | one submission and at most one retry; one opening call as a run of the protocol |

Cryptography is a record of arbitrary functions handed in as a parameter.  What is assumed
of it is stated where it is needed: a signature verifies under the key that made it, a
derived receiver output is locked to the receiver (`CryptoOk`), reading a signature yields a
canonical text (`ParserOk`), and what a mint signs blindly unblinds to its signature on the
secret (`DhkeOk`).  That the sender signed a balance is stated for every set of signed
digests outside which no signature verifies (`Unforgeable`).  JSON is taken as identity, the clock and the caches
are inputs of each step, the mint is an adversary that executes or rejects swaps at any
time and spends a funding at most once.

## What the proofs found about the code

- The bridge trims trailing slashes from the mint URL when it rebuilds parameters but not
  in the prepared close.  A channel whose stored mint URL ends in a slash can be funded,
  paid and moved to Closing, but the bridge then rejects its own prepared close, both on
  verification and on completion (`PreparedCloseAcceptedIff`, `PreparedIsBoundIff`,
  `ResumeClosesIff`; `SlashDecides` is such a run beside one that closes).
- Closing data may be overwritten while a channel is Closing.  A swap that settles after
  that is recovered exactly when the data on file is still, in canonical form, the payment
  of every retained swap (`RecoverIff`; `OverwrittenIsNotRecovered` is a run where it is not).
- The amount due wraps silently.  It equals the exact price exactly when the total plus
  the scale minus one is below 2^64; one unit more of usage can make everything free
  (`DueExactIff`, `WrappingIsNotMonotone`).
- Behind the receiver the SQLite store can replace the in-memory store, at every point of
  every run, exactly when every balance and usage count stays below 2^63.  Its INTEGER
  columns are signed; the Go driver refuses an argument of 2^63 or more, and the store drops
  that error; a sum that reaches 2^63 becomes a floating point number and reads as zero.  As
  bare stores the two also differ when a balance arrives before its funding
  (`EitherStoreIff`, `AgreeIff`, `LargeCountDiffers`, `LargeArgumentIsDropped`,
  `UnregisteredBalanceDiffers`).
- Every balance up to the capacity can be committed to exactly when the capacity is zero or
  the keyset has a unit denomination (`EveryBalanceCommitsIff`).
- Marking a channel as open drops the change secrets, and closing a channel locally that is
  not open yet makes its executed funding unrecoverable by the recovery call
  (`OpenForgetsChange`, `RecoveryOpensIff`, `LocalCloseBlocksRecovery`).

## Model

| member | source | states |
|---|---|---|
| `Settlement.AlwaysCovered` | crates/cdk-spilman/src/bridge.rs:1229-1348 | In every reachable state every registered channel has a stored balance that its sender signed, for the swap paying exactly that balance, by any account of signatures outside which none verifies; it covers the amount due, is within capacity, and its commitment is worth at least the amount due after closing fees. |
| `Settlement.EveryBalanceWasSigned` | crates/cdk-spilman/src/balance_update.rs:132-151 | Take any set of (key, digest) pairs outside which no signature verifies. In every reachable state it holds, under the sender's key, the digest of the channel's own swap for the stored balance, for the balance on file while Closing, for every submission, and for the balance settled and recorded as closed. |
| `Settlement.ClosedIsPaid` | crates/cdk-spilman/src/bridge.rs:2559-2604 | In every reachable state a closed channel records exactly the balance of the one swap that spent its funding, a balance the sender signed and no less than the amount due; the two parties' sums are those of its commitment and add up to all that spending the funding left. |
| `Settlement.ResumeClosesIff` | crates/cdk-spilman/src/bridge.rs:2666-2771 | From any state a run can reach, a Closing channel with unspent funding, resumed from stored data with an accepting mint, becomes Closed at its closing balance if and only if its stored mint URL has no trailing slash. |
| `Settlement.ClosingCanBePrepared` | crates/cdk-spilman/src/bridge.rs:2161-2210 | Stored closing data exists, is signed by the sender, within capacity and covers what is due; preparing the close again succeeds exactly for the output keysets that can carry the funding amount. |
| `Settlement.RecoverIff` | crates/cdk-spilman/src/recovery.rs:322-405 | Recovery from any list of retained submissions containing the settled one finds it if and only if the mint URL is canonical and the closing payment on file is the canonical form of every retained payment. |
| `Settlement.RecoveryCloses` | crates/cdk-spilman/src/recovery.rs:322-405 | Such a recovery with a valid restore reply closes the channel at the settled balance, the one on file. |
| `Settlement.OverwrittenBlocksRecovery` | crates/cdk-spilman/src/recovery.rs:345-375 | A closing payment at another balance than a retained swap keeps recovery from succeeding. |
| `Settlement.CompletionClosesIff` | crates/cdk-spilman/src/bridge.rs:2559-2604 | With a valid reply, the settled swap is recorded exactly when the mint URL is canonical, and then with the sums of its balance. |
| `Settlement.SubmittedSpendsFunding` | crates/cdk-spilman/src/bridge.rs:2666-2771 | Every swap ever submitted spends all of its channel's funding proofs, pays out exactly the commitment for a balance the sender signed, that balance covers what is due, and inputs are outputs plus a fee that covers the summed rates in thousandths by less than one unit. |
| `Settlement.RetriedOnlyAfterRefusal` | crates/cdk-spilman/src/keyset_retry.rs:110-152 | In every reachable state an execution has held to the payment it read, and every submission of it but the last was refused. |
| `Settlement.RefusedNeverSettles` | crates/cdk-spilman/src/mint_outcome.rs:54-72 | A refused submission never settles its channel in any later run, so a retry cannot pay twice. |
| `CloseRun.ExecutionIsARun` | crates/cdk-spilman/src/bridge.rs:2666-2771 | One call of the close executor, with anything done by others between its calls and any reaction of the mint, is a run of the protocol, so all results about runs cover it. |
| `CloseRun.SubmissionsFollow` | crates/cdk-spilman/src/keyset_retry.rs:81-153 | The retry helper, given the close callbacks, performs the protocol steps begin, submit, and after a refusal submit again; ExecutionRetriesIff says when it does. |
| `CloseRun.ExecutionSubmitsAtMostTwice` | crates/cdk-spilman/src/bridge.rs:2666-2771 | From the helper's loop: at most two submissions, all with the balance and signature read at the beginning; the second only after a keyset rejection that permits it, for another keyset, the first being refused for good. |
| `CloseRun.ExecutionRetriesIff` | crates/cdk-spilman/src/keyset_retry.rs:123-148 | Whatever others do meanwhile, an execution submits if and only if the keyset offered is usable and can carry the funding; after a permitted refusal it submits again if and only if another such keyset is offered after the refresh, and then for that keyset. |
| `Witnesses.PreludeReachesClosing` | crates/cdk-spilman/src/bridge.rs:2052-2061 | A concrete run funds a channel and leaves it: Closing, unspent, with mint URL "m" or "m/" alike. |
| `Witnesses.SlashDecides` | crates/cdk-spilman/src/bridge.rs:2340-2553 | Continued alike, with the mint executing the swap, the run at "m" ends Closed at balance 1 and the run at "m/" stays Closing. |
| `Witnesses.OverwrittenIsNotRecovered` | crates/cdk-spilman/src/recovery.rs:345-375 | A concrete run overwrites the closing data under a submitted swap, which then settles and cannot be recovered. |
| `Witnesses.CloseIsAuthentic` | crates/cdk-spilman/src/bridge.rs:1097-1208 | A concrete prepared close passes authentication. |
| `Settlement.RefundedNeverCloses` | crates/cdk-spilman/src/bridge.rs:2559-2604 | If the sender reclaimed the funding, no later run records the channel as closed. |
| `Settlement.ClosedIsFinal` | integration-kits/go/host.go:250-264 | Closed is absorbing: record and amount due stay the same for ever. |
| `Settlement.DueIsExactIff` | integration-kits/go/host.go:104-141 | The amount due for a channel is the exact price of its recorded usage if and only if the scaled total fits 64 bits. |
| `Settlement.EitherStoreIff` | integration-kits/go/stores.go:296-453 | Over every run of the receiver the SQLite store answers as the in-memory store does, at every point, if and only if every balance and usage count stays below 2^63. |
| `Settlement.LogIsProper` | crates/cdk-spilman/src/bridge.rs:1229-1348 | The books after a run are its store operations applied in order, each respecting the lifecycle where it is applied. |
| `CloseProtocol.RunKeeps` | crates/cdk-spilman/src/bridge.rs:2666-2771 | The invariant behind these results holds over every run, and books only move forward: funding immutable, stored balance never falling, Closing never Open again and never charged again, Closed final. |
| `CloseProtocol.NextKeeps` | crates/cdk-spilman/src/bridge.rs:2666-2771 | Each step, of request, execution, mint or recovery, keeps the invariant and performs only proper store operations. |
| `CloseProtocol.CompletedRecord` | crates/cdk-spilman/src/bridge.rs:2340-2553 | Whatever reply the mint sent, a completed attempt records exactly what its balance commits to. |
| `CloseProtocol.CompletionOpsKeep` | crates/cdk-spilman/src/bridge.rs:2559-2604 | Recording a completed close keeps the invariant, also when other executions of the same channel are under way. |
| `Receiver.PayKeepsSolvent` | crates/cdk-spilman/src/bridge.rs:1229-1266 | Processing any payment request, first use included, keeps every channel covered. |
| `Receiver.RecordKeepsSolvent` | integration-kits/go/host.go:142-147 | Recording usage and balance of a validated payment keeps every channel covered, although the stored balance may stay the older, larger one. |
| `Receiver.FundKeepsSolvent` | crates/cdk-spilman/src/bridge.rs:1523-1566 | Registering a channel keeps every channel covered. |
| `Receiver.CooperativeKeepsSolvent` | crates/cdk-spilman/src/bridge.rs:2037-2152 | A cooperative close, first use included, keeps every channel covered, also when it replaces the closing data of a Closing channel. |
| `Receiver.UnilateralKeepsSolvent` | crates/cdk-spilman/src/bridge.rs:2052-2061 | A unilateral close at the stored balance keeps every channel covered. |
| `Receiver.ClosingKeepsSolvent` | integration-kits/go/host.go:162-171 | Entering Closing at a claimable balance leaves closing data that covers what is due. |
| `Receiver.DueCovers` | integration-kits/go/host.go:104-141 | Within 64 bits the amount due is the least that covers the total at the configured scale; a scale of zero prices by the unit. |
| `Host.SpilmanBridge.constructor` | integration-kits/go/host.go:33-55 | A new receiver has empty stores, so every channel is covered. |
| `Host.SpilmanBridge.GetAmountDue` | integration-kits/go/host.go:104-141 | The wrapped amount due for recorded plus pending usage; zero for an unknown channel or unpriced unit. |
| `Host.SpilmanBridge.SaveFunding` | integration-kits/go/host.go:93-102 | Inserts the funding if absent, then offers the initial balance. |
| `Host.SpilmanBridge.RecordPayment` | integration-kits/go/host.go:142-147 | Adds the usage, then offers the balance. |
| `Host.SpilmanBridge.MarkChannelClosing` | integration-kits/go/host.go:162-171 | Refused for a closed channel; otherwise offers the balance, then replaces the closing data. |
| `Host.SpilmanBridge.FundChannel` | crates/cdk-spilman/src/bridge.rs:1523-1566 | Keeps every channel covered and moves channels only forward; accepted, the channel is open and its sender signed the balance offered; refused, the stores are as before. |
| `Host.SpilmanBridge.ProcessPayment` | crates/cdk-spilman/src/bridge.rs:1229-1266 | Keeps every channel covered; accepted, usage has grown by exactly this request, and the sender signed the swap for this very balance, which covers all that is due; refused, nothing is charged and a known channel is unchanged. |
| `Host.SpilmanBridge.CooperativeClose` | crates/cdk-spilman/src/bridge.rs:2882-2898 | Keeps every channel covered; accepted, the channel is Closing with the payment on file, signed by the sender and at exactly the amount due; refused, a known channel is unchanged. |
| `Host.SpilmanBridge.UnilateralClose` | crates/cdk-spilman/src/bridge.rs:2052-2061 | Keeps every channel covered; accepted, the channel is Closing with the stored payment on file, which covers what is due; refused, the stores are as before. |
| `Host.SpilmanBridge.MarkCompletedClose` | crates/cdk-spilman/src/bridge.rs:2559-2595 | Records the close exactly when the channel is still Closing, moves it only forward, and keeps it covered when the recorded amount covers what is due. |
| `Lifecycle.ProperRunIsLater` | integration-kits/go/stores.go:100-199 | Store operations that respect the lifecycle only move channels forward, over every sequence of them. |
| `Lifecycle.PayProper` | crates/cdk-spilman/src/bridge.rs:1229-1266 | Every store operation of a payment respects the lifecycle where it is applied. |
| `Lifecycle.FundProper` | crates/cdk-spilman/src/bridge.rs:1523-1566 | Likewise for registration. |
| `Lifecycle.CooperativeProper` | crates/cdk-spilman/src/bridge.rs:2037-2152 | Likewise for a cooperative close. |
| `Lifecycle.UnilateralProper` | crates/cdk-spilman/src/bridge.rs:2052-2061 | Likewise for a unilateral close. |
| `Lifecycle.RequestsCloseNothing` | crates/cdk-spilman/src/bridge.rs:1229-1348 | Funding, paying and preparing a close never mark a channel closed. |
| `Lifecycle.AcceptedIsPaid` | crates/cdk-spilman/src/bridge.rs:1229-1348 | An accepted payment leaves the channel open, charged for exactly the request and covered by the payment, whose balance the sender signed; a refused one is not charged. |
| `Lifecycle.FundedIsAuthorised` | crates/cdk-spilman/src/bridge.rs:1523-1566 | An accepted registration, of a new channel or again of an open one, leaves it open, and the sender signed the balance offered. |
| `Lifecycle.CooperationCloses` | crates/cdk-spilman/src/bridge.rs:1783-1816 | An accepted cooperative close is at exactly the amount due, for a balance the sender signed. |
| `Lifecycle.UnilateralCloses` | crates/cdk-spilman/src/bridge.rs:2052-2061 | An accepted unilateral close is at the stored balance, which covers what is due. |
| `Lifecycle.AgreeThroughoutIff` | integration-kits/go/stores.go:296-453 | For lifecycle-respecting operations on stores that agree, the two stores stay in agreement at every point if and only if every balance and count stays below 2^63. |
| `Payments.SignsEveryBalanceIff` | crates/cdk-spilman/src/client_bridge.rs:2727-2784 | The sender can sign every balance up to the capacity if and only if the capacity is zero or the keyset has a unit denomination, and never a balance above it. |
| `Payments.SignedVerifies` | crates/cdk-spilman/src/balance_update.rs:132-151 | Round trip: what the sender signs for a balance is the digest of the swap paying it, and the receiver verifies it for that balance, in canonical form. |
| `Payments.ForgedIsRefused` | crates/cdk-spilman/src/bridge.rs:1301-1348 | On an open channel a well-formed payment within capacity is refused as InvalidSignature, with nothing changed, if and only if it is not a text that reads as a signature of the sender's key on the digest of the swap for that balance; registering the open channel again is decided by the same signature alone. |
| `Payments.ForgedCloseIsRefused` | crates/cdk-spilman/src/bridge.rs:1783-1816 | Without such a signature no cooperative close is accepted and nothing changes; at the amount due with a usable keyset the answer is InvalidSignature. |
| `Payments.ClosableUntilExpiry` | crates/cdk-spilman/src/keysets_and_amounts.rs:177-181 | A close of a known channel accepted at one time is decided alike at any later time up to the output keyset's final expiry, and refused after it. |
| `Payments.TrustedMintIff` | integration-kits/go/host.go:61-83 | A mint and keyset are acceptable if and only if the keyset is cached and active and the URL, with at most one trailing slash removed, is trusted for its unit. |
| `Payments.SignedPaymentAcceptedIff` | crates/cdk-spilman/src/bridge.rs:1301-1348 | For an open channel a payment the sender signed is accepted if and only if it covers what is due, and is otherwise refused for that reason. |
| `Payments.SignedRegistrationAcceptedIff` | crates/cdk-spilman/src/bridge.rs:1600-1731 | A sender-signed first payment registers its channel if and only if the receiver's policy, written out, accepts the funding: its key, a trusted mint with an active keyset, the unit's limits, the expiry, and proofs that carry no witness and pass the cryptographic check. |
| `Payments.SignedCloseAcceptedIff` | crates/cdk-spilman/src/bridge.rs:2037-2152 | A cooperative close the sender signed is accepted if and only if it is at the amount due, the funding is not empty, and the keyset at hand is usable and can carry it. |
| `CloseRequest.AcceptedCloseIsUnique` | crates/cdk-spilman/src/bridge.rs:1097-1208 | Two prepared closes accepted for one funding, payment and output keyset are identical but for the receiver's signature. |
| `CloseRequest.ReceiverSignatureIff` | crates/cdk-spilman/src/bridge.rs:1160-1208 | Of an accepted close the second signature can be replaced, and the close stays accepted, if and only if the new one is the receiver's on the same digest. |
| `CloseRequest.PreparedCloseAcceptedIff` | crates/cdk-spilman/src/bridge.rs:1097-1208 | A close the bridge prepared passes its own authentication against a stored payment if and only if id, unit and mint URL are canonical, the funding proof came unsigned and the stored payment is the canonical form of the one used. |
| `CloseRequest.PrepareSucceedsIff` | crates/cdk-spilman/src/bridge.rs:1783-1849 | A close can be prepared if and only if the balance is signed, the funding adds up and is not empty, and the output keyset can carry it. |
| `CloseRequest.SortCommutes` | crates/cdk-spilman/src/deterministic.rs:343-370 | Secrets sorted by amount and messages sorted by amount come in the same order, so each output meets its own secret. |
| `CloseRequest.PreparedShape` | crates/cdk-spilman/src/bridge.rs:1783-1849 | The signer's randomness decides the receiver's signature and nothing else of a prepared close. |
| `CloseRequest.PreparedIsSigned` | crates/cdk-spilman/src/balance_update.rs:132-151 | Every prepared close is of an established funding, for a balance within capacity whose swap the sender signed by any account of signatures outside which none verifies. |
| `CloseRequest.SenderSignedIff` | crates/cdk-spilman/src/balance_update.rs:132-151 | A payment's signature is accepted if and only if the balance commits and the text reads as a signature that the sender's key verifies on the digest of the channel's proofs and its commitment's outputs in request order. |
| `CloseRequest.PartyPairsDistinct` | crates/cdk-spilman/src/deterministic.rs:177-199 | No two outputs of one party share amount and index. |
| `CloseRequest.RequestOrder` | crates/cdk-spilman/src/deterministic.rs:343-366 | A request's outputs ascend by amount and are exactly a rearrangement of the two parties' outputs. |
| `CloseCompletion.SplitProofs` | crates/cdk-spilman/src/bridge.rs:1020-1091 | The splitting loop succeeds exactly when the receiver's locks are right and its sum is the nominal value, and then splits the proofs by role, keeping order, with their sums. |
| `CloseCompletion.CompletionIsExact` | crates/cdk-spilman/src/bridge.rs:961-1091 | For a request bound to its channel, completed with its own output keyset's keys, the lock and nominal checks never fail; receiver and sender sums are the commitment's, together all that stage 1 leaves, and the receiver's part is worth at least the balance. Each party's proofs are the order-keeping sublist of the reply for its outputs, with that sum, together all of the reply, and the receiver's are locked to the receiver's key of their output. |
| `CloseCompletion.CompletePreparedClose` | crates/cdk-spilman/src/bridge.rs:2340-2553 | Completion as it runs, binding check, reply, splitting loop, gives exactly the specified answer, and divides the reply between the parties as their outputs say. |
| `CloseCompletion.ClosedCanBeSpent` | crates/cdk-spilman/src/bindings.rs:1609-1619 | If blind signatures unblind as they should, every proof of a completed close is the mint's signature on its own secret under the key of its own amount, and the receiver's are locked to the receiver. |
| `CloseCompletion.SwapBalances` | crates/cdk-spilman/src/deterministic.rs:286-334 | The funding proofs of a commitment swap are its outputs plus a stage 1 fee that covers the summed rates in thousandths by less than one unit. |
| `CloseCompletion.PreparedIsBoundIff` | crates/cdk-spilman/src/bridge.rs:2340-2553 | A close the bridge prepared is accepted for completion if and only if id, mint URL and unit are canonical. |
| `CloseCompletion.CloseSecretsSplit` | crates/cdk-spilman/src/bridge.rs:1826-1849 | The outputs of a close, sorted together, still carry exactly the commitment's two sums. |
| `CloseCompletion.DerivedLocks` | crates/cdk-spilman/src/bridge.rs:1040-1060 | Every receiver output of a commitment is locked to the receiver's key for that output. |
| `Amounts.FromTarget` | crates/cdk-spilman/src/keysets_and_amounts.rs:45-105 | The subtracting loop computes the greedy split, which adds up to the target with usable denominations, or fails. |
| `Amounts.GreedyIsShortest` | crates/cdk-spilman/src/keysets_and_amounts.rs:45-105 | When each denomination divides the next larger one, no list of denominations within the maximum and with the same sum is shorter than the greedy one. |
| `Amounts.GreedyIsNotAlwaysShortest` | crates/cdk-spilman/src/keysets_and_amounts.rs:45-105 | With other denominations it need not be. |
| `Amounts.SplitConserves` | crates/cdk-spilman/src/keysets_and_amounts.rs:45-105 | Outputs plus remainder equal the target, whatever the denominations. |
| `Amounts.ForwardBounds` | crates/cdk-spilman/src/keysets_and_amounts.rs:211-218 | Value after fees lies between a thousandth of the nominal value and the nominal value, and what is taken is, in thousandths, the rate of every output rounded up by less than one unit. |
| `Amounts.FeeIsRoundedUp` | crates/cdk-spilman/src/keysets_and_amounts.rs:129-138 | Whenever the fee fits, feePpk times the number of outputs <= 1000 times the fee < that plus 1000; otherwise nothing is left. |
| `Amounts.ForwardMonotone` | crates/cdk-spilman/src/keysets_and_amounts.rs:211-218 | Of two representable amounts the larger never leaves the receiver with less, for every keyset with a fee below one unit per output. |
| `Amounts.InverseSearch` | crates/cdk-spilman/src/keysets_and_amounts.rs:226-264 | The search loop computes the inverse, and ends. |
| `Amounts.InverseIsLeast` | crates/cdk-spilman/src/keysets_and_amounts.rs:226-264 | With a fee, the inverse of a positive balance exists if and only if representable amounts lead from the balance to one that is worth it, and it is the least amount worth it, for every keyset. |
| `Amounts.InverseThreshold` | crates/cdk-spilman/src/keysets_and_amounts.rs:226-264 | What a representable amount is worth reaches a target if and only if the amount is at least the target's inverse. |
| `Amounts.CommitmentPays` | crates/cdk-spilman/src/deterministic.rs:286-334 | Any commitment's two sides add up to all that stage 1 leaves, its balance is within capacity, and the receiver's side is worth at least the balance after fees: in thousandths it covers the balance and the rate of every output. |
| `Amounts.EveryBalanceCommitsIff` | crates/cdk-spilman/src/deterministic.rs:286-334 | Every balance up to the capacity commits if and only if the capacity is zero or the keyset has a unit denomination. |
| `Amounts.MinimumFundingIsThreshold` | crates/cdk-spilman/src/params.rs:1062-1083 | Where the computed minimum exists it is the threshold: of the funding amounts from which both fees can be taken, exactly those from there on make acceptable terms; with a unit denomination it exists and all amounts are such. |
| `InputFees.ComputePostSwapValue` | crates/cdk-spilman/src/bindings.rs:171-206 | The checked accumulation yields value, fee rounded up and difference, or an error exactly when a total overflows or a rate is missing. |
| `InputFees.FeeCoversRates` | crates/cdk-spilman/src/bindings.rs:193-206 | The fee is the least whole number that covers the summed rates, in thousandths. |
| `InputFees.OneKeysetLeaves` | crates/cdk-spilman/src/bindings.rs:171-206 | What a swap leaves of inputs of one keyset is the value after fees that a channel is computed with. |
| `InputFees.OrderIrrelevant` | crates/cdk-spilman/src/bindings.rs:171-206 | The outcome, error or not, is the same for every order of the proofs. |
| `InputFees.MergingSavesAtMostOne` | crates/cdk-spilman/src/bindings.rs:171-206 | Merging two swaps never costs more than separate ones and saves at most one unit. |
| `InputFees.SizingConserves` | crates/cdk-spilman/src/bindings.rs:892-921 | What the swap leaves is funding plus change, and inputs equal fee plus funding plus change if and only if the fee fits, for every keyset. |
| `InputFees.SizingHonours` | crates/cdk-spilman/src/bindings.rs:892-921 | A requested funding and capacity are what is sized; by default everything left is funding and the capacity is the largest that its terms allow. |
| `InputFees.SizedChannelCommitsIff` | crates/cdk-spilman/src/bindings.rs:892-921 | A sized channel's terms are accepted, and all its balances can be committed to if and only if its capacity is zero or the keyset has a unit denomination. |
| `Pricing.AddUsage` | integration-kits/go/stores.go:149-160 | Adds every increment once, in whatever order the map yields them, wrapping per variable. |
| `Pricing.WrappedTotal` | integration-kits/go/host.go:127-132 | The pricing loop yields the exact total modulo 2^64, in whatever order the map yields prices. |
| `Pricing.AmountDue` | integration-kits/go/host.go:127-140 | The wrapped total, scaled and rounded up in 64 bits. |
| `Pricing.DueExactIff` | integration-kits/go/host.go:133-140 | The computed amount is the exact one if and only if total plus scale minus one is below 2^64. |
| `Pricing.PathIndependent` | integration-kits/go/host.go:104-147 | The amount due depends only on per-variable totals, not on how usage was split into requests or on their order. |
| `Pricing.DueBeforeIsDueAfter` | integration-kits/go/host.go:104-147 | The amount checked before recording a request is the amount due after recording it. |
| `Pricing.OverchargeBelowOneUnit` | integration-kits/go/host.go:133-140 | Rounding up overcharges by less than one unit in total. |
| `Pricing.ExactDueMonotone` | integration-kits/go/host.go:127-140 | The exact amount due grows with usage. |
| `Pricing.WrappingIsNotMonotone` | integration-kits/go/host.go:127-140 | The wrapped one does not: one unit more of usage can bring it to zero. |
| `Stores.MemoryStores.constructor` | integration-kits/go/stores.go:89-99 | Empty books. |
| `Stores.MemoryStores.InsertFunding` | integration-kits/go/stores.go:106-112 | Inserts if absent; everything else unchanged. |
| `Stores.MemoryStores.UpdateBalance` | integration-kits/go/stores.go:128-135 | Keeps the larger balance, except over an empty signature. |
| `Stores.MemoryStores.IncrementUsage` | integration-kits/go/stores.go:149-160 | Adds to one channel's counts. |
| `Stores.MemoryStores.MarkClosing` | integration-kits/go/stores.go:167-173 | Replaces the closing data unless closed. |
| `Stores.MemoryStores.MarkClosed` | integration-kits/go/stores.go:186-193 | Closes once and removes the closing data. |
| `SqliteStores.AgreeIff` | integration-kits/go/stores.go:296-453 | After an operation on stores that agree and whose counts are readable, they still agree about every query if and only if the operation is aligned: the channel registered, the signature not empty, every balance and count below 2^63. |
| `SqliteStores.RunsAgree` | integration-kits/go/stores.go:296-453 | Over every run of aligned operations the stores are indistinguishable. |
| `SqliteStores.UnregisteredBalanceDiffers` | integration-kits/go/stores.go:382-385 | A balance for an unregistered channel is kept by one store and dropped by the other. |
| `SqliteStores.LargeCountDiffers` | integration-kits/go/stores.go:386-406 | A count that reaches 2^63 in two steps is 2^63 in memory and reads as zero from SQLite. |
| `SqliteStores.LargeArgumentIsDropped` | integration-kits/go/stores.go:382-406 | A balance or increment of 2^63 leaves the database as it was. |
| `SqliteStores.SqliteStore.constructor` | integration-kits/go/stores.go:255-295 | An empty database and a coherent cache. |
| `SqliteStores.SqliteStore.GetFunding` | integration-kits/go/stores.go:296-325 | Answers what the database holds, from the cache or not, and keeps the cache coherent. |
| `SqliteStores.SqliteStore.InsertFunding` | integration-kits/go/stores.go:326-345 | Inserts if absent and keeps the cache coherent, also when the row was there already. |
| `SqliteStores.SqliteStore.AllFunding` | integration-kits/go/stores.go:346-371 | Lists every row and fills the cache coherently. |
| `SqliteStores.SqliteStore.IncrementUsage` | integration-kits/go/stores.go:399-406 | One upsert per variable adds up to the increment of all of them; arguments the driver refuses are skipped, and sums that outgrow the column stop being readable. |
| `SqliteStores.SqliteStore.MarkClosed` | integration-kits/go/stores.go:435-443 | Closes once and drops the cached record. |
| `FundingCache.RunKeepsCoherent` | integration-kits/go/stores.go:296-370 | With database and cache writes as separate steps of any number of threads, every cached record stays equal to its row. |
| `FundingCache.LookupsAreCurrent` | integration-kits/go/stores.go:296-325 | However calls interleave, a lookup answers what the database holds at that moment. |
| `FundingCache.LookupsAreStable` | integration-kits/go/stores.go:296-370 | Once a lookup has found a record, every later one finds the same. |
| `Restore.MatchRestoreResponse` | crates/cdk-spilman/src/bindings.rs:1481-1519 | Succeeds exactly when the expected outputs are distinct and the returned ones a rearrangement with one signature each; then each signature is at its expected index, and the omitted-output error cannot occur. |
| `Restore.ReorderingIsUndone` | crates/cdk-spilman/src/bindings.rs:1481-1519 | A reordered reply matches to the original signatures in the original order. |
| `Restore.Pigeonhole` | crates/cdk-spilman/src/bindings.rs:1504-1519 | As many distinct positions as there are leave none out. |
| `Completion.RestoreAgreesWithSwap` | crates/cdk-spilman/src/client_bridge.rs:2017-2031 | Restoring funding and change separately, from replies in any order, gives exactly the two parts of direct completion, a restore failing only for outputs that were not distinct; and if blind signatures unblind as they should, every token is the mint's signature on its own secret. |
| `Completion.RestoredPartsCompleteTheSwap` | crates/cdk-spilman/src/bindings.rs:1279-1360 | Conversely, if both restores succeed, direct completion does, with those parts, if and only if the two totals together stay below 2^64. |
| `Completion.CompletesIff` | crates/cdk-spilman/src/bindings.rs:1546-1620 | Completion succeeds exactly for one valid signature per output with totals below 2^64. |
| `Completion.CompletedIsRedeemable` | crates/cdk-spilman/src/bindings.rs:1609-1619 | If the mint's signature on a blinded secret unblinds to its signature on the secret, every completed token is the mint's signature on its own output's secret, under the key of its own amount, with its keyset id. |
| `Completion.RestoredIsRedeemable` | crates/cdk-spilman/src/client_bridge.rs:2017-2031 | Likewise for everything restored, funding or change, whatever reply the mint sends. |
| `ClientStorage.MemoryClientStorage.constructor` | crates/cdk-spilman/src/client_storage.rs:277-280 | Empty storage. |
| `ClientStorage.MemoryClientStorage.SaveOpeningFromSwap` | crates/cdk-spilman/src/client_storage.rs:291-315 | Saves a new opening, or repeats an identical one, clearing its failure; refuses anything else. |
| `ClientStorage.MemoryClientStorage.SetOpen` | crates/cdk-spilman/src/client_storage.rs:317-359 | Turns the opening into funding once; repeats only with the same proofs. |
| `ClientStorage.MemoryClientStorage.SetOpeningFailed` | crates/cdk-spilman/src/client_storage.rs:375-389 | Records a failure only for an opening. |
| `ClientStorage.MemoryClientStorage.GetOpeningFromSwap` | crates/cdk-spilman/src/client_storage.rs:361-373 | Shows an opening only in its own state, and reports a missing one as corrupt. |
| `ClientStorage.MemoryClientStorage.Delete` | crates/cdk-spilman/src/client_storage.rs:437-444 | Removes the channel from all five maps. |
| `ClientStorage.RunConsistent` | crates/cdk-spilman/src/client_storage.rs:281-444 | Over every sequence of operations a channel is in at most one of the opening and funding maps, and failures belong to openings. |
| `ClientStorage.FundingIsImmutable` | crates/cdk-spilman/src/client_storage.rs:317-359 | Funding once stored never changes before deletion. |
| `ClientStorage.ReopenIffSameProofs` | crates/cdk-spilman/src/client_storage.rs:317-359 | Opening an opened channel succeeds, changing nothing, exactly with the same proofs. |
| `ClientStorage.CorruptIff` | crates/cdk-spilman/src/client_storage.rs:317-359 | In consistent storage an opening record is never missing, and a funding record is missing exactly for a channel closed locally before it opened. |
| `OpenProtocol.RunKeeps` | crates/cdk-spilman/src/client_bridge.rs:2107-2185 | The opening invariant holds over every run with a stop possible between any two steps. |
| `OpenProtocol.ExecutedIsKept` | crates/cdk-spilman/src/client_bridge.rs:2107-2139 | If the mint executed a channel's funding swap, storage still holds its opening record or its funding record. |
| `OpenProtocol.FailedWasNeverExecuted` | crates/cdk-spilman/src/client_bridge.rs:2051-2087 | A channel marked as failed never had a submission executed. |
| `OpenProtocol.NeverSubmittedTwice` | crates/cdk-spilman/src/client_bridge.rs:2163-2185 | No swap is submitted while an earlier submission for the channel may still be executed. |
| `OpenProtocol.OpenMeansExecuted` | crates/cdk-spilman/src/client_bridge.rs:2091-2105 | Stored funding always comes from a swap the mint executed. |
| `OpenProtocol.RecoveryOpensIff` | crates/cdk-spilman/src/client_bridge.rs:2347-2590 | After any stop, recovery opens an executed channel if and only if it is still in its opening state. |
| `OpenProtocol.LocalCloseBlocksRecovery` | crates/cdk-spilman/src/client_bridge.rs:2347-2590 | For every channel the run begin, save, submit, execute, close locally exists, and recovery then does not open it. |
| `OpenProtocol.AlwaysRecoverable` | crates/cdk-spilman/src/client_bridge.rs:2347-2590 | If lifecycle calls are made on open channels only, every executed channel can be opened after any stop. |
| `OpenProtocol.OpenForgetsChange` | crates/cdk-spilman/src/client_storage.rs:317-359 | Once a channel is open, its opening record, and with it the change secrets, is gone. |
| `KeysetRetry.WithActiveKeysetRetry` | crates/cdk-spilman/src/keyset_retry.rs:81-153 | With callbacks that read and change outside state: a first submission exactly when selecting and preparing succeed; a second exactly when the first is retryable, cleanup and refresh report nothing and the new selection is another keyset that prepares, and then for that one; each other outcome by its own error; a result or submission error is the last submission's and says whether it was retried. |
| `KeysetRetry.RetriesIff` | crates/cdk-spilman/src/keyset_retry.rs:110-152 | The same of the specification: the helper tries again whenever it may, and not otherwise. |
| `OpenRun.ClientBridge.constructor` | crates/cdk-spilman/src/client_bridge.rs:868-876 | A bridge over the given storage. |
| `OpenRun.ClientBridge.OpenNetworkError` | crates/cdk-spilman/src/client_bridge.rs:2141-2160 | Marks a channel failed only on a permitted keyset rejection, and classifies the error. |
| `OpenRun.ClientBridge.SubmitPreparedOpen` | crates/cdk-spilman/src/client_bridge.rs:2107-2139 | One opening call does to storage what the protocol's steps do, and answers accordingly. |
| `OpenRun.SubmissionIsARun` | crates/cdk-spilman/src/client_bridge.rs:2107-2139 | One opening call is a run of the opening protocol, so all its guarantees apply. |
| `OpenRun.SubmissionIsHonest` | crates/cdk-spilman/src/client_bridge.rs:521-555 | An opening call that says the input cannot have been spent had no swap executed. |
| `OpenRun.HonestMintOpens` | crates/cdk-spilman/src/client_bridge.rs:2107-2139 | A mint that executes the swap, signs every output and restores the signatures in any order gets the channel opened if and only if the funding outputs were distinct: the restore check never refuses what completion produced. |
| `OpenRun.OpenedCanBeSpent` | crates/cdk-spilman/src/client_bridge.rs:2107-2139 | The channel so opened stores funding proofs that the mint redeems, one for each funding output, and so for the change. |
| `OpenRun.AutoIsHonest` | crates/cdk-spilman/src/client_bridge.rs:1238-1292 | The automatic opener, with its callbacks over one storage: an error that calls the inputs unspent means the mint executed neither submission, and a retry is only made, for another keyset, after one that was not executed. |
| `OpenRun.AutoRetriesIff` | crates/cdk-spilman/src/client_bridge.rs:1238-1292 | An automatic opening submits again if and only if the first answer is retryable, the refresh works, another keyset is then selected and an opening can be prepared for it; what is submitted is that opening. |
| `OpenRun.AutoKeepsExecuted` | crates/cdk-spilman/src/client_bridge.rs:1238-1292 | An automatic opening started after any run is itself a run of the opening protocol, so whatever the mint executed in it, first submission or retry, is still held by storage. |

## Left out

- Rerandomized commitment mode: only the ordinary mode is modelled.
- JSON, hex and base64 decoding and their missing-field errors, HTTP, language bindings, routers and the async duplicates of the same flows.
- Real cryptography: derivation, blinding, hashing and signing are arbitrary functions; that signatures cannot be forged and that blind signatures unblind are assumptions of the results that say so.
- The witness the bridge adds to each receiver proof after completion: the model ends with the proofs and the keys they are locked to.
- Receiver keys are compared as values, not as case-insensitive hexadecimal text.
- Interleaving inside one payment request, and between preparing a close and marking it Closing: the code holds no lock there, and the model takes each as one step.
- The request handler that records usage after the work without validating it again: it is outside the solvency result.
- Whether a mint accepts the swap for a rotated output keyset: the mint may execute or reject any submitted swap.
- Choice among several usable keysets: preparing a close allows any keyset the cache and clock permit, and submitting one any keyset of the channel's unit.
- Sender refunds and the sender's own recovery of funds: a refund appears only as a spend of the funding.
- Overflow of 64-bit sums of commitment amounts and of expiry arithmetic; usage, prices and input fees are modelled with their width.
- The proof texts kept in a closed record: sums, balance and expiry are modelled.
- SQLite errors other than those for numbers of 2^63 or more; each single-statement operation is its effect on the tables.
- SQLite client storage, keyset discovery and keyset caches of the client: shallow beside what is modelled.
- GreedyIsShortest: one direction only; which denomination sets make greedy optimal in general is not characterised.
