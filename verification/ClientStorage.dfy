/**
 The sender's channel storage (client_storage.rs): five maps updated together.  Store is
 the value of those maps, Step the effect and answer of each operation; the storage object
 updates its maps in place and is proved to do exactly that.
 */
module ClientStorage {
  import opened Wrappers

  /** Saved before the funding swap is submitted: all that recovery needs. */
  datatype Opening = Opening(
    params: string, channelSecret: string, keysetInfo: string, sender: string, receiver: string,
    capacity: nat, fundingAmount: nat, mint: string, unit: string,
    inputToken: string, changeSecrets: string, changeAmount: nat, createdAt: nat)

  /** Kept once the channel is open. */
  datatype Funding = Funding(
    params: string, proofs: string, channelSecret: string, keysetInfo: string, sender: string,
    capacity: nat, fundingAmount: nat, mint: string, createdAt: nat)

  datatype PaymentState = PaymentState(balance: nat, signature: string, count: nat, at: nat)

  datatype Failure = Failure(stage: string, message: string, at: nat)

  datatype Lifecycle = OpeningFromSwap | OpeningFailed | Open | Closing | Closed

  datatype Store = Store(
    opening: map<string, Opening>,
    funding: map<string, Funding>,
    payments: map<string, PaymentState>,
    states: map<string, Lifecycle>,
    failures: map<string, Failure>)

  const EMPTY := Store(map[], map[], map[], map[], map[])

  datatype Error = AlreadyExists | CorruptOpening | CorruptFunding | DifferentProofs | NotOpening

  type Answer = Option<Error>

  datatype Op =
    | SaveOpening(id: string, o: Opening)
    | SetOpen(id: string, proofs: string)
    | SetOpeningFailed(id: string, failure: Failure)
    | SavePayment(id: string, payment: PaymentState)
    | SetClosing(id: string)
    | SetClosed(id: string)
    | Delete(id: string)

  function FundingFrom(o: Opening, proofs: string): Funding {
    Funding(o.params, proofs, o.channelSecret, o.keysetInfo, o.sender, o.capacity, o.fundingAmount, o.mint, o.createdAt)
  }

  /** Only a channel in OpeningFromSwap shows its opening record. */
  function GetOpening(s: Store, id: string): Result<Option<Opening>, Error> {
    if Get(s.states, id) != Some(OpeningFromSwap) then Ok(None)
    else if id in s.opening then Ok(Some(s.opening[id]))
    else Err(CorruptOpening)
  }

  /** The new contents and the error, if any. */
  function Step(s: Store, op: Op): (Store, Answer) {
    match op
    case SaveOpening(id, o) =>
      if id !in s.states then
        (s.(opening := s.opening[id := o], states := s.states[id := OpeningFromSwap]), None)
      else if (s.states[id].OpeningFromSwap? || s.states[id].OpeningFailed?) && Get(s.opening, id) == Some(o) then
        (s.(failures := s.failures - {id}, states := s.states[id := OpeningFromSwap]), None)
      else
        (s, Some(AlreadyExists))
    case SetOpen(id, proofs) =>
      if id !in s.states || s.states[id].OpeningFailed? then
        (s, Some(NotOpening))
      else if s.states[id].OpeningFromSwap? then
        if id !in s.opening then (s, Some(CorruptOpening))
        else (s.(funding := s.funding[id := FundingFrom(s.opening[id], proofs)],
                 opening := s.opening - {id},
                 failures := s.failures - {id},
                 states := s.states[id := Open]), None)
      else if id !in s.funding then (s, Some(CorruptFunding))
      else if s.funding[id].proofs == proofs then (s, None)
      else (s, Some(DifferentProofs))
    case SetOpeningFailed(id, failure) =>
      if id !in s.opening then (s, Some(NotOpening))
      else (s.(failures := s.failures[id := failure], states := s.states[id := OpeningFailed]), None)
    case SavePayment(id, payment) => (s.(payments := s.payments[id := payment]), None)
    case SetClosing(id) => (s.(states := s.states[id := Closing]), None)
    case SetClosed(id) => (s.(states := s.states[id := Closed]), None)
    case Delete(id) =>
      (Store(s.opening - {id}, s.funding - {id}, s.payments - {id}, s.states - {id}, s.failures - {id}), None)
  }

  class MemoryClientStorage {
    var opening: map<string, Opening>
    var funding: map<string, Funding>
    var payments: map<string, PaymentState>
    var states: map<string, Lifecycle>
    var failures: map<string, Failure>

    ghost function View(): Store
      reads this
    {
      Store(opening, funding, payments, states, failures)
    }

    constructor ()
      ensures View() == EMPTY
    {
      opening, funding, payments, states, failures := map[], map[], map[], map[], map[];
    }

    method SaveOpeningFromSwap(id: string, o: Opening) returns (err: Answer)
      modifies this
      ensures (View(), err) == Step(old(View()), SaveOpening(id, o))
    {
      if id !in states {
        opening := opening[id := o];
        states := states[id := OpeningFromSwap];
        return None;
      }
      if states[id] in {OpeningFromSwap, OpeningFailed} && id in opening && opening[id] == o {
        failures := failures - {id};
        states := states[id := OpeningFromSwap];
        return None;
      }
      err := Some(AlreadyExists);
    }

    method SetOpen(id: string, proofs: string) returns (err: Answer)
      modifies this
      ensures (View(), err) == Step(old(View()), Op.SetOpen(id, proofs))
    {
      if id in states && states[id] == OpeningFromSwap {
        if id !in opening {
          return Some(CorruptOpening);
        }
        funding := funding[id := FundingFrom(opening[id], proofs)];
        opening := opening - {id};
        failures := failures - {id};
        states := states[id := Open];
        return None;
      }
      if id in states && states[id] in {Open, Closing, Closed} {
        if id !in funding {
          return Some(CorruptFunding);
        }
        return if funding[id].proofs == proofs then None else Some(DifferentProofs);
      }
      err := Some(NotOpening);
    }

    method SetOpeningFailed(id: string, failure: Failure) returns (err: Answer)
      modifies this
      ensures (View(), err) == Step(old(View()), Op.SetOpeningFailed(id, failure))
    {
      if id !in opening {
        return Some(NotOpening);
      }
      failures := failures[id := failure];
      states := states[id := OpeningFailed];
      err := None;
    }

    method GetOpeningFromSwap(id: string) returns (r: Result<Option<Opening>, Error>)
      ensures r == GetOpening(View(), id)
    {
      if id !in states || states[id] != OpeningFromSwap {
        return Ok(None);
      }
      r := if id in opening then Ok(Some(opening[id])) else Err(CorruptOpening);
    }

    method Delete(id: string)
      modifies this
      ensures View() == Step(old(View()), Op.Delete(id)).0
    {
      opening, funding, payments := opening - {id}, funding - {id}, payments - {id};
      failures, states := failures - {id}, states - {id};
    }
  }

  // ------------------------------------------------------------------------
  // What holds over every sequence of operations
  // ------------------------------------------------------------------------

  /** The five maps are consistent about one channel. */
  ghost predicate ConsistentAt(s: Store, id: string) {
    && !(id in s.opening && id in s.funding)
    && (id in s.failures ==> id in s.opening)
    && (id in s.opening || id in s.funding ==> id in s.states)
    && (id in s.states && s.states[id].OpeningFromSwap? ==> id in s.opening)
    && (id in s.states && s.states[id].OpeningFailed? ==> id in s.opening && id in s.failures)
    && (id in s.states && s.states[id].Open? ==> id in s.funding)
  }

  ghost predicate Consistent(s: Store) {
    forall id: string :: ConsistentAt(s, id)
  }

  lemma StepConsistent(s: Store, op: Op)
    requires Consistent(s)
    ensures Consistent(Step(s, op).0)
  {
    forall id: string ensures ConsistentAt(Step(s, op).0, id) {
      assert ConsistentAt(s, id);
    }
  }

  function Run(s: Store, ops: seq<Op>): Store
    decreases |ops|
  {
    if ops == [] then s else Run(Step(s, ops[0]).0, ops[1..])
  }

  /** Every reachable store is consistent. */
  lemma {:induction false} RunConsistent(s: Store, ops: seq<Op>)
    requires Consistent(s)
    ensures Consistent(Run(s, ops))
    decreases |ops|
  {
    if ops != [] {
      StepConsistent(s, ops[0]);
      RunConsistent(Step(s, ops[0]).0, ops[1..]);
    }
  }

  /** Funding once stored never changes before the channel is deleted. */
  lemma {:induction false} FundingIsImmutable(s: Store, ops: seq<Op>, id: string)
    requires Consistent(s) && id in s.funding
    requires forall i | 0 <= i < |ops| :: ops[i] != Delete(id)
    ensures Get(Run(s, ops).funding, id) == Some(s.funding[id])
    decreases |ops|
  {
    if ops != [] {
      assert ConsistentAt(s, id);
      StepConsistent(s, ops[0]);
      FundingIsImmutable(Step(s, ops[0]).0, ops[1..], id);
    }
  }

  /** Reopening a completed channel changes nothing, and succeeds exactly with the proofs it was completed with. */
  lemma ReopenIffSameProofs(s: Store, id: string, proofs: string)
    requires Consistent(s) && id in s.funding
    ensures Step(s, SetOpen(id, proofs)).0 == s
    ensures Step(s, SetOpen(id, proofs)).1 == None <==> s.funding[id].proofs == proofs
  {
    assert ConsistentAt(s, id);
  }

  /** The corrupt-opening error cannot occur; the corrupt-funding error occurs exactly where a channel without
      funding was marked closing or closed. */
  lemma CorruptIff(s: Store, id: string, proofs: string)
    requires Consistent(s)
    ensures GetOpening(s, id).Ok?
    ensures Step(s, SetOpen(id, proofs)).1 != Some(CorruptOpening)
    ensures Step(s, SetOpen(id, proofs)).1 == Some(CorruptFunding)
       <==> id in s.states && (s.states[id].Closing? || s.states[id].Closed?) && id !in s.funding
  {
    assert ConsistentAt(s, id);
  }
}
