/**
 Fees of a funding swap whose inputs come from several keysets (bindings.rs), and the
 sizing of a channel from them.  The fee is the rounded-up thousandth of the summed
 per-proof rates, as the Fees section of NUT-02 prescribes.
 */
module InputFees {
  import opened Wrappers
  import opened Arith
  import opened Amounts

  /** An input proof, as far as fees are concerned. */
  datatype Input = Input(amount: nat, keysetId: string)

  /** Fee metadata for one input keyset. */
  datatype KeysetFee = KeysetFee(id: string, feePpk: nat)

  datatype FeeResult = FeeResult(inputValue: nat, inputFee: nat, postSwapValue: nat)

  /** Collecting the metadata into a map: a repeated id keeps its last rate. */
  function Rates(keysets: seq<KeysetFee>): (m: map<string, nat>)
    ensures forall id | id in m :: exists i :: 0 <= i < |keysets| && keysets[i] == KeysetFee(id, m[id])
  {
    if keysets == [] then map[]
    else
      var n := |keysets| - 1;
      Rates(keysets[..n])[keysets[n].id := keysets[n].feePpk]
  }

  function Value(inputs: seq<Input>): nat {
    if inputs == [] then 0 else inputs[0].amount + Value(inputs[1..])
  }

  function RateOf(p: Input, rates: map<string, nat>): nat {
    if p.keysetId in rates then rates[p.keysetId] else 0
  }

  function Ppk(inputs: seq<Input>, rates: map<string, nat>): nat {
    if inputs == [] then 0 else RateOf(inputs[0], rates) + Ppk(inputs[1..], rates)
  }

  function Fee(inputs: seq<Input>, rates: map<string, nat>): nat {
    CeilDiv(Ppk(inputs, rates), PPK)
  }

  predicate Known(inputs: seq<Input>, rates: map<string, nat>) {
    forall i | 0 <= i < |inputs| :: inputs[i].keysetId in rates
  }

  /** What the accumulation must report: an error exactly when metadata is missing or a total leaves 64 bits. */
  function PostSwap(inputs: seq<Input>, rates: map<string, nat>): (r: Option<FeeResult>) {
    if Known(inputs, rates) && Value(inputs) < U64 && Ppk(inputs, rates) < U64 then
      var value, fee := Value(inputs), Fee(inputs, rates);
      Some(FeeResult(value, fee, if value >= fee then value - fee else 0))
    else
      None
  }

  lemma {:induction false} TotalsConcat(xs: seq<Input>, ys: seq<Input>, rates: map<string, nat>)
    ensures Value(xs + ys) == Value(xs) + Value(ys)
    ensures Ppk(xs + ys, rates) == Ppk(xs, rates) + Ppk(ys, rates)
  {
    if xs == [] {
      assert xs + ys == ys;
    } else {
      assert (xs + ys)[1..] == xs[1..] + ys;
      TotalsConcat(xs[1..], ys, rates);
    }
  }

  lemma SnocTotals(inputs: seq<Input>, i: nat, rates: map<string, nat>)
    requires i < |inputs|
    ensures Value(inputs[..i + 1]) == Value(inputs[..i]) + inputs[i].amount <= Value(inputs)
    ensures Ppk(inputs[..i + 1], rates) == Ppk(inputs[..i], rates) + RateOf(inputs[i], rates) <= Ppk(inputs, rates)
  {
    assert inputs[..i + 1] == inputs[..i] + [inputs[i]];
    TotalsConcat(inputs[..i], [inputs[i]], rates);
    assert inputs == inputs[..i + 1] + inputs[i + 1..];
    TotalsConcat(inputs[..i + 1], inputs[i + 1..], rates);
  }

  /** The accumulation loop with its checked additions. */
  method ComputePostSwapValue(inputs: seq<Input>, keysets: seq<KeysetFee>) returns (r: Result<FeeResult, string>)
    requires forall i | 0 <= i < |inputs| :: inputs[i].amount < U64
    ensures r.Ok? <==> PostSwap(inputs, Rates(keysets)).Some?
    ensures r.Ok? ==> r.value == PostSwap(inputs, Rates(keysets)).value
  {
    var rates := Rates(keysets);
    var value, ppk := 0, 0;
    for i := 0 to |inputs|
      invariant value == Value(inputs[..i]) < U64
      invariant ppk == Ppk(inputs[..i], rates) < U64
      invariant Known(inputs[..i], rates)
    {
      SnocTotals(inputs, i, rates);
      if value + inputs[i].amount >= U64 {
        return Err("input proof value overflow");
      }
      value := value + inputs[i].amount;
      if inputs[i].keysetId !in rates {
        return Err("missing input keyset fee metadata");
      }
      if ppk + rates[inputs[i].keysetId] >= U64 {
        return Err("input fee ppk overflow");
      }
      ppk := ppk + rates[inputs[i].keysetId];
    }
    assert inputs[..|inputs|] == inputs;
    var fee := CeilDiv(ppk, PPK);
    r := Ok(FeeResult(value, fee, if value >= fee then value - fee else 0));
  }

  /** The fee is the least whole number of units that covers the summed rates, in thousandths. */
  lemma FeeCoversRates(inputs: seq<Input>, rates: map<string, nat>)
    ensures Ppk(inputs, rates) <= 1000 * Fee(inputs, rates) < Ppk(inputs, rates) + 1000
  {
    FeeCovers(Ppk(inputs, rates));
  }

  /** Inputs of one keyset, with these amounts. */
  function OfKeyset(xs: seq<nat>, id: string): seq<Input> {
    seq(|xs|, i requires 0 <= i < |xs| => Input(xs[i], id))
  }

  lemma {:induction false} OneKeysetTotals(xs: seq<nat>, id: string, rates: map<string, nat>)
    requires id in rates
    ensures Value(OfKeyset(xs, id)) == Sum(xs)
    ensures Ppk(OfKeyset(xs, id), rates) == rates[id] * |xs|
  {
    if xs != [] {
      OneKeysetTotals(xs[1..], id, rates);
      assert OfKeyset(xs, id)[1..] == OfKeyset(xs[1..], id);
      Distribute(|xs| - 1, 1, rates[id]);
    }
  }

  /** The accumulated fee and the fee a channel is computed with agree: what a swap leaves of one keyset's outputs. */
  lemma OneKeysetLeaves(xs: seq<nat>, id: string, rates: map<string, nat>)
    requires id in rates
    ensures var r := PostSwap(OfKeyset(xs, id), rates);
            && (r.Some? <==> Sum(xs) < U64 && rates[id] * |xs| < U64)
            && (r.Some? ==> r.value.postSwapValue == ValueAfterFees(xs, rates[id]))
  {
    OneKeysetTotals(xs, id, rates);
  }

  // ------------------------------------------------------------------------
  // Order does not matter; merging swaps saves at most one unit
  // ------------------------------------------------------------------------

  lemma RemoveAt(xs: seq<Input>, i: nat, rates: map<string, nat>)
    requires i < |xs|
    ensures var ys := xs[..i] + xs[i + 1..];
            Value(xs) == xs[i].amount + Value(ys) && Ppk(xs, rates) == RateOf(xs[i], rates) + Ppk(ys, rates)
  {
    assert xs == xs[..i] + ([xs[i]] + xs[i + 1..]);
    TotalsConcat(xs[..i], [xs[i]] + xs[i + 1..], rates);
    TotalsConcat([xs[i]], xs[i + 1..], rates);
    TotalsConcat(xs[..i], xs[i + 1..], rates);
  }

  lemma DropOne(xs: seq<Input>, i: nat)
    requires i < |xs|
    ensures multiset(xs[..i] + xs[i + 1..]) == multiset(xs) - multiset{xs[i]}
  {
    assert xs == xs[..i] + [xs[i]] + xs[i + 1..];
  }

  lemma DropFirst(xs: seq<Input>)
    requires xs != []
    ensures multiset(xs[1..]) == multiset(xs) - multiset{xs[0]}
  {
    assert xs == [xs[0]] + xs[1..];
  }

  lemma FoundIn(xs: seq<Input>, ys: seq<Input>) returns (i: nat)
    requires xs != [] && multiset(xs) == multiset(ys)
    ensures i < |ys| && ys[i] == xs[0]
  {
    assert xs[0] in multiset(ys);
    i :| 0 <= i < |ys| && ys[i] == xs[0];
  }

  lemma RestPermutes(xs: seq<Input>, ys: seq<Input>) returns (i: nat)
    requires xs != [] && multiset(xs) == multiset(ys)
    ensures i < |ys| && ys[i] == xs[0] && multiset(xs[1..]) == multiset(ys[..i] + ys[i + 1..])
  {
    i := FoundIn(xs, ys);
    DropFirst(xs);
    DropOne(ys, i);
  }

  lemma {:induction false} TotalsPermute(xs: seq<Input>, ys: seq<Input>, rates: map<string, nat>)
    requires multiset(xs) == multiset(ys)
    ensures Value(xs) == Value(ys) && Ppk(xs, rates) == Ppk(ys, rates)
  {
    if xs == [] {
      assert |multiset(ys)| == 0;
    } else {
      var i := RestPermutes(xs, ys);
      RemoveAt(ys, i, rates);
      TotalsPermute(xs[1..], ys[..i] + ys[i + 1..], rates);
    }
  }

  /** The outcome, error or not, is the same for every order of the proofs. */
  lemma OrderIrrelevant(xs: seq<Input>, ys: seq<Input>, rates: map<string, nat>)
    requires multiset(xs) == multiset(ys)
    ensures PostSwap(xs, rates) == PostSwap(ys, rates)
  {
    TotalsPermute(xs, ys, rates);
    KnownPermute(xs, ys, rates);
    KnownPermute(ys, xs, rates);
  }

  lemma KnownPermute(xs: seq<Input>, ys: seq<Input>, rates: map<string, nat>)
    requires multiset(xs) == multiset(ys)
    ensures Known(xs, rates) ==> Known(ys, rates)
  {
    forall i | Known(xs, rates) && 0 <= i < |ys| ensures ys[i].keysetId in rates {
      assert ys[i] in multiset(xs);
      var j :| 0 <= j < |xs| && xs[j] == ys[i];
    }
  }

  /** Swapping two lists together costs no more than separately, and at most one unit less. */
  lemma MergingSavesAtMostOne(xs: seq<Input>, ys: seq<Input>, rates: map<string, nat>)
    ensures Fee(xs + ys, rates) <= Fee(xs, rates) + Fee(ys, rates) <= Fee(xs + ys, rates) + 1
  {
    TotalsConcat(xs, ys, rates);
  }

  // ------------------------------------------------------------------------
  // Sizing a channel from the proofs
  // ------------------------------------------------------------------------

  datatype Sizing = Sizing(capacity: nat, fundingAmount: nat, change: nat)

  function SizeChannel(fees: FeeResult, unit: string, k: KeysetInfo, max: nat,
                       requestedCapacity: Option<nat>, requestedFunding: Option<nat>): (r: Result<Sizing, string>)
    requires ValidKeyset(k)
  {
    if k.unit != unit then
      Err("output keyset unit mismatch")
    else
      var funding := if requestedFunding.Some? then requestedFunding.value else fees.postSwapValue;
      if funding > fees.postSwapValue then
        Err("requested funding token amount exceeds selected post-swap value")
      else
        match Forward(funding, max, k)
        case Err(e) => Err(e)
        case Ok(v2) =>
          match Forward(v2, max, k)
          case Err(e) => Err(e)
          case Ok(maxCapacity) =>
            var capacity := if requestedCapacity.Some? then requestedCapacity.value else maxCapacity;
            if capacity > maxCapacity then
              Err("requested capacity exceeds maximum achievable capacity")
            else
              Ok(Sizing(capacity, funding, fees.postSwapValue - funding))
  }

  /** Nothing is lost in sizing: what the swap leaves is funding plus change, and when the fee fits, inputs are fee plus both. */
  lemma SizingConserves(inputs: seq<Input>, rates: map<string, nat>, unit: string, k: KeysetInfo, max: nat,
                        requestedCapacity: Option<nat>, requestedFunding: Option<nat>)
    requires ValidKeyset(k) && PostSwap(inputs, rates).Some?
    requires SizeChannel(PostSwap(inputs, rates).value, unit, k, max, requestedCapacity, requestedFunding).Ok?
    ensures var s := SizeChannel(PostSwap(inputs, rates).value, unit, k, max, requestedCapacity, requestedFunding).value;
            && s.fundingAmount + s.change == PostSwap(inputs, rates).value.postSwapValue
            && (Value(inputs) == Fee(inputs, rates) + s.fundingAmount + s.change <==> Fee(inputs, rates) <= Value(inputs))
  {
  }

  /**
   What was asked for is what is sized.  Without a request the whole value left goes into
   the channel, and its capacity is the largest that the terms of that funding allow.
   */
  lemma SizingHonours(fees: FeeResult, unit: string, k: KeysetInfo, max: nat,
                      requestedCapacity: Option<nat>, requestedFunding: Option<nat>)
    requires ValidKeyset(k) && k.feePpk <= MAX_FEE_PPK
    requires SizeChannel(fees, unit, k, max, requestedCapacity, requestedFunding).Ok?
    ensures var s := SizeChannel(fees, unit, k, max, requestedCapacity, requestedFunding).value;
            && s.fundingAmount == (if requestedFunding.Some? then requestedFunding.value else fees.postSwapValue)
            && (requestedCapacity.Some? ==> s.capacity == requestedCapacity.value)
            && ValidTerms(Terms(s.capacity, s.fundingAmount, max, k))
            && (requestedCapacity.None? ==>
                  forall capacity: nat :: ValidTerms(Terms(capacity, s.fundingAmount, max, k)) <==> capacity <= s.capacity)
  {
  }

  /** What is sized is a channel whose terms are accepted; all its balances can be committed to exactly as the keyset allows. */
  lemma SizedChannelCommitsIff(fees: FeeResult, unit: string, k: KeysetInfo, max: nat,
                               requestedCapacity: Option<nat>, requestedFunding: Option<nat>)
    requires ValidKeyset(k) && k.feePpk <= MAX_FEE_PPK
    requires SizeChannel(fees, unit, k, max, requestedCapacity, requestedFunding).Ok?
    ensures var s := SizeChannel(fees, unit, k, max, requestedCapacity, requestedFunding).value;
            var t := Terms(s.capacity, s.fundingAmount, max, k);
            && ValidTerms(t)
            && ((forall b: nat | b <= s.capacity :: ForBalance(b, t).Ok?) <==> s.capacity == 0 || HasUnit(k))
  {
    var s := SizeChannel(fees, unit, k, max, requestedCapacity, requestedFunding).value;
    EveryBalanceCommitsIff(Terms(s.capacity, s.fundingAmount, max, k));
  }
}
