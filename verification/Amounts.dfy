/**
 Denominations, fees and commitments (keysets_and_amounts.rs, deterministic.rs).

 A channel's value is always carried by outputs whose amounts are keyset denominations,
 chosen largest first.  Spending outputs costs a fee per output, so "what must be
 allocated so that the receiver ends up with at least b" is a search.  The main result is
 that this search always succeeds within the channel's funds for every balance up to the
 capacity, exactly when the keyset has a denomination of one unit.
 */
module Amounts {
  import opened Wrappers
  import opened Arith

  const PPK: nat := 1000
  const MAX_FEE_PPK: nat := 999

  /** A mint keyset: its keys by amount, its denominations (largest first) and its fee per thousand inputs. */
  datatype KeysetInfo = KeysetInfo(
    id: string, unit: string, keys: map<nat, string>, amounts: seq<nat>, feePpk: nat, finalExpiry: Option<nat>)

  /** A keyset as built from a map of amount to key: distinct amounts, sorted, none zero. */
  predicate ValidKeyset(k: KeysetInfo) {
    && (forall i | 0 <= i < |k.amounts| :: k.amounts[i] > 0)
    && (forall i, j | 0 <= i < j < |k.amounts| :: k.amounts[i] > k.amounts[j])
  }

  function Sum(xs: seq<nat>): nat {
    if xs == [] then 0 else xs[0] + Sum(xs[1..])
  }

  lemma {:induction false} SumConcat(xs: seq<nat>, ys: seq<nat>)
    ensures Sum(xs + ys) == Sum(xs) + Sum(ys)
  {
    if xs == [] {
      assert xs + ys == ys;
    } else {
      assert (xs + ys)[1..] == xs[1..] + ys;
      SumConcat(xs[1..], ys);
    }
  }

  function Repeat(a: nat, n: nat): seq<nat> {
    if n == 0 then [] else [a] + Repeat(a, n - 1)
  }

  lemma {:induction false} RepeatFacts(a: nat, n: nat)
    ensures |Repeat(a, n)| == n && Sum(Repeat(a, n)) == n * a
    ensures forall x | x in Repeat(a, n) :: x == a
  {
    if n != 0 {
      RepeatFacts(a, n - 1);
      assert Repeat(a, n)[1..] == Repeat(a, n - 1);
    }
  }

  // ------------------------------------------------------------------------
  // Largest-first splitting
  // ------------------------------------------------------------------------

  /** A maximum of zero means that no denomination is excluded. */
  predicate Usable(a: nat, max: nat) {
    max == 0 || a <= max
  }

  predicate Positive(amounts: seq<nat>) {
    forall i | 0 <= i < |amounts| :: amounts[i] > 0
  }

  /** The outputs taken largest first, and what could not be represented. */
  function Split(target: nat, max: nat, amounts: seq<nat>): (r: (seq<nat>, nat))
    requires Positive(amounts)
    decreases |amounts|
  {
    if amounts == [] then
      ([], target)
    else if !Usable(amounts[0], max) then
      Split(target, max, amounts[1..])
    else
      var rest := Split(target % amounts[0], max, amounts[1..]);
      (Repeat(amounts[0], target / amounts[0]) + rest.0, rest.1)
  }

  /** Putting the copies of one denomination in front of the rest. */
  lemma TakenConserves(n: nat, a: nat, rest: seq<nat>)
    ensures Sum(Repeat(a, n) + rest) == n * a + Sum(rest)
    ensures forall x | x in Repeat(a, n) + rest :: x == a || x in rest
  {
    RepeatFacts(a, n);
    SumConcat(Repeat(a, n), rest);
  }

  /** Every output is a usable denomination, and nothing is created or lost by splitting. */
  lemma {:induction false} SplitConserves(target: nat, max: nat, amounts: seq<nat>)
    requires Positive(amounts)
    ensures var r := Split(target, max, amounts); Sum(r.0) + r.1 == target
    ensures forall x | x in Split(target, max, amounts).0 :: x in amounts && Usable(x, max)
    decreases |amounts|
  {
    if amounts != [] {
      var a := amounts[0];
      if !Usable(a, max) {
        SplitConserves(target, max, amounts[1..]);
      } else {
        SplitConserves(target % a, max, amounts[1..]);
        TakenConserves(target / a, a, Split(target % a, max, amounts[1..]).0);
        hide Sum, Repeat;
        DivideAgain(target, a);
      }
    }
  }

  /** With a unit denomination every target is representable. */
  lemma {:induction false} SplitTotal(target: nat, max: nat, amounts: seq<nat>)
    requires Positive(amounts) && 1 in amounts
    ensures Split(target, max, amounts).1 == 0
    decreases |amounts|
  {
    var a := amounts[0];
    if !Usable(a, max) {
      SplitTotal(target, max, amounts[1..]);
    } else if a == 1 {
      SplitConserves(0, max, amounts[1..]);
    } else {
      SplitTotal(target % a, max, amounts[1..]);
    }
  }

  /** Without one, a target of one unit is not representable. */
  lemma SplitOneNeedsUnit(max: nat, amounts: seq<nat>)
    requires Positive(amounts)
    ensures Split(1, max, amounts).1 == 0 <==> 1 in amounts
  {
    if 1 in amounts {
      SplitTotal(1, max, amounts);
    } else {
      var r := Split(1, max, amounts);
      SplitConserves(1, max, amounts);
      if r.1 == 0 {
        assert false;
      }
    }
  }

  lemma {:induction false} LengthBound(xs: seq<nat>)
    requires Positive(xs)
    ensures |xs| <= Sum(xs)
  {
    if xs != [] {
      LengthBound(xs[1..]);
    }
  }

  function Expand(counts: seq<(nat, nat)>): seq<nat> {
    if counts == [] then [] else Repeat(counts[0].0, counts[0].1) + Expand(counts[1..])
  }

  lemma {:induction false} ExpandAppend(counts: seq<(nat, nat)>, c: (nat, nat))
    ensures Expand(counts + [c]) == Expand(counts) + Repeat(c.0, c.1)
  {
    if counts == [] {
      assert counts + [c] == [c];
      assert Expand([c]) == Repeat(c.0, c.1) + Expand([]);
    } else {
      assert (counts + [c])[1..] == counts[1..] + [c];
      ExpandAppend(counts[1..], c);
    }
  }

  /** The result of splitting as the source reports it. */
  function Denominate(target: nat, max: nat, k: KeysetInfo): (r: Result<seq<nat>, string>)
    requires ValidKeyset(k)
  {
    var s := Split(target, max, k.amounts);
    if s.1 == 0 then Ok(s.0) else Err("cannot represent target")
  }

  lemma DenominateConserves(target: nat, max: nat, k: KeysetInfo)
    requires ValidKeyset(k) && Denominate(target, max, k).Ok?
    ensures var xs := Denominate(target, max, k).value;
            Sum(xs) == target && forall x | x in xs :: x in k.amounts && Usable(x, max)
  {
    SplitConserves(target, max, k.amounts);
  }

  /** One denomination of the greedy loop: subtract while it fits, counting. */
  method TakeWhileFits(remaining: nat, amount: nat) returns (left: nat, count: nat)
    requires amount > 0
    ensures left < amount && remaining == count * amount + left
  {
    left, count := remaining, 0;
    while left >= amount
      invariant remaining == count * amount + left
    {
      left := left - amount;
      count := count + 1;
    }
  }

  lemma ExpandNone()
    ensures Expand([]) == []
  {
  }

  /** Recording a count, or leaving out a zero one, in front of what is still to come. */
  lemma AppendStep(counts: seq<(nat, nat)>, amount: nat, count: nat, tail: seq<nat>)
    ensures Expand(counts) + (Repeat(amount, count) + tail)
         == Expand(if count > 0 then counts + [(amount, count)] else counts) + tail
  {
    ExpandAppend(counts, (amount, count));
    assert Expand(counts) + (Repeat(amount, count) + tail) == (Expand(counts) + Repeat(amount, count)) + tail;
    assert Expand(counts) + [] == Expand(counts);
  }

  lemma TakeStep(target: nat, count: nat, left: nat, max: nat, amounts: seq<nat>)
    requires Positive(amounts) && amounts != [] && Usable(amounts[0], max)
    requires target == count * amounts[0] + left && left < amounts[0]
    ensures var rest := Split(left, max, amounts[1..]);
            Split(target, max, amounts) == (Repeat(amounts[0], count) + rest.0, rest.1)
  {
    QuotientUnique(target, amounts[0], count, left);
  }

  /** The greedy algorithm as it runs: repeated subtraction per denomination, then expansion of the counts. */
  method FromTarget(target: nat, max: nat, k: KeysetInfo) returns (r: Result<seq<nat>, string>)
    requires ValidKeyset(k)
    ensures r == Denominate(target, max, k)
    ensures r.Ok? ==> Sum(r.value) == target && forall x | x in r.value :: x in k.amounts && Usable(x, max)
  {
    hide Sum, Repeat, Expand;
    ghost var whole := Split(target, max, k.amounts);
    var counts: seq<(nat, nat)> := [];
    var remaining := target;
    ExpandNone();
    for i := 0 to |k.amounts|
      invariant whole.0 == Expand(counts) + Split(remaining, max, k.amounts[i..]).0
      invariant whole.1 == Split(remaining, max, k.amounts[i..]).1
    {
      var amount := k.amounts[i];
      ghost var rest := k.amounts[i..];
      assert rest[0] == amount && rest[1..] == k.amounts[i + 1..];
      if max > 0 && amount > max {
        continue;
      }
      var left, count := TakeWhileFits(remaining, amount);
      TakeStep(remaining, count, left, max, rest);
      AppendStep(counts, amount, count, Split(left, max, rest[1..]).0);
      if count > 0 {
        counts := counts + [(amount, count)];
      }
      remaining := left;
    }
    if remaining != 0 {
      return Err("cannot represent target");
    }
    var amounts: seq<nat> := ExpandAll(counts);
    assert Expand(counts) + [] == Expand(counts);
    r := Ok(amounts);
    DenominateConserves(target, max, k);
  }

  /** Building the list of amounts from the counts, one output at a time. */
  method ExpandAll(counts: seq<(nat, nat)>) returns (amounts: seq<nat>)
    ensures amounts == Expand(counts)
  {
    amounts := [];
    for i := 0 to |counts|
      invariant amounts == Expand(counts[..i])
    {
      for c := 0 to counts[i].1
        invariant amounts == Expand(counts[..i]) + Repeat(counts[i].0, c)
      {
        RepeatSnoc(counts[i].0, c);
        amounts := amounts + [counts[i].0];
      }
      ExpandAppend(counts[..i], counts[i]);
      assert counts[..i + 1] == counts[..i] + [counts[i]];
    }
    assert counts[..|counts|] == counts;
  }

  lemma {:induction false} RepeatSnoc(a: nat, n: nat)
    ensures Repeat(a, n + 1) == Repeat(a, n) + [a]
  {
    if n != 0 {
      RepeatSnoc(a, n - 1);
    }
  }

  // ------------------------------------------------------------------------
  // The split uses as few outputs as possible when denominations divide each other
  // ------------------------------------------------------------------------

  /** Each denomination is a multiple of the next smaller one (powers of two, for example). */
  predicate Chain(amounts: seq<nat>) {
    && Positive(amounts)
    && (forall i | 0 <= i < |amounts| - 1 :: amounts[i] % amounts[i + 1] == 0)
  }

  /** Splitting t below a denomination a costs at least t / a outputs more than splitting t % a. */
  lemma BelowCosts(t: nat, a: nat, max: nat, amounts: seq<nat>)
    requires Chain(amounts) && amounts != [] && a > 0 && a % amounts[0] == 0
    requires forall i | 0 <= i < |amounts| :: Usable(amounts[i], max)
    ensures |Split(t, max, amounts).0| >= t / a + |Split(t % a, max, amounts).0|
  {
    var b, m, r := amounts[0], t / a, t % a;
    assert t == m * a + r;
    DivideMultiple(m, a, b, r);
    RepeatFacts(b, t / b);
    RepeatFacts(b, r / b);
  }

  function Count(xs: seq<nat>, a: nat): nat {
    if xs == [] then 0 else (if xs[0] == a then 1 else 0) + Count(xs[1..], a)
  }

  lemma {:induction false} CountSnoc(xs: seq<nat>, x: nat, a: nat)
    ensures Count(xs + [x], a) == Count(xs, a) + if x == a then 1 else 0
  {
    if xs == [] {
      assert xs + [x] == [x];
    } else {
      assert (xs + [x])[1..] == xs[1..] + [x];
      CountSnoc(xs[1..], x, a);
    }
  }

  /** Counting further finds no fewer. */
  lemma {:induction false} CountGrows(xs: seq<nat>, i: nat, j: nat, a: nat)
    requires i <= j <= |xs|
    ensures Count(xs[..i], a) <= Count(xs[..j], a)
    decreases j
  {
    if i < j {
      CountGrows(xs, i, j - 1, a);
      assert xs[..j] == xs[..j - 1] + [xs[j - 1]];
      CountSnoc(xs[..j - 1], xs[j - 1], a);
    }
  }

  function Without(xs: seq<nat>, a: nat): seq<nat> {
    if xs == [] then [] else (if xs[0] == a then [] else [xs[0]]) + Without(xs[1..], a)
  }

  lemma {:induction false} WithoutFacts(xs: seq<nat>, a: nat)
    ensures |xs| == Count(xs, a) + |Without(xs, a)|
    ensures Sum(xs) == Count(xs, a) * a + Sum(Without(xs, a))
    ensures forall x | x in Without(xs, a) :: x in xs && x != a
  {
    if xs != [] {
      WithoutFacts(xs[1..], a);
      if xs[0] == a {
        Distribute(1, Count(xs[1..], a), a);
        assert Without(xs, a) == Without(xs[1..], a);
      } else {
        assert Without(xs, a)[1..] == Without(xs[1..], a);
      }
    }
  }

  /** How many outputs the greedy split takes, one denomination at a time. */
  lemma GreedyHead(total: nat, max: nat, amounts: seq<nat>)
    requires Positive(amounts) && amounts != [] && Usable(amounts[0], max)
    ensures |Split(total, max, amounts).0| == total / amounts[0] + |Split(total % amounts[0], max, amounts[1..]).0|
  {
    RepeatFacts(amounts[0], total / amounts[0]);
  }

  /** Taking k copies of the largest denomination and splitting t below it is no better than greedy. */
  lemma GreedyStep(total: nat, k: nat, t: nat, max: nat, amounts: seq<nat>)
    requires Chain(amounts) && amounts != []
    requires forall i | 0 <= i < |amounts| :: Usable(amounts[i], max)
    requires |amounts| == 1 ==> t == 0
    requires total == k * amounts[0] + t
    ensures |Split(total, max, amounts).0| <= k + |Split(t, max, amounts[1..]).0|
  {
    var a := amounts[0];
    AddMultiple(k, t, a);
    GreedyHead(total, max, amounts);
    if |amounts| > 1 {
      assert a % amounts[1] == 0 && Chain(amounts[1..]);
      BelowCosts(t, a, max, amounts[1..]);
    }
  }

  lemma NonEmptyHasMember(xs: seq<nat>)
    requires xs != []
    ensures exists x :: x in xs
  {
    assert xs[0] in xs;
  }

  /** In a chain of denominations the first is the largest. */
  lemma {:induction false} ChainDescends(amounts: seq<nat>, i: nat)
    requires Chain(amounts) && i < |amounts|
    ensures amounts[i] <= amounts[0]
  {
    if i > 0 {
      ChainDescends(amounts, i - 1);
      ExactQuotient(amounts[i - 1], amounts[i]);
      MulMono(1, amounts[i - 1] / amounts[i], amounts[i]);
    }
  }

  /** No list of usable denominations reaching the target is shorter than the greedy one. */
  lemma {:induction false} GreedyIsShortest(ys: seq<nat>, max: nat, amounts: seq<nat>)
    requires Chain(amounts)
    requires forall y | y in ys :: y in amounts && Usable(y, max)
    ensures |ys| >= |Split(Sum(ys), max, amounts).0|
    decreases |amounts|
  {
    if amounts == [] {
    } else if !Usable(amounts[0], max) {
      GreedyIsShortest(ys, max, amounts[1..]);
    } else {
      var zs := Without(ys, amounts[0]);
      WithoutFacts(ys, amounts[0]);
      GreedyIsShortest(zs, max, amounts[1..]);
      if |amounts| == 1 && zs != [] {
        NonEmptyHasMember(zs);
      }
      forall i | 0 <= i < |amounts| ensures Usable(amounts[i], max) {
        ChainDescends(amounts, i);
      }
      GreedyStep(Sum(ys), Count(ys, amounts[0]), Sum(zs), max, amounts);
    }
  }

  /** Denominations 4, 3, 1 do not divide each other, and greedy takes three outputs where two suffice. */
  lemma GreedyIsNotAlwaysShortest()
    ensures Sum([3, 3]) == 6 && |Split(6, 0, [4, 3, 1]).0| == 3
  {
    assert Sum([3, 3]) == 3 + Sum([3]);
    assert [4, 3, 1][1..] == [3, 1] && [3, 1][1..] == [1] && [1][1..] == [];
    assert Split(0, 0, []).0 == [];
    hide Split, Sum;
    GreedyHead(6, 0, [4, 3, 1]);
    GreedyHead(2, 0, [3, 1]);
    GreedyHead(2, 0, [1]);
  }

  // ------------------------------------------------------------------------
  // Fees
  // ------------------------------------------------------------------------

  /** Value left after paying the input fee for spending these outputs, never below zero. */
  function ValueAfterFees(xs: seq<nat>, feePpk: nat): nat {
    var fee := CeilDiv(feePpk * |xs|, PPK);
    if Sum(xs) >= fee then Sum(xs) - fee else 0
  }

  /** The whole number of units that covers a rate per thousand: the least one. */
  lemma FeeCovers(ppk: nat)
    ensures ppk <= 1000 * CeilDiv(ppk, PPK) < ppk + 1000
  {
  }

  /**
   What spending costs, in thousandths: at least the rate of every output, and less than one
   unit more.  A fee that does not fit leaves nothing, and none fits exactly when the rates
   exceed the value.
   */
  lemma FeeIsRoundedUp(xs: seq<nat>, feePpk: nat)
    ensures feePpk * |xs| <= 1000 * Sum(xs) ==>
              feePpk * |xs| <= 1000 * (Sum(xs) - ValueAfterFees(xs, feePpk)) < feePpk * |xs| + 1000
    ensures feePpk * |xs| > 1000 * Sum(xs) ==> ValueAfterFees(xs, feePpk) == 0
  {
    FeeCovers(feePpk * |xs|);
  }

  function Forward(nominal: nat, max: nat, k: KeysetInfo): (r: Result<nat, string>)
    requires ValidKeyset(k)
  {
    match Denominate(nominal, max, k)
    case Err(e) => Err(e)
    case Ok(xs) => Ok(ValueAfterFees(xs, k.feePpk))
  }

  /** A fee below one unit per output leaves at least a thousandth of the nominal value. */
  lemma ForwardBounds(nominal: nat, max: nat, k: KeysetInfo)
    requires ValidKeyset(k) && k.feePpk <= MAX_FEE_PPK
    requires Forward(nominal, max, k).Ok?
    ensures nominal / PPK <= Forward(nominal, max, k).value <= nominal
    ensures var fee, n := nominal - Forward(nominal, max, k).value, |Split(nominal, max, k.amounts).0|;
            k.feePpk * n <= 1000 * fee < k.feePpk * n + 1000
  {
    var xs := Split(nominal, max, k.amounts).0;
    SplitConserves(nominal, max, k.amounts);
    assert Positive(xs) by {
      forall i | 0 <= i < |xs| ensures xs[i] > 0 {
        assert xs[i] in xs;
      }
    }
    LengthBound(xs);
    MulMono(|xs|, nominal, k.feePpk);
    MulMono(k.feePpk, MAX_FEE_PPK, nominal);
    FeeBound(k.feePpk * |xs|, nominal);
    FeeIsRoundedUp(xs, k.feePpk);
  }

  lemma FeeBound(ppk: nat, nominal: nat)
    requires ppk <= MAX_FEE_PPK * nominal
    ensures CeilDiv(ppk, PPK) <= nominal - nominal / PPK
  {
  }

  /** What must be allocated, and what the receiver then ends up with. */
  datatype InverseFee = InverseFee(nominal: nat, actual: nat)

  function Search(target: nat, nominal: nat, max: nat, k: KeysetInfo): (r: Result<InverseFee, string>)
    requires ValidKeyset(k) && k.feePpk <= MAX_FEE_PPK
    requires target <= nominal <= PPK * target
    decreases PPK * target - nominal
  {
    match Forward(nominal, max, k)
    case Err(e) => Err(e)
    case Ok(actual) =>
      if actual >= target then
        Ok(InverseFee(nominal, actual))
      else
        ForwardBounds(nominal, max, k);
        Search(target, nominal + 1, max, k)
  }

  function Inverse(target: nat, max: nat, k: KeysetInfo): (r: Result<InverseFee, string>)
    requires ValidKeyset(k) && k.feePpk <= MAX_FEE_PPK
  {
    if target == 0 then Ok(InverseFee(0, 0))
    else if k.feePpk == 0 then Ok(InverseFee(target, target))
    else Search(target, target, max, k)
  }

  /** The search loop, which needs no more than a thousand times the target. */
  method InverseSearch(target: nat, max: nat, k: KeysetInfo) returns (r: Result<InverseFee, string>)
    requires ValidKeyset(k) && k.feePpk <= MAX_FEE_PPK
    ensures r == Inverse(target, max, k)
    ensures r.Ok? ==> target <= r.value.nominal <= PPK * target && r.value.actual >= target
  {
    if target == 0 {
      return Ok(InverseFee(0, 0));
    }
    if k.feePpk == 0 {
      return Ok(InverseFee(target, target));
    }
    var nominal := target;
    while true
      invariant target <= nominal <= PPK * target
      invariant Search(target, target, max, k) == Search(target, nominal, max, k)
      decreases PPK * target - nominal
    {
      var outputs := FromTarget(nominal, max, k);
      match outputs {
        case Err(e) => return Err(e);
        case Ok(xs) =>
          var actual := ValueAfterFees(xs, k.feePpk);
          if actual >= target {
            return Ok(InverseFee(nominal, actual));
          }
          ForwardBounds(nominal, max, k);
          nominal := nominal + 1;
      }
    }
  }

  /** The search stops at the first nominal value that is not representable or reaches the target. */
  lemma {:induction false} SearchFindsFirst(target: nat, nominal: nat, good: nat, max: nat, k: KeysetInfo)
    requires ValidKeyset(k) && k.feePpk <= MAX_FEE_PPK
    requires target <= nominal <= good && nominal <= PPK * target
    requires forall n | nominal <= n <= good :: Forward(n, max, k).Ok?
    requires Forward(good, max, k).value >= target
    ensures var r := Search(target, nominal, max, k);
            r.Ok? && nominal <= r.value.nominal <= good
            && r.value.actual == Forward(r.value.nominal, max, k).value >= target
            && forall n | nominal <= n < r.value.nominal :: Forward(n, max, k).value < target
    decreases good - nominal
  {
    if Forward(nominal, max, k).value < target {
      ForwardBounds(nominal, max, k);
      SearchFindsFirst(target, nominal + 1, good, max, k);
    }
  }

  // ------------------------------------------------------------------------
  // Commitments: who gets what at a given balance
  // ------------------------------------------------------------------------

  /** The amounts a channel fixes at opening. */
  datatype Terms = Terms(capacity: nat, fundingAmount: nat, maxOutput: nat, keyset: KeysetInfo)

  /** What ChannelParameters::new insists on. */
  predicate ValidTerms(t: Terms) {
    && ValidKeyset(t.keyset)
    && t.keyset.feePpk <= MAX_FEE_PPK
    && var stage1 := Forward(t.fundingAmount, t.maxOutput, t.keyset);
    && stage1.Ok?
    && var stage2 := Forward(stage1.value, t.maxOutput, t.keyset);
    && stage2.Ok?
    && t.capacity <= stage2.value
  }

  /** Value left to distribute once the funding token has been spent. */
  function AfterStage1(t: Terms): nat
    requires ValidTerms(t)
  {
    Forward(t.fundingAmount, t.maxOutput, t.keyset).value
  }

  /** Output amounts of the two parties. */
  datatype Commitment = Commitment(receiver: seq<nat>, sender: seq<nat>)

  function ForBalance(balance: nat, t: Terms): (r: Result<Commitment, string>)
    requires ValidTerms(t)
  {
    if balance > t.capacity then
      Err("receiver balance exceeds channel capacity")
    else
      match Inverse(balance, t.maxOutput, t.keyset)
      case Err(e) => Err(e)
      case Ok(inv) =>
        if inv.nominal > AfterStage1(t) then
          Err("nominal value exceeds available amount after stage 1 fees")
        else
          match Denominate(inv.nominal, t.maxOutput, t.keyset)
          case Err(e) => Err(e)
          case Ok(receiver) =>
            match Denominate(AfterStage1(t) - inv.nominal, t.maxOutput, t.keyset)
            case Err(e) => Err(e)
            case Ok(sender) => Ok(Commitment(receiver, sender))
  }

  predicate HasUnit(k: KeysetInfo) {
    1 in k.amounts
  }

  lemma UnitForward(nominal: nat, max: nat, k: KeysetInfo)
    requires ValidKeyset(k) && HasUnit(k)
    ensures Denominate(nominal, max, k).Ok? && Forward(nominal, max, k).Ok?
  {
    SplitTotal(nominal, max, k.amounts);
  }

  /** Every nominal value up to this one can be represented, and this one is worth the target. */
  predicate Reaches(target: nat, from: nat, good: nat, max: nat, k: KeysetInfo)
    requires ValidKeyset(k)
  {
    && from <= good
    && (forall n | from <= n <= good :: Forward(n, max, k).Ok?)
    && Forward(good, max, k).value >= target
  }

  lemma {:induction false} SearchIsLeast(target: nat, nominal: nat, max: nat, k: KeysetInfo)
    requires ValidKeyset(k) && k.feePpk <= MAX_FEE_PPK
    requires target <= nominal <= PPK * target && Search(target, nominal, max, k).Ok?
    ensures var r := Search(target, nominal, max, k).value;
            && Reaches(target, nominal, r.nominal, max, k)
            && Forward(r.nominal, max, k) == Ok(r.actual)
            && forall n | nominal <= n < r.nominal :: Forward(n, max, k).value < target
    decreases PPK * target - nominal
  {
    if Forward(nominal, max, k).value < target {
      ForwardBounds(nominal, max, k);
      SearchIsLeast(target, nominal + 1, max, k);
    }
  }

  /**
   The inverse of a positive balance, with a fee: it exists exactly when representable
   nominal values lead from the balance to one that is worth it, and it is the least such.
   */
  lemma InverseIsLeast(balance: nat, max: nat, k: KeysetInfo)
    requires ValidKeyset(k) && 0 < k.feePpk <= MAX_FEE_PPK && balance > 0
    ensures Inverse(balance, max, k).Ok? <==> exists good :: Reaches(balance, balance, good, max, k)
    ensures var r := Inverse(balance, max, k);
            r.Ok? ==> && Forward(r.value.nominal, max, k) == Ok(r.value.actual)
                      && r.value.actual >= balance
                      && forall n | Forward(n, max, k).Ok? && Forward(n, max, k).value >= balance :: r.value.nominal <= n
  {
    if Inverse(balance, max, k).Ok? {
      SearchIsLeast(balance, balance, max, k);
      forall n | Forward(n, max, k).Ok? && Forward(n, max, k).value >= balance
        ensures Inverse(balance, max, k).value.nominal <= n
      {
        ForwardBounds(n, max, k);
      }
    }
    if good :| Reaches(balance, balance, good, max, k) {
      SearchFindsFirst(balance, balance, good, max, k);
    }
  }

  /** With a unit denomination the inverse exists below any nominal value that is worth the balance. */
  lemma InverseBelow(balance: nat, good: nat, max: nat, k: KeysetInfo)
    requires ValidKeyset(k) && HasUnit(k) && k.feePpk <= MAX_FEE_PPK
    requires Forward(good, max, k).Ok? && Forward(good, max, k).value >= balance
    ensures var r := Inverse(balance, max, k);
            r.Ok? && balance <= r.value.nominal <= good
            && Forward(r.value.nominal, max, k) == Ok(r.value.actual)
            && r.value.actual >= balance
  {
    forall n: nat ensures Forward(n, max, k).Ok? { UnitForward(n, max, k); }
    ForwardBounds(good, max, k);
    if balance == 0 {
      ForwardBounds(0, max, k);
    } else if k.feePpk == 0 {
      SplitConserves(balance, max, k.amounts);
    } else {
      SearchFindsFirst(balance, balance, good, max, k);
    }
  }

  lemma InverseTotal(balance: nat, max: nat, k: KeysetInfo)
    requires ValidKeyset(k) && HasUnit(k) && k.feePpk <= MAX_FEE_PPK
    ensures var r := Inverse(balance, max, k);
            r.Ok? && Forward(r.value.nominal, max, k) == Ok(r.value.actual) && r.value.actual >= balance
  {
    UnitForward(PPK * balance, max, k);
    ForwardBounds(PPK * balance, max, k);
    InverseBelow(balance, PPK * balance, max, k);
  }

  /** Outputs worth a balance once spent cover it and the rate of every output, in thousandths. */
  lemma WorthCovers(xs: seq<nat>, feePpk: nat, balance: nat)
    requires ValueAfterFees(xs, feePpk) >= balance && (balance > 0 || xs == [])
    ensures 1000 * balance + feePpk * |xs| <= 1000 * Sum(xs)
  {
    FeeIsRoundedUp(xs, feePpk);
  }

  /**
   What the channel promises about any commitment it builds: the two sides add up to all
   that stage 1 leaves, and after paying for stage 2 the receiver holds at least the balance.
   In thousandths: the receiver's outputs cover the balance and the rate of every output.
   */
  lemma CommitmentPays(balance: nat, t: Terms)
    requires ValidTerms(t) && ForBalance(balance, t).Ok?
    ensures var c := ForBalance(balance, t).value;
            && Sum(c.receiver) + Sum(c.sender) == AfterStage1(t)
            && ValueAfterFees(c.receiver, t.keyset.feePpk) >= balance
            && 1000 * balance + t.keyset.feePpk * |c.receiver| <= 1000 * Sum(c.receiver)
            && balance <= t.capacity
  {
    var k, max := t.keyset, t.maxOutput;
    var inv := Inverse(balance, max, k).value;
    SplitConserves(inv.nominal, max, k.amounts);
    SplitConserves(AfterStage1(t) - inv.nominal, max, k.amounts);
    if balance > 0 && k.feePpk > 0 {
      SearchIsLeast(balance, balance, max, k);
    }
    SplitZero(max, k.amounts);
    WorthCovers(Split(inv.nominal, max, k.amounts).0, k.feePpk, balance);
  }

  /** With a unit denomination a commitment exists exactly for the balances up to the capacity. */
  lemma CommitsUpToCapacity(balance: nat, t: Terms)
    requires ValidTerms(t) && HasUnit(t.keyset)
    ensures ForBalance(balance, t).Ok? <==> balance <= t.capacity
  {
    if balance <= t.capacity {
      InverseBelow(balance, AfterStage1(t), t.maxOutput, t.keyset);
      var inv := Inverse(balance, t.maxOutput, t.keyset).value;
      UnitForward(inv.nominal, t.maxOutput, t.keyset);
      UnitForward(AfterStage1(t) - inv.nominal, t.maxOutput, t.keyset);
    }
  }

  /** Every balance up to the capacity can be committed to exactly when the keyset has a unit denomination. */
  lemma EveryBalanceCommitsIff(t: Terms)
    requires ValidTerms(t)
    ensures (forall b: nat | b <= t.capacity :: ForBalance(b, t).Ok?) <==> t.capacity == 0 || HasUnit(t.keyset)
  {
    if HasUnit(t.keyset) {
      forall b: nat | b <= t.capacity ensures ForBalance(b, t).Ok? { CommitsUpToCapacity(b, t); }
    } else {
      SplitOneNeedsUnit(t.maxOutput, t.keyset.amounts);
      assert t.capacity >= 1 ==> ForBalance(1, t).Err?;
      SplitConserves(0, t.maxOutput, t.keyset.amounts);
      assert t.capacity == 0 ==> ForBalance(0, t).Ok?;
    }
  }

  // ------------------------------------------------------------------------
  // The least funding amount for a capacity
  // ------------------------------------------------------------------------

  /** One more unit needs at most one more output. */
  lemma {:induction false} SplitSucc(n: nat, max: nat, amounts: seq<nat>)
    requires Positive(amounts)
    ensures |Split(n + 1, max, amounts).0| <= |Split(n, max, amounts).0| + 1
    decreases |amounts|
  {
    if amounts != [] {
      var a, rest := amounts[0], amounts[1..];
      if !Usable(a, max) {
        SplitSucc(n, max, rest);
      } else {
        DivideSucc(n, a);
        RepeatFacts(a, n / a);
        RepeatFacts(a, (n + 1) / a);
        if n % a + 1 < a {
          SplitSucc(n % a, max, rest);
        } else {
          SplitZero(max, rest);
        }
      }
    }
  }

  lemma {:induction false} SplitZero(max: nat, amounts: seq<nat>)
    requires Positive(amounts)
    ensures Split(0, max, amounts).0 == [] && Split(0, max, amounts).1 == 0
    decreases |amounts|
  {
    if amounts != [] {
      SplitZero(max, amounts[1..]);
      QuotientUnique(0, amounts[0], 0, 0);
    }
  }

  lemma FeeSucc(feePpk: nat, x: nat, y: nat)
    requires feePpk <= MAX_FEE_PPK && y <= x + 1
    ensures CeilDiv(feePpk * y, PPK) <= CeilDiv(feePpk * x, PPK) + 1
  {
    MulMono(y, x + 1, feePpk);
    Distribute(x, 1, feePpk);
  }

  /** The fee for spending what an amount is split into. */
  function SplitFee(n: nat, max: nat, amounts: seq<nat>, feePpk: nat): nat
    requires Positive(amounts)
  {
    CeilDiv(feePpk * |Split(n, max, amounts).0|, PPK)
  }

  /** With a fee below one unit per output, a larger amount costs at most the difference more. */
  lemma {:induction false} FeeGap(n: nat, m: nat, max: nat, amounts: seq<nat>, feePpk: nat)
    requires Positive(amounts) && feePpk <= MAX_FEE_PPK && n <= m
    ensures SplitFee(m, max, amounts, feePpk) <= SplitFee(n, max, amounts, feePpk) + (m - n)
    decreases m - n
  {
    hide Split, CeilDiv;
    if n < m {
      FeeGap(n, m - 1, max, amounts, feePpk);
      SplitSucc(m - 1, max, amounts);
      FeeSucc(feePpk, |Split(m - 1, max, amounts).0|, |Split(m, max, amounts).0|);
    }
  }

  /** With a fee below one unit per output, allocating more never leaves the receiver with less. */
  lemma ForwardMonotone(n: nat, m: nat, max: nat, k: KeysetInfo)
    requires ValidKeyset(k) && k.feePpk <= MAX_FEE_PPK && n <= m
    requires Forward(n, max, k).Ok? && Forward(m, max, k).Ok?
    ensures Forward(n, max, k).value <= Forward(m, max, k).value
  {
    SplitConserves(n, max, k.amounts);
    SplitConserves(m, max, k.amounts);
    FeeGap(n, m, max, k.amounts, k.feePpk);
  }

  /** get_minimum_funding_token_amount: undo the stage 2 fees, then the stage 1 fees. */
  function MinimumFunding(capacity: nat, max: nat, k: KeysetInfo): (r: Result<nat, string>)
    requires ValidKeyset(k) && k.feePpk <= MAX_FEE_PPK
  {
    match Inverse(capacity, max, k)
    case Err(e) => Err(e)
    case Ok(first) =>
      match Inverse(first.nominal, max, k)
      case Err(e) => Err(e)
      case Ok(second) => Ok(second.nominal)
  }

  /** Both stages of fees can be taken from a funding amount. */
  predicate Spendable(funding: nat, max: nat, k: KeysetInfo)
    requires ValidKeyset(k)
  {
    var stage1 := Forward(funding, max, k);
    stage1.Ok? && Forward(stage1.value, max, k).Ok?
  }

  /** Undoing a fee: at or above the inverse, and only there, enough is left. */
  lemma InverseThreshold(target: nat, n: nat, max: nat, k: KeysetInfo)
    requires ValidKeyset(k) && k.feePpk <= MAX_FEE_PPK
    requires Inverse(target, max, k).Ok? && Forward(n, max, k).Ok?
    ensures Forward(n, max, k).value >= target <==> n >= Inverse(target, max, k).value.nominal
  {
    var least := Inverse(target, max, k).value.nominal;
    ForwardBounds(n, max, k);
    if target > 0 && k.feePpk > 0 {
      InverseIsLeast(target, max, k);
      if least <= n {
        ForwardMonotone(least, n, max, k);
      }
    } else if k.feePpk == 0 {
      SplitConserves(n, max, k.amounts);
    }
  }

  /**
   The computed amount is the threshold: of the funding amounts from which both stages of
   fees can be taken, exactly those from there on make acceptable terms.  With a unit
   denomination the threshold exists and every amount is such an amount.
   */
  lemma MinimumFundingIsThreshold(t: Terms)
    requires ValidKeyset(t.keyset) && t.keyset.feePpk <= MAX_FEE_PPK
    ensures var least := MinimumFunding(t.capacity, t.maxOutput, t.keyset);
            least.Ok? ==>
              (ValidTerms(t) <==> Spendable(t.fundingAmount, t.maxOutput, t.keyset) && least.value <= t.fundingAmount)
    ensures HasUnit(t.keyset) ==>
              && MinimumFunding(t.capacity, t.maxOutput, t.keyset).Ok?
              && Spendable(t.fundingAmount, t.maxOutput, t.keyset)
  {
    var c, f, max, k := t.capacity, t.fundingAmount, t.maxOutput, t.keyset;
    if HasUnit(k) {
      InverseTotal(c, max, k);
      InverseTotal(Inverse(c, max, k).value.nominal, max, k);
      UnitForward(f, max, k);
      UnitForward(Forward(f, max, k).value, max, k);
    }
    if MinimumFunding(c, max, k).Ok? && Spendable(f, max, k) {
      InverseThreshold(c, Forward(f, max, k).value, max, k);
      InverseThreshold(Inverse(c, max, k).value.nominal, f, max, k);
    }
  }
}
