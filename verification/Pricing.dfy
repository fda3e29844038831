/**
 Metered pricing (integration-kits/go/host.go).  The amount due is a sum over priced
 variables, scaled down and rounded up.  All of it runs in unsigned 64-bit arithmetic
 that wraps silently, so the exact amount and the computed amount are different things;
 DueExactIff says precisely when they coincide.
 */
module Pricing {
  import opened Arith

  type Usage = map<string, Word>

  function At(u: Usage, v: string): Word {
    if v in u then u[v] else 0
  }

  /** Recorded usage after one more request: per-variable wrapping addition. */
  function Increment(u: Usage, incs: Usage): (r: Usage) {
    map v | v in u.Keys + incs.Keys :: Bumped(u, incs, v)
  }

  /** One variable after the addition. */
  function Bumped(u: Usage, incs: Usage, v: string): Word {
    if v in incs then (At(u, v) + incs[v]) % U64 else At(u, v)
  }

  /** The counts while some increments are still to be added. */
  ghost predicate PartlyAdded(r: Usage, u: Usage, incs: Usage, todo: set<string>) {
    && todo <= incs.Keys
    && r.Keys == u.Keys + (incs.Keys - todo)
    && forall v | v in r :: r[v] == if v in todo then At(u, v) else Bumped(u, incs, v)
  }

  /** One turn of the adding loop. */
  lemma AddOne(r: Usage, u: Usage, incs: Usage, todo: set<string>, v: string)
    requires PartlyAdded(r, u, incs, todo) && v in todo
    ensures PartlyAdded(r[v := (At(r, v) + incs[v]) % U64], u, incs, todo - {v})
  {
    assert At(r, v) == At(u, v);
  }

  /** Adds the increments one variable at a time, in whatever order the map yields them. */
  method AddUsage(u: Usage, incs: Usage) returns (r: Usage)
    ensures r == Increment(u, incs)
  {
    hide PartlyAdded;
    r := u;
    var todo := incs.Keys;
    NoneAdded(u, incs);
    while todo != {}
      invariant PartlyAdded(r, u, incs, todo) && todo <= incs.Keys
      decreases |todo|
    {
      var v :| v in todo;
      AddOne(r, u, incs, todo, v);
      r := r[v := (At(r, v) + incs[v]) % U64];
      todo := todo - {v};
    }
    AllAdded(r, u, incs);
  }

  lemma NoneAdded(u: Usage, incs: Usage)
    ensures PartlyAdded(u, u, incs, incs.Keys)
  {
  }

  lemma AllAdded(r: Usage, u: Usage, incs: Usage)
    requires PartlyAdded(r, u, incs, {})
    ensures r == Increment(u, incs)
  {
  }

  // ------------------------------------------------------------------------
  // Sums over the priced variables, in no particular order
  // ------------------------------------------------------------------------

  ghost function Total(vars: set<string>, prices: map<string, nat>, n: string -> nat): nat
    requires vars <= prices.Keys
  {
    if vars == {} then 0
    else
      var v :| v in vars;
      n(v) * prices[v] + Total(vars - {v}, prices, n)
  }

  /** Any variable may be taken out first. */
  lemma {:induction false} TotalTake(vars: set<string>, v: string, prices: map<string, nat>, n: string -> nat)
    requires v in vars && vars <= prices.Keys
    ensures Total(vars, prices, n) == n(v) * prices[v] + Total(vars - {v}, prices, n)
    decreases |vars|
  {
    var w :| w in vars && Total(vars, prices, n) == n(w) * prices[w] + Total(vars - {w}, prices, n);
    if w != v {
      TotalTake(vars - {w}, v, prices, n);
      TotalTake(vars - {v}, w, prices, n);
      assert vars - {w} - {v} == vars - {v} - {w};
    }
  }

  lemma ModMultiple(x: nat, k: nat)
    ensures (x + k * U64) % U64 == x % U64
  {
    AddMultiple(k, x, U64);
  }

  lemma ModProduct(x: nat, p: nat)
    ensures (x % U64) * p % U64 == x * p % U64
  {
    var q := x / U64;
    assert x * p == (x % U64) * p + (q * p) * U64 by {
      assert x == q * U64 + x % U64;
      Distribute(q * U64, x % U64, p);
      assert q * U64 * p == (q * p) * U64;
    }
    ModMultiple((x % U64) * p, q * p);
  }

  lemma ModSum(a: nat, b: nat)
    ensures (a % U64 + b) % U64 == (a + b) % U64
    ensures (a % U64 + b % U64) % U64 == (a + b) % U64
  {
    ModMultiple(a % U64 + b, a / U64);
    ModMultiple(a % U64 + b % U64, a / U64 + b / U64);
  }

  /** Counts that agree modulo 2^64 give totals that agree modulo 2^64. */
  lemma {:induction false} TotalCongruent(vars: set<string>, prices: map<string, nat>, n: string -> nat, m: string -> nat)
    requires vars <= prices.Keys
    requires forall v | v in vars :: n(v) % U64 == m(v) % U64
    ensures Total(vars, prices, n) % U64 == Total(vars, prices, m) % U64
    decreases |vars|
  {
    if vars != {} {
      var v :| v in vars;
      TotalTake(vars, v, prices, n);
      TotalTake(vars, v, prices, m);
      TotalCongruent(vars - {v}, prices, n, m);
      ModProduct(n(v), prices[v]);
      ModProduct(m(v), prices[v]);
      ModSum(n(v) * prices[v], Total(vars - {v}, prices, n));
      ModSum(m(v) * prices[v], Total(vars - {v}, prices, m));
    }
  }

  lemma {:induction false} TotalMonotone(vars: set<string>, prices: map<string, nat>, n: string -> nat, m: string -> nat)
    requires vars <= prices.Keys
    requires forall v | v in vars :: n(v) <= m(v)
    ensures Total(vars, prices, n) <= Total(vars, prices, m)
    decreases |vars|
  {
    if vars != {} {
      var v :| v in vars;
      TotalTake(vars, v, prices, n);
      TotalTake(vars, v, prices, m);
      TotalMonotone(vars - {v}, prices, n, m);
      MulMono(n(v), m(v), prices[v]);
    }
  }

  // ------------------------------------------------------------------------
  // The amount due
  // ------------------------------------------------------------------------

  /** What the program computes from an exact total: wrap, and round up with a wrapping addition. */
  function Due64(total: nat, scale: nat): nat
    requires scale > 0
  {
    if total % U64 == 0 then 0 else (total % U64 + scale - 1) % U64 / scale
  }

  /** The exact amount due for usage counts that never wrap. */
  ghost function ExactDue(prices: map<string, nat>, scale: nat, n: string -> nat): nat
    requires scale > 0
  {
    CeilDiv(Total(prices.Keys, prices, n), scale)
  }

  /** Recorded plus pending usage, as the pricing loop adds them. */
  function Counts(acc: Usage, pend: Usage): string -> nat {
    v => At(acc, v) + At(pend, v)
  }

  /** The amount due as the program sees it, for recorded usage and a pending request. */
  ghost function Due(prices: map<string, nat>, scale: nat, acc: Usage, pend: Usage): nat
    requires scale > 0
  {
    Due64(Total(prices.Keys, prices, Counts(acc, pend)), scale)
  }

  /** total += count * price, in 64 bits. */
  function AddPriced(total: nat, count: nat, price: nat): nat {
    (total + count % U64 * price % U64) % U64
  }

  /** What the pricing loop has added up when these variables are still to come. */
  ghost function TotalSoFar(todo: set<string>, prices: map<string, nat>, acc: Usage, pend: Usage): nat {
    Total(prices.Keys - todo, prices, Counts(acc, pend)) % U64
  }

  /** One turn of the pricing loop. */
  lemma TakeTerm(todo: set<string>, v: string, prices: map<string, nat>, acc: Usage, pend: Usage)
    requires v in todo && todo <= prices.Keys
    ensures AddPriced(TotalSoFar(todo, prices, acc, pend), At(acc, v) + At(pend, v), prices[v])
         == TotalSoFar(todo - {v}, prices, acc, pend)
  {
    var n, done := Counts(acc, pend), prices.Keys - todo;
    var sum, term := Total(done, prices, n), n(v) * prices[v];
    assert Total(prices.Keys - (todo - {v}), prices, n) == term + sum by {
      assert prices.Keys - (todo - {v}) == done + {v};
      TotalTake(done + {v}, v, prices, n);
      assert done + {v} - {v} == done;
    }
    ModProduct(n(v), prices[v]);
    ModSum(sum, term % U64);
    ModSum(term, sum);
  }

  /** The pricing loop; the source ranges over a map, whose order is not fixed. */
  method WrappedTotal(prices: map<string, nat>, acc: Usage, pend: Usage) returns (total: nat)
    ensures total == TotalSoFar({}, prices, acc, pend)
  {
    var todo := prices.Keys;
    total := 0;
    assert prices.Keys - todo == {};
    while todo != {}
      invariant todo <= prices.Keys
      invariant total == TotalSoFar(todo, prices, acc, pend)
      decreases |todo|
    {
      var v :| v in todo;
      TakeTerm(todo, v, prices, acc, pend);
      total := AddPriced(total, At(acc, v) + At(pend, v), prices[v]);
      todo := todo - {v};
    }
  }

  /** The total, rounded up to whole units. */
  method AmountDue(prices: map<string, nat>, scale: nat, acc: Usage, pend: Usage) returns (due: nat)
    requires 0 < scale < U64
    ensures due == Due(prices, scale, acc, pend)
  {
    var total := WrappedTotal(prices, acc, pend);
    assert prices.Keys - {} == prices.Keys;
    if total == 0 {
      return 0;
    }
    due := (total + scale - 1) % U64 / scale;
  }

  lemma WrapsOnce(x: nat)
    requires U64 <= x < 2 * U64
    ensures x % U64 == x - U64
  {
  }

  /** A total just below 2^64 wraps while being rounded up, and becomes free. */
  lemma RoundingWraps(total: nat, scale: nat)
    requires 0 < scale < U64 && total < U64 <= total + scale - 1
    ensures Due64(total, scale) == 0 < CeilDiv(total, scale)
  {
    var x := total + scale - 1;
    WrapsOnce(x);
    QuotientUnique(x - U64, scale, 0, x - U64);
    DivMono(scale, x, scale);
  }

  lemma QuotientBound(x: nat, scale: nat)
    requires scale > 0
    ensures (x % U64) / scale < (U64 + scale - 1) / scale
  {
    DivMono(x % U64, U64 - 1, scale);
    AddMultiple(1, U64 - 1, scale);
  }

  /** The computed amount is the exact one exactly when the scaled total stays within 64 bits. */
  lemma DueExactIff(total: nat, scale: nat)
    requires 0 < scale < U64
    ensures Due64(total, scale) == CeilDiv(total, scale) <==> total + scale - 1 < U64
  {
    if total >= U64 {
      QuotientBound(total % U64 + scale - 1, scale);
      QuotientBound(0, scale);
      DivMono(U64 + scale - 1, total + scale - 1, scale);
    } else if total + scale - 1 >= U64 {
      RoundingWraps(total, scale);
    } else if total == 0 {
      QuotientUnique(scale - 1, scale, 0, scale - 1);
    }
  }

  /** Rounding overcharges by less than one unit in total, however the usage was spread. */
  lemma OverchargeBelowOneUnit(total: nat, scale: nat)
    requires scale > 0
    ensures total <= CeilDiv(total, scale) * scale < total + scale
  {
  }

  lemma ExactDueMonotone(prices: map<string, nat>, scale: nat, n: string -> nat, m: string -> nat)
    requires scale > 0
    requires forall v | v in prices :: n(v) <= m(v)
    ensures ExactDue(prices, scale, n) <= ExactDue(prices, scale, m)
  {
    TotalMonotone(prices.Keys, prices, n, m);
    DivMono(Total(prices.Keys, prices, n) + scale - 1, Total(prices.Keys, prices, m) + scale - 1, scale);
  }

  /** In 64-bit arithmetic more usage can cost less: one more unit at the edge makes everything free. */
  lemma WrappingIsNotMonotone()
    ensures Due64(U64 - 1, 1) == U64 - 1 && Due64(U64, 1) == 0
  {
  }

  // ------------------------------------------------------------------------
  // Only the per-variable totals of what was asked for matter
  // ------------------------------------------------------------------------

  /** Usage recorded by a sequence of requests. */
  function Recorded(requests: seq<Usage>): Usage {
    if requests == [] then map[]
    else Increment(Recorded(requests[..|requests| - 1]), requests[|requests| - 1])
  }

  /** How much of a variable the requests asked for, exactly. */
  function Requested(requests: seq<Usage>, v: string): nat {
    if requests == [] then 0
    else Requested(requests[..|requests| - 1], v) + At(requests[|requests| - 1], v)
  }

  lemma IncrementAt(u: Usage, incs: Usage, v: string)
    ensures At(Increment(u, incs), v) % U64 == (At(u, v) + At(incs, v)) % U64
  {
  }

  lemma {:induction false} RecordedIsRequested(requests: seq<Usage>, v: string)
    ensures At(Recorded(requests), v) % U64 == Requested(requests, v) % U64
  {
    if requests != [] {
      var n := |requests| - 1;
      RecordedIsRequested(requests[..n], v);
      IncrementAt(Recorded(requests[..n]), requests[n], v);
      ModSum(At(Recorded(requests[..n]), v), At(requests[n], v));
      ModSum(Requested(requests[..n], v), At(requests[n], v));
    }
  }

  function RequestedCounts(requests: seq<Usage>, pend: Usage): string -> nat {
    v => Requested(requests, v) + At(pend, v)
  }

  /**
   The amount due after any sequence of requests is a function of the per-variable totals:
   how the requests were split, and in which order they came, makes no difference.
   */
  lemma PathIndependent(prices: map<string, nat>, scale: nat, requests: seq<Usage>, pend: Usage)
    requires 0 < scale < U64
    ensures Due(prices, scale, Recorded(requests), pend)
         == Due64(Total(prices.Keys, prices, RequestedCounts(requests, pend)), scale)
  {
    hide Recorded, Requested, Total;
    forall v | v in prices.Keys
      ensures Counts(Recorded(requests), pend)(v) % U64 == RequestedCounts(requests, pend)(v) % U64
    {
      CountsCongruent(requests, pend, v);
    }
    TotalCongruent(prices.Keys, prices, Counts(Recorded(requests), pend), RequestedCounts(requests, pend));
  }

  lemma CountsCongruent(requests: seq<Usage>, pend: Usage, v: string)
    ensures Counts(Recorded(requests), pend)(v) % U64 == RequestedCounts(requests, pend)(v) % U64
  {
    RecordedIsRequested(requests, v);
    ModSum(At(Recorded(requests), v), At(pend, v));
    ModSum(Requested(requests, v), At(pend, v));
  }

  /** Validating a request against the amount due before recording it is validating the amount due after. */
  lemma DueBeforeIsDueAfter(prices: map<string, nat>, scale: nat, acc: Usage, pend: Usage)
    requires 0 < scale < U64
    ensures Due(prices, scale, Increment(acc, pend), map[]) == Due(prices, scale, acc, pend)
  {
    var n, m := Counts(Increment(acc, pend), map[]), Counts(acc, pend);
    forall v | v in prices.Keys ensures n(v) % U64 == m(v) % U64 {
      ModSum(At(acc, v) + At(pend, v), 0);
    }
    TotalCongruent(prices.Keys, prices, n, m);
  }

  lemma {:induction false} TotalOfNothing(vars: set<string>, prices: map<string, nat>, n: string -> nat)
    requires vars <= prices.Keys && forall v :: n(v) == 0
    ensures Total(vars, prices, n) == 0
    decreases |vars|
  {
    if vars != {} {
      var v :| v in vars;
      TotalTake(vars, v, prices, n);
      TotalOfNothing(vars - {v}, prices, n);
    }
  }

  lemma NothingDue(prices: map<string, nat>, scale: nat)
    requires 0 < scale < U64
    ensures Due(prices, scale, map[], map[]) == 0
  {
    TotalOfNothing(prices.Keys, prices, Counts(map[], map[]));
  }
}
