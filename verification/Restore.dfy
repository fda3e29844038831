/**
 Matching NUT-09 restore responses and completing signatures into proofs (bindings.rs).

 A mint may return restored outputs in any order.  Matching puts each signature back at
 the index of its output, and completion unblinds a full, checked set.  Restoring the
 funding and the change part of an opening separately then yields exactly what the swap
 itself would have yielded.
 */
module Restore {
  import opened Wrappers

  datatype BlindedMessage = BlindedMessage(amount: nat, keysetId: string, point: string)

  datatype BlindSignature = BlindSignature(amount: nat, keysetId: string, c: string, dleq: string)

  datatype RestoreResponse = RestoreResponse(outputs: seq<BlindedMessage>, signatures: seq<BlindSignature>)

  datatype MatchError = CountMismatch | UnknownOutput | DuplicateOutput | OmittedOutput(index: nat)

  ghost predicate Distinct<T(!new)>(xs: seq<T>) {
    forall i, j | 0 <= i < j < |xs| :: xs[i] != xs[j]
  }

  function IndexOf<T(==)>(xs: seq<T>, x: T): (i: nat)
    requires x in xs
    ensures i < |xs| && xs[i] == x && x !in xs[..i]
  {
    if xs[0] == x then 0
    else
      var i := IndexOf(xs[1..], x);
      assert xs[..i + 1] == [xs[0]] + xs[1..][..i];
      i + 1
  }

  // ------------------------------------------------------------------------
  // Counting
  // ------------------------------------------------------------------------

  lemma {:induction false} DistinctSize<T(!new)>(xs: seq<T>)
    requires Distinct(xs)
    ensures |set x | x in xs| == |xs|
  {
    if xs != [] {
      var n := |xs| - 1;
      DistinctSize(xs[..n]);
      assert (set x | x in xs) == (set x | x in xs[..n]) + {xs[n]};
    }
  }

  lemma {:induction false} DistinctMultiset<T(!new)>(xs: seq<T>)
    requires Distinct(xs)
    ensures forall x :: multiset(xs)[x] == if x in xs then 1 else 0
  {
    if xs != [] {
      var n := |xs| - 1;
      DistinctMultiset(xs[..n]);
      assert xs == xs[..n] + [xs[n]];
    }
  }

  function UpTo(n: nat): (r: set<nat>)
    ensures |r| == n && forall i: nat :: i in r <==> i < n
  {
    if n == 0 then {} else UpTo(n - 1) + {n - 1}
  }

  lemma SubsetOfSameSize<T>(s: set<T>, t: set<T>)
    requires s <= t && |s| == |t|
    ensures s == t
  {
    assert |t - s| == |t| - |s|;
  }

  /** n distinct indices below n are all the indices below n. */
  lemma Pigeonhole(idx: seq<nat>, n: nat)
    requires |idx| == n && Distinct(idx) && forall k | 0 <= k < n :: idx[k] < n
    ensures forall i: nat | i < n :: i in idx
  {
    var hit := set i | i in idx;
    DistinctSize(idx);
    SubsetOfSameSize(hit, UpTo(n));
    forall i: nat | i < n ensures i in idx {
      assert i in UpTo(n);
    }
  }

  // ------------------------------------------------------------------------
  // Matching
  // ------------------------------------------------------------------------

  /** The response covers the expected outputs exactly, one signature each. */
  ghost predicate Covers(r: RestoreResponse, expected: seq<BlindedMessage>) {
    && |r.outputs| == |r.signatures|
    && Distinct(expected)
    && multiset(r.outputs) == multiset(expected)
  }

  function SignatureFor(r: RestoreResponse, o: BlindedMessage): BlindSignature
    requires |r.outputs| == |r.signatures| && o in r.outputs
  {
    r.signatures[IndexOf(r.outputs, o)]
  }

  /** What matching must return: each expected output's own signature, in the expected order. */
  ghost function Matched(r: RestoreResponse, expected: seq<BlindedMessage>): Option<seq<BlindSignature>> {
    if Covers(r, expected) then
      Some(seq(|expected|, i requires 0 <= i < |expected| =>
        assert expected[i] in multiset(expected);
        SignatureFor(r, expected[i])))
    else
      None
  }

  function CollectFrom(matched: seq<Option<BlindSignature>>, i: nat): Result<seq<BlindSignature>, MatchError>
    requires i <= |matched|
    decreases |matched| - i
  {
    if i == |matched| then Ok([])
    else if matched[i].None? then Err(OmittedOutput(i))
    else
      match CollectFrom(matched, i + 1)
      case Err(e) => Err(e)
      case Ok(rest) => Ok([matched[i].value] + rest)
  }

  lemma {:induction false} CollectsAll(matched: seq<Option<BlindSignature>>, i: nat)
    requires i <= |matched| && forall k | i <= k < |matched| :: matched[k].Some?
    ensures var r := CollectFrom(matched, i);
            r.Ok? && |r.value| == |matched| - i
            && forall k | i <= k < |matched| :: r.value[k - i] == matched[k].value
    decreases |matched| - i
  {
    if i < |matched| {
      CollectsAll(matched, i + 1);
    }
  }

  /** An index list that sends each returned output to its first expected position. */
  ghost predicate Placed(idx: seq<nat>, outputs: seq<BlindedMessage>, expected: seq<BlindedMessage>) {
    && |idx| <= |outputs|
    && forall k | 0 <= k < |idx| :: outputs[k] in expected && idx[k] == IndexOf(expected, outputs[k])
  }

  /** A full placement without repetition means exact coverage. */
  lemma PlacementCovers(idx: seq<nat>, r: RestoreResponse, expected: seq<BlindedMessage>)
    requires |r.outputs| == |r.signatures| == |expected| == |idx|
    requires Placed(idx, r.outputs, expected) && Distinct(idx)
    ensures Covers(r, expected) && Distinct(r.outputs)
    ensures forall i: nat | i < |expected| :: i in idx
  {
    Pigeonhole(idx, |expected|);
    forall a, b | 0 <= a < b < |expected| ensures expected[a] != expected[b] {
      assert b in idx;
      var k :| 0 <= k < |idx| && idx[k] == b;
      assert expected[b] !in expected[..b];
      assert expected[a] in expected[..b];
    }
    forall a, b | 0 <= a < b < |r.outputs| ensures r.outputs[a] != r.outputs[b] {
      assert idx[a] != idx[b];
    }
    forall o ensures o in r.outputs <==> o in expected {
      if o in expected {
        assert IndexOf(expected, o) in idx;
        var k :| 0 <= k < |idx| && idx[k] == IndexOf(expected, o);
        assert r.outputs[k] == o;
      }
    }
    DistinctMultiset(expected);
    DistinctMultiset(r.outputs);
    assert multiset(r.outputs) == multiset(expected);
  }

  lemma RepeatedCounts(xs: seq<BlindedMessage>, k: nat, j: nat)
    requires k < j < |xs| && xs[k] == xs[j]
    ensures multiset(xs)[xs[j]] >= 2
  {
    assert xs == xs[..j] + [xs[j]] + xs[j + 1..];
    assert xs[..j][k] == xs[j];
  }

  /** Two returned outputs at one position, or one at none, rule coverage out. */
  lemma DuplicateRulesOut(r: RestoreResponse, expected: seq<BlindedMessage>, k: nat, j: nat)
    requires k < j < |r.outputs| && r.outputs[k] == r.outputs[j]
    ensures !Covers(r, expected)
  {
    RepeatedCounts(r.outputs, k, j);
    if Distinct(expected) {
      DistinctMultiset(expected);
    }
  }

  lemma UnknownRulesOut(r: RestoreResponse, expected: seq<BlindedMessage>, j: nat)
    requires j < |r.outputs| && r.outputs[j] !in expected
    ensures !Covers(r, expected)
  {
    assert r.outputs[j] in multiset(r.outputs);
  }

  /** With unique outputs, the signature for an output is the one returned beside it. */
  lemma SignatureBeside(r: RestoreResponse, k: nat)
    requires |r.outputs| == |r.signatures| && Distinct(r.outputs) && k < |r.outputs|
    ensures SignatureFor(r, r.outputs[k]) == r.signatures[k]
  {
  }

  /** The state of the matching loop after the outputs indexed by idx. */
  ghost predicate Filled(matched: seq<Option<BlindSignature>>, idx: seq<nat>, r: RestoreResponse, expected: seq<BlindedMessage>) {
    && |matched| == |expected| && |r.outputs| == |r.signatures|
    && Placed(idx, r.outputs, expected)
    && Distinct(idx)
    && (forall i: nat | i < |expected| :: matched[i].Some? <==> i in idx)
    && (forall k | 0 <= k < |idx| :: matched[idx[k]] == Some(r.signatures[k]))
  }

  lemma FillOne(matched: seq<Option<BlindSignature>>, idx: seq<nat>, r: RestoreResponse, expected: seq<BlindedMessage>)
    requires Filled(matched, idx, r, expected) && |idx| < |r.outputs|
    requires r.outputs[|idx|] in expected
    requires matched[IndexOf(expected, r.outputs[|idx|])].None?
    ensures var p := IndexOf(expected, r.outputs[|idx|]);
            Filled(matched[p := Some(r.signatures[|idx|])], idx + [p], r, expected)
  {
  }

  /** Once every returned output is placed, the vector holds exactly the matched signatures. */
  lemma FilledIsMatched(matched: seq<Option<BlindSignature>>, idx: seq<nat>, r: RestoreResponse, expected: seq<BlindedMessage>)
    requires Filled(matched, idx, r, expected) && |idx| == |r.outputs| == |expected|
    ensures CollectFrom(matched, 0).Ok? && Matched(r, expected) == Some(CollectFrom(matched, 0).value)
  {
    PlacementCovers(idx, r, expected);
    CollectsAll(matched, 0);
    var res, m := CollectFrom(matched, 0).value, Matched(r, expected).value;
    forall i | 0 <= i < |expected| ensures res[i] == m[i] {
      assert i in idx;
      var k :| 0 <= k < |idx| && idx[k] == i;
      SignatureBeside(r, k);
    }
    assert res == m;
  }

  /** match_restore_response: fills a vector by position, refusing strangers and repetitions. */
  method MatchRestoreResponse(r: RestoreResponse, expected: seq<BlindedMessage>)
    returns (res: Result<seq<BlindSignature>, MatchError>)
    ensures res.Ok? <==> Matched(r, expected).Some?
    ensures res.Ok? ==> res.value == Matched(r, expected).value
    ensures res.Err? ==> !res.error.OmittedOutput?
  {
    if |r.outputs| != |r.signatures| {
      return Err(CountMismatch);
    }
    if |r.outputs| != |expected| {
      assert |multiset(r.outputs)| != |multiset(expected)|;
      return Err(CountMismatch);
    }
    var matched: seq<Option<BlindSignature>> := seq(|expected|, _ => None);
    ghost var idx: seq<nat> := [];
    for j := 0 to |r.outputs|
      invariant |idx| == j && Filled(matched, idx, r, expected)
    {
      if r.outputs[j] !in expected {
        UnknownRulesOut(r, expected, j);
        return Err(UnknownOutput);
      }
      var p := IndexOf(expected, r.outputs[j]);
      if matched[p].Some? {
        ghost var k :| 0 <= k < |idx| && idx[k] == p;
        DuplicateRulesOut(r, expected, k, j);
        return Err(DuplicateOutput);
      }
      FillOne(matched, idx, r, expected);
      matched := matched[p := Some(r.signatures[j])];
      idx := idx + [p];
    }
    FilledIsMatched(matched, idx, r, expected);
    res := CollectFrom(matched, 0);
  }

  // ------------------------------------------------------------------------
  // The order of the reply does not matter
  // ------------------------------------------------------------------------

  function Zip(os: seq<BlindedMessage>, ss: seq<BlindSignature>): seq<(BlindedMessage, BlindSignature)>
    requires |os| == |ss|
  {
    seq(|os|, i requires 0 <= i < |os| => (os[i], ss[i]))
  }

  /** The response pairs outputs and signatures as these two lists do, in some order. */
  ghost predicate Reorders(r: RestoreResponse, os: seq<BlindedMessage>, ss: seq<BlindSignature>)
    requires |os| == |ss|
  {
    && |r.outputs| == |r.signatures|
    && multiset(Zip(r.outputs, r.signatures)) == multiset(Zip(os, ss))
  }

  lemma ZipMember(os: seq<BlindedMessage>, ss: seq<BlindSignature>, p: (BlindedMessage, BlindSignature))
    requires |os| == |ss|
    ensures p in Zip(os, ss) ==> exists i :: 0 <= i < |os| && os[i] == p.0 && ss[i] == p.1
  {
    if p in Zip(os, ss) {
      var i :| 0 <= i < |os| && Zip(os, ss)[i] == p;
    }
  }

  lemma {:induction false} ZipOutputs(os: seq<BlindedMessage>, ss: seq<BlindSignature>, o: BlindedMessage)
    requires |os| == |ss|
    ensures o in os <==> exists s :: (o, s) in multiset(Zip(os, ss))
  {
    if o in os {
      var i :| 0 <= i < |os| && os[i] == o;
      assert Zip(os, ss)[i] == (o, ss[i]);
    }
    if s :| (o, s) in multiset(Zip(os, ss)) {
      ZipMember(os, ss, (o, s));
    }
  }

  /** A reordered reply to distinct outputs matches to the original signatures, in the original order. */
  lemma ReorderingIsUndone(r: RestoreResponse, os: seq<BlindedMessage>, ss: seq<BlindSignature>)
    requires |os| == |ss| && Distinct(os) && Reorders(r, os, ss)
    ensures Matched(r, os) == Some(ss)
  {
    assert |r.outputs| == |os| by {
      assert |multiset(Zip(r.outputs, r.signatures))| == |multiset(Zip(os, ss))|;
    }
    forall o ensures o in r.outputs <==> o in os {
      ZipOutputs(os, ss, o);
      ZipOutputs(r.outputs, r.signatures, o);
    }
    SameSizeSameMembers(r.outputs, os);
    assert Covers(r, os);
    forall i | 0 <= i < |os| ensures SignatureFor(r, os[i]) == ss[i] {
      var k := IndexOf(r.outputs, os[i]);
      assert Zip(r.outputs, r.signatures)[k] == (os[i], r.signatures[k]);
      assert (os[i], r.signatures[k]) in multiset(Zip(os, ss));
      ZipMember(os, ss, (os[i], r.signatures[k]));
    }
    assert Matched(r, os).value == ss;
  }

  /** A list as long as a duplicate-free list and with the same members is a rearrangement of it. */
  lemma SameSizeSameMembers(xs: seq<BlindedMessage>, ys: seq<BlindedMessage>)
    requires |xs| == |ys| && Distinct(ys) && forall x :: x in xs <==> x in ys
    ensures multiset(xs) == multiset(ys)
  {
    DistinctSize(ys);
    assert (set x | x in xs) == (set y | y in ys);
    FullSizeDistinct(xs);
    DistinctMultiset(xs);
    DistinctMultiset(ys);
  }

  lemma {:induction false} MembersAtMost<T(!new)>(xs: seq<T>)
    ensures |set x | x in xs| <= |xs|
  {
    if xs != [] {
      var n := |xs| - 1;
      MembersAtMost(xs[..n]);
      assert (set x | x in xs) == (set x | x in xs[..n]) + {xs[n]};
    }
  }

  lemma OneMore<T>(s: set<T>, x: T)
    ensures |s + {x}| == |s| + if x in s then 0 else 1
  {
    if x in s {
      assert s + {x} == s;
    }
  }

  lemma {:induction false} FullSizeDistinct<T(!new)>(xs: seq<T>)
    requires |set x | x in xs| == |xs|
    ensures Distinct(xs)
  {
    if xs != [] {
      var n := |xs| - 1;
      var front := set x | x in xs[..n];
      MembersAtMost(xs[..n]);
      assert (set x | x in xs) == front + {xs[n]};
      OneMore(front, xs[n]);
      FullSizeDistinct(xs[..n]);
      forall i, j | 0 <= i < j < |xs| ensures xs[i] != xs[j] {
        assert j == n ==> xs[..n][i] in front;
      }
    }
  }
}
