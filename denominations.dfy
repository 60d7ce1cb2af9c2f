/** Qi denomination arithmetic (src/utils.ts). Qi is held as outputs of
    fixed denominations; an output records the index of its denomination in
    a table, and amounts are counted in Qit, the smallest unit. */
module Denominations {
  import opened Wrappers

  type Positive = x: nat | x > 0 witness 1

  /** `QI_UNITS`: 1 Qi = 1000 Qit, 1 kiloQi = 1000 Qi. */
  const QIT: nat := 1
  const QI: nat := 1000
  const KILO_QI: nat := 1000000

  /** The denomination table of the ledger library, in Qit. The source
      documents indices 0, 1, 2, 6 and 14 and the length 15; the other
      entries are positive placeholders and nothing below depends on them
      beyond their being positive. */
  const Table: seq<Positive> :=
    [1, 5, 10, 50, 100, 500, 1000, 5000, 10000, 50000,
     100000, 1000000, 10000000, 100000000, 1000000000]

  datatype DenominationError = InvalidIndex(index: int)

  predicate InRange(index: int) {
    0 <= index < |Table|
  }

  /** `getDenominationValue`: the guarded lookup that throws on an index
      outside the table. */
  function DenominationValue(index: int): (r: Result<Positive, DenominationError>)
    ensures r.Failure? <==> index < 0 || index >= 15
    ensures r.Failure? ==> r.error == InvalidIndex(index)
    ensures r.Success? ==> r.value == Table[index]
  {
    if index < 0 || index >= |Table| then Failure(InvalidIndex(index)) else Success(Table[index])
  }

  /** The documented entries of the table and the unit constants agree. */
  lemma DocumentedValues()
    ensures |Table| == 15
    ensures DenominationValue(0) == Success(1) && DenominationValue(1) == Success(5)
    ensures DenominationValue(2) == Success(10) && DenominationValue(6) == Success(1000)
    ensures DenominationValue(14) == Success(1000000000)
    ensures QI == 1000 * QIT && KILO_QI == 1000 * QI
    ensures Table[6] == QI && Table[14] == 1000 * KILO_QI
  {
  }

  /** What an index is worth when a missing table entry counts as nothing
      (`denominations[i] || 0n`). */
  function ValueOrZero(index: int): (v: nat)
    ensures v == 0 <==> !InRange(index)
  {
    if InRange(index) then Table[index] else 0
  }

  /** The value of a list of indices, out-of-range ones counting zero; the
      reference against which both the strict and the lenient sums are stated. */
  function LenientSum(indices: seq<int>): nat
  {
    if indices == [] then 0
    else LenientSum(indices[..|indices| - 1]) + ValueOrZero(indices[|indices| - 1])
  }

  lemma {:induction false} LenientSumAppend(a: seq<int>, b: seq<int>)
    ensures LenientSum(a + b) == LenientSum(a) + LenientSum(b)
    decreases |b|
  {
    if b == [] {
      assert a + b == a;
    } else {
      var c := b[..|b| - 1];
      assert (a + b)[..|a + b| - 1] == a + c;
      LenientSumAppend(a, c);
    }
  }

  /** The left-to-right view of `LenientSum`, which the strict fold follows. */
  lemma LenientSumCons(x: int, rest: seq<int>)
    ensures LenientSum([x] + rest) == ValueOrZero(x) + LenientSum(rest)
  {
    LenientSumAppend([x], rest);
    assert [x][..0] == [];
  }

  /** The index of the first out-of-range entry, where `reduce` stops. */
  predicate FirstInvalidAt(indices: seq<int>, i: int) {
    0 <= i < |indices| && !InRange(indices[i]) &&
    forall j :: 0 <= j < i ==> InRange(indices[j])
  }

  /** `indices.reduce((sum, idx) => sum + getDenominationValue(idx), acc)`:
      adds the entries left to right and throws at the first invalid one. */
  function Fold(acc: nat, indices: seq<int>): (r: Result<nat, DenominationError>)
    ensures r.Success? <==> forall j :: 0 <= j < |indices| ==> InRange(indices[j])
    ensures r.Success? ==> r.value == acc + LenientSum(indices)
    ensures r.Failure? ==>
      exists i :: FirstInvalidAt(indices, i) && r.error == InvalidIndex(indices[i])
    decreases |indices|
  {
    if indices == [] then Success(acc)
    else
      match DenominationValue(indices[0])
      case Failure(e) =>
        assert FirstInvalidAt(indices, 0);
        Failure(e)
      case Success(v) =>
        var rest := indices[1..];
        var r := Fold(acc + v, rest);
        LenientSumCons(indices[0], rest);
        assert indices == [indices[0]] + rest;
        assert forall j :: 0 < j < |indices| ==> indices[j] == rest[j - 1];
        assert r.Failure? ==> exists i :: FirstInvalidAt(indices, i) && r.error == InvalidIndex(indices[i]) by {
          if r.Failure? {
            var i :| FirstInvalidAt(rest, i) && r.error == InvalidIndex(rest[i]);
            assert FirstInvalidAt(indices, i + 1);
          }
        }
        r
  }

  /** `sumDenominations`: the total in Qit, or the error for the first
      out-of-range index. */
  function SumDenominations(indices: seq<int>): (r: Result<nat, DenominationError>)
    ensures r.Failure? <==> exists i :: 0 <= i < |indices| && !InRange(indices[i])
    ensures r.Success? ==> r.value == LenientSum(indices)
    ensures r.Failure? ==>
      exists i :: FirstInvalidAt(indices, i) && r.error == InvalidIndex(indices[i])
  {
    Fold(0, indices)
  }

  lemma SumOfNothing()
    ensures SumDenominations([]) == Success(0)
  {
  }

  /** Two 1 Qi outputs and one 10 Qit output make 2010 Qit. */
  lemma SumExample()
    ensures SumDenominations([6, 6, 2]) == Success(2010)
  {
    assert [6, 6, 2][..2] == [6, 6] && [6, 6][..1] == [6] && [6][..0] == [];
  }

  /** Splitting the fold: the second part starts from what the first produced. */
  lemma {:induction false} FoldAppend(acc: nat, a: seq<int>, b: seq<int>)
    ensures Fold(acc, a + b) ==
      match Fold(acc, a)
      case Failure(e) => Failure(e)
      case Success(v) => Fold(v, b)
    decreases |a|
  {
    if a == [] {
      assert a + b == b;
    } else {
      assert (a + b)[0] == a[0] && (a + b)[1..] == a[1..] + b;
      match DenominationValue(a[0])
      case Failure(_) =>
      case Success(v) => FoldAppend(acc + v, a[1..], b);
    }
  }

  /** The sum of a concatenation is the sum of the parts; it fails when either
      part fails, with the error of the first failing part. */
  lemma SumAppend(a: seq<int>, b: seq<int>)
    ensures SumDenominations(a).Success? && SumDenominations(b).Success? ==>
      SumDenominations(a + b) == Success(SumDenominations(a).value + SumDenominations(b).value)
    ensures SumDenominations(a).Failure? ==> SumDenominations(a + b) == SumDenominations(a)
    ensures SumDenominations(a).Success? && SumDenominations(b).Failure? ==>
      SumDenominations(a + b).Failure? && SumDenominations(a + b).error == SumDenominations(b).error
  {
    FoldAppend(0, a, b);
    var fa := Fold(0, a);
    if fa.Success? {
      var fb := Fold(fa.value, b);
      if fb.Success? {
        LenientSumAppend(a, b);
      } else {
        var i :| FirstInvalidAt(b, i) && fb.error == InvalidIndex(b[i]);
        var k :| FirstInvalidAt(b, k) && Fold(0, b).error == InvalidIndex(b[k]);
        FirstInvalidUnique(b, i, k);
      }
    }
  }

  lemma FirstInvalidUnique(s: seq<int>, i: int, k: int)
    requires FirstInvalidAt(s, i) && FirstInvalidAt(s, k)
    ensures i == k
  {
  }

  /** The lenient sum depends only on the multiset of indices. */
  lemma {:induction false} LenientSumPermutation(a: seq<int>, b: seq<int>)
    requires multiset(a) == multiset(b)
    ensures LenientSum(a) == LenientSum(b)
    decreases |a|
  {
    if a == [] {
      assert |b| == |multiset(b)| == 0;
    } else {
      var a' := a[..|a| - 1];
      var x := a[|a| - 1];
      assert a == a' + [x];
      assert x in multiset(b);
      var j :| 0 <= j < |b| && b[j] == x;
      var b' := b[..j] + b[j + 1..];
      assert b == b[..j] + [x] + b[j + 1..];
      assert multiset(b) == multiset(b') + multiset{x};
      assert multiset(a) == multiset(a') + multiset{x};
      calc {
        multiset(a');
        multiset(a) - multiset{x};
        multiset(b) - multiset{x};
        multiset(b');
      }
      LenientSumPermutation(a', b');
      LenientSumAppend(a', [x]);
      LenientSumAppend(b[..j] + [x], b[j + 1..]);
      LenientSumAppend(b[..j], [x]);
      LenientSumAppend(b[..j], b[j + 1..]);
      assert [x][..0] == [];
    }
  }

  /** The order of the indices does not matter: a permutation fails exactly
      when the original does and otherwise has the same total. (Which index
      the error names may differ, since it is the first invalid one.) */
  lemma SumPermutation(a: seq<int>, b: seq<int>)
    requires multiset(a) == multiset(b)
    ensures SumDenominations(a).Success? == SumDenominations(b).Success?
    ensures SumDenominations(a).Success? ==> SumDenominations(a).value == SumDenominations(b).value
  {
    if SumDenominations(a).Failure? {
      var i :| 0 <= i < |a| && !InRange(a[i]);
      assert a[i] in multiset(b);
    }
    if SumDenominations(b).Failure? {
      var i :| 0 <= i < |b| && !InRange(b[i]);
      assert b[i] in multiset(a);
    }
    LenientSumPermutation(a, b);
  }
}
