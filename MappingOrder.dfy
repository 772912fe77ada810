/**
 `WordMappingComparer`: the order in which the phrase table keeps and visits
 its source phrases.  Longer phrases come first; phrases of equal length are
 ordered by string comparison, modelled here as ordinal comparison.
 */
module MappingOrder {

  /** `String.CompareOrdinal`: the difference of the first differing
      characters, or of the lengths when one string is a prefix of the other. */
  function OrdinalCompare(x: string, y: string): int
    decreases |x|
  {
    if x == [] || y == [] then |x| - |y|
    else if x[0] != y[0] then x[0] as int - y[0] as int
    else OrdinalCompare(x[1..], y[1..])
  }

  /** `WordMappingComparer.Compare`. */
  function Compare(x: string, y: string): int {
    if |x| == |y| then OrdinalCompare(x, y) else |y| - |x|
  }

  /** `x` is visited before `y`. */
  predicate Less(x: string, y: string) {
    Compare(x, y) < 0
  }

  lemma {:induction false} OrdinalCompareZeroIff(x: string, y: string)
    ensures OrdinalCompare(x, y) == 0 <==> x == y
    decreases |x|
  {
    if x != [] && y != [] && x[0] == y[0] {
      OrdinalCompareZeroIff(x[1..], y[1..]);
      assert x == [x[0]] + x[1..] && y == [y[0]] + y[1..];
    }
  }

  lemma {:induction false} OrdinalCompareAntisymmetric(x: string, y: string)
    ensures OrdinalCompare(x, y) == -OrdinalCompare(y, x)
    decreases |x|
  {
    if x != [] && y != [] && x[0] == y[0] {
      OrdinalCompareAntisymmetric(x[1..], y[1..]);
    }
  }

  lemma {:induction false} OrdinalCompareTransitive(x: string, y: string, z: string)
    requires OrdinalCompare(x, y) < 0 && OrdinalCompare(y, z) < 0
    ensures OrdinalCompare(x, z) < 0
    decreases |x|
  {
    if x != [] && y != [] && z != [] && x[0] == y[0] && y[0] == z[0] {
      OrdinalCompareTransitive(x[1..], y[1..], z[1..]);
    }
  }

  /** The comparer answers 0 exactly for equal strings: keys are unique under it. */
  lemma CompareZeroIff(x: string, y: string)
    ensures Compare(x, y) == 0 <==> x == y
  {
    OrdinalCompareZeroIff(x, y);
  }

  /** Swapping the arguments flips the sign of the answer. */
  lemma CompareAntisymmetric(x: string, y: string)
    ensures Compare(x, y) == -Compare(y, x)
  {
    OrdinalCompareAntisymmetric(x, y);
  }

  lemma LessIrreflexive(x: string)
    ensures !Less(x, x)
  {
    CompareZeroIff(x, x);
  }

  lemma LessAsymmetric(x: string, y: string)
    requires Less(x, y)
    ensures !Less(y, x)
  {
    CompareAntisymmetric(x, y);
  }

  lemma LessTransitive(x: string, y: string, z: string)
    requires Less(x, y) && Less(y, z)
    ensures Less(x, z)
  {
    if |x| == |y| == |z| {
      OrdinalCompareTransitive(x, y, z);
    }
  }

  /** Any two different strings are ordered one way or the other. */
  lemma LessTotal(x: string, y: string)
    requires x != y
    ensures Less(x, y) || Less(y, x)
  {
    CompareZeroIff(x, y);
    CompareAntisymmetric(x, y);
  }

  /** The order is length first (longer first), then ordinal comparison. */
  lemma LessIsLengthThenOrdinal(x: string, y: string)
    ensures Less(x, y) <==> |x| > |y| || (|x| == |y| && OrdinalCompare(x, y) < 0)
  {
  }

  /** Strictly increasing under `Less`: sorted and free of duplicates. */
  predicate StrictlySorted(s: seq<string>) {
    forall i, j :: 0 <= i < j < |s| ==> Less(s[i], s[j])
  }

  /** Insertion of `x` into a sorted sequence at its place in the order. */
  function InsertSorted(s: seq<string>, x: string): (r: seq<string>)
    ensures |r| == |s| + 1
    ensures forall y :: y in r <==> y in s || y == x
  {
    if s == [] then [x]
    else if Less(x, s[0]) then [x] + s
    else [s[0]] + InsertSorted(s[1..], x)
  }

  lemma {:induction false} InsertSortedSorted(s: seq<string>, x: string)
    requires StrictlySorted(s) && x !in s
    ensures StrictlySorted(InsertSorted(s, x))
  {
    if s == [] {
    } else if Less(x, s[0]) {
      forall j | 1 <= j < |s| + 1 ensures Less(x, ([x] + s)[j]) {
        if j > 1 {
          LessTransitive(x, s[0], s[j - 1]);
        }
      }
    } else {
      var t := InsertSorted(s[1..], x);
      InsertSortedSorted(s[1..], x);
      LessTotal(x, s[0]);
      forall j | 0 <= j < |t| ensures Less(s[0], t[j]) {
        assert t[j] in t;
        if t[j] != x {
          var k :| 0 <= k < |s[1..]| && s[1..][k] == t[j];
          assert s[k + 1] == t[j];
        }
      }
    }
  }

  /** `InsertSorted` puts `x` after the elements that precede it and before
      the first one that does not. */
  lemma {:induction false} InsertSortedAt(s: seq<string>, x: string, j: nat)
    requires j <= |s| && x !in s
    requires forall i :: 0 <= i < j ==> Less(s[i], x)
    requires j < |s| ==> !Less(s[j], x)
    ensures InsertSorted(s, x) == s[..j] + [x] + s[j..]
  {
    if j == 0 {
      if s != [] {
        assert s[0] in s;
        LessTotal(x, s[0]);
      }
    } else {
      LessAsymmetric(s[0], x);
      InsertSortedAt(s[1..], x, j - 1);
      assert s[..j] == [s[0]] + s[1..][..j - 1];
      assert s[j..] == s[1..][j - 1..];
    }
  }

  /** A strictly sorted sequence is determined by its elements: the order in
      which keys are visited depends only on which keys there are, not on the
      order in which they were added. */
  lemma {:induction false} SortedUnique(a: seq<string>, b: seq<string>)
    requires StrictlySorted(a) && StrictlySorted(b)
    requires forall y :: y in a <==> y in b
    ensures a == b
    decreases |a|
  {
    assert a != [] ==> a[0] in b;
    assert b != [] ==> b[0] in a;
    if a != [] && b != [] {
      if a[0] != b[0] {
        assert b[0] in b && a[0] in a;
        var i :| 0 <= i < |a| && a[i] == b[0];
        var j :| 0 <= j < |b| && b[j] == a[0];
        assert Less(a[0], a[i]);
        assert Less(b[0], b[j]);
        LessAsymmetric(a[0], b[0]);
      }
      forall y ensures y in a[1..] <==> y in b[1..] {
        if y in a[1..] {
          var i :| 1 <= i < |a| && a[i] == y;
          LessIrreflexive(a[0]);
          assert y != a[0];
          assert y in b;
        }
        if y in b[1..] {
          var j :| 1 <= j < |b| && b[j] == y;
          LessIrreflexive(b[0]);
          assert y != b[0];
          assert y in a;
        }
      }
      SortedUnique(a[1..], b[1..]);
      assert a == [a[0]] + a[1..] && b == [b[0]] + b[1..];
    }
  }
}
