/**
 The .NET string primitives that the phrase dictionary relies on, modelled on
 `seq<char>`.  Every comparison here is ordinal: characters are compared by
 their code, with no culture rules.
 */
module StringOps {

  /** `Char.IsWhiteSpace`: the characters Unicode classifies as white space. */
  predicate IsWhiteSpace(c: char) {
    || ('\U{9}' <= c <= '\U{D}')
    || c == ' '
    || c == '\U{85}'
    || c == '\U{A0}'
    || c == '\U{1680}'
    || ('\U{2000}' <= c <= '\U{200A}')
    || c == '\U{2028}'
    || c == '\U{2029}'
    || c == '\U{202F}'
    || c == '\U{205F}'
    || c == '\U{3000}'
  }

  /** `String.IsNullOrWhiteSpace` on a non-null string: empty or white space only. */
  predicate IsNullOrWhiteSpace(s: string) {
    forall i :: 0 <= i < |s| ==> IsWhiteSpace(s[i])
  }

  /** `String.IndexOfAny` (and `String.IndexOf(char)` with a one-element set):
      the index of the first character of `s` that is in `cs`, or -1. */
  function IndexOfAny(s: string, cs: set<char>): (r: int)
    ensures -1 <= r < |s|
    ensures r == -1 <==> forall i :: 0 <= i < |s| ==> s[i] !in cs
    ensures 0 <= r ==> s[r] in cs && forall i :: 0 <= i < r ==> s[i] !in cs
  {
    if s == [] then -1
    else if s[0] in cs then 0
    else
      var r := IndexOfAny(s[1..], cs);
      if r == -1 then -1 else r + 1
  }

  /** Searching past a prefix that holds none of the characters. */
  lemma {:induction false} IndexOfAnyAfter(a: string, b: string, cs: set<char>)
    requires forall i :: 0 <= i < |a| ==> a[i] !in cs
    ensures IndexOfAny(a + b, cs) == if IndexOfAny(b, cs) == -1 then -1 else |a| + IndexOfAny(b, cs)
  {
    if a != [] {
      assert (a + b)[1..] == a[1..] + b;
      assert (a + b)[0] == a[0];
      IndexOfAnyAfter(a[1..], b, cs);
    } else {
      assert a + b == b;
    }
  }

  /** Ordinal `String.StartsWith`. */
  predicate StartsWith(s: string, prefix: string) {
    |prefix| <= |s| && s[..|prefix|] == prefix
  }

  /** `String.Contains`: `value` occurs in `s` at some position.  The empty
      string occurs in every string. */
  predicate Contains(s: string, value: string)
    decreases |s|
  {
    StartsWith(s, value) || (s != [] && Contains(s[1..], value))
  }

  /** `StringBuilder.Replace(oldValue, newValue)`: scanning left to right, every
      occurrence of `oldValue` that does not overlap an earlier replaced one is
      replaced by `newValue`; the inserted text is not scanned again.  The .NET
      method throws on an empty `oldValue`, so here it is a precondition. */
  function ReplaceAll(s: string, oldValue: string, newValue: string): string
    requires oldValue != []
    decreases |s|
  {
    if StartsWith(s, oldValue) then newValue + ReplaceAll(s[|oldValue|..], oldValue, newValue)
    else if s == [] then []
    else [s[0]] + ReplaceAll(s[1..], oldValue, newValue)
  }

  /** The number of occurrences `ReplaceAll` replaces. */
  function Replacements(s: string, oldValue: string): nat
    requires oldValue != []
    decreases |s|
  {
    if StartsWith(s, oldValue) then 1 + Replacements(s[|oldValue|..], oldValue)
    else if s == [] then 0
    else Replacements(s[1..], oldValue)
  }

  /** Text that does not hold the first character of the old value is copied. */
  lemma {:induction false} ReplaceAllCopies(a: string, b: string, oldValue: string, newValue: string)
    requires oldValue != [] && oldValue[0] !in a
    ensures ReplaceAll(a + b, oldValue, newValue) == a + ReplaceAll(b, oldValue, newValue)
    decreases |a|
  {
    if a != [] {
      assert (a + b)[0] == a[0] && (a + b)[1..] == a[1..] + b;
      assert a[0] in a;
      ReplaceAllCopies(a[1..], b, oldValue, newValue);
      assert a == [a[0]] + a[1..];
    } else {
      assert a + b == b;
    }
  }

  /** Text that does not hold the first character of the old value is unchanged. */
  lemma ReplaceAllFree(a: string, oldValue: string, newValue: string)
    requires oldValue != [] && oldValue[0] !in a
    ensures ReplaceAll(a, oldValue, newValue) == a
  {
    ReplaceAllCopies(a, [], oldValue, newValue);
    assert a + [] == a;
  }

  /** An occurrence at the start is replaced, and the scan goes on after it. */
  lemma ReplaceAllAtStart(b: string, oldValue: string, newValue: string)
    requires oldValue != []
    ensures ReplaceAll(oldValue + b, oldValue, newValue) == newValue + ReplaceAll(b, oldValue, newValue)
  {
    assert (oldValue + b)[..|oldValue|] == oldValue;
    assert (oldValue + b)[|oldValue|..] == b;
  }

  /** A character that does not start an occurrence is copied. */
  lemma ReplaceAllSkips(c: char, b: string, oldValue: string, newValue: string)
    requires oldValue != [] && !StartsWith([c] + b, oldValue)
    ensures ReplaceAll([c] + b, oldValue, newValue) == [c] + ReplaceAll(b, oldValue, newValue)
  {
    assert ([c] + b)[1..] == b;
  }

  /** An occurrence holds every character of the value. */
  lemma {:induction false} ContainsChar(s: string, value: string, c: nat)
    requires c < |value| && Contains(s, value)
    ensures value[c] in s
    decreases |s|
  {
    if StartsWith(s, value) {
      assert s[c] == value[c];
    } else {
      ContainsChar(s[1..], value, c);
      assert value[c] in s[1..];
    }
  }

  lemma {:induction false} ContainsItself(s: string)
    ensures Contains(s, s)
  {
    assert s[..|s|] == s;
  }

  /** Each replacement changes the length by the difference of the two values. */
  lemma {:induction false} ReplaceAllLength(s: string, oldValue: string, newValue: string)
    requires oldValue != []
    ensures |ReplaceAll(s, oldValue, newValue)| == |s| + Replacements(s, oldValue) * (|newValue| - |oldValue|)
    decreases |s|
  {
    if StartsWith(s, oldValue) {
      ReplaceAllLength(s[|oldValue|..], oldValue, newValue);
      var n := Replacements(s[|oldValue|..], oldValue);
      var d := |newValue| - |oldValue|;
      assert (1 + n) * d == d + n * d;
    } else if s != [] {
      ReplaceAllLength(s[1..], oldValue, newValue);
    }
  }

  /** The scan replaces something exactly when the old value occurs at all. */
  lemma {:induction false} ReplacementsPositive(s: string, oldValue: string)
    requires oldValue != []
    ensures Replacements(s, oldValue) > 0 <==> Contains(s, oldValue)
    decreases |s|
  {
    if StartsWith(s, oldValue) {
    } else if s != [] {
      ReplacementsPositive(s[1..], oldValue);
    }
  }

  /** Replacing a value that does not occur changes nothing. */
  lemma {:induction false} ReplaceAllAbsent(s: string, oldValue: string, newValue: string)
    requires oldValue != [] && !Contains(s, oldValue)
    ensures ReplaceAll(s, oldValue, newValue) == s
    decreases |s|
  {
    if s != [] {
      ReplaceAllAbsent(s[1..], oldValue, newValue);
    }
  }

  /** Replacing a value by itself changes nothing. */
  lemma {:induction false} ReplaceAllSame(s: string, value: string)
    requires value != []
    ensures ReplaceAll(s, value, value) == s
    decreases |s|
  {
    if StartsWith(s, value) {
      ReplaceAllSame(s[|value|..], value);
      assert s == s[..|value|] + s[|value|..];
    } else if s != [] {
      ReplaceAllSame(s[1..], value);
      assert s == [s[0]] + s[1..];
    }
  }

  /** `ReplaceAll` leaves the text as it was exactly when the old value does not
      occur in it or is replaced by itself. */
  lemma {:induction false} ReplaceAllUnchangedIff(s: string, oldValue: string, newValue: string)
    requires oldValue != []
    ensures ReplaceAll(s, oldValue, newValue) == s <==> (newValue == oldValue || !Contains(s, oldValue))
    decreases |s|
  {
    if newValue == oldValue {
      ReplaceAllSame(s, oldValue);
    } else if !Contains(s, oldValue) {
      ReplaceAllAbsent(s, oldValue, newValue);
    } else if |newValue| != |oldValue| {
      ReplaceAllLength(s, oldValue, newValue);
      ReplacementsPositive(s, oldValue);
      var n := Replacements(s, oldValue);
      var d := |newValue| - |oldValue|;
      assert n * d != 0;
    } else if StartsWith(s, oldValue) {
      var r := ReplaceAll(s, oldValue, newValue);
      assert r[..|oldValue|] == newValue;
    } else {
      ReplaceAllUnchangedIff(s[1..], oldValue, newValue);
      var r := ReplaceAll(s, oldValue, newValue);
      assert r[1..] == ReplaceAll(s[1..], oldValue, newValue);
    }
  }
}
