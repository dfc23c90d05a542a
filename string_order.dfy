/**
  The order in which Go's `sort.Strings` arranges strings, and an in-place sort with
  that method's contract. Go compares strings byte by byte; for well-formed UTF-8 that
  is the order of code points, which is the lexicographic order on `char`s used here.
*/
module StringOrder {

  /** Strict lexicographic order: `a` is a proper prefix of `b`, or smaller at the first difference. */
  predicate Below(a: string, b: string) {
    if |a| == 0 then |b| > 0
    else |b| > 0 && (a[0] < b[0] || (a[0] == b[0] && Below(a[1..], b[1..])))
  }

  /** `a <= b`, Go's `!(b < a)`. */
  predicate AtMost(a: string, b: string) {
    !Below(b, a)
  }

  lemma {:induction false} BelowIrreflexive(a: string)
    ensures !Below(a, a)
  {
    if |a| > 0 {
      BelowIrreflexive(a[1..]);
    }
  }

  lemma {:induction false} BelowTransitive(a: string, b: string, c: string)
    requires Below(a, b) && Below(b, c)
    ensures Below(a, c)
  {
    if |a| > 0 && a[0] == b[0] && b[0] == c[0] {
      BelowTransitive(a[1..], b[1..], c[1..]);
    }
  }

  /** Any two different strings are ordered one way or the other. */
  lemma {:induction false} BelowTotal(a: string, b: string)
    ensures a == b || Below(a, b) || Below(b, a)
  {
    if |a| > 0 && |b| > 0 && a[0] == b[0] {
      BelowTotal(a[1..], b[1..]);
      if a[1..] == b[1..] {
        assert a == [a[0]] + a[1..] && b == [b[0]] + b[1..];
      }
    }
  }

  lemma BelowAsymmetric(a: string, b: string)
    requires Below(a, b)
    ensures !Below(b, a)
  {
    if Below(b, a) {
      BelowTransitive(a, b, a);
      BelowIrreflexive(a);
    }
  }

  lemma AtMostTransitive(a: string, b: string, c: string)
    requires AtMost(a, b) && AtMost(b, c)
    ensures AtMost(a, c)
  {
    BelowTotal(a, b);
    BelowTotal(b, c);
    if a != b && b != c {
      BelowTransitive(a, b, c);
      BelowAsymmetric(a, c);
    }
  }

  /** Ascending, as `sort.Strings` leaves a slice. */
  ghost predicate Sorted(s: seq<string>) {
    forall i, j :: 0 <= i < j < |s| ==> AtMost(s[i], s[j])
  }

  /** Ascending without repetition. */
  ghost predicate StrictlySorted(s: seq<string>) {
    forall i, j :: 0 <= i < j < |s| ==> Below(s[i], s[j])
  }

  /** Sorting a sequence without repeated elements leaves it strictly ascending. */
  lemma SortedDistinct(s: seq<string>)
    requires Sorted(s)
    requires forall i, j :: 0 <= i < j < |s| ==> s[i] != s[j]
    ensures StrictlySorted(s)
  {
    forall i, j | 0 <= i < j < |s| ensures Below(s[i], s[j]) {
      BelowTotal(s[i], s[j]);
    }
  }

  /** Two strictly ascending sequences with the same elements are the same sequence. */
  lemma {:induction false} StrictlySortedUnique(s: seq<string>, t: seq<string>)
    requires StrictlySorted(s) && StrictlySorted(t)
    requires forall x :: x in s <==> x in t
    ensures s == t
    decreases |s|
  {
    assert |s| > 0 ==> s[0] in t;
    assert |t| > 0 ==> t[0] in s;
    if |s| > 0 && |t| > 0 {
      var i :| 0 <= i < |s| && s[i] == t[0];
      var j :| 0 <= j < |t| && t[j] == s[0];
      if i > 0 && j > 0 {
        // s[0] < s[i] == t[0] < t[j] == s[0]
        BelowTransitive(s[0], t[0], s[0]);
        BelowIrreflexive(s[0]);
      }
      assert s[0] == t[0] by {
        if i == 0 { } else { assert j == 0; }
      }
      forall x ensures x in s[1..] <==> x in t[1..] {
        if x in s[1..] {
          var k :| 1 <= k < |s| && s[k] == x;
          BelowIrreflexive(x);
          assert x != s[0];
          assert x in t;
        }
        if x in t[1..] {
          var k :| 1 <= k < |t| && t[k] == x;
          BelowIrreflexive(x);
          assert x != t[0];
          assert x in s;
        }
      }
      StrictlySortedUnique(s[1..], t[1..]);
      assert s == [s[0]] + s[1..] && t == [t[0]] + t[1..];
    }
  }

  /**
    Sorts `a` in place into ascending order (insertion sort; `sort.Strings` promises the
    same outcome): the result is sorted and a permutation of the input.
  */
  method SortStrings(a: array<string>)
    modifies a
    ensures Sorted(a[..])
    ensures multiset(a[..]) == multiset(old(a[..]))
  {
    var i := 0;
    while i < a.Length
      invariant 0 <= i <= a.Length
      invariant forall p, q :: 0 <= p < q < i ==> AtMost(a[p], a[q])
      invariant multiset(a[..]) == multiset(old(a[..]))
    {
      InsertInto(a, i);
      i := i + 1;
    }
  }

  /** Moves `a[i]` left into the sorted prefix `a[..i]`, leaving `a[..i + 1]` sorted. */
  method InsertInto(a: array<string>, i: nat)
    requires i < a.Length
    requires forall p, q :: 0 <= p < q < i ==> AtMost(a[p], a[q])
    modifies a
    ensures forall p, q :: 0 <= p < q <= i ==> AtMost(a[p], a[q])
    ensures multiset(a[..]) == multiset(old(a[..]))
    ensures a[i + 1..] == old(a[i + 1..])
  {
    var j := i;
    while j > 0 && Below(a[j], a[j - 1])
      invariant 0 <= j <= i
      invariant forall p, q :: 0 <= p < q <= i && p != j && q != j ==> AtMost(a[p], a[q])
      invariant forall q :: j < q <= i ==> Below(a[j], a[q])
      invariant multiset(a[..]) == multiset(old(a[..]))
      invariant a[i + 1..] == old(a[i + 1..])
    {
      SwapDown(a, j);
      j := j - 1;
    }
    forall p, q | 0 <= p < q <= i ensures AtMost(a[p], a[q]) {
      if q == j && p < j - 1 {
        AtMostTransitive(a[p], a[j - 1], a[j]);
      } else if p == j {
        BelowAsymmetric(a[j], a[q]);
      }
    }
  }

  /** Exchanges `a[j - 1]` and `a[j]`. */
  method SwapDown(a: array<string>, j: nat)
    requires 0 < j < a.Length
    modifies a
    ensures a[..] == old(a[..])[j - 1 := old(a[j])][j := old(a[j - 1])]
    ensures multiset(a[..]) == multiset(old(a[..]))
  {
    a[j - 1], a[j] := a[j], a[j - 1];
  }
}
