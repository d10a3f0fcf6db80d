/** Sums over lists, and that they do not depend on the order of the list. */
module Sums {
  import opened Sequences
  import Sorting

  function Sum<T>(select: T -> int, s: seq<T>): int {
    if s == [] then 0 else Sum(select, s[..|s| - 1]) + select(s[|s| - 1])
  }

  lemma SumPush<T>(select: T -> int, s: seq<T>, x: T)
    ensures Sum(select, s + [x]) == Sum(select, s) + select(x)
  {
    TakeFront(s, x);
  }

  lemma {:induction false} SumOfParts<T>(select: T -> int, a: seq<T>, b: seq<T>)
    ensures Sum(select, a + b) == Sum(select, a) + Sum(select, b)
  {
    if b == [] {
      assert a + b == a;
    } else {
      var front, last := b[..|b| - 1], b[|b| - 1];
      SplitLast(b);
      AppendAssociates(a, front, [last]);
      SumOfParts(select, a, front);
      SumPush(select, a + front, last);
    }
  }

  function Without<T>(s: seq<T>, i: nat): seq<T>
    requires i < |s|
  {
    s[..i] + s[i + 1..]
  }

  lemma WithoutMultiset<T>(s: seq<T>, i: nat)
    requires i < |s|
    ensures s == s[..i] + ([s[i]] + s[i + 1..])
    ensures multiset(Without(s, i)) == multiset(s) - multiset{s[i]}
  {
    assert s == s[..i] + ([s[i]] + s[i + 1..]);
  }

  lemma SumWithout<T>(select: T -> int, s: seq<T>, i: nat)
    requires i < |s|
    ensures Sum(select, s) == Sum(select, Without(s, i)) + select(s[i])
  {
    WithoutMultiset(s, i);
    SumOfParts(select, s[..i], [s[i]] + s[i + 1..]);
    SumOfParts(select, [s[i]], s[i + 1..]);
    SumOfParts(select, s[..i], s[i + 1..]);
    assert [s[i]] == [] + [s[i]];
    SumPush(select, [], s[i]);
  }

  lemma {:induction false} SumPermuted<T>(select: T -> int, a: seq<T>, b: seq<T>)
    requires multiset(a) == multiset(b)
    ensures Sum(select, a) == Sum(select, b)
  {
    assert |multiset(a)| == |a| && |multiset(b)| == |b|;
    if a != [] {
      var n := |a| - 1;
      Sorting.InMultiset(a, a[n]);
      Sorting.InMultiset(b, a[n]);
      var j :| 0 <= j < |b| && b[j] == a[n];
      WithoutMultiset(a, n);
      WithoutMultiset(b, j);
      SumWithout(select, a, n);
      SumWithout(select, b, j);
      assert Without(a, n) == a[..n];
      SumPermuted(select, a[..n], Without(b, j));
    }
  }
}
