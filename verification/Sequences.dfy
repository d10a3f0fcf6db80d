/** Small facts about prefixes of sequences, kept apart so that their proofs stay cheap. */
module Sequences {
  import opened Options

  lemma TakeNext<T>(s: seq<T>, i: nat)
    requires i < |s|
    ensures s[..i + 1] == s[..i] + [s[i]]
  {}

  lemma TakeAll<T>(s: seq<T>)
    ensures s[..|s|] == s
  {}

  lemma TakeFront<T>(s: seq<T>, x: T)
    ensures (s + [x])[..|s|] == s
    ensures (s + [x])[|s|] == x
  {}

  lemma TakeTake<T>(s: seq<T>, i: nat, j: nat)
    requires i <= j <= |s|
    ensures s[..j][..i] == s[..i]
  {}

  lemma TakeMore<T>(s: seq<T>, i: nat, j: nat)
    requires i <= j <= |s|
    ensures s[..i] + s[i..j] == s[..j]
  {}

  lemma SplitLast<T>(s: seq<T>)
    requires s != []
    ensures s == s[..|s| - 1] + [s[|s| - 1]]
  {}

  lemma AppendAssociates<T>(a: seq<T>, b: seq<T>, c: seq<T>)
    ensures a + b + c == a + (b + c)
  {}

  function Filter<T(!new)>(keep: T -> bool, s: seq<T>): (r: seq<T>)
    ensures forall x :: x in r <==> x in s && keep(x)
    ensures |r| <= |s|
  {
    if s == [] then []
    else
      assert s == s[..|s| - 1] + [s[|s| - 1]];
      Filter(keep, s[..|s| - 1]) + if keep(s[|s| - 1]) then [s[|s| - 1]] else []
  }

  lemma {:induction false} SameFilter<T(!new)>(p: T -> bool, q: T -> bool, s: seq<T>)
    requires forall x | x in s :: p(x) == q(x)
    ensures Filter(p, s) == Filter(q, s)
  {
    if s != [] {
      SameFilter(p, q, s[..|s| - 1]);
    }
  }

  lemma FilterPush<T(!new)>(keep: T -> bool, s: seq<T>, x: T)
    ensures Filter(keep, s + [x]) == Filter(keep, s) + if keep(x) then [x] else []
  {
    TakeFront(s, x);
  }

  function Map<T, K>(key: T -> K, s: seq<T>): (r: seq<K>)
    ensures |r| == |s|
    ensures forall i | 0 <= i < |s| :: r[i] == key(s[i])
  {
    seq(|s|, i requires 0 <= i < |s| => key(s[i]))
  }

  lemma MapCons<T, K>(key: T -> K, x: T, s: seq<T>)
    ensures Map(key, [x] + s) == [key(x)] + Map(key, s)
  {}

  lemma MapTail<T, K>(key: T -> K, s: seq<T>)
    requires s != []
    ensures Map(key, s)[1..] == Map(key, s[1..])
  {}

  lemma MapPush<T, K>(key: T -> K, s: seq<T>, x: T)
    ensures Map(key, s + [x]) == Map(key, s) + [key(x)]
  {}

  lemma KeyOfMember<T(!new), K>(key: T -> K, s: seq<T>, k: K)
    ensures k in Map(key, s) <==> exists x | x in s :: key(x) == k
  {
    if k in Map(key, s) {
      var i :| 0 <= i < |s| && Map(key, s)[i] == k;
      assert s[i] in s;
    }
    if x :| x in s && key(x) == k {
      var i :| 0 <= i < |s| && s[i] == x;
      assert Map(key, s)[i] == k;
    }
  }

  /** The last element with this id, as in a map built from the list. */
  function FindLast<T(!new)>(key: T -> string, s: seq<T>, id: string): (r: Option<T>)
    ensures r.Some? <==> exists x | x in s :: key(x) == id
    ensures r.Some? ==> r.value in s && key(r.value) == id
  {
    if s == [] then None
    else if key(s[|s| - 1]) == id then Some(s[|s| - 1])
    else
      var r := FindLast(key, s[..|s| - 1], id);
      assert s == s[..|s| - 1] + [s[|s| - 1]];
      r
  }
}
