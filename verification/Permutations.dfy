/** Lists that hold the same elements in different orders. */
module Permutations {
  predicate Permuted<T(==)>(s: seq<T>, t: seq<T>) {
    multiset(s) == multiset(t)
  }

  predicate NoRepeat<T(==)>(s: seq<T>) {
    forall i, k | 0 <= i < k < |s| :: s[i] != s[k]
  }

  function Each<S, T>(f: S -> T, s: seq<S>): (t: seq<T>)
    ensures |t| == |s|
  {
    seq(|s|, i requires 0 <= i < |s| => f(s[i]))
  }

  function Without<T>(s: seq<T>, i: nat): seq<T>
    requires i < |s|
  {
    s[..i] + s[i + 1..]
  }

  lemma TakeOut<T>(s: seq<T>, i: nat)
    requires i < |s|
    ensures s == s[..i] + [s[i]] + s[i + 1..]
    ensures multiset(s) == multiset(Without(s, i)) + multiset{s[i]}
  {
    assert s == s[..i] + [s[i]] + s[i + 1..];
  }

  /** Where the last element of one order stands in the other, and that the rests are orders of each other. */
  lemma LastElsewhere<T>(s: seq<T>, t: seq<T>) returns (i: nat)
    requires Permuted(s, t) && s != []
    ensures i < |t| && t[i] == s[|s| - 1] && Permuted(s[..|s| - 1], Without(t, i))
  {
    var n := |s| - 1;
    assert s == s[..n] + [s[n]];
    assert s[n] in multiset(t);
    i :| i < |t| && t[i] == s[n];
    TakeOut(t, i);
    assert multiset(s[..n]) == multiset(s) - multiset{s[n]} == multiset(Without(t, i));
  }

  lemma SameLength<T>(s: seq<T>, t: seq<T>)
    requires Permuted(s, t)
    ensures |s| == |t|
  {
    assert |multiset(s)| == |multiset(t)|;
  }

  lemma SameElements<T(!new)>(s: seq<T>, t: seq<T>)
    requires Permuted(s, t)
    ensures forall x :: x in s <==> x in t
  {
    forall x ensures x in s <==> x in t { assert x in multiset(s) <==> x in multiset(t); }
  }

  lemma {:induction false} EachPermuted<S, T>(f: S -> T, s: seq<S>, t: seq<S>)
    requires Permuted(s, t)
    ensures Permuted(Each(f, s), Each(f, t))
    decreases |s|
  {
    SameLength(s, t);
    if s != [] {
      var n := |s| - 1;
      var i := LastElsewhere(s, t);
      EachPermuted(f, s[..n], Without(t, i));
      EachLast(f, s);
      EachSplit(f, t, i);
    }
  }

  lemma EachLast<S, T>(f: S -> T, s: seq<S>)
    requires s != []
    ensures Each(f, s) == Each(f, s[..|s| - 1]) + [f(s[|s| - 1])]
  {}

  lemma EachSplit<S, T>(f: S -> T, t: seq<S>, i: nat)
    requires i < |t|
    ensures multiset(Each(f, t)) == multiset(Each(f, Without(t, i))) + multiset{f(t[i])}
  {
    TakeOut(Each(f, t), i);
    assert Without(Each(f, t), i) == Each(f, Without(t, i));
  }

  lemma NoRepeatCounts<T>(s: seq<T>, x: T)
    requires NoRepeat(s)
    ensures multiset(s)[x] <= 1
    decreases |s|
  {
    if s != [] {
      var n := |s| - 1;
      assert s == s[..n] + [s[n]];
      NoRepeatCounts(s[..n], x);
    }
  }

  lemma NoRepeatPermuted<T>(s: seq<T>, t: seq<T>)
    requires Permuted(s, t) && NoRepeat(s)
    ensures NoRepeat(t)
  {
    forall i, k | 0 <= i < k < |t| ensures t[i] != t[k] {
      if t[i] == t[k] {
        NoRepeatCounts(s, t[k]);
        TwiceCounted(t, i, k);
      }
    }
  }

  lemma TwiceCounted<T>(t: seq<T>, i: nat, k: nat)
    requires i < k < |t| && t[i] == t[k]
    ensures multiset(t)[t[k]] >= 2
  {
    TakeOut(t, k);
    assert t[i] in t[..k];
  }

  lemma TailsPermuted<T>(s: seq<T>, t: seq<T>)
    requires Permuted(s, t) && s != [] && t != [] && s[0] == t[0]
    ensures Permuted(s[1..], t[1..])
  {
    assert s == [s[0]] + s[1..] && t == [t[0]] + t[1..];
    assert multiset(s[1..]) == multiset(s) - multiset{s[0]} == multiset(t[1..]);
  }

  lemma Counterpart<T>(s: seq<T>, t: seq<T>, i: nat) returns (k: nat)
    requires Permuted(s, t) && i < |s|
    ensures k < |t| && t[k] == s[i]
  {
    assert s[i] in multiset(t);
    k :| k < |t| && t[k] == s[i];
  }
}
