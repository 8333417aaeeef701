/** Mapping, summing and sorting sequences, and what permuting them leaves unchanged. */
module Sequences {
  import opened Ordering

  function Map<T, U>(f: T -> U, s: seq<T>): (r: seq<U>)
    ensures |r| == |s|
    ensures forall k | 0 <= k < |s| :: r[k] == f(s[k])
  {
    if s == [] then [] else [f(s[0])] + Map(f, s[1..])
  }

  function Sum(s: seq<nat>): nat {
    if s == [] then 0 else s[0] + Sum(s[1..])
  }

  lemma {:induction false} SumAppend(s: seq<nat>, n: nat)
    ensures Sum(s + [n]) == Sum(s) + n
  {
    if s == [] {
      assert s + [n] == [n];
    } else {
      SumAppend(s[1..], n);
      assert (s + [n])[1..] == s[1..] + [n];
    }
  }

  lemma {:induction false} SumPrefix(s: seq<nat>, n: nat)
    requires n <= |s|
    ensures Sum(s[..n]) <= Sum(s)
  {
    if n > 0 {
      SumPrefix(s[1..], n - 1);
      assert s[..n][1..] == s[1..][..n - 1];
    }
  }

  lemma {:induction false} SumRemove(s: seq<nat>, i: nat)
    requires i < |s|
    ensures Sum(s) == s[i] + Sum(s[..i] + s[i + 1..])
  {
    if i == 0 {
      assert s[..0] + s[1..] == s[1..];
    } else {
      SumRemove(s[1..], i - 1);
      assert (s[..i] + s[i + 1..])[1..] == s[1..][..i - 1] + s[1..][i..];
    }
  }

  lemma {:induction false} RemoveMultiset<T>(s: seq<T>, i: nat)
    requires i < |s|
    ensures multiset(s[..i] + s[i + 1..]) == multiset(s) - multiset{s[i]}
  {
    assert s == s[..i] + [s[i]] + s[i + 1..];
  }

  lemma {:induction false} SameFirst<T>(a: seq<T>, b: seq<T>) returns (i: nat)
    requires multiset(a) == multiset(b) && a != []
    ensures i < |b| && b[i] == a[0]
    ensures multiset(a[1..]) == multiset(b[..i] + b[i + 1..])
  {
    assert a[0] in multiset(b);
    i :| 0 <= i < |b| && b[i] == a[0];
    RemoveMultiset(b, i);
    assert a == [a[0]] + a[1..];
  }

  lemma {:induction false} EmptyMultiset<T>(a: seq<T>, b: seq<T>)
    requires multiset(a) == multiset(b) && a == []
    ensures b == []
  {
    assert |multiset(b)| == |b|;
  }

  lemma {:induction false} SumPermuted(a: seq<nat>, b: seq<nat>)
    requires multiset(a) == multiset(b)
    ensures Sum(a) == Sum(b)
  {
    if a == [] {
      EmptyMultiset(a, b);
    } else {
      var i := SameFirst(a, b);
      SumPermuted(a[1..], b[..i] + b[i + 1..]);
      SumRemove(b, i);
    }
  }

  lemma {:induction false} MapConcat<T, U>(f: T -> U, a: seq<T>, b: seq<T>)
    ensures Map(f, a + b) == Map(f, a) + Map(f, b)
  {
    hide Map;
    var l, r := Map(f, a + b), Map(f, a) + Map(f, b);
    forall k | 0 <= k < |l| ensures l[k] == r[k] {
      assert (a + b)[k] == (if k < |a| then a[k] else b[k - |a|]);
    }
  }

  lemma {:induction false} MapRemove<T, U>(f: T -> U, s: seq<T>, i: nat)
    requires i < |s|
    ensures multiset(Map(f, s)) == multiset(Map(f, s[..i] + s[i + 1..])) + multiset{f(s[i])}
  {
    assert Map(f, [s[i]]) == [f(s[i])];
    hide Map;
    var a, b := s[..i], s[i + 1..];
    assert s == a + ([s[i]] + b);
    MapConcat(f, a, [s[i]] + b);
    MapConcat(f, [s[i]], b);
    MapConcat(f, a, b);
  }

  lemma {:induction false} MapMultiset<T, U>(f: T -> U, a: seq<T>, b: seq<T>)
    requires multiset(a) == multiset(b)
    ensures multiset(Map(f, a)) == multiset(Map(f, b))
  {
    if a == [] {
      EmptyMultiset(a, b);
    } else {
      hide Map;
      var i := SameFirst(a, b);
      MapMultiset(f, a[1..], b[..i] + b[i + 1..]);
      MapRemove(f, a, 0);
      MapRemove(f, b, i);
      assert a[..0] + a[1..] == a[1..];
    }
  }

  lemma {:induction false} MapAppend<T, U>(f: T -> U, s: seq<T>, x: T)
    ensures Map(f, s + [x]) == Map(f, s) + [f(x)]
  {
  }

  /** Sorting and then projecting is projecting and then sorting, if the key is kept. */
  lemma {:induction false} SortByMap<T(!new), U>(key: T -> string, proj: T -> U, projKey: U -> string, s: seq<T>)
    requires forall x :: projKey(proj(x)) == key(x)
    ensures Map(proj, SortBy(key, s)) == SortBy(projKey, Map(proj, s))
  {
    if s != [] {
      SortByMap(key, proj, projKey, s[1..]);
      InsertByMap(key, proj, projKey, s[0], SortBy(key, s[1..]));
    }
  }

  lemma {:induction false} InsertByMap<T(!new), U>(key: T -> string, proj: T -> U, projKey: U -> string, x: T, s: seq<T>)
    requires forall y :: projKey(proj(y)) == key(y)
    ensures Map(proj, InsertBy(key, x, s)) == InsertBy(projKey, proj(x), Map(proj, s))
  {
    if s != [] && !Less(key(x), key(s[0])) {
      InsertByMap(key, proj, projKey, x, s[1..]);
      var rest := InsertBy(key, x, s[1..]);
      assert ([s[0]] + rest)[1..] == rest;
    } else {
      assert ([x] + s)[1..] == s;
    }
  }
}
