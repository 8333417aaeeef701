/** Strings in byte order, as sort.Strings and sort.Slice by path order them. */
module Ordering {

  predicate Less(a: string, b: string) {
    b != "" && (a == "" || a[0] < b[0] || (a[0] == b[0] && Less(a[1..], b[1..])))
  }

  lemma {:induction false} LessIsStrict(a: string, b: string)
    ensures !(Less(a, b) && Less(b, a))
    ensures !Less(a, a)
  {
    if a != "" {
      if b != "" {
        LessIsStrict(a[1..], b[1..]);
      } else {
        LessIsStrict(a[1..], b);
      }
    }
  }

  lemma {:induction false} LessIsTotal(a: string, b: string)
    ensures Less(a, b) || Less(b, a) || a == b
  {
    if a != "" && b != "" && a[0] == b[0] {
      LessIsTotal(a[1..], b[1..]);
      assert a == [a[0]] + a[1..] && b == [b[0]] + b[1..];
    }
  }

  lemma {:induction false} LessIsTransitive(a: string, b: string, c: string)
    requires Less(a, b) && Less(b, c)
    ensures Less(a, c)
  {
    if a != "" && a[0] == b[0] == c[0] {
      LessIsTransitive(a[1..], b[1..], c[1..]);
    }
  }

  function InsertBy<T>(key: T -> string, x: T, s: seq<T>): (r: seq<T>)
    ensures |r| == |s| + 1
  {
    if s == [] || Less(key(x), key(s[0])) then [x] + s
    else [s[0]] + InsertBy(key, x, s[1..])
  }

  /** Sorting by a key; the modelled code sorts only sequences with distinct keys. */
  function SortBy<T>(key: T -> string, s: seq<T>): (r: seq<T>)
    ensures |r| == |s|
  {
    if s == [] then [] else InsertBy(key, s[0], SortBy(key, s[1..]))
  }

  predicate SortedBy<T>(key: T -> string, s: seq<T>) {
    forall i, j | 0 <= i < j < |s| :: !Less(key(s[j]), key(s[i]))
  }

  predicate IncreasingBy<T>(key: T -> string, s: seq<T>) {
    forall i, j | 0 <= i < j < |s| :: Less(key(s[i]), key(s[j]))
  }

  ghost predicate DistinctBy<T>(key: T -> string, s: seq<T>) {
    forall i, j | 0 <= i < j < |s| :: key(s[i]) != key(s[j])
  }

  lemma {:induction false} InsertByMultiset<T>(key: T -> string, x: T, s: seq<T>)
    ensures multiset(InsertBy(key, x, s)) == multiset(s) + multiset{x}
  {
    if !(s == [] || Less(key(x), key(s[0]))) {
      InsertByMultiset(key, x, s[1..]);
      assert s == [s[0]] + s[1..];
    }
  }

  lemma {:induction false} SortByMultiset<T>(key: T -> string, s: seq<T>)
    ensures multiset(SortBy(key, s)) == multiset(s)
    ensures |SortBy(key, s)| == |s|
  {
    if s != [] {
      SortByMultiset(key, s[1..]);
      InsertByMultiset(key, s[0], SortBy(key, s[1..]));
      assert s == [s[0]] + s[1..];
    }
    assert |multiset(SortBy(key, s))| == |SortBy(key, s)|;
  }

  lemma {:induction false} InsertBySorts<T>(key: T -> string, x: T, s: seq<T>)
    requires SortedBy(key, s)
    ensures SortedBy(key, InsertBy(key, x, s))
  {
    if s == [] {
    } else if Less(key(x), key(s[0])) {
      forall j | 0 <= j < |s| ensures !Less(key(s[j]), key(x)) {
        LessIsStrict(key(x), key(s[0]));
        LessIsStrict(key(s[0]), key(s[0]));
        if Less(key(s[j]), key(x)) {
          LessIsTransitive(key(s[j]), key(x), key(s[0]));
        }
      }
    } else {
      InsertBySorts(key, x, s[1..]);
      var rest := InsertBy(key, x, s[1..]);
      InsertByMultiset(key, x, s[1..]);
      forall j | 0 <= j < |rest| ensures !Less(key(rest[j]), key(s[0])) {
        assert rest[j] in multiset(rest);
        assert rest[j] == x || rest[j] in s[1..];
      }
    }
  }

  lemma {:induction false} SortBySorts<T>(key: T -> string, s: seq<T>)
    ensures SortedBy(key, SortBy(key, s))
  {
    if s != [] {
      SortBySorts(key, s[1..]);
      InsertBySorts(key, s[0], SortBy(key, s[1..]));
    }
  }

  /** With distinct keys a sorted sequence increases strictly. */
  lemma {:induction false} SortedDistinct<T>(key: T -> string, s: seq<T>)
    requires SortedBy(key, s) && DistinctBy(key, s)
    ensures IncreasingBy(key, s)
  {
    forall i, j | 0 <= i < j < |s| ensures Less(key(s[i]), key(s[j])) {
      LessIsTotal(key(s[i]), key(s[j]));
    }
  }

  lemma {:induction false} SameLeast<T>(key: T -> string, a: seq<T>, b: seq<T>)
    requires IncreasingBy(key, a) && IncreasingBy(key, b) && multiset(a) == multiset(b) && a != [] && b != []
    ensures a[0] == b[0]
  {
    hide Less;
    assert a[0] in multiset(b) && b[0] in multiset(a);
    var i :| 0 <= i < |b| && b[i] == a[0];
    var j :| 0 <= j < |a| && a[j] == b[0];
    LessIsStrict(key(a[0]), key(b[0]));
  }

  /** A strictly increasing sequence is determined by its elements. */
  lemma {:induction false} IncreasingUnique<T>(key: T -> string, a: seq<T>, b: seq<T>)
    requires IncreasingBy(key, a) && IncreasingBy(key, b) && multiset(a) == multiset(b)
    ensures a == b
  {
    hide Less;
    assert |multiset(a)| == |a| && |multiset(b)| == |b|;
    if a != [] {
      SameLeast(key, a, b);
      assert a == [a[0]] + a[1..] && b == [b[0]] + b[1..];
      assert multiset(a[1..]) == multiset(a) - multiset{a[0]};
      IncreasingUnique(key, a[1..], b[1..]);
    }
  }

  /** Whether keys are distinct depends on the elements only, not on their order. */
  lemma {:induction false} DistinctPermuted<T>(key: T -> string, a: seq<T>, b: seq<T>)
    requires multiset(a) == multiset(b) && DistinctBy(key, a)
    ensures DistinctBy(key, b)
  {
    forall i, j | 0 <= i < j < |b| ensures key(b[i]) != key(b[j]) {
      if key(b[i]) == key(b[j]) {
        assert b[i] in multiset(a) && b[j] in multiset(a);
        assert b[i] in a && b[j] in a;
        assert b[i] == b[j];
        TwiceCounted(b, i, j);
        CountedTwice(a, b[i]);
      }
    }
  }

  lemma {:induction false} TwiceCounted<T>(s: seq<T>, i: nat, j: nat)
    requires i < j < |s| && s[i] == s[j]
    ensures multiset(s)[s[i]] >= 2
  {
    assert s == s[..i] + [s[i]] + s[i + 1..j] + [s[j]] + s[j + 1..];
  }

  lemma {:induction false} CountedTwice<T>(s: seq<T>, x: T)
    requires multiset(s)[x] >= 2
    ensures exists i, j :: 0 <= i < j < |s| && s[i] == x && s[j] == x
  {
    assert s == [s[0]] + s[1..];
    if s[0] == x {
      assert x in multiset(s[1..]);
      var j :| 0 <= j < |s[1..]| && s[1..][j] == x;
      assert s[0] == x && s[j + 1] == x;
    } else {
      CountedTwice(s[1..], x);
      var i, j :| 0 <= i < j < |s[1..]| && s[1..][i] == x && s[1..][j] == x;
      assert s[i + 1] == x && s[j + 1] == x;
    }
  }

  /** Sorting two permutations of the same distinct-keyed elements gives the same sequence. */
  lemma {:induction false} SortByCanonical<T>(key: T -> string, a: seq<T>, b: seq<T>)
    requires multiset(a) == multiset(b) && DistinctBy(key, a)
    ensures SortBy(key, a) == SortBy(key, b) && IncreasingBy(key, SortBy(key, a))
  {
    SortByMultiset(key, a);
    SortByMultiset(key, b);
    SortBySorts(key, a);
    SortBySorts(key, b);
    DistinctPermuted(key, a, SortBy(key, a));
    DistinctPermuted(key, a, SortBy(key, b));
    SortedDistinct(key, SortBy(key, a));
    SortedDistinct(key, SortBy(key, b));
    IncreasingUnique(key, SortBy(key, a), SortBy(key, b));
  }
}
