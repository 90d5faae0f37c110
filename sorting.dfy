/**
  Go's ordering of strings, and the two sorts the core relies on: a stable sort by a string key
  (`sort.Stable` over the subnet and security-group references, `SortLiterals`) and the
  sorting of map keys (`sort.Strings`) that makes the configuration writer deterministic.
*/
module Sorting {

  /**
    Go's `a < b` on strings: lexicographic on bytes. On well-formed text, UTF-8 byte order
    coincides with code-point order, the order on `char` used here.
  */
  predicate Less(a: string, b: string)
    decreases |a|
  {
    if |a| == 0 then |b| > 0
    else if |b| == 0 then false
    else if a[0] != b[0] then a[0] < b[0]
    else Less(a[1..], b[1..])
  }

  lemma {:induction false} LessIrreflexive(a: string)
    ensures !Less(a, a)
    decreases |a|
  {
    if |a| > 0 {
      LessIrreflexive(a[1..]);
    }
  }

  lemma {:induction false} LessAsymmetric(a: string, b: string)
    ensures Less(a, b) ==> !Less(b, a)
    decreases |a|
  {
    if |a| > 0 && |b| > 0 && a[0] == b[0] {
      LessAsymmetric(a[1..], b[1..]);
    }
  }

  lemma {:induction false} LessTransitive(a: string, b: string, c: string)
    ensures Less(a, b) && Less(b, c) ==> Less(a, c)
    decreases |a|
  {
    if |a| > 0 && |b| > 0 && |c| > 0 && a[0] == b[0] && b[0] == c[0] {
      LessTransitive(a[1..], b[1..], c[1..]);
    }
  }

  lemma {:induction false} LessTotal(a: string, b: string)
    ensures a == b || Less(a, b) || Less(b, a)
    decreases |a|
  {
    if |a| > 0 && |b| > 0 && a[0] == b[0] {
      LessTotal(a[1..], b[1..]);
      assert a == [a[0]] + a[1..];
      assert b == [b[0]] + b[1..];
    }
  }

  /** "Not greater than" is transitive, so sortedness by `!Less` is a total preorder. */
  lemma NotLessTransitive(a: string, b: string, c: string)
    ensures !Less(b, a) && !Less(c, b) ==> !Less(c, a)
  {
    LessTotal(a, b);
    LessTransitive(c, a, b);
  }

  /** Ordered by a string key, equal keys allowed next to each other. */
  predicate SortedBy<T>(s: seq<T>, key: T -> string)
  {
    forall i, j :: 0 <= i < j < |s| ==> !Less(key(s[j]), key(s[i]))
  }

  /**
    Inserts `x` after every element whose key is not greater than its own: the step of a
    stable insertion sort.
  */
  function InsertBy<T>(s: seq<T>, x: T, key: T -> string): (r: seq<T>)
    ensures multiset(r) == multiset(s) + multiset{x}
    decreases |s|
  {
    if s == [] then [x]
    else
      assert s == s[..|s| - 1] + [s[|s| - 1]];
      if Less(key(x), key(s[|s| - 1])) then InsertBy(s[..|s| - 1], x, key) + [s[|s| - 1]]
      else s + [x]
  }

  lemma {:induction false} InsertBySorted<T>(s: seq<T>, x: T, key: T -> string)
    requires SortedBy(s, key)
    ensures SortedBy(InsertBy(s, x, key), key)
    decreases |s|
  {
    if s != [] {
      var init, last := s[..|s| - 1], s[|s| - 1];
      if Less(key(x), key(last)) {
        InsertBySorted(init, x, key);
        var r' := InsertBy(init, x, key);
        forall y | y in r' ensures !Less(key(last), key(y)) {
          assert y in multiset(r');
          if y == x {
            LessAsymmetric(key(x), key(last));
          } else {
            assert y in multiset(init);
            var k :| 0 <= k < |init| && init[k] == y;
            assert s[k] == y;
          }
        }
        var r := r' + [last];
        forall i, j | 0 <= i < j < |r| ensures !Less(key(r[j]), key(r[i])) {
          if j == |r| - 1 {
            assert r[i] in r';
          }
        }
      } else {
        var r := s + [x];
        forall i, j | 0 <= i < j < |r| ensures !Less(key(r[j]), key(r[i])) {
          if j == |r| - 1 && i < |s| - 1 {
            NotLessTransitive(key(s[i]), key(last), key(x));
          }
        }
      }
    }
  }

  /**
    The stable sort of `s` by `key`, defined as insertion of each element in turn; this is
    what Go's `sort.Stable` (and, for keys that are the elements themselves, `sort.Strings`)
    computes.
  */
  function StableSortBy<T>(s: seq<T>, key: T -> string): (r: seq<T>)
    ensures multiset(r) == multiset(s)
    decreases |s|
  {
    if s == [] then []
    else
      assert s == s[..|s| - 1] + [s[|s| - 1]];
      InsertBy(StableSortBy(s[..|s| - 1], key), s[|s| - 1], key)
  }

  lemma {:induction false} StableSortSorted<T>(s: seq<T>, key: T -> string)
    ensures SortedBy(StableSortBy(s, key), key)
    decreases |s|
  {
    if s != [] {
      StableSortSorted(s[..|s| - 1], key);
      InsertBySorted(StableSortBy(s[..|s| - 1], key), s[|s| - 1], key);
    }
  }

  /** The elements of `s` whose key is `k`, in their order in `s`. */
  function WithKey<T>(s: seq<T>, key: T -> string, k: string): seq<T>
    decreases |s|
  {
    if s == [] then []
    else WithKey(s[..|s| - 1], key, k) + (if key(s[|s| - 1]) == k then [s[|s| - 1]] else [])
  }

  lemma {:induction false} WithKeyAppend<T>(s: seq<T>, y: T, key: T -> string, k: string)
    ensures WithKey(s + [y], key, k) == WithKey(s, key, k) + (if key(y) == k then [y] else [])
  {
    assert (s + [y])[..|s|] == s;
  }

  lemma {:induction false} InsertByKeepsTies<T>(s: seq<T>, x: T, key: T -> string, k: string)
    ensures WithKey(InsertBy(s, x, key), key, k) == WithKey(s, key, k) + (if key(x) == k then [x] else [])
    decreases |s|
  {
    if s != [] {
      var init, last := s[..|s| - 1], s[|s| - 1];
      if Less(key(x), key(last)) {
        InsertByKeepsTies(init, x, key, k);
        InsertBeforeLastKeepsTies(init, last, x, key, k);
      } else {
        assert InsertBy(s, x, key) == s + [x];
        WithKeyAppend(s, x, key, k);
      }
    }
  }

  lemma {:induction false} InsertByBeforeLast<T>(init: seq<T>, last: T, x: T, key: T -> string)
    requires Less(key(x), key(last))
    ensures InsertBy(init + [last], x, key) == InsertBy(init, x, key) + [last]
  {
    var s := init + [last];
    assert s[..|s| - 1] == init && s[|s| - 1] == last;
  }

  lemma {:induction false} AppendKeepsTies<T>(r: seq<T>, init: seq<T>, last: T, extra: seq<T>, key: T -> string, k: string)
    requires WithKey(r, key, k) == WithKey(init, key, k) + extra
    requires extra != [] ==> key(last) != k
    ensures WithKey(r + [last], key, k) == WithKey(init + [last], key, k) + extra
  {
    WithKeyAppend(r, last, key, k);
    WithKeyAppend(init, last, key, k);
    var a, b := WithKey(r, key, k), WithKey(init, key, k);
    if key(last) == k {
      assert extra == [];
      assert a + [last] == b + [last] + extra;
    } else {
      assert a + [] == b + [] + extra;
    }
  }

  lemma {:induction false} InsertBeforeLastKeepsTies<T>(init: seq<T>, last: T, x: T, key: T -> string, k: string)
    requires Less(key(x), key(last))
    requires WithKey(InsertBy(init, x, key), key, k) == WithKey(init, key, k) + (if key(x) == k then [x] else [])
    ensures WithKey(InsertBy(init + [last], x, key), key, k)
         == WithKey(init + [last], key, k) + (if key(x) == k then [x] else [])
  {
    InsertByBeforeLast(init, last, x, key);
    if key(x) == k {
      LessIrreflexive(k);
    }
    AppendKeepsTies(InsertBy(init, x, key), init, last, if key(x) == k then [x] else [], key, k);
  }

  /** Stability: elements with equal keys keep their relative order. */
  lemma {:induction false} StableSortKeepsTies<T>(s: seq<T>, key: T -> string, k: string)
    ensures WithKey(StableSortBy(s, key), key, k) == WithKey(s, key, k)
    decreases |s|
  {
    if s != [] {
      StableSortKeepsTies(s[..|s| - 1], key, k);
      InsertByKeepsTies(StableSortBy(s[..|s| - 1], key), s[|s| - 1], key, k);
    }
  }

  /** A sequence that is already ordered is left as it is. */
  lemma {:induction false} StableSortOfSorted<T>(s: seq<T>, key: T -> string)
    requires SortedBy(s, key)
    ensures StableSortBy(s, key) == s
    decreases |s|
  {
    if s != [] {
      var init := s[..|s| - 1];
      assert SortedBy(init, key) by {
        forall i, j | 0 <= i < j < |init| ensures !Less(key(init[j]), key(init[i])) {
          assert init[i] == s[i] && init[j] == s[j];
        }
      }
      StableSortOfSorted(init, key);
      if |init| > 0 {
        assert !Less(key(s[|s| - 1]), key(s[|s| - 2]));
      }
      assert init + [s[|s| - 1]] == s;
    }
  }

  /** Sorting twice gives what sorting once gives. */
  lemma StableSortIdempotent<T>(s: seq<T>, key: T -> string)
    ensures StableSortBy(StableSortBy(s, key), key) == StableSortBy(s, key)
  {
    StableSortSorted(s, key);
    StableSortOfSorted(StableSortBy(s, key), key);
  }

  /** The key of a string sorted as itself (`sort.Strings`). */
  function Id(s: string): string { s }

  /** Two sorted arrangements of the same strings are the same sequence. */
  lemma {:induction false} SortedPermutationUnique(a: seq<string>, b: seq<string>)
    requires SortedBy(a, Id) && SortedBy(b, Id)
    requires multiset(a) == multiset(b)
    ensures a == b
    decreases |a|
  {
    if a == [] {
      assert |multiset(b)| == 0;
    } else {
      SortedHeadsEqual(a, b);
      SortedTail(a);
      SortedTail(b);
      assert a == [a[0]] + a[1..];
      assert b == [b[0]] + b[1..];
      assert multiset(a[1..]) == multiset(a) - multiset{a[0]};
      assert multiset(b[1..]) == multiset(b) - multiset{b[0]};
      SortedPermutationUnique(a[1..], b[1..]);
    }
  }

  lemma SortedHeadsEqual(a: seq<string>, b: seq<string>)
    requires SortedBy(a, Id) && SortedBy(b, Id)
    requires multiset(a) == multiset(b) && a != []
    ensures b != [] && a[0] == b[0]
  {
    assert |b| == |multiset(b)| == |a|;
    assert a[0] in multiset(b) && b[0] in multiset(a);
    var j :| 0 <= j < |b| && b[j] == a[0];
    var i :| 0 <= i < |a| && a[i] == b[0];
    assert !Less(a[0], b[0]) by {
      if j > 0 {
        assert !Less(Id(b[j]), Id(b[0]));
      } else {
        LessIrreflexive(a[0]);
      }
    }
    assert !Less(b[0], a[0]) by {
      if i > 0 {
        assert !Less(Id(a[i]), Id(a[0]));
      } else {
        LessIrreflexive(b[0]);
      }
    }
    LessTotal(a[0], b[0]);
  }

  lemma SortedTail(s: seq<string>)
    requires SortedBy(s, Id) && s != []
    ensures SortedBy(s[1..], Id)
  {
    var t := s[1..];
    forall i, j | 0 <= i < j < |t|
      ensures !Less(Id(t[j]), Id(t[i]))
    {
      assert t[i] == s[i + 1] && t[j] == s[j + 1];
    }
  }

  /** Strictly increasing: sorted and without repetitions. */
  predicate StrictlySorted(s: seq<string>)
  {
    forall i, j :: 0 <= i < j < |s| ==> Less(s[i], s[j])
  }

  lemma {:induction false} MinExists(ks: set<string>)
    requires ks != {}
    ensures exists m :: m in ks && forall x :: x in ks ==> !Less(x, m)
    decreases ks
  {
    var y :| y in ks;
    if ks == {y} {
      LessIrreflexive(y);
    } else {
      MinExists(ks - {y});
      var m :| m in ks - {y} && forall x :: x in ks - {y} ==> !Less(x, m);
      if Less(y, m) {
        forall x | x in ks ensures !Less(x, y) {
          LessTransitive(x, y, m);
          LessIrreflexive(y);
        }
      } else {
        assert forall x :: x in ks ==> !Less(x, m);
      }
    }
  }

  lemma SortedKeysStep(ks: set<string>, m: string, rest: seq<string>)
    requires m in ks && forall x :: x in ks ==> !Less(x, m)
    requires StrictlySorted(rest) && multiset(rest) == multiset(ks - {m})
    ensures StrictlySorted([m] + rest)
    ensures multiset([m] + rest) == multiset(ks)
  {
    var r := [m] + rest;
    forall i, j | 0 <= i < j < |r| ensures Less(r[i], r[j]) {
      if i == 0 {
        assert r[j] == rest[j - 1];
        assert r[j] in multiset(rest);
        assert r[j] in ks - {m};
        LessTotal(m, r[j]);
      } else {
        assert r[i] == rest[i - 1] && r[j] == rest[j - 1];
      }
    }
    SetMultisetSplit(ks, m);
    assert multiset(r) == multiset{m} + multiset(rest);
  }

  lemma SetMultisetSplit(ks: set<string>, m: string)
    requires m in ks
    ensures multiset(ks) == multiset{m} + multiset(ks - {m})
  {
    forall x ensures multiset(ks)[x] == (multiset{m} + multiset(ks - {m}))[x] {
      if x == m {
        assert x !in ks - {m};
      }
    }
  }

  /** The keys of a map as Go's `sort.Strings` leaves them: every key once, in increasing order. */
  ghost function SortedKeys(ks: set<string>): (r: seq<string>)
    ensures StrictlySorted(r)
    ensures multiset(r) == multiset(ks)
    ensures forall k :: k in r <==> k in ks
    decreases ks
  {
    if ks == {} then []
    else
      MinExists(ks);
      var m :| m in ks && forall x :: x in ks ==> !Less(x, m);
      var rest := SortedKeys(ks - {m});
      SortedKeysStep(ks, m, rest);
      [m] + rest
  }

  lemma StrictlySortedIsSorted(s: seq<string>)
    requires StrictlySorted(s)
    ensures SortedBy(s, Id)
  {
    forall i, j | 0 <= i < j < |s| ensures !Less(Id(s[j]), Id(s[i])) {
      LessAsymmetric(s[i], s[j]);
    }
  }

  /**
    Whatever order the keys were gathered in, sorting them yields `SortedKeys`: the
    determinism the configuration writer rests on.
  */
  lemma SortedGatheredKeys(gathered: seq<string>, ks: set<string>)
    requires multiset(gathered) == multiset(ks)
    ensures StableSortBy(gathered, Id) == SortedKeys(ks)
  {
    StableSortSorted(gathered, Id);
    StrictlySortedIsSorted(SortedKeys(ks));
    SortedPermutationUnique(StableSortBy(gathered, Id), SortedKeys(ks));
  }

  /** Go's `sort.Stable` over a slice ordered by `key`, here returning the sorted slice. */
  method SortStableBy<T>(s: seq<T>, key: T -> string) returns (sorted: seq<T>)
    ensures sorted == StableSortBy(s, key)
  {
    sorted := [];
    for i := 0 to |s|
      invariant sorted == StableSortBy(s[..i], key)
    {
      assert s[..i + 1][..i] == s[..i];
      sorted := InsertBy(sorted, s[i], key);
    }
    assert s[..|s|] == s;
  }

  /** Go's `sort.Strings`, here returning the sorted slice. */
  method SortStrings(keys: seq<string>) returns (sorted: seq<string>)
    ensures sorted == StableSortBy(keys, Id)
  {
    sorted := SortStableBy(keys, Id);
  }
}
