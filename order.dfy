/**
 * Python's ordering of `str` values (code point by code point, a proper prefix
 * first) and the two sorts the build script uses: `sorted(set_of_names)` and
 * `sorted(paths)` / `sorted(dirs, key=name)`.
 */
module Order {
  import opened Text

  predicate Less(a: string, b: string) {
    if a == [] then b != []
    else if b == [] then false
    else if a[0] != b[0] then a[0] < b[0]
    else Less(a[1..], b[1..])
  }

  predicate LessEq(a: string, b: string) {
    a == b || Less(a, b)
  }

  lemma {:induction false} LessIrreflexive(a: string)
    ensures !Less(a, a)
  {
    if a != [] {
      LessIrreflexive(a[1..]);
    }
  }

  lemma {:induction false} LessTransitive(a: string, b: string, c: string)
    requires Less(a, b) && Less(b, c)
    ensures Less(a, c)
  {
    if a != [] && a[0] == b[0] && b[0] == c[0] {
      LessTransitive(a[1..], b[1..], c[1..]);
    }
  }

  lemma {:induction false} LessTotal(a: string, b: string)
    requires a != b
    ensures Less(a, b) || Less(b, a)
  {
    if a != [] && b != [] && a[0] == b[0] {
      LessTotal(a[1..], b[1..]);
    }
  }

  lemma LessAsymmetric(a: string, b: string)
    requires Less(a, b)
    ensures !Less(b, a)
  {
    if Less(b, a) {
      LessTransitive(a, b, a);
      LessIrreflexive(a);
    }
  }

  /** Strictly ascending: sorted and without duplicates. */
  predicate StrictlySorted(s: seq<string>) {
    forall i, j :: 0 <= i < j < |s| ==> Less(s[i], s[j])
  }

  /** Inserts `x` into a strictly ascending list, unless it is already there. */
  function InsertName(s: seq<string>, x: string): (r: seq<string>)
    requires StrictlySorted(s)
    ensures StrictlySorted(r)
    ensures forall y :: y in r <==> y in s || y == x
  {
    if s == [] then [x]
    else if x == s[0] then s
    else if Less(x, s[0]) then
      assert forall j :: 0 < j < |s| ==> Less(x, s[j]) by {
        forall j | 0 < j < |s| ensures Less(x, s[j]) {
          LessTransitive(x, s[0], s[j]);
        }
      }
      [x] + s
    else
      LessTotal(x, s[0]);
      var rest := InsertName(s[1..], x);
      assert forall y :: y in rest ==> Less(s[0], y);
      [s[0]] + rest
  }

  /** The strictly ascending list of a set's elements: what `sorted` gives for a set. */
  ghost function SortedNames(names: set<string>): (r: seq<string>)
    ensures StrictlySorted(r)
    ensures forall y :: y in r <==> y in names
    decreases names
  {
    if names == {} then []
    else
      var x :| x in names;
      InsertName(SortedNames(names - {x}), x)
  }

  /** `sorted(names)` for a set of names. */
  method SortNames(names: set<string>) returns (r: seq<string>)
    ensures StrictlySorted(r)
    ensures forall y :: y in r <==> y in names
    ensures r == SortedNames(names)
  {
    r := [];
    var todo := names;
    while todo != {}
      invariant todo <= names
      invariant StrictlySorted(r)
      invariant forall y :: y in names <==> y in r || y in todo
      decreases |todo|
    {
      var x :| x in todo;
      r := InsertName(r, x);
      todo := todo - {x};
    }
    StrictlySortedUnique(r, SortedNames(names));
  }

  /** A strictly ascending list is determined by its elements. */
  lemma {:induction false} StrictlySortedUnique(a: seq<string>, b: seq<string>)
    requires StrictlySorted(a) && StrictlySorted(b)
    requires forall y :: y in a <==> y in b
    ensures a == b
  {
    assert (a == []) == (b == []) by {
      if a != [] { assert a[0] in a; }
      if b != [] { assert b[0] in b; }
    }
    if a != [] {
      assert a[0] in a && b[0] in b;
      assert a[0] == b[0] by {
        if a[0] != b[0] {
          LessTotal(a[0], b[0]);
          if Less(a[0], b[0]) {
            // a[0] is in b, so some b[j] with j > 0 lies below b[0]
            var j :| 0 <= j < |b| && b[j] == a[0];
            LessIrreflexive(a[0]);
            LessAsymmetric(b[0], b[j]);
          }
          // otherwise b[0] lies in a above a[0], against LessTotal
        }
      }
      forall y ensures y in a[1..] <==> y in b[1..] {
        if y in a[1..] {
          var j :| 0 <= j < |a[1..]| && a[1..][j] == y;
          assert Less(a[0], a[j + 1]);
          LessIrreflexive(y);
          assert y in a;
          assert y in b;
          var k :| 0 <= k < |b| && b[k] == y;
          assert k != 0;
          assert b[1..][k - 1] == y;
        }
        if y in b[1..] {
          var j :| 0 <= j < |b[1..]| && b[1..][j] == y;
          assert Less(b[0], b[j + 1]);
          LessIrreflexive(y);
          assert y in b;
          assert y in a;
          var k :| 0 <= k < |a| && a[k] == y;
          assert k != 0;
          assert a[1..][k - 1] == y;
        }
      }
      StrictlySortedUnique(a[1..], b[1..]);
      assert a == [a[0]] + a[1..] && b == [b[0]] + b[1..];
    }
  }

  /** Non-decreasing by `key`. */
  predicate SortedBy<T>(s: seq<T>, key: T -> string) {
    forall i, j :: 0 <= i < j < |s| ==> LessEq(key(s[i]), key(s[j]))
  }

  /** The elements of `s` whose key is `k`, in their order in `s`. */
  function WithKey<T>(s: seq<T>, key: T -> string, k: string): seq<T> {
    if s == [] then []
    else (if key(s[0]) == k then [s[0]] else []) + WithKey(s[1..], key, k)
  }

  lemma {:induction false} WithKeyAppend<T>(a: seq<T>, b: seq<T>, key: T -> string, k: string)
    ensures WithKey(a + b, key, k) == WithKey(a, key, k) + WithKey(b, key, k)
  {
    if a != [] {
      assert (a + b)[1..] == a[1..] + b;
      WithKeyAppend(a[1..], b, key, k);
    } else {
      assert a + b == b;
    }
  }

  lemma {:induction false} WithKeyNone<T>(s: seq<T>, key: T -> string, k: string)
    requires forall j :: 0 <= j < |s| ==> key(s[j]) != k
    ensures WithKey(s, key, k) == []
  {
    if s != [] {
      WithKeyNone(s[1..], key, k);
    }
  }

  /** Stable insertion: `x` goes after every element whose key is not above its own. */
  function InsertBy<T>(s: seq<T>, x: T, key: T -> string): (r: seq<T>)
    requires SortedBy(s, key)
    ensures SortedBy(r, key)
    ensures multiset(r) == multiset(s) + multiset{x}
  {
    if s == [] then [x]
    else if Less(key(x), key(s[0])) then
      InsertFront(s, x, key);
      [x] + s
    else
      var rest := InsertBy(s[1..], x, key);
      InsertAfterFirst(s, x, rest, key);
      [s[0]] + rest
  }

  /** Inserting `x` puts it after every element of the same key. */
  lemma {:induction false} InsertByStable<T>(s: seq<T>, x: T, key: T -> string, k: string)
    requires SortedBy(s, key)
    ensures WithKey(InsertBy(s, x, key), key, k) == WithKey(s, key, k) + WithKey([x], key, k)
    decreases |s|, 1
  {
    if s == [] {
      assert InsertBy(s, x, key) == [x];
      assert WithKey(s, key, k) == [];
    } else if Less(key(x), key(s[0])) {
      assert InsertBy(s, x, key) == [x] + s;
      InsertFrontStable(s, x, key, k);
    } else {
      InsertAfterStable(s, x, key, k);
    }
  }

  /** `x` goes past the first element, which keeps its place before everything of its key. */
  lemma {:induction false} InsertAfterStable<T>(s: seq<T>, x: T, key: T -> string, k: string)
    requires SortedBy(s, key) && s != [] && !Less(key(x), key(s[0]))
    ensures WithKey(InsertBy(s, x, key), key, k) == WithKey(s, key, k) + WithKey([x], key, k)
    decreases |s|, 0
  {
    var tail := s[1..];
    SortedTail(s, key);
    var rest := InsertBy(tail, x, key);
    assert WithKey(InsertBy(s, x, key), key, k) == WithKey([s[0]], key, k) + WithKey(rest, key, k) by {
      assert InsertBy(s, x, key) == [s[0]] + rest;
      WithKeyAppend([s[0]], rest, key, k);
    }
    assert WithKey(rest, key, k) == WithKey(tail, key, k) + WithKey([x], key, k) by {
      InsertByStable(tail, x, key, k);
    }
    assert WithKey(s, key, k) == WithKey([s[0]], key, k) + WithKey(tail, key, k) by {
      assert s == [s[0]] + tail;
      WithKeyAppend([s[0]], tail, key, k);
    }
  }

  lemma SortedTail<T>(s: seq<T>, key: T -> string)
    requires SortedBy(s, key) && s != []
    ensures SortedBy(s[1..], key)
  {
    forall i, j | 0 <= i < j < |s| - 1
      ensures LessEq(key(s[1..][i]), key(s[1..][j]))
    {
      assert s[1..][i] == s[i + 1] && s[1..][j] == s[j + 1];
    }
  }

  /** An element placed in front comes before the others of its key, because it has no equal there. */
  lemma InsertFrontStable<T>(s: seq<T>, x: T, key: T -> string, k: string)
    requires SortedBy(s, key) && s != [] && Less(key(x), key(s[0]))
    ensures WithKey([x] + s, key, k) == WithKey(s, key, k) + WithKey([x], key, k)
  {
    WithKeyAppend([x], s, key, k);
    if key(x) == k {
      forall j | 0 <= j < |s|
        ensures key(s[j]) != k
      {
        if key(s[j]) == k {
          assert LessEq(key(s[0]), key(s[j]));
          if key(s[0]) != key(s[j]) {
            LessTransitive(key(x), key(s[0]), key(s[j]));
          }
          LessIrreflexive(k);
        }
      }
      WithKeyNone(s, key, k);
    }
  }

  lemma InsertFront<T>(s: seq<T>, x: T, key: T -> string)
    requires SortedBy(s, key) && s != [] && Less(key(x), key(s[0]))
    ensures SortedBy([x] + s, key)
    ensures multiset([x] + s) == multiset(s) + multiset{x}
  {
    forall j | 0 <= j < |s|
      ensures LessEq(key(x), key(s[j]))
    {
      if key(s[0]) != key(s[j]) {
        LessTransitive(key(x), key(s[0]), key(s[j]));
      }
    }
    var r := [x] + s;
    assert forall j :: 1 <= j < |r| ==> r[j] == s[j - 1];
  }

  lemma InsertAfterFirst<T>(s: seq<T>, x: T, rest: seq<T>, key: T -> string)
    requires SortedBy(s, key) && s != [] && !Less(key(x), key(s[0]))
    requires SortedBy(rest, key) && multiset(rest) == multiset(s[1..]) + multiset{x}
    ensures SortedBy([s[0]] + rest, key)
    ensures multiset([s[0]] + rest) == multiset(s) + multiset{x}
  {
    assert LessEq(key(s[0]), key(x)) by {
      if key(x) != key(s[0]) {
        LessTotal(key(x), key(s[0]));
      }
    }
    forall j | 0 <= j < |rest|
      ensures LessEq(key(s[0]), key(rest[j]))
    {
      var y := rest[j];
      assert y in multiset(rest);
      if y != x {
        assert y in multiset(s[1..]);
        var k :| 0 <= k < |s[1..]| && s[1..][k] == y;
        assert s[k + 1] == y;
      }
    }
    var r := [s[0]] + rest;
    assert forall j :: 1 <= j < |r| ==> r[j] == rest[j - 1];
    assert s == [s[0]] + s[1..];
  }

  /**
   * Python's `sorted(xs, key=key)`: a stable sort, so elements with equal keys
   * keep their order.
   */
  function SortBy<T>(s: seq<T>, key: T -> string): (r: seq<T>)
    ensures SortedBy(r, key)
    ensures multiset(r) == multiset(s)
    ensures forall k :: WithKey(r, key, k) == WithKey(s, key, k)
  {
    if s == [] then []
    else
      var init := s[..|s| - 1];
      var x := s[|s| - 1];
      assert s == init + [x];
      var r := InsertBy(SortBy(init, key), x, key);
      assert forall k :: WithKey(r, key, k) == WithKey(s, key, k) by {
        forall k ensures WithKey(r, key, k) == WithKey(s, key, k) {
          WithKeyAppend(init, [x], key, k);
          InsertByStable(SortBy(init, key), x, key, k);
        }
      }
      r
  }
}
