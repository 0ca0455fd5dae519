/**
 * `Array.prototype.sort` with a comparator, which is stable: elements the
 * comparator ties keep their input order. `before(a, b)` says that `a` must
 * come ahead of `b` (the comparator returns a negative number); it is
 * required to be a strict weak order.
 */
module Sorting {

  ghost predicate StrictWeak<T(!new)>(before: (T, T) -> bool) {
    (forall a, b :: before(a, b) ==> !before(b, a))
    && (forall a, b, c :: !before(a, b) && !before(b, c) ==> !before(a, c))
  }

  predicate Tied<T>(before: (T, T) -> bool, a: T, b: T) {
    !before(a, b) && !before(b, a)
  }

  /** No element is ranked ahead of one that precedes it. */
  predicate SortedBy<T>(s: seq<T>, before: (T, T) -> bool) {
    forall i, j :: 0 <= i < j < |s| ==> !before(s[j], s[i])
  }

  /** The elements of `s` tied with `c`, in order. */
  function TiedWith<T>(s: seq<T>, before: (T, T) -> bool, c: T): seq<T> {
    if s == [] then []
    else (if Tied(before, s[0], c) then [s[0]] else []) + TiedWith(s[1..], before, c)
  }

  /** Puts `x` ahead of every element it is not ranked behind. */
  function Insert<T>(x: T, s: seq<T>, before: (T, T) -> bool): seq<T> {
    if s == [] then [x]
    else if before(s[0], x) then [s[0]] + Insert(x, s[1..], before)
    else [x] + s
  }

  function SortBy<T>(s: seq<T>, before: (T, T) -> bool): seq<T> {
    if s == [] then [] else Insert(s[0], SortBy(s[1..], before), before)
  }

  lemma {:induction false} InsertPermutes<T>(x: T, s: seq<T>, before: (T, T) -> bool)
    ensures multiset(Insert(x, s, before)) == multiset(s) + multiset{x}
    decreases |s|
  {
    if s != [] && before(s[0], x) {
      InsertPermutes(x, s[1..], before);
      assert s == [s[0]] + s[1..];
    }
  }

  lemma {:induction false} InsertSorted<T(!new)>(x: T, s: seq<T>, before: (T, T) -> bool)
    requires StrictWeak(before) && SortedBy(s, before)
    ensures SortedBy(Insert(x, s, before), before)
    decreases |s|
  {
    if s != [] && before(s[0], x) {
      InsertSorted(x, s[1..], before);
      var r := Insert(x, s[1..], before);
      InsertPermutes(x, s[1..], before);
      forall j | 0 <= j < |r| ensures !before(r[j], s[0]) {
        assert r[j] in multiset(r);
        if r[j] != x {
          assert r[j] in multiset(s[1..]);
          var k :| 0 <= k < |s[1..]| && s[1..][k] == r[j];
          assert s[1 + k] == r[j];
        }
      }
      assert Insert(x, s, before) == [s[0]] + r;
    }
  }

  /** What is ranked ahead of `x` is not tied with anything tied with `x`. */
  lemma NotTiedAhead<T(!new)>(before: (T, T) -> bool, y: T, x: T, c: T)
    requires StrictWeak(before) && before(y, x) && Tied(before, x, c)
    ensures !Tied(before, y, c)
  {
  }

  lemma {:induction false} InsertTied<T(!new)>(x: T, s: seq<T>, before: (T, T) -> bool, c: T)
    requires StrictWeak(before)
    ensures TiedWith(Insert(x, s, before), before, c)
      == (if Tied(before, x, c) then [x] else []) + TiedWith(s, before, c)
    decreases |s|
  {
    if s == [] {
    } else if before(s[0], x) {
      InsertTied(x, s[1..], before, c);
      var r := Insert(x, s[1..], before);
      assert ([s[0]] + r)[1..] == r;
      if Tied(before, x, c) {
        NotTiedAhead(before, s[0], x, c);
      }
    } else {
      assert ([x] + s)[1..] == s;
    }
  }

  /** The result is ordered by `before`. */
  lemma {:induction false} SortSorted<T(!new)>(s: seq<T>, before: (T, T) -> bool)
    requires StrictWeak(before)
    ensures SortedBy(SortBy(s, before), before)
    decreases |s|
  {
    if s != [] {
      SortSorted(s[1..], before);
      InsertSorted(s[0], SortBy(s[1..], before), before);
    }
  }

  /** The result holds the same elements, as often. */
  lemma {:induction false} SortPermutes<T>(s: seq<T>, before: (T, T) -> bool)
    ensures multiset(SortBy(s, before)) == multiset(s)
    decreases |s|
  {
    if s != [] {
      SortPermutes(s[1..], before);
      InsertPermutes(s[0], SortBy(s[1..], before), before);
      assert s == [s[0]] + s[1..];
    }
  }

  /** Stability: the elements tied with any `c` keep their input order. */
  lemma {:induction false} SortStable<T(!new)>(s: seq<T>, before: (T, T) -> bool, c: T)
    requires StrictWeak(before)
    ensures TiedWith(SortBy(s, before), before, c) == TiedWith(s, before, c)
    decreases |s|
  {
    if s != [] {
      SortStable(s[1..], before, c);
      InsertTied(s[0], SortBy(s[1..], before), before, c);
    }
  }

  /** Cutting a sorted sequence short leaves out nothing ranked ahead of what it keeps. */
  lemma PrefixKeepsFirst<T>(sorted: seq<T>, n: nat, before: (T, T) -> bool, x: T, y: T)
    requires SortedBy(sorted, before) && n <= |sorted|
    requires multiset(sorted[..n])[x] < multiset(sorted)[x] && y in sorted[..n]
    ensures !before(x, y)
  {
    var kept := sorted[..n];
    var rest := sorted[n..];
    assert sorted == kept + rest;
    assert x in rest;
    var k :| 0 <= k < |rest| && rest[k] == x;
    var i :| 0 <= i < n && kept[i] == y;
    assert sorted[n + k] == x && sorted[i] == y;
  }

  lemma SortLength<T>(s: seq<T>, before: (T, T) -> bool)
    ensures |SortBy(s, before)| == |s|
  {
    SortPermutes(s, before);
    assert |multiset(SortBy(s, before))| == |multiset(s)|;
  }

  // Orders used by the handlers.

  /** `a` has the greater integer key; the comparator `(a, b) => key(b) - key(a)`. */
  lemma DescendingIntStrictWeak<T(!new)>(before: (T, T) -> bool, key: T -> int)
    requires forall a, b :: before(a, b) == (key(a) > key(b))
    ensures StrictWeak(before)
  {
  }

  /** Code-unit order of strings. */
  predicate LexLess(a: string, b: string) {
    if a == [] then b != []
    else if b == [] then false
    else if a[0] != b[0] then a[0] < b[0]
    else LexLess(a[1..], b[1..])
  }

  lemma {:induction false} LexTrichotomy(a: string, b: string)
    ensures a == b || LexLess(a, b) || LexLess(b, a)
    ensures !(LexLess(a, b) && LexLess(b, a))
    ensures !LexLess(a, a)
    decreases |a|
  {
    if a != [] && b != [] {
      LexTrichotomy(a[1..], b[1..]);
      if a[0] == b[0] && a[1..] == b[1..] {
        assert a == [a[0]] + a[1..] && b == [b[0]] + b[1..];
      }
    } else if a != [] {
      LexTrichotomy(a[1..], a[1..]);
    }
  }

  lemma {:induction false} LexTransitive(a: string, b: string, c: string)
    requires LexLess(a, b) && LexLess(b, c)
    ensures LexLess(a, c)
    decreases |a|
  {
    if a != [] && b != [] && c != [] && a[0] == b[0] && b[0] == c[0] {
      LexTransitive(a[1..], b[1..], c[1..]);
    }
  }

  /**
   * `a` has the greater string key; the comparator
   * `(a, b) => key(b).localeCompare(key(a))` read as code-unit order.
   */
  lemma DescendingLexStrictWeak<T(!new)>(before: (T, T) -> bool, key: T -> string)
    requires forall a, b :: before(a, b) == LexLess(key(b), key(a))
    ensures StrictWeak(before)
  {
    forall a: T, b: T | before(a, b) ensures !before(b, a) {
      LexTrichotomy(key(a), key(b));
    }
    forall a: T, b: T, c: T | !before(a, b) && !before(b, c) ensures !before(a, c) {
      LexTrichotomy(key(a), key(b));
      LexTrichotomy(key(b), key(c));
      LexTrichotomy(key(a), key(c));
      if LexLess(key(c), key(a)) {
        if LexLess(key(b), key(a)) {
        } else if key(a) == key(b) {
        } else {
          LexTransitive(key(c), key(a), key(b));
        }
      }
    }
  }
}
