/**
 * `Array.prototype.sort` with the comparators the list pages pass it.
 *
 * Every page compares a key drawn from the record: a number (an amount, a
 * count, or a date as its day number) or a lower-cased string. For "asc" the
 * comparator answers -1 when the first key is smaller, 1 when it is larger
 * and 0 otherwise; for "desc" the two answers swap. `sort` is stable (ECMAScript 2019 onwards), so
 * records whose keys compare equal keep their input order. The model is a
 * stable insertion sort, and the lemmas below state what it promises:
 * a permutation, ordered by the key, with equal keys in input order.
 */
module Sorting {

  import Lists

  datatype Direction = Asc | Desc

  /** The value a comparator reads from a record. */
  datatype SortKey = Num(n: real) | Str(s: string)

  /** JavaScript's `<` on strings: lexicographic on code units. */
  predicate StrLess(a: string, b: string)
  {
    if b == [] then false
    else if a == [] then true
    else if a[0] != b[0] then a[0] < b[0]
    else StrLess(a[1..], b[1..])
  }

  lemma {:induction false} StrLessIrreflexive(a: string)
    ensures !StrLess(a, a)
  {
    if a != [] {
      StrLessIrreflexive(a[1..]);
    }
  }

  lemma {:induction false} StrLessTransitive(a: string, b: string, c: string)
    requires StrLess(a, b) && StrLess(b, c)
    ensures StrLess(a, c)
  {
    if a != [] && b != [] && c != [] && a[0] == b[0] && b[0] == c[0] {
      StrLessTransitive(a[1..], b[1..], c[1..]);
    }
  }

  /**
   * `<` on keys. Within one page every key has the same kind; numbers are put
   * before strings only so that the order is total.
   */
  predicate KeyLess(a: SortKey, b: SortKey)
  {
    match (a, b)
    case (Num(x), Num(y)) => x < y
    case (Str(x), Str(y)) => StrLess(x, y)
    case (Num(_), Str(_)) => true
    case (Str(_), Num(_)) => false
  }

  /** The comparator returns a negative number: `a` must come before `b`. */
  predicate Precedes(a: SortKey, b: SortKey, dir: Direction)
  {
    if dir == Asc then KeyLess(a, b) else KeyLess(b, a)
  }

  /** `a` may stand before `b`: for "asc" `a <= b`, for "desc" `a >= b`. */
  predicate InOrder(a: SortKey, b: SortKey, dir: Direction)
  {
    !Precedes(b, a, dir)
  }

  lemma PrecedesIrreflexive(a: SortKey, dir: Direction)
    ensures !Precedes(a, a, dir)
  {
    if a.Str? {
      StrLessIrreflexive(a.s);
    }
  }

  lemma PrecedesTransitive(a: SortKey, b: SortKey, c: SortKey, dir: Direction)
    requires Precedes(a, b, dir) && Precedes(b, c, dir)
    ensures Precedes(a, c, dir)
  {
    if dir == Asc {
      if a.Str? && b.Str? && c.Str? {
        StrLessTransitive(a.s, b.s, c.s);
      }
    } else {
      if a.Str? && b.Str? && c.Str? {
        StrLessTransitive(c.s, b.s, a.s);
      }
    }
  }

  /** Every earlier element may stand before every later one. */
  predicate Sorted<T>(s: seq<T>, key: T -> SortKey, dir: Direction)
  {
    forall i, j :: 0 <= i < j < |s| ==> InOrder(key(s[i]), key(s[j]), dir)
  }

  /** The elements whose key equals `k`, in their order. */
  function WithKey<T>(s: seq<T>, key: T -> SortKey, k: SortKey): seq<T>
  {
    if s == [] then [] else (if key(s[0]) == k then [s[0]] else []) + WithKey(s[1..], key, k)
  }

  /** Places `x` after every element it does not have to precede. */
  function Insert<T>(x: T, t: seq<T>, key: T -> SortKey, dir: Direction): (r: seq<T>)
    ensures |r| == |t| + 1
    ensures multiset(r) == multiset(t) + multiset{x}
  {
    if t == [] then [x]
    else if Precedes(key(x), key(t[0]), dir) then [x] + t
    else
      assert t == [t[0]] + t[1..];
      [t[0]] + Insert(x, t[1..], key, dir)
  }

  /** `s` sorted by the comparator that orders by `key` in direction `dir`. */
  function SortBy<T>(s: seq<T>, key: T -> SortKey, dir: Direction): (r: seq<T>)
    ensures |r| == |s|
    ensures multiset(r) == multiset(s)
    decreases |s|
  {
    if s == [] then []
    else
      assert s == s[..|s| - 1] + [s[|s| - 1]];
      Insert(s[|s| - 1], SortBy(s[..|s| - 1], key, dir), key, dir)
  }

  lemma {:induction false} InsertSorted<T>(x: T, t: seq<T>, key: T -> SortKey, dir: Direction)
    requires Sorted(t, key, dir)
    ensures Sorted(Insert(x, t, key, dir), key, dir)
  {
    if t == [] {
    } else if Precedes(key(x), key(t[0]), dir) {
      InsertSortedFront(x, t, key, dir);
    } else {
      assert Sorted(t[1..], key, dir);
      InsertSorted(x, t[1..], key, dir);
      InsertSortedStep(x, t, key, dir);
    }
  }

  /** An element that precedes the head of a sorted sequence may stand before all of it. */
  lemma InsertSortedFront<T>(x: T, t: seq<T>, key: T -> SortKey, dir: Direction)
    requires t != [] && Sorted(t, key, dir) && Precedes(key(x), key(t[0]), dir)
    ensures Sorted([x] + t, key, dir)
  {
    forall j | 0 <= j < |t| ensures InOrder(key(x), key(t[j]), dir) {
      if Precedes(key(t[j]), key(x), dir) {
        if j == 0 {
          PrecedesTransitive(key(t[0]), key(x), key(t[0]), dir);
          PrecedesIrreflexive(key(t[0]), dir);
        } else {
          assert InOrder(key(t[0]), key(t[j]), dir);
          PrecedesTransitive(key(t[j]), key(x), key(t[0]), dir);
        }
      }
    }
    ConsSorted(x, t, key, dir);
  }

  lemma InsertSortedStep<T>(x: T, t: seq<T>, key: T -> SortKey, dir: Direction)
    requires t != [] && Sorted(t, key, dir) && !Precedes(key(x), key(t[0]), dir)
    requires Sorted(Insert(x, t[1..], key, dir), key, dir)
    ensures Sorted(Insert(x, t, key, dir), key, dir)
  {
    var rest := Insert(x, t[1..], key, dir);
    InsertUnfold(x, t, key, dir);
    forall j | 0 <= j < |rest| ensures InOrder(key(t[0]), key(rest[j]), dir) {
      assert rest[j] in multiset(rest);
      if rest[j] != x {
        assert rest[j] in multiset(t[1..]);
        var k :| 0 <= k < |t[1..]| && t[1..][k] == rest[j];
        assert t[k + 1] == rest[j];
      }
    }
    ConsSorted(t[0], rest, key, dir);
  }

  /** A sorted sequence stays sorted behind an element that may stand before all of it. */
  lemma ConsSorted<T>(y: T, s: seq<T>, key: T -> SortKey, dir: Direction)
    requires Sorted(s, key, dir)
    requires forall j :: 0 <= j < |s| ==> InOrder(key(y), key(s[j]), dir)
    ensures Sorted([y] + s, key, dir)
  {
    var r := [y] + s;
    forall i, j | 0 <= i < j < |r| ensures InOrder(key(r[i]), key(r[j]), dir) {
      if i == 0 {
        assert r[j] == s[j - 1];
      } else {
        assert r[i] == s[i - 1] && r[j] == s[j - 1];
      }
    }
  }

  /** The sorted sequence is ordered by the key in the chosen direction. */
  lemma {:induction false} SortBySorted<T>(s: seq<T>, key: T -> SortKey, dir: Direction)
    ensures Sorted(SortBy(s, key, dir), key, dir)
  {
    if s != [] {
      SortBySorted(s[..|s| - 1], key, dir);
      InsertSorted(s[|s| - 1], SortBy(s[..|s| - 1], key, dir), key, dir);
    }
  }

  lemma {:induction false} WithKeyAppend<T>(a: seq<T>, b: seq<T>, key: T -> SortKey, k: SortKey)
    ensures WithKey(a + b, key, k) == WithKey(a, key, k) + WithKey(b, key, k)
  {
    if a == [] {
      assert a + b == b;
    } else {
      var c := a + b;
      assert c[0] == a[0] && c[1..] == a[1..] + b;
      WithKeyAppend(a[1..], b, key, k);
      assert WithKey(c, key, k) == (if key(a[0]) == k then [a[0]] else []) + WithKey(c[1..], key, k);
    }
  }

  lemma {:induction false} WithKeyNone<T>(s: seq<T>, key: T -> SortKey, k: SortKey)
    requires forall i :: 0 <= i < |s| ==> key(s[i]) != k
    ensures WithKey(s, key, k) == []
  {
    if s != [] {
      WithKeyNone(s[1..], key, k);
    }
  }

  /** An element that precedes the first element of a sorted sequence shares its key with none of them. */
  lemma PrecedesAllKeys<T>(x: T, t: seq<T>, key: T -> SortKey, dir: Direction)
    requires t != [] && Sorted(t, key, dir) && Precedes(key(x), key(t[0]), dir)
    ensures forall i :: 0 <= i < |t| ==> key(t[i]) != key(x)
  {
    forall i | 0 <= i < |t| ensures key(t[i]) != key(x) {
      if i == 0 {
        PrecedesIrreflexive(key(x), dir);
      }
    }
  }

  lemma {:induction false} InsertWithKey<T>(x: T, t: seq<T>, key: T -> SortKey, dir: Direction, k: SortKey)
    requires Sorted(t, key, dir)
    ensures WithKey(Insert(x, t, key, dir), key, k)
         == WithKey(t, key, k) + (if key(x) == k then [x] else [])
  {
    if t == [] {
      assert WithKey([x], key, k) == (if key(x) == k then [x] else []) + WithKey([], key, k);
    } else if Precedes(key(x), key(t[0]), dir) {
      InsertWithKeyFront(x, t, key, dir, k);
    } else {
      assert Sorted(t[1..], key, dir);
      InsertWithKey(x, t[1..], key, dir, k);
      InsertWithKeyStep(x, t, key, dir, k);
    }
  }

  lemma InsertWithKeyFront<T>(x: T, t: seq<T>, key: T -> SortKey, dir: Direction, k: SortKey)
    requires t != [] && Sorted(t, key, dir) && Precedes(key(x), key(t[0]), dir)
    ensures WithKey([x] + t, key, k) == WithKey(t, key, k) + (if key(x) == k then [x] else [])
  {
    if key(x) == k {
      PrecedesAllKeys(x, t, key, dir);
      WithKeyNone(t, key, k);
    }
    assert ([x] + t)[1..] == t;
  }

  lemma InsertWithKeyStep<T>(x: T, t: seq<T>, key: T -> SortKey, dir: Direction, k: SortKey)
    requires t != [] && !Precedes(key(x), key(t[0]), dir)
    requires WithKey(Insert(x, t[1..], key, dir), key, k)
          == WithKey(t[1..], key, k) + (if key(x) == k then [x] else [])
    ensures WithKey(Insert(x, t, key, dir), key, k)
         == WithKey(t, key, k) + (if key(x) == k then [x] else [])
  {
    InsertUnfold(x, t, key, dir);
    WithKeyHeadStep(t, Insert(x, t[1..], key, dir), key, k, if key(x) == k then [x] else []);
  }

  /** Putting back the head of `t` in front of a sequence whose matches are those of `t[1..]` and some more. */
  lemma WithKeyHeadStep<T>(t: seq<T>, rest: seq<T>, key: T -> SortKey, k: SortKey, own: seq<T>)
    requires t != [] && WithKey(rest, key, k) == WithKey(t[1..], key, k) + own
    ensures WithKey([t[0]] + rest, key, k) == WithKey(t, key, k) + own
  {
    var head := if key(t[0]) == k then [t[0]] else [];
    calc {
      WithKey([t[0]] + rest, key, k);
      { WithKeyCons(t[0], rest, key, k); }
      head + (WithKey(t[1..], key, k) + own);
      (head + WithKey(t[1..], key, k)) + own;
      WithKey(t, key, k) + own;
    }
  }

  lemma InsertUnfold<T>(x: T, t: seq<T>, key: T -> SortKey, dir: Direction)
    requires t != [] && !Precedes(key(x), key(t[0]), dir)
    ensures Insert(x, t, key, dir) == [t[0]] + Insert(x, t[1..], key, dir)
  {
  }

  lemma WithKeyCons<T>(y: T, s: seq<T>, key: T -> SortKey, k: SortKey)
    ensures WithKey([y] + s, key, k) == (if key(y) == k then [y] else []) + WithKey(s, key, k)
  {
    var c := [y] + s;
    assert c[0] == y && c[1..] == s;
  }

  /** Stability: the records with any one key value come out in their input order. */
  lemma {:induction false} SortByStable<T>(s: seq<T>, key: T -> SortKey, dir: Direction, k: SortKey)
    ensures WithKey(SortBy(s, key, dir), key, k) == WithKey(s, key, k)
    decreases |s|
  {
    if s != [] {
      var init, last := s[..|s| - 1], s[|s| - 1];
      var own := if key(last) == k then [last] else [];
      calc {
        WithKey(SortBy(s, key, dir), key, k);
      == { SortByStep(s, key, dir); }
        WithKey(Insert(last, SortBy(init, key, dir), key, dir), key, k);
      == { SortBySorted(init, key, dir); InsertWithKey(last, SortBy(init, key, dir), key, dir, k); }
        WithKey(SortBy(init, key, dir), key, k) + own;
      == { SortByStable(init, key, dir, k); }
        WithKey(init, key, k) + own;
      == { WithKeySingle(last, key, k); }
        WithKey(init, key, k) + WithKey([last], key, k);
      == { WithKeyAppend(init, [last], key, k); assert s == init + [last]; }
        WithKey(s, key, k);
      }
    }
  }

  lemma WithKeySingle<T>(x: T, key: T -> SortKey, k: SortKey)
    ensures WithKey([x], key, k) == if key(x) == k then [x] else []
  {
    assert WithKey([x], key, k) == (if key(x) == k then [x] else []) + WithKey([], key, k);
  }

  lemma SortByStep<T>(s: seq<T>, key: T -> SortKey, dir: Direction)
    requires s != []
    ensures SortBy(s, key, dir) == Insert(s[|s| - 1], SortBy(s[..|s| - 1], key, dir), key, dir)
  {
  }

  lemma {:induction false} WithKeyAll<T>(s: seq<T>, key: T -> SortKey, k: SortKey)
    requires forall i :: 0 <= i < |s| ==> key(s[i]) == k
    ensures WithKey(s, key, k) == s
  {
    if s != [] {
      WithKeyAll(s[1..], key, k);
    }
  }

  /** When every key is the same the comparator always answers 0 and the order is kept. */
  lemma SortByConstantKey<T>(s: seq<T>, key: T -> SortKey, dir: Direction, k: SortKey)
    requires forall i :: 0 <= i < |s| ==> key(s[i]) == k
    ensures SortBy(s, key, dir) == s
  {
    var r := SortBy(s, key, dir);
    forall i | 0 <= i < |r| ensures key(r[i]) == k {
      assert r[i] in multiset(s);
    }
    SortByStable(s, key, dir, k);
    WithKeyAll(s, key, k);
    WithKeyAll(r, key, k);
  }

  /** Sorting does not change a sum taken over the records. */
  lemma {:induction false} InsertSum<T>(x: T, t: seq<T>, key: T -> SortKey, dir: Direction, f: T -> real)
    ensures Lists.Sum(Insert(x, t, key, dir), f) == f(x) + Lists.Sum(t, f)
  {
    if t != [] && !Precedes(key(x), key(t[0]), dir) {
      InsertSum(x, t[1..], key, dir, f);
      assert ([t[0]] + Insert(x, t[1..], key, dir))[1..] == Insert(x, t[1..], key, dir);
    } else if t != [] {
      assert ([x] + t)[1..] == t;
    }
  }

  lemma {:induction false} SortBySum<T>(s: seq<T>, key: T -> SortKey, dir: Direction, f: T -> real)
    ensures Lists.Sum(SortBy(s, key, dir), f) == Lists.Sum(s, f)
    decreases |s|
  {
    if s != [] {
      var init, last := s[..|s| - 1], s[|s| - 1];
      calc {
        Lists.Sum(SortBy(s, key, dir), f);
        { SortByStep(s, key, dir); }
        Lists.Sum(Insert(last, SortBy(init, key, dir), key, dir), f);
        { InsertSum(last, SortBy(init, key, dir), key, dir, f); }
        f(last) + Lists.Sum(SortBy(init, key, dir), f);
        { SortBySum(init, key, dir, f); }
        f(last) + Lists.Sum(init, f);
        { Lists.SumAppend(init, [last], f); assert s == init + [last]; }
        Lists.Sum(s, f);
      }
    }
  }

  /** A sortable column header: the current column flips direction, another column starts ascending. */
  function NextSort<F(==)>(current: F, dir: Direction, clicked: F): (r: (F, Direction))
    ensures r.0 == clicked
    ensures clicked == current ==> r.1 != dir
    ensures clicked != current ==> r.1 == Asc
  {
    if clicked == current then (current, if dir == Asc then Desc else Asc)
    else (clicked, Asc)
  }

  /** Clicking the same header twice restores the direction. */
  lemma NextSortTwice<F>(current: F, dir: Direction)
    ensures var (f, d) := NextSort(current, dir, current); NextSort(f, d, current) == (current, dir)
  {
  }
}
