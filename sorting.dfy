/**
 * Python's `list.sort(key=...)` for the keys the bridge sorts by: a tuple
 * `(flag, text)` compared as Python compares tuples (`False` before `True`,
 * then the text lexicographically). Python's sort is stable; the model is a
 * stable insertion sort, and its contract says sorted, a permutation, and
 * stable (the elements sharing a key keep their original order).
 */
module Sorting {
  import opened Text

  datatype SortKey = SortKey(late: bool, text: string)

  /** Python's `<=` on `(bool, str)` tuples. */
  predicate KeyLeq(a: SortKey, b: SortKey) {
    if a.late != b.late then !a.late else LexLeq(a.text, b.text)
  }

  lemma {:induction false} KeyLeqTotal(a: SortKey, b: SortKey)
    ensures KeyLeq(a, b) || KeyLeq(b, a)
  {
    LexLeqTotal(a.text, b.text);
  }

  lemma {:induction false} KeyLeqTrans(a: SortKey, b: SortKey, c: SortKey)
    requires KeyLeq(a, b) && KeyLeq(b, c)
    ensures KeyLeq(a, c)
  {
    if a.late == b.late == c.late {
      LexLeqTrans(a.text, b.text, c.text);
    }
  }

  lemma {:induction false} KeyLeqRefl(a: SortKey)
    ensures KeyLeq(a, a)
  {
    LexLeqTotal(a.text, a.text);
  }

  ghost predicate SortedBy<T>(s: seq<T>, key: T -> SortKey) {
    forall i, j :: 0 <= i < j < |s| ==> KeyLeq(key(s[i]), key(s[j]))
  }

  /** The elements of `s` whose key is `k`, in order. */
  function WithKey<T>(s: seq<T>, key: T -> SortKey, k: SortKey): (r: seq<T>)
    ensures |r| <= |s|
  {
    if s == [] then []
    else (if key(s[0]) == k then [s[0]] else []) + WithKey(s[1..], key, k)
  }

  /** Inserts `x` before the first element whose key is not below its own. */
  function Insert<T>(x: T, s: seq<T>, key: T -> SortKey): (r: seq<T>)
    ensures |r| == |s| + 1
  {
    if s == [] then [x]
    else if KeyLeq(key(x), key(s[0])) then [x] + s
    else [s[0]] + Insert(x, s[1..], key)
  }

  /** Insertion adds `x` and loses nothing. */
  lemma {:induction false} InsertPermutation<T>(x: T, s: seq<T>, key: T -> SortKey)
    ensures multiset(Insert(x, s, key)) == multiset(s) + multiset{x}
    decreases |s|
  {
    if s != [] && !KeyLeq(key(x), key(s[0])) {
      InsertPermutation(x, s[1..], key);
      assert s == [s[0]] + s[1..];
    }
  }

  lemma {:induction false} WithKeyCons<T>(x: T, s: seq<T>, key: T -> SortKey, k: SortKey)
    ensures WithKey([x] + s, key, k) == (if key(x) == k then [x] else []) + WithKey(s, key, k)
  {
    assert ([x] + s)[1..] == s;
  }

  /** Inserting `x` puts it first among the elements that share its key. */
  lemma {:induction false} InsertWithKey<T>(x: T, s: seq<T>, key: T -> SortKey, k: SortKey)
    ensures WithKey(Insert(x, s, key), key, k) == (if key(x) == k then [x] else []) + WithKey(s, key, k)
    decreases |s|
  {
    if s == [] {
      WithKeyCons(x, s, key, k);
    } else if KeyLeq(key(x), key(s[0])) {
      WithKeyCons(x, s, key, k);
    } else {
      KeyLeqRefl(key(x));
      assert key(s[0]) != key(x);
      InsertWithKey(x, s[1..], key, k);
      WithKeyCons(s[0], Insert(x, s[1..], key), key, k);
      WithKeyCons(s[0], s[1..], key, k);
      assert s == [s[0]] + s[1..];
    }
  }

  /** `b` is a lower bound of every key in `s`. */
  ghost predicate BoundedBelow<T>(b: SortKey, s: seq<T>, key: T -> SortKey) {
    forall j :: 0 <= j < |s| ==> KeyLeq(b, key(s[j]))
  }

  /** A lower bound of `x` and of every element of `s` bounds every element of the insertion. */
  lemma {:induction false} InsertBound<T>(x: T, s: seq<T>, key: T -> SortKey, b: SortKey)
    requires KeyLeq(b, key(x))
    requires BoundedBelow(b, s, key)
    ensures BoundedBelow(b, Insert(x, s, key), key)
    decreases |s|
  {
    if s != [] && !KeyLeq(key(x), key(s[0])) {
      var t := Insert(x, s[1..], key);
      var r := [s[0]] + t;
      assert Insert(x, s, key) == r;
      assert BoundedBelow(b, s[1..], key) by {
        forall j | 0 <= j < |s| - 1 ensures KeyLeq(b, key(s[1..][j])) {
          assert s[1..][j] == s[j + 1];
        }
      }
      InsertBound(x, s[1..], key, b);
      forall j | 0 <= j < |r| ensures KeyLeq(b, key(r[j])) {
        if j > 0 {
          assert r[j] == t[j - 1];
        }
      }
    }
  }

  lemma {:induction false} InsertSorted<T>(x: T, s: seq<T>, key: T -> SortKey)
    requires SortedBy(s, key)
    ensures SortedBy(Insert(x, s, key), key)
    decreases |s|
  {
    if s == [] {
    } else if KeyLeq(key(x), key(s[0])) {
      var r := [x] + s;
      forall i, j | 0 <= i < j < |r| ensures KeyLeq(key(r[i]), key(r[j])) {
        if i == 0 && j > 1 {
          KeyLeqTrans(key(x), key(s[0]), key(s[j - 1]));
        }
      }
    } else {
      KeyLeqTotal(key(x), key(s[0]));
      InsertSorted(x, s[1..], key);
      assert BoundedBelow(key(s[0]), s[1..], key) by {
        forall j | 0 <= j < |s| - 1 ensures KeyLeq(key(s[0]), key(s[1..][j])) {
          assert s[1..][j] == s[j + 1];
        }
      }
      InsertBound(x, s[1..], key, key(s[0]));
      var t := Insert(x, s[1..], key);
      var r := [s[0]] + t;
      forall i, j | 0 <= i < j < |r| ensures KeyLeq(key(r[i]), key(r[j])) {
        if i > 0 {
          assert r[i] == t[i - 1] && r[j] == t[j - 1];
        } else {
          assert r[j] == t[j - 1];
        }
      }
    }
  }

  /** Python's stable `sorted(s, key=key)`. */
  function Sort<T>(s: seq<T>, key: T -> SortKey): (r: seq<T>)
    ensures |r| == |s|
  {
    if s == [] then [] else Insert(s[0], Sort(s[1..], key), key)
  }

  /** The sort's result is a permutation of its input. */
  lemma {:induction false} SortPermutation<T>(s: seq<T>, key: T -> SortKey)
    ensures multiset(Sort(s, key)) == multiset(s)
    decreases |s|
  {
    if s != [] {
      SortPermutation(s[1..], key);
      InsertPermutation(s[0], Sort(s[1..], key), key);
      assert s == [s[0]] + s[1..];
    }
  }

  /** The sort's result is in key order. */
  lemma {:induction false} SortSorted<T>(s: seq<T>, key: T -> SortKey)
    ensures SortedBy(Sort(s, key), key)
    decreases |s|
  {
    if s != [] {
      SortSorted(s[1..], key);
      InsertSorted(s[0], Sort(s[1..], key), key);
    }
  }

  /** The sort is stable: for every key, the elements with that key keep their relative order. */
  lemma {:induction false} SortStable<T>(s: seq<T>, key: T -> SortKey, k: SortKey)
    ensures WithKey(Sort(s, key), key, k) == WithKey(s, key, k)
    decreases |s|
  {
    if s != [] {
      SortStable(s[1..], key, k);
      InsertWithKey(s[0], Sort(s[1..], key), key, k);
      WithKeyCons(s[0], s[1..], key, k);
      assert s == [s[0]] + s[1..];
    }
  }
}
