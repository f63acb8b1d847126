/** Python's `sorted(items, key=..., reverse=True)`: a stable sort into
    non-increasing key order. Equal keys keep their input order. */
module Ranking {

  /** Non-increasing by key. */
  predicate SortedDesc<T>(s: seq<T>, key: T -> real)
  {
    forall i, j :: 0 <= i < j < |s| ==> key(s[i]) >= key(s[j])
  }

  /** Insert `x` into a non-increasing sequence after every element whose
      key is at least `key(x)`. */
  function Insert<T>(s: seq<T>, x: T, key: T -> real): (r: seq<T>)
    ensures multiset(r) == multiset(s) + multiset{x}
    ensures |r| == |s| + 1
  {
    if s == [] then [x]
    else if key(s[0]) >= key(x) then
      assert s == [s[0]] + s[1..];
      [s[0]] + Insert(s[1..], x, key)
    else [x] + s
  }

  /** The sorted order: each element in turn is inserted after the equal
      and larger keys already placed. */
  function SortDesc<T>(s: seq<T>, key: T -> real): (r: seq<T>)
    ensures multiset(r) == multiset(s)
    ensures |r| == |s|
  {
    if s == [] then []
    else
      assert s == s[..|s| - 1] + [s[|s| - 1]];
      Insert(SortDesc(s[..|s| - 1], key), s[|s| - 1], key)
  }

  lemma {:induction false} InsertSorted<T>(s: seq<T>, x: T, key: T -> real)
    requires SortedDesc(s, key)
    ensures SortedDesc(Insert(s, x, key), key)
  {
    var r := Insert(s, x, key);
    if s != [] && key(s[0]) >= key(x) {
      SortedTail(s, key);
      InsertSorted(s[1..], x, key);
      var t := Insert(s[1..], x, key);
      assert r == [s[0]] + t;
      assert key(s[0]) >= key(t[0]) by {
        if s[1..] != [] && key(s[1..][0]) >= key(x) {
          assert t[0] == s[1];
        } else {
          assert t[0] == x;
        }
      }
      forall i, j | 0 <= i < j < |r| ensures key(r[i]) >= key(r[j]) {
        if i == 0 {
          assert r[j] == t[j - 1];
          if j > 1 {
            assert key(t[0]) >= key(t[j - 1]);
          }
        } else {
          assert r[i] == t[i - 1] && r[j] == t[j - 1];
        }
      }
    } else if s != [] {
      assert r == [x] + s;
      SortedTail(s, key);
      forall i, j | 0 <= i < j < |r| ensures key(r[i]) >= key(r[j]) {
        if i == 0 {
          assert r[j] == s[j - 1];
        } else {
          assert r[i] == s[i - 1] && r[j] == s[j - 1];
        }
      }
    }
  }

  /** The result is in non-increasing key order. */
  lemma {:induction false} SortDescSorted<T>(s: seq<T>, key: T -> real)
    ensures SortedDesc(SortDesc(s, key), key)
  {
    if s != [] {
      SortDescSorted(s[..|s| - 1], key);
      InsertSorted(SortDesc(s[..|s| - 1], key), s[|s| - 1], key);
    }
  }

  /** The elements whose key is `v`, in order. */
  function WithKey<T>(s: seq<T>, key: T -> real, v: real): seq<T>
  {
    if s == [] then []
    else (if key(s[0]) == v then [s[0]] else []) + WithKey(s[1..], key, v)
  }

  lemma {:induction false} WithKeyConcat<T>(a: seq<T>, b: seq<T>, key: T -> real, v: real)
    ensures WithKey(a + b, key, v) == WithKey(a, key, v) + WithKey(b, key, v)
    decreases |a|
  {
    if a == [] {
      assert a + b == b;
    } else {
      var h := if key(a[0]) == v then [a[0]] else [];
      var ab := a + b;
      assert ab[0] == a[0] && ab[1..] == a[1..] + b;
      assert WithKey(ab, key, v) == h + WithKey(a[1..] + b, key, v);
      WithKeyConcat(a[1..], b, key, v);
      assert WithKey(a, key, v) == h + WithKey(a[1..], key, v);
      assert h + (WithKey(a[1..], key, v) + WithKey(b, key, v))
          == (h + WithKey(a[1..], key, v)) + WithKey(b, key, v);
    }
  }

  lemma WithKeyLast<T>(s: seq<T>, key: T -> real, v: real)
    requires s != []
    ensures WithKey(s, key, v)
         == WithKey(s[..|s| - 1], key, v) + (if key(s[|s| - 1]) == v then [s[|s| - 1]] else [])
  {
    var x := s[|s| - 1];
    assert s == s[..|s| - 1] + [x];
    WithKeyConcat(s[..|s| - 1], [x], key, v);
    WithKeyCons(x, [], key, v);
    assert [x] + [] == [x];
    var own: seq<T> := if key(x) == v then [x] else [];
    assert own + [] == own;
  }

  lemma WithKeyCons<T>(y: T, b: seq<T>, key: T -> real, v: real)
    ensures WithKey([y] + b, key, v) == (if key(y) == v then [y] else []) + WithKey(b, key, v)
  {
    assert ([y] + b)[0] == y && ([y] + b)[1..] == b;
  }

  /** Inserting `x` puts it after every already placed element with the
      same key. */
  lemma {:induction false} InsertWithKey<T>(s: seq<T>, x: T, key: T -> real, v: real)
    requires SortedDesc(s, key)
    decreases |s|, 1
    ensures WithKey(Insert(s, x, key), key, v) == WithKey(s, key, v) + (if key(x) == v then [x] else [])
  {
    if s == [] {
      WithKeyCons(x, [], key, v);
      assert [x] + [] == [x];
    } else if key(s[0]) >= key(x) {
      InsertWithKeyAfterHead(s, x, key, v);
    } else {
      InsertWithKeyAtHead(s, x, key, v);
    }
  }

  lemma {:induction false} InsertWithKeyAfterHead<T>(s: seq<T>, x: T, key: T -> real, v: real)
    requires SortedDesc(s, key) && s != [] && key(s[0]) >= key(x)
    ensures WithKey(Insert(s, x, key), key, v) == WithKey(s, key, v) + (if key(x) == v then [x] else [])
    decreases |s|, 0
  {
    SortedTail(s, key);
    InsertWithKey(s[1..], x, key, v);
    var t := Insert(s[1..], x, key);
    assert Insert(s, x, key) == [s[0]] + t;
    WithKeyCons(s[0], t, key, v);
    WithKeyCons(s[0], s[1..], key, v);
    assert s == [s[0]] + s[1..];
  }

  lemma InsertWithKeyAtHead<T>(s: seq<T>, x: T, key: T -> real, v: real)
    requires SortedDesc(s, key) && s != [] && key(s[0]) < key(x)
    ensures WithKey(Insert(s, x, key), key, v) == WithKey(s, key, v) + (if key(x) == v then [x] else [])
  {
    assert Insert(s, x, key) == [x] + s;
    WithKeyCons(x, s, key, v);
    if key(x) == v {
      WithKeyBelowHead(s, key, v);
      assert WithKey([x] + s, key, v) == [x] + [];
    } else {
      assert WithKey([x] + s, key, v) == [] + WithKey(s, key, v);
      assert WithKey(s, key, v) + [] == WithKey(s, key, v);
    }
  }

  /** No element of a non-increasing sequence whose head key is below `v`
      has the key `v`. */
  lemma WithKeyBelowHead<T>(s: seq<T>, key: T -> real, v: real)
    requires SortedDesc(s, key) && s != [] && key(s[0]) < v
    ensures WithKey(s, key, v) == []
  {
    forall i | 0 <= i < |s|
      ensures key(s[i]) < v
    {
      assert key(s[0]) >= key(s[i]);
    }
    WithKeyNone(s, key, v);
  }

  lemma {:induction false} WithKeyNone<T>(s: seq<T>, key: T -> real, v: real)
    requires forall i :: 0 <= i < |s| ==> key(s[i]) < v
    ensures WithKey(s, key, v) == []
  {
    if s != [] {
      WithKeyNone(s[1..], key, v);
    }
  }

  lemma SortedTail<T>(s: seq<T>, key: T -> real)
    requires s != [] && SortedDesc(s, key)
    ensures SortedDesc(s[1..], key)
    ensures forall i :: 0 <= i < |s| ==> key(s[0]) >= key(s[i])
  {
    forall i, j | 0 <= i < j < |s[1..]| ensures key(s[1..][i]) >= key(s[1..][j]) {
      assert s[1..][i] == s[i + 1] && s[1..][j] == s[j + 1];
    }
    forall i | 0 < i < |s| ensures key(s[0]) >= key(s[i]) {
    }
  }

  /** Stability: for every key value, the elements with that key appear in
      the result in the same order as in the input. */
  lemma {:induction false} SortDescStable<T>(s: seq<T>, key: T -> real, v: real)
    ensures WithKey(SortDesc(s, key), key, v) == WithKey(s, key, v)
  {
    if s != [] {
      var init := s[..|s| - 1];
      WithKeyLast(s, key, v);
      SortDescStable(init, key, v);
      SortDescSorted(init, key);
      InsertWithKey(SortDesc(init, key), s[|s| - 1], key, v);
    }
  }
}
