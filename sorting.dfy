/** Python's `list.sort(key=..., reverse=True)`: a stable sort into
    non-increasing key order. Every ranking in the system goes through it. */
module Sorting {

  ghost predicate NonIncreasing<T>(s: seq<T>, key: T -> real)
  {
    forall i, j :: 0 <= i < j < |s| ==> key(s[i]) >= key(s[j])
  }

  /** The elements of `s` whose key equals `k`, in their order in `s`. */
  function KeyClass<T>(s: seq<T>, key: T -> real, k: real): seq<T>
  {
    if s == [] then []
    else (if key(s[0]) == k then [s[0]] else []) + KeyClass(s[1..], key, k)
  }

  /** Places `x` in front of the first element whose key is not above its own. */
  function Insert<T>(x: T, s: seq<T>, key: T -> real): (r: seq<T>)
    ensures |r| == |s| + 1
    ensures multiset(r) == multiset(s) + multiset{x}
  {
    if s == [] || key(x) >= key(s[0]) then [x] + s
    else
      assert s == [s[0]] + s[1..];
      [s[0]] + Insert(x, s[1..], key)
  }

  /** Insertion sort from the back: the earlier of two equal-key elements
      ends up in front, as in Python's stable sort with `reverse=True`. */
  function SortDesc<T>(s: seq<T>, key: T -> real): (r: seq<T>)
    ensures |r| == |s|
    ensures multiset(r) == multiset(s)
  {
    if s == [] then []
    else
      assert s == [s[0]] + s[1..];
      Insert(s[0], SortDesc(s[1..], key), key)
  }

  lemma {:induction false} KeyClassAppend<T>(a: seq<T>, b: seq<T>, key: T -> real, k: real)
    ensures KeyClass(a + b, key, k) == KeyClass(a, key, k) + KeyClass(b, key, k)
  {
    if a == [] {
      assert a + b == b;
    } else {
      assert (a + b)[0] == a[0] && (a + b)[1..] == a[1..] + b;
      KeyClassAppend(a[1..], b, key, k);
      var h := if key(a[0]) == k then [a[0]] else [];
      assert KeyClass(a + b, key, k) == h + KeyClass(a[1..] + b, key, k);
    }
  }

  lemma {:induction false} InsertSorted<T>(x: T, s: seq<T>, key: T -> real)
    requires NonIncreasing(s, key)
    ensures NonIncreasing(Insert(x, s, key), key)
  {
    if s == [] || key(x) >= key(s[0]) {
      var r := [x] + s;
      forall i, j | 0 <= i < j < |r| ensures key(r[i]) >= key(r[j]) {
        if i == 0 {
          assert key(s[0]) >= key(s[j - 1]);
        }
      }
    } else {
      var t := Insert(x, s[1..], key);
      InsertSorted(x, s[1..], key);
      var r := [s[0]] + t;
      forall j | 0 <= j < |t| ensures key(s[0]) >= key(t[j]) {
        assert t[j] in multiset(t);
        if t[j] != x {
          assert t[j] in multiset(s[1..]);
          var m :| 0 <= m < |s[1..]| && s[1..][m] == t[j];
          assert s[1..][m] == s[m + 1];
        }
      }
      forall i, j | 0 <= i < j < |r| ensures key(r[i]) >= key(r[j]) {
        if i == 0 {
          assert r[j] == t[j - 1];
        } else {
          assert r[i] == t[i - 1] && r[j] == t[j - 1];
        }
      }
    }
  }

  lemma {:induction false} InsertStable<T>(x: T, s: seq<T>, key: T -> real, k: real)
    requires NonIncreasing(s, key)
    ensures KeyClass(Insert(x, s, key), key, k) == KeyClass([x] + s, key, k)
  {
    if s == [] || key(x) >= key(s[0]) {
    } else {
      InsertStable(x, s[1..], key, k);
      KeyClassAppend([s[0]], Insert(x, s[1..], key), key, k);
      KeyClassAppend([x], s[1..], key, k);
      KeyClassAppend([x], s, key, k);
      KeyClassAppend([s[0]], s[1..], key, k);
      assert s == [s[0]] + s[1..];
    }
  }

  /** The sorted list is in non-increasing key order. */
  lemma {:induction false} SortDescSorted<T>(s: seq<T>, key: T -> real)
    ensures NonIncreasing(SortDesc(s, key), key)
  {
    if s != [] {
      SortDescSorted(s[1..], key);
      InsertSorted(s[0], SortDesc(s[1..], key), key);
    }
  }

  /** Stability: the elements of one key keep their relative order. Together
      with `SortDescSorted` this determines the sorted list completely. */
  lemma {:induction false} SortDescStable<T>(s: seq<T>, key: T -> real, k: real)
    ensures KeyClass(SortDesc(s, key), key, k) == KeyClass(s, key, k)
  {
    if s != [] {
      var rest := SortDesc(s[1..], key);
      var h := if key(s[0]) == k then [s[0]] else [];
      SortDescSorted(s[1..], key);
      InsertStable(s[0], rest, key, k);
      SortDescStable(s[1..], key, k);
      assert ([s[0]] + rest)[1..] == rest;
      assert KeyClass([s[0]] + rest, key, k) == h + KeyClass(rest, key, k);
    }
  }

  /** The front of a non-empty sorted list carries the largest key of the input. */
  lemma SortDescHeadIsMax<T>(s: seq<T>, key: T -> real)
    requires s != []
    ensures forall x :: x in s ==> key(SortDesc(s, key)[0]) >= key(x)
  {
    var r := SortDesc(s, key);
    SortDescSorted(s, key);
    forall x | x in s ensures key(r[0]) >= key(x) {
      assert x in multiset(r);
      var j :| 0 <= j < |r| && r[j] == x;
    }
  }

  /** The back of a non-empty sorted list carries the smallest key of the input. */
  lemma SortDescLastIsMin<T>(s: seq<T>, key: T -> real)
    requires s != []
    ensures forall x :: x in s ==> key(SortDesc(s, key)[|s| - 1]) <= key(x)
  {
    var r := SortDesc(s, key);
    SortDescSorted(s, key);
    forall x | x in s ensures key(r[|s| - 1]) <= key(x) {
      assert x in multiset(r);
      var j :| 0 <= j < |r| && r[j] == x;
      if j < |r| - 1 {
        assert key(r[j]) >= key(r[|r| - 1]);
      }
    }
  }
}
