/** Values and string operations shared by every module of the model. */
module Common {

  /** Python's `None` or a present value. */
  datatype Option<+T> = None | Some(value: T)

  /** The outcome of a call that may raise: a returned value or an exception
      that the caller sees (ZeroDivisionError, KeyError, ...). */
  datatype Outcome<+T> = Returned(value: T) | Raised

  /** Opaque instant (`datetime.now()` and exchange timestamps are inputs). */
  type Timestamp = int

  /** The part of `s` before the first `c`: Python's `s.split(c)[0]`. */
  function Before(s: string, c: char): (r: string)
    ensures r <= s
    ensures c !in r
    ensures r == s || s[|r|] == c
  {
    if s == [] then []
    else if s[0] == c then []
    else [s[0]] + Before(s[1..], c)
  }

  lemma {:induction false} BeforeOfCleanPrefix(p: string, c: char, rest: string)
    requires c !in p
    ensures Before(p + [c] + rest, c) == p
  {
    if p != [] {
      assert (p + [c] + rest)[1..] == p[1..] + [c] + rest;
      BeforeOfCleanPrefix(p[1..], c, rest);
    }
  }

  predicate IsLowerAscii(c: char) { 'a' <= c <= 'z' }
  predicate IsUpperAscii(c: char) { 'A' <= c <= 'Z' }

  /** `str.upper()` on one character, ASCII letters only. */
  function UpperChar(c: char): (u: char)
    ensures !IsLowerAscii(u)
  {
    if IsLowerAscii(c) then (c as int - 32) as char else c
  }

  /** `str.lower()` on one character, ASCII letters only. */
  function LowerChar(c: char): (l: char)
    ensures !IsUpperAscii(l)
  {
    if IsUpperAscii(c) then (c as int + 32) as char else c
  }

  function Upper(s: string): (r: string)
    ensures |r| == |s|
    ensures forall i :: 0 <= i < |s| ==> r[i] == UpperChar(s[i])
  {
    seq(|s|, i requires 0 <= i < |s| => UpperChar(s[i]))
  }

  function Lower(s: string): (r: string)
    ensures |r| == |s|
    ensures forall i :: 0 <= i < |s| ==> r[i] == LowerChar(s[i])
  {
    seq(|s|, i requires 0 <= i < |s| => LowerChar(s[i]))
  }

  /** `s.replace(a, b)` for one-character `a` and `b`. */
  function ReplaceChar(s: string, a: char, b: char): (r: string)
    ensures |r| == |s|
    ensures forall i :: 0 <= i < |s| ==> r[i] == if s[i] == a then b else s[i]
  {
    seq(|s|, i requires 0 <= i < |s| => if s[i] == a then b else s[i])
  }

  /** `s.replace(c, '')`. */
  function RemoveChar(s: string, c: char): (r: string)
    ensures c !in r
    ensures forall x :: x in r <==> x in s && x != c
  {
    if s == [] then []
    else (if s[0] == c then [] else [s[0]]) + RemoveChar(s[1..], c)
  }

  /** End of the Python slice `xs[:limit]` for a list of length `n`:
      a negative `limit` counts from the end. */
  function SliceEnd(n: nat, limit: int): (e: nat)
    ensures e <= n
    ensures limit >= 0 ==> e == if limit < n then limit else n
    ensures limit < 0 ==> e + (if -limit < n then -limit else n) == n
  {
    if limit >= 0 then (if limit < n then limit else n)
    else if n + limit > 0 then n + limit else 0
  }

  /** Keys of an association list (a Python dict in insertion order). */
  function Keys<K, V>(m: seq<(K, V)>): (ks: seq<K>)
    ensures |ks| == |m|
    ensures forall i :: 0 <= i < |m| ==> ks[i] == m[i].0
  {
    seq(|m|, i requires 0 <= i < |m| => m[i].0)
  }

  /** A Python dict's keys are pairwise distinct. */
  predicate DistinctKeys<K(==), V>(m: seq<(K, V)>)
  {
    forall i, j :: 0 <= i < j < |m| ==> m[i].0 != m[j].0
  }

  /** Position of key `k` in an association list, or -1 when absent. */
  function KeyIndex<K(==), V>(m: seq<(K, V)>, k: K): (i: int)
    ensures -1 <= i < |m|
    ensures i >= 0 ==> m[i].0 == k
    ensures i < 0 ==> forall j :: 0 <= j < |m| ==> m[j].0 != k
  {
    if m == [] then -1
    else if m[|m| - 1].0 == k then |m| - 1
    else KeyIndex(m[..|m| - 1], k)
  }

  /** `m.get(k)`: the value stored under `k`, if any. */
  function Lookup<K(==), V>(m: seq<(K, V)>, k: K): (r: Option<V>)
    ensures r.Some? <==> k in Keys(m)
    ensures r.Some? ==> exists i :: 0 <= i < |m| && m[i] == (k, r.value)
  {
    var i := KeyIndex(m, k);
    if i >= 0 then
      assert Keys(m)[i] == k;
      Some(m[i].1)
    else None
  }

  /** `m[k] = v` on a dict: an existing key keeps its place, a new key goes last. */
  function Put<K(==), V>(m: seq<(K, V)>, k: K, v: V): (r: seq<(K, V)>)
    requires DistinctKeys(m)
    ensures DistinctKeys(r)
    ensures k !in Keys(m) ==> r == m + [(k, v)]
    ensures Keys(r) == if k in Keys(m) then Keys(m) else Keys(m) + [k]
  {
    var i := KeyIndex(m, k);
    if i >= 0 then
      assert Keys(m)[i] == k;
      var r := m[i := (k, v)];
      assert Keys(r) == Keys(m);
      r
    else
      var r := m + [(k, v)];
      assert Keys(r) == Keys(m) + [k];
      r
  }

  /** After `m[k] = v`, `k` maps to `v` and every other key is unchanged. */
  lemma PutLookup<K, V>(m: seq<(K, V)>, k: K, v: V, k': K)
    requires DistinctKeys(m)
    ensures Lookup(Put(m, k, v), k) == Some(v)
    ensures k' != k ==> Lookup(Put(m, k, v), k') == Lookup(m, k')
  {
    var r := Put(m, k, v);
    var i := KeyIndex(m, k);
    if i >= 0 {
      assert Keys(m)[i] == k;
      assert forall j :: 0 <= j < |m| && j != i ==> m[j].0 != k;
    }
  }

  lemma KeysAppend<K, V>(a: seq<(K, V)>, b: seq<(K, V)>)
    ensures Keys(a + b) == Keys(a) + Keys(b)
  {
  }
}
