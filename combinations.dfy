/** The order of `itertools.combinations(range(n), 2)`: the pairs (a, b)
    with a < b, by a and then by b. Each pair contributes the sequence
    `pair(a, b)`, for any function `pair`. */
module Combinations {

  /** What the pairs (a, b) with a < b < j contribute, in order. */
  function Row<T>(pair: (nat, nat) -> seq<T>, a: nat, j: nat): seq<T>
  {
    if j <= a + 1 then [] else Row(pair, a, j - 1) + pair(a, j - 1)
  }

  /** What every pair of n indices whose first index comes before i
      contributes, in order. */
  function RowsBefore<T>(pair: (nat, nat) -> seq<T>, n: nat, i: nat): seq<T>
  {
    if i == 0 then [] else RowsBefore(pair, n, i - 1) + Row(pair, i - 1, n)
  }

  /** A row grows by the contribution of its next pair. */
  lemma RowSnoc<T>(pair: (nat, nat) -> seq<T>, a: nat, j: nat, row: seq<T>, next: seq<T>)
    requires a < j && row == Row(pair, a, j) && next == pair(a, j)
    ensures row + next == Row(pair, a, j + 1)
  {
  }

  lemma {:induction false} RowBound<T>(pair: (nat, nat) -> seq<T>, a: nat, j: nat, w: nat)
    requires a < j
    requires forall b: nat :: a < b < j ==> |pair(a, b)| <= w
    ensures |Row(pair, a, j)| <= w * (j - a - 1)
    decreases j
  {
    if j > a + 1 {
      RowBound(pair, a, j - 1, w);
    }
  }

  /** The number of pairs of n indices whose first index comes before i. */
  function PairsBefore(n: nat, i: nat): nat
    requires i <= n
  {
    if i == 0 then 0 else PairsBefore(n, i - 1) + (n - i)
  }

  /** There are i(2n-i-1)/2 of them, n(n-1)/2 in all. */
  lemma {:induction false} PairsBeforeCount(n: nat, i: nat)
    requires i <= n
    ensures 2 * PairsBefore(n, i) == i * (2 * n - i - 1)
  {
    if i > 0 {
      PairsBeforeCount(n, i - 1);
      var m := 2 * n - i;
      assert (i - 1) * m == i * m - m;
      assert i * (m - 1) == i * m - i;
    }
  }

  /** With at most w entries per pair, the rows before i hold at most w
      entries per pair they enumerate. */
  lemma {:induction false} RowsBeforeBound<T>(pair: (nat, nat) -> seq<T>, n: nat, i: nat, w: nat)
    requires i <= n
    requires forall a: nat, b: nat :: a < b < n ==> |pair(a, b)| <= w
    ensures |RowsBefore(pair, n, i)| <= w * PairsBefore(n, i)
  {
    if i > 0 {
      RowsBeforeBound(pair, n, i - 1, w);
      RowBound(pair, i - 1, n, w);
      var p, k := PairsBefore(n, i - 1), n - i;
      assert PairsBefore(n, i) == p + k;
      assert |RowsBefore(pair, n, i)| == |RowsBefore(pair, n, i - 1)| + |Row(pair, i - 1, n)|;
      assert w * p + w * k == w * (p + k);
    }
  }

  lemma {:induction false} RowCount<T>(pair: (nat, nat) -> seq<T>, a: nat, j: nat)
    requires a < j
    requires forall b: nat :: a < b < j ==> |pair(a, b)| == 1
    ensures |Row(pair, a, j)| == j - a - 1
    decreases j
  {
    if j > a + 1 {
      RowCount(pair, a, j - 1);
    }
  }

  /** With one entry per pair, the rows before i hold one entry per pair
      they enumerate. */
  lemma {:induction false} RowsBeforeCount<T>(pair: (nat, nat) -> seq<T>, n: nat, i: nat)
    requires i <= n
    requires forall a: nat, b: nat :: a < b < n ==> |pair(a, b)| == 1
    ensures |RowsBefore(pair, n, i)| == PairsBefore(n, i)
  {
    if i > 0 {
      RowsBeforeCount(pair, n, i - 1);
      RowCount(pair, i - 1, n);
    }
  }

  /** The pair of row `a`, and the place in its contribution, that entry
      k of the row comes from. */
  lemma {:induction false} RowAt<T>(pair: (nat, nat) -> seq<T>, a: nat, j: nat, k: nat) returns (b: nat, m: nat)
    requires k < |Row(pair, a, j)|
    ensures a < b < j && m < |pair(a, b)| && Row(pair, a, j)[k] == pair(a, b)[m]
    decreases j
  {
    var prev := Row(pair, a, j - 1);
    if k < |prev| {
      b, m := RowAt(pair, a, j - 1, k);
    } else {
      b, m := j - 1, k - |prev|;
    }
  }

  /** The pair, and the place in its contribution, that entry k of the
      rows before i comes from. */
  lemma {:induction false} RowsBeforeAt<T>(pair: (nat, nat) -> seq<T>, n: nat, i: nat, k: nat)
    returns (a: nat, b: nat, m: nat)
    requires k < |RowsBefore(pair, n, i)|
    ensures a < i && a < b < n && m < |pair(a, b)| && RowsBefore(pair, n, i)[k] == pair(a, b)[m]
    decreases i
  {
    var prev := RowsBefore(pair, n, i - 1);
    if k < |prev| {
      a, b, m := RowsBeforeAt(pair, n, i - 1, k);
    } else {
      a := i - 1;
      b, m := RowAt(pair, i - 1, n, k - |prev|);
    }
  }

  /** Every entry of the rows before i comes from a pair (a, b), a < i. */
  lemma RowsBeforeMember<T>(pair: (nat, nat) -> seq<T>, n: nat, i: nat, o: T) returns (a: nat, b: nat)
    requires o in RowsBefore(pair, n, i)
    ensures a < i && a < b < n && o in pair(a, b)
  {
    var k :| 0 <= k < |RowsBefore(pair, n, i)| && RowsBefore(pair, n, i)[k] == o;
    var m;
    a, b, m := RowsBeforeAt(pair, n, i, k);
  }

  lemma {:induction false} RowContains<T>(pair: (nat, nat) -> seq<T>, a: nat, j: nat, b: nat, o: T)
    requires a < b < j && o in pair(a, b)
    ensures o in Row(pair, a, j)
    decreases j
  {
    if b < j - 1 {
      RowContains(pair, a, j - 1, b, o);
    }
  }

  /** Every entry of every pair (a, b) with a < i is in the rows before i. */
  lemma {:induction false} RowsBeforeContains<T>(pair: (nat, nat) -> seq<T>, n: nat, i: nat, a: nat, b: nat, o: T)
    requires a < i && a < b < n && o in pair(a, b)
    ensures o in RowsBefore(pair, n, i)
    decreases i
  {
    if a < i - 1 {
      RowsBeforeContains(pair, n, i - 1, a, b, o);
    } else {
      RowContains(pair, a, n, b, o);
    }
  }
}
