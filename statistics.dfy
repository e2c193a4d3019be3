/**
  The order statistics the load-time report relies on: an ascending sort of a
  sample sequence and a quantile over a sorted sequence. The sort is
  JavaScript's built-in array sort with a numeric comparator; it is modelled
  as an insertion sort, and since an ascending permutation is unique, any
  correct sort gives the same result. The quantile comes from an external
  statistics library whose code is not part of this model; this module
  supplies the linear interpolation quantile with fractional index
  p * (n - 1), for p a fraction k / q. Its general lemmas (a quantile lies
  within the data range and is monotone in p) hold for any reasonable
  quantile rule; the numeric fixtures are about this rule only.
*/
module Statistics {

  /** Ascending order, duplicates allowed. */
  predicate Sorted(s: seq<real>) {
    forall i, j :: 0 <= i < j < |s| ==> s[i] <= s[j]
  }

  /** Inserts x into an ascending sequence, keeping it ascending; that it
      adds exactly x is stated by InsertAdds. */
  function Insert(x: real, s: seq<real>): (r: seq<real>)
    requires Sorted(s)
    ensures Sorted(r)
    ensures |r| == |s| + 1
    ensures r[0] == if s == [] || x <= s[0] then x else s[0]
  {
    if s == [] then [x]
    else if x <= s[0] then [x] + s
    else [s[0]] + Insert(x, s[1..])
  }

  lemma {:induction false} InsertAdds(x: real, s: seq<real>)
    requires Sorted(s)
    ensures multiset(Insert(x, s)) == multiset(s) + multiset{x}
  {
    if s != [] && x > s[0] {
      InsertAdds(x, s[1..]);
      assert s == [s[0]] + s[1..];
    }
  }

  /** The samples in ascending order (the program's numeric `sort`); what
      the order is is stated by SortCorrect. */
  function Sort(s: seq<real>): (r: seq<real>)
    ensures |r| == |s|
  {
    if s == [] then [] else Insert(s[0], Sort(s[1..]))
  }

  /** Sort returns an ascending permutation of its input. */
  lemma {:induction false} SortCorrect(s: seq<real>)
    ensures Sorted(Sort(s)) && multiset(Sort(s)) == multiset(s)
  {
    if s != [] {
      SortCorrect(s[1..]);
      InsertAdds(s[0], Sort(s[1..]));
      assert s == [s[0]] + s[1..];
    }
  }

  /** The first element of an ascending sequence is its least value. */
  lemma SortedHeadLeast(s: seq<real>)
    ensures Sorted(s) && |s| > 0 ==> forall x :: x in s ==> s[0] <= x
  {
  }

  /** Two ascending sequences holding the same values start with the same
      value, and their tails hold the same values. */
  lemma SameHead(a: seq<real>, b: seq<real>)
    requires Sorted(a) && Sorted(b) && |a| > 0 && |b| > 0
    requires multiset(a) == multiset(b)
    ensures a[0] == b[0]
    ensures multiset(a[1..]) == multiset(b[1..])
  {
    assert a[0] in multiset(b) && b[0] in multiset(a);
    SortedHeadLeast(a);
    SortedHeadLeast(b);
    assert a == [a[0]] + a[1..];
    assert b == [b[0]] + b[1..];
    assert a[0] == b[0];
    assert multiset(a) == multiset{a[0]} + multiset(a[1..]);
    assert multiset(b) == multiset{b[0]} + multiset(b[1..]);
    assert multiset(a[1..]) == multiset(a) - multiset{a[0]};
    assert multiset(b[1..]) == multiset(b) - multiset{b[0]};
  }

  /** Two ascending sequences holding the same values are equal: every correct
      sort therefore gives the same result as Sort. */
  lemma {:induction false} SortedUnique(a: seq<real>, b: seq<real>)
    requires Sorted(a) && Sorted(b)
    requires multiset(a) == multiset(b)
    ensures a == b
  {
    assert |a| == |multiset(a)| == |multiset(b)| == |b|;
    if a != [] {
      SameHead(a, b);
      assert Sorted(a[1..]) && Sorted(b[1..]);
      SortedUnique(a[1..], b[1..]);
      assert a == [a[0]] + a[1..];
      assert b == [b[0]] + b[1..];
    }
  }

  /** Sorting depends only on the values, not on their order. */
  lemma SortPermutationInvariant(s: seq<real>, t: seq<real>)
    requires multiset(s) == multiset(t)
    ensures Sort(s) == Sort(t)
  {
    SortCorrect(s);
    SortCorrect(t);
    SortedUnique(Sort(s), Sort(t));
  }

  /** An already ascending sequence is left as it is. */
  lemma SortOfSorted(s: seq<real>)
    requires Sorted(s)
    ensures Sort(s) == s
  {
    SortCorrect(s);
    SortedUnique(Sort(s), s);
  }

  /** Sorting u gives s exactly when s is ascending and holds the same values. */
  lemma SortsTo(u: seq<real>, s: seq<real>)
    ensures Sort(u) == s <==> Sorted(s) && multiset(u) == multiset(s)
  {
    SortCorrect(u);
    if Sorted(s) && multiset(u) == multiset(s) {
      SortedUnique(Sort(u), s);
    }
  }

  /** Every element of a sorted sequence lies between its first and last. */
  lemma SortedBounds(s: seq<real>, k: int)
    requires Sorted(s) && 0 <= k < |s|
    ensures s[0] <= s[k] <= s[|s| - 1]
  {
  }

  /** f * m for a fraction f of a non-negative m. */
  function Scale(f: real, m: real): (r: real)
    requires 0.0 <= f <= 1.0 && 0.0 <= m
    ensures 0.0 <= r <= m
  {
    assert f * m <= 1.0 * m;
    f * m
  }

  lemma ScaleMonotone(f: real, g: real, m: real)
    requires 0.0 <= f <= g <= 1.0 && 0.0 <= m
    ensures Scale(f, m) <= Scale(g, m)
  {
    var d := g - f;
    assert d * m >= 0.0;
    assert g * m == f * m + d * m;
  }

  /** The point a fraction f of the way from a to b. */
  function Lerp(a: real, b: real, f: real): (r: real)
    requires a <= b && 0.0 <= f <= 1.0
    ensures a <= r <= b
  {
    a + Scale(f, b - a)
  }

  /** The fraction r / q of a remainder r of a division by q. */
  function Fraction(r: nat, q: nat): (f: real)
    requires r < q
    ensures 0.0 <= f < 1.0
  {
    r as real / q as real
  }

  lemma FractionMonotone(r: nat, t: nat, q: nat)
    requires r <= t < q
    ensures Fraction(r, q) <= Fraction(t, q)
  {
  }

  /** For k <= q, k * (n - 1) / q is an index of a sequence of length n, and
      it grows with k. */
  lemma RankBounds(k: nat, j: nat, q: nat, n: nat)
    requires k <= j <= q && 0 < q && 0 < n
    ensures k * (n - 1) <= j * (n - 1) <= q * (n - 1)
    ensures (k * (n - 1)) / q <= (j * (n - 1)) / q <= n - 1
  {
    var m := n - 1;
    MulMonotone(k, j, m);
    MulMonotone(j, q, m);
    DivMonotone(k * m, j * m, q);
    DivMonotone(j * m, q * m, q);
    MulDivCancel(m, q);
  }

  lemma MulDivCancel(m: nat, q: nat)
    requires 0 < q
    ensures (q * m) / q == m
  {
    var d := (q * m) / q;
    assert q * m == q * d + (q * m) % q;
    if d < m {
      MulMonotone(d + 1, m, q);
      assert false;
    } else if d > m {
      MulMonotone(m + 1, d, q);
      assert false;
    }
  }

  lemma MulMonotone(a: nat, b: nat, m: nat)
    requires a <= b
    ensures a * m <= b * m
  {
    assert b * m == a * m + (b - a) * m;
  }

  lemma DivMonotone(a: nat, b: nat, q: nat)
    requires a <= b && 0 < q
    ensures a / q <= b / q
    ensures a / q == b / q ==> a % q <= b % q
  {
    var da, db := a / q, b / q;
    assert a == q * da + a % q && b == q * db + b % q;
    if da > db {
      MulMonotone(db + 1, da, q);
      assert false;
    }
  }

  /** The k-th q-quantile (p = k / q) of an ascending, non-empty sequence,
      interpolating linearly between the order statistics around the
      fractional index p * (n - 1). */
  function Quantile(s: seq<real>, k: nat, q: nat): (r: real)
    requires Sorted(s) && |s| > 0 && 0 < q && k <= q
    ensures s[0] <= r <= s[|s| - 1]
  {
    RankBounds(k, k, q, |s|);
    var t := k * (|s| - 1);
    var lo := t / q;
    SortedBounds(s, lo);
    if lo + 1 < |s| then
      SortedBounds(s, lo + 1);
      Lerp(s[lo], s[lo + 1], Fraction(t % q, q))
    else
      s[lo]
  }

  /** A larger k never gives a smaller quantile. */
  lemma QuantileMonotone(s: seq<real>, k: nat, j: nat, q: nat)
    requires Sorted(s) && |s| > 0 && 0 < q && k <= j <= q
    ensures Quantile(s, k, q) <= Quantile(s, j, q)
  {
    var n := |s|;
    RankBounds(k, j, q, n);
    var tk, tj := k * (n - 1), j * (n - 1);
    DivMonotone(tk, tj, q);
    var lk, lj := tk / q, tj / q;
    if lk == lj {
      if lk + 1 < n {
        FractionMonotone(tk % q, tj % q, q);
        ScaleMonotone(Fraction(tk % q, q), Fraction(tj % q, q), s[lk + 1] - s[lk]);
      }
    } else {
      // the k-th quantile is at most s[lk + 1], the j-th at least s[lj]
      assert Quantile(s, k, q) <= s[lk + 1];
      assert s[lk + 1] <= s[lj] <= Quantile(s, j, q);
    }
  }

  /** The quantile of a sequence of equal values is that value. */
  lemma QuantileOfConstant(s: seq<real>, c: real, k: nat, q: nat)
    requires |s| > 0 && 0 < q && k <= q
    requires forall i :: 0 <= i < |s| ==> s[i] == c
    ensures Sorted(s) && Quantile(s, k, q) == c
  {
  }

  /** The quartiles: the 1st, 2nd and 3rd 4-quantiles. */
  function LowerQuartile(s: seq<real>): real
    requires Sorted(s) && |s| > 0
  {
    Quantile(s, 1, 4)
  }

  function Median(s: seq<real>): real
    requires Sorted(s) && |s| > 0
  {
    Quantile(s, 2, 4)
  }

  function UpperQuartile(s: seq<real>): real
    requires Sorted(s) && |s| > 0
  {
    Quantile(s, 3, 4)
  }

  /** min <= q1 <= median <= q3 <= max for every non-empty sorted sample. */
  lemma FiveNumberOrder(s: seq<real>)
    requires Sorted(s) && |s| > 0
    ensures s[0] <= LowerQuartile(s) <= Median(s) <= UpperQuartile(s) <= s[|s| - 1]
  {
    QuantileMonotone(s, 1, 2, 4);
    QuantileMonotone(s, 2, 3, 4);
  }

  /** The quartiles of 1 .. 10: 3.25, 5.5 and 7.75. */
  lemma QuartilesOfOneToTen()
    ensures var s := [1.0, 2.0, 3.0, 4.0, 5.0, 6.0, 7.0, 8.0, 9.0, 10.0];
      Sorted(s) && LowerQuartile(s) == 3.25 && Median(s) == 5.5 && UpperQuartile(s) == 7.75
  {
  }
}
