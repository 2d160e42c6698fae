/** The memory sparkline of the load test: which samples fall in a bin, and how high its block is. */
module Sparkline {

  /** The first sample of bin `i`, and the one behind its last. */
  function Lo(n: nat, width: nat, i: nat): nat
    requires width > 0
  {
    (i * n) / width
  }

  function Hi(n: nat, width: nat, i: nat): nat
    requires width > 0
  {
    var h := ((i + 1) * n) / width + 1;
    if h <= n then h else n
  }

  lemma MulLess(a: nat, b: nat, d: nat)
    requires d > 0 && a < b
    ensures a * d < b * d
  {}

  /** `q` is the quotient exactly if the dividend lies between its multiples. */
  lemma QuotientIs(a: nat, d: nat, q: nat)
    requires d > 0
    ensures a < q * d ==> a / d < q
    ensures a >= q * d ==> a / d >= q
    ensures (a / d) * d <= a < (a / d + 1) * d
  {
    var x := a / d;
    assert a == x * d + a % d;
    assert (x + 1) * d == x * d + d;
    if x >= q {
      if x > q { MulLess(q, x, d); }
    } else {
      if x + 1 < q { MulLess(x + 1, q, d); }
    }
  }

  /** Every bin holds a sample, and none reaches past the last. */
  lemma BinsAreNonEmpty(n: nat, width: nat, i: nat)
    requires n >= 1 && i < width
    ensures Lo(n, width, i) < Hi(n, width, i) <= n
  {
    MulLess(i, width, n);
    assert width * n == n * width;
    QuotientIs(i * n, width, n);
    QuotientIs(i * n, width, 0);
    MulLess(i, i + 1, n);
    QuotientIs((i + 1) * n, width, Lo(n, width, i));
  }

  /** The bin that shows sample `j`. */
  function BinOf(n: nat, width: nat, j: nat): nat
    requires n >= 1
  {
    (j * width) / n
  }

  /** Every sample falls in some bin. */
  lemma EverySampleIsShown(n: nat, width: nat, j: nat)
    requires j < n && width >= 1
    ensures var i := BinOf(n, width, j); i < width && Lo(n, width, i) <= j < Hi(n, width, i)
  {
    var i := BinOf(n, width, j);
    MulLess(j, n, width);
    assert n * width == width * n;
    QuotientIs(j * width, n, width);
    QuotientIs(i * n, width, j + 1);
    MulLess(j, j + 1, width);
    QuotientIs((i + 1) * n, width, j);
  }

  /** Which samples a bin shows: the ones that its share of the samples touches. */
  lemma BinShows(n: nat, width: nat, i: nat, j: nat)
    requires n >= 1 && i < width && j < n
    ensures Lo(n, width, i) <= j < Hi(n, width, i) <==> i * n < (j + 1) * width && j * width <= (i + 1) * n
  {
    QuotientIs(i * n, width, j + 1);
    QuotientIs((i + 1) * n, width, j);
  }

  // --- levels -----------------------------------------------------------------------------

  /** The height of the block for an average: a share of the range, kept within the eight blocks. */
  function Level(avg: real, min: real, range: real): (k: nat)
    requires range > 0.0
    ensures k <= 7
  {
    var f := (((avg - min) / range) * 8.0).Floor;
    if f < 0 then 0 else if f > 7 then 7 else f
  }

  /** The cut points: a block is at least k eighths high exactly if the average is k eighths of the range up. */
  lemma LevelCuts(avg: real, min: real, range: real, k: nat)
    requires range > 0.0 && 1 <= k <= 7
    ensures Level(avg, min, range) >= k <==> (avg - min) * 8.0 >= k as real * range
  {
    var share := ((avg - min) / range) * 8.0;
    assert share.Floor >= k <==> share >= k as real;
    assert share * range == (avg - min) * 8.0;
    Quotient((avg - min) * 8.0, range, k as real);
    if (avg - min) * 8.0 < k as real * range { Below((avg - min) * 8.0, range, k as real); }
    assert ((avg - min) * 8.0) / range == share;
  }

  lemma Below(s: real, n: real, c: real)
    requires n > 0.0 && s < c * n
    ensures s / n < c
  {
    assert (s / n) * n == s;
  }

  lemma LevelIsMonotone(a: real, b: real, min: real, range: real)
    requires range > 0.0 && a <= b
    ensures Level(a, min, range) <= Level(b, min, range)
  {
    assert (a - min) / range <= (b - min) / range;
  }

  function Sum(values: seq<real>): real {
    if values == [] then 0.0 else Sum(values[..|values| - 1]) + values[|values| - 1]
  }

  function Least(values: seq<real>): (m: real)
    requires values != []
    ensures forall k :: 0 <= k < |values| ==> m <= values[k]
    ensures exists k :: 0 <= k < |values| && m == values[k]
  {
    var last := values[|values| - 1];
    if |values| == 1 then last
    else
      var m := Least(values[..|values| - 1]);
      if last < m then last else m
  }

  function Greatest(values: seq<real>): (m: real)
    requires values != []
    ensures forall k :: 0 <= k < |values| ==> values[k] <= m
    ensures exists k :: 0 <= k < |values| && m == values[k]
  {
    var last := values[|values| - 1];
    if |values| == 1 then last
    else
      var m := Greatest(values[..|values| - 1]);
      if last > m then last else m
  }

  function Range(values: seq<real>): (r: real)
    requires values != []
    ensures r >= 0.1
  {
    var d := Greatest(values) - Least(values);
    if d < 0.1 then 0.1 else d
  }

  /** The range is what lies between the least and the greatest sample, but never less than a tenth. */
  lemma RangeIs(values: seq<real>)
    requires values != []
    ensures Range(values) == (if Greatest(values) - Least(values) < 0.1 then 0.1 else Greatest(values) - Least(values))
  {}

  /** The least sample is drawn as the lowest block, the greatest, if it is a tenth above, as the highest. */
  lemma EndsAreDrawn(values: seq<real>)
    requires values != []
    ensures Level(Least(values), Least(values), Range(values)) == 0
    ensures Greatest(values) - Least(values) >= 0.1 ==> Level(Greatest(values), Least(values), Range(values)) == 7
  {
    LevelCuts(Least(values), Least(values), Range(values), 1);
    LevelCuts(Greatest(values), Least(values), Range(values), 7);
  }

  /** A sum lies between the multiples of its bounds. */
  lemma {:induction false} SumBounds(values: seq<real>, lo: real, hi: real)
    requires forall k :: 0 <= k < |values| ==> lo <= values[k] <= hi
    ensures lo * |values| as real <= Sum(values) <= hi * |values| as real
  {
    if values != [] { SumBounds(values[..|values| - 1], lo, hi); }
  }

  /** The sum of a series is the sum of its parts. */
  lemma {:induction false} SumSplits(a: seq<real>, b: seq<real>)
    ensures Sum(a + b) == Sum(a) + Sum(b)
    ensures forall x: real :: Sum([x]) == x
  {
    forall x: real ensures Sum([x]) == x { assert [x][..0] == []; }
    if b == [] {
      assert a + b == a;
    } else {
      assert (a + b)[..|a + b| - 1] == a + b[..|b| - 1];
      SumSplits(a, b[..|b| - 1]);
    }
  }

  /** The average, taken as often as there are samples, is their sum. */
  lemma AverageIs(values: seq<real>)
    requires values != []
    ensures Average(values) * |values| as real == Sum(values)
  {}

  function Average(values: seq<real>): real
    requires values != []
  {
    Sum(values) / |values| as real
  }

  function Blocks(values: seq<real>, width: nat, i: nat): nat
    requires values != [] && i < width
  {
    var n := |values|;
    BinsAreNonEmpty(n, width, i);
    Level(Average(values[Lo(n, width, i)..Hi(n, width, i)]), Least(values), Range(values))
  }

  /** `asciiSparkline`: one block for each bin; no bin is ever left blank. */
  method AsciiSparkline(values: seq<real>, width: nat) returns (levels: seq<nat>)
    ensures values == [] ==> levels == []
    ensures values != [] ==>
              |levels| == width && forall i :: 0 <= i < width ==> levels[i] == Blocks(values, width, i) <= 7
  {
    levels := [];
    if values == [] { return; }
    var n := |values|;
    var min, range := Least(values), Range(values);
    for i := 0 to width
      invariant |levels| == i && forall k :: 0 <= k < i ==> levels[k] == Blocks(values, width, k) <= 7
    {
      BinsAreNonEmpty(n, width, i);
      var slice := values[Lo(n, width, i)..Hi(n, width, i)];
      var sum := 0.0;
      for k := 0 to |slice|
        invariant sum == Sum(slice[..k])
      {
        assert slice[..k + 1][..k] == slice[..k];
        sum := sum + slice[k];
      }
      assert slice[..|slice|] == slice;
      levels := levels + [Level(sum / |slice| as real, min, range)];
    }
  }

  lemma Quotient(s: real, n: real, c: real)
    requires n > 0.0
    ensures s <= c * n ==> s / n <= c
    ensures s >= c * n ==> s / n >= c
  {
    assert (c * n) / n == c;
  }

  lemma AverageBetween(values: seq<real>, lo: real, hi: real)
    requires values != [] && forall k :: 0 <= k < |values| ==> lo <= values[k] <= hi
    ensures lo <= Average(values) <= hi
  {
    SumBounds(values, lo, hi);
    Quotient(Sum(values), |values| as real, lo);
    Quotient(Sum(values), |values| as real, hi);
  }

  /** A bin whose samples are all at least those of another is drawn at least as high. */
  lemma HigherBinsAreHigher(values: seq<real>, width: nat, i: nat, j: nat, cut: real)
    requires values != [] && i < width && j < width
    requires forall k :: Lo(|values|, width, i) <= k < Hi(|values|, width, i) ==> values[k] <= cut
    requires forall k :: Lo(|values|, width, j) <= k < Hi(|values|, width, j) ==> cut <= values[k]
    ensures Blocks(values, width, i) <= Blocks(values, width, j)
  {
    var n := |values|;
    BinsAreNonEmpty(n, width, i);
    BinsAreNonEmpty(n, width, j);
    var a := values[Lo(n, width, i)..Hi(n, width, i)];
    var b := values[Lo(n, width, j)..Hi(n, width, j)];
    AverageBetween(a, Least(values), cut);
    AverageBetween(b, cut, Greatest(values));
    LevelIsMonotone(Average(a), Average(b), Least(values), Range(values));
  }
}
