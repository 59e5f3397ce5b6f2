/** The geometrically weighted totals: performance points and accuracy, over reals. */
module Weighted {

  /** What the query for the weighted totals returns of a score. */
  datatype Performance = Performance(pp: real, acc: real)

  function Pow(x: real, n: nat): (p: real)
    ensures 0.0 < x ==> 0.0 < p
    ensures 0.0 < x < 1.0 ==> p <= 1.0
  {
    if n == 0 then 1.0 else x * Pow(x, n - 1)
  }

  /** `sum(x * 0.95**i for i, x in enumerate(xs))` */
  function WeightedSum(xs: seq<real>): real {
    if xs == [] then 0.0
    else var n := |xs| - 1; WeightedSum(xs[..n]) + xs[n] * Pow(0.95, n)
  }

  function Pps(rows: seq<Performance>): seq<real> {
    seq(|rows|, i requires 0 <= i < |rows| => rows[i].pp)
  }

  function Accs(rows: seq<Performance>): seq<real> {
    seq(|rows|, i requires 0 <= i < |rows| => rows[i].acc)
  }

  /** Rounding to the nearest integer, halves to the even one. */
  function Round(x: real): int {
    var low := x.Floor;
    var part := x - low as real;
    if part < 0.5 || (part == 0.5 && low % 2 == 0) then low else low + 1
  }

  function BonusPp(n: nat): real {
    416.6667 * (1.0 - Pow(0.9994, n))
  }

  function CalculateWeightedPp(bestScores: seq<Performance>): int {
    Round(WeightedSum(Pps(bestScores)) + BonusPp(|bestScores|))
  }

  /** No score at all would divide by zero. */
  function BonusAcc(n: nat): real
    requires n > 0
  {
    WeightSum(n);
    100.0 / (20.0 * (1.0 - Pow(0.95, n)))
  }

  /** A new best score is always among those summed. */
  function CalculateWeightedAccuracy(bestScores: seq<Performance>): real
    requires bestScores != []
  {
    (WeightedSum(Accs(bestScores)) * BonusAcc(|bestScores|)) / 100.0
  }

  function Weights(n: nat): real {
    if n == 0 then 0.0 else Weights(n - 1) + Pow(0.95, n - 1)
  }

  /** The weights of a list of length `n` sum to the reciprocal of the bonus factor. */
  lemma {:induction false} WeightSum(n: nat)
    ensures Weights(n) == 20.0 * (1.0 - Pow(0.95, n))
    ensures n > 0 ==> Weights(n) > 0.0
  {
    if n > 0 {
      WeightSum(n - 1);
    }
  }

  lemma {:induction false} WeightedSumBetween(xs: seq<real>, low: real, high: real)
    requires forall i :: 0 <= i < |xs| ==> low <= xs[i] <= high
    ensures low * Weights(|xs|) <= WeightedSum(xs) <= high * Weights(|xs|)
  {
    if xs != [] {
      var n := |xs| - 1;
      WeightedSumBetween(xs[..n], low, high);
      Scale(low, xs[n], high, Pow(0.95, n));
      Distribute(low, Weights(n), Pow(0.95, n));
      Distribute(high, Weights(n), Pow(0.95, n));
    }
  }

  lemma Distribute(x: real, a: real, b: real)
    ensures x * (a + b) == x * a + x * b
  {
  }

  lemma Cancel(a: real, b: real, w: real)
    requires w > 0.0 && a * w <= b * w
    ensures a <= b
  {
  }

  lemma Scale(low: real, x: real, high: real, w: real)
    requires low <= x <= high && 0.0 <= w
    ensures low * w <= x * w <= high * w
  {
  }

  /** Overall accuracy is a weighted mean: it lies between any bounds on the accuracies it is taken of. */
  lemma AccuracyIsMean(bestScores: seq<Performance>, low: real, high: real)
    requires bestScores != []
    requires forall i :: 0 <= i < |bestScores| ==> low <= bestScores[i].acc <= high
    ensures low <= CalculateWeightedAccuracy(bestScores) <= high
  {
    var n := |bestScores|;
    WeightSum(n);
    WeightedSumBetween(Accs(bestScores), low, high);
    BonusAccExactly(n, Weights(n));
    Unbonused(WeightedSum(Accs(bestScores)), BonusAcc(n), Weights(n));
    Cancel(low, CalculateWeightedAccuracy(bestScores), Weights(n));
    Cancel(CalculateWeightedAccuracy(bestScores), high, Weights(n));
  }

  lemma BonusAccExactly(n: nat, weights: real)
    requires n > 0 && weights > 0.0 && weights == 20.0 * (1.0 - Pow(0.95, n))
    ensures BonusAcc(n) * weights == 100.0
  {
    assert BonusAcc(n) == 100.0 / weights;
  }

  lemma Unbonused(sum: real, bonus: real, weights: real)
    requires bonus * weights == 100.0
    ensures (sum * bonus) / 100.0 * weights == sum
  {
    assert sum * (bonus * weights) == (sum * bonus) * weights;
  }

  // ---------------------------------------------------------------- what the totals are

  /** Each value counts for 95% of the one before it. */
  function Decayed(xs: seq<real>): real {
    if xs == [] then 0.0 else xs[0] + 0.95 * Decayed(xs[1..])
  }

  /** The pp of a list: the best in full, then 95% of what the others are worth. */
  function DecayedPp(rows: seq<Performance>): real {
    if rows == [] then 0.0 else rows[0].pp + 0.95 * DecayedPp(rows[1..])
  }

  function DecayedAcc(rows: seq<Performance>): real {
    if rows == [] then 0.0 else rows[0].acc + 0.95 * DecayedAcc(rows[1..])
  }

  /** The sum of the first `n` weights. */
  function DecayedOnes(n: nat): real {
    if n == 0 then 0.0 else 1.0 + 0.95 * DecayedOnes(n - 1)
  }

  /** The share of the bonus that `n` scores earn: each earns 0.06% of what is left. */
  function BonusShare(n: nat): real {
    if n == 0 then 0.0 else 0.0006 + 0.9994 * BonusShare(n - 1)
  }

  lemma {:induction false} DecayedAppend(xs: seq<real>, x: real)
    ensures Decayed(xs + [x]) == Decayed(xs) + x * Pow(0.95, |xs|)
  {
    if xs == [] {
      assert [x][1..] == [];
    } else {
      DecayedAppend(xs[1..], x);
      assert (xs + [x])[1..] == xs[1..] + [x];
      Distribute(0.95, Decayed(xs[1..]), x * Pow(0.95, |xs| - 1));
    }
  }

  lemma {:induction false} WeightedIsDecayed(xs: seq<real>)
    ensures WeightedSum(xs) == Decayed(xs)
  {
    if xs != [] {
      var n := |xs| - 1;
      WeightedIsDecayed(xs[..n]);
      DecayedAppend(xs[..n], xs[n]);
      assert xs == xs[..n] + [xs[n]];
    }
  }

  lemma {:induction false} DecayedRows(rows: seq<Performance>)
    ensures Decayed(Pps(rows)) == DecayedPp(rows) && Decayed(Accs(rows)) == DecayedAcc(rows)
  {
    if rows != [] {
      DecayedRows(rows[1..]);
      assert Pps(rows)[1..] == Pps(rows[1..]) && Accs(rows)[1..] == Accs(rows[1..]);
    }
  }

  lemma {:induction false} SharesAre(n: nat)
    ensures BonusShare(n) == 1.0 - Pow(0.9994, n)
    ensures DecayedOnes(n) == 20.0 * (1.0 - Pow(0.95, n))
  {
    if n > 0 {
      SharesAre(n - 1);
    }
  }

  /** The stored pp is the decayed sum of the plays' pp and the bonus, to the nearest integer. */
  lemma PpIsDecayedSum(rows: seq<Performance>)
    ensures var total := DecayedPp(rows) + 416.6667 * BonusShare(|rows|);
      var stored := CalculateWeightedPp(rows);
      && total - 0.5 <= stored as real <= total + 0.5
      && (stored as real == total - 0.5 || stored as real == total + 0.5 ==> stored % 2 == 0)
  {
    WeightedIsDecayed(Pps(rows));
    DecayedRows(rows);
    SharesAre(|rows|);
    RoundIsNearest(WeightedSum(Pps(rows)) + BonusPp(|rows|));
  }

  lemma RoundIsNearest(x: real)
    ensures x - 0.5 <= Round(x) as real <= x + 0.5
    ensures Round(x) as real == x - 0.5 || Round(x) as real == x + 0.5 ==> Round(x) % 2 == 0
  {
  }

  predicate IsMean(mean: real, sum: real, weights: real) {
    weights > 0.0 && mean * weights == sum
  }

  /** Overall accuracy is the decayed sum of the accuracies over that of as many ones. */
  lemma AccuracyIsDecayedMean(rows: seq<Performance>)
    requires rows != []
    ensures IsMean(CalculateWeightedAccuracy(rows), DecayedAcc(rows), DecayedOnes(|rows|))
  {
    AccuracyIsMeanOf(rows, DecayedOnes(|rows|));
    WeightedIsDecayed(Accs(rows));
    DecayedRows(rows);
  }

  lemma AccuracyIsMeanOf(rows: seq<Performance>, weights: real)
    requires rows != [] && weights == DecayedOnes(|rows|)
    ensures IsMean(CalculateWeightedAccuracy(rows), WeightedSum(Accs(rows)), weights)
  {
    BonusOfOnes(|rows|);
    MeanIs(CalculateWeightedAccuracy(rows), WeightedSum(Accs(rows)), BonusAcc(|rows|), weights);
  }

  lemma MeanIs(mean: real, sum: real, bonus: real, weights: real)
    requires weights > 0.0 && bonus * weights == 100.0 && mean == (sum * bonus) / 100.0
    ensures IsMean(mean, sum, weights)
  {
    Unbonused(sum, bonus, weights);
  }

  lemma BonusOfOnes(n: nat)
    requires n > 0
    ensures DecayedOnes(n) > 0.0 && BonusAcc(n) * DecayedOnes(n) == 100.0
  {
    SharesAre(n);
    WeightSum(n);
    BonusAccExactly(n, DecayedOnes(n));
  }

  /** Bounds on the plays' pp bound the sum before bonus and rounding. */
  lemma {:induction false} PpBetween(rows: seq<Performance>, low: real, high: real)
    requires forall i :: 0 <= i < |rows| ==> low <= rows[i].pp <= high
    ensures low * (20.0 * (1.0 - Pow(0.95, |rows|))) <= DecayedPp(rows) <= high * (20.0 * (1.0 - Pow(0.95, |rows|)))
  {
    WeightedSumBetween(Pps(rows), low, high);
    WeightedIsDecayed(Pps(rows));
    DecayedRows(rows);
    WeightSum(|rows|);
  }

  // ---------------------------------------------------------------- order of the totals

  predicate Descending(rows: seq<Performance>) {
    forall i, j :: 0 <= i <= j < |rows| ==> rows[i].pp >= rows[j].pp
  }

  predicate Nonnegative(rows: seq<Performance>) {
    forall i :: 0 <= i < |rows| ==> rows[i].pp >= 0.0
  }

  /** How many rows have at least `t` pp. */
  function AtLeast(rows: seq<Performance>, t: real): (n: nat)
    ensures n <= |rows|
  {
    if rows == [] then 0
    else var n := |rows| - 1; AtLeast(rows[..n], t) + if rows[n].pp >= t then 1 else 0
  }

  lemma {:induction false} AtLeastConcat(a: seq<Performance>, b: seq<Performance>, t: real)
    ensures AtLeast(a + b, t) == AtLeast(a, t) + AtLeast(b, t)
  {
    if b == [] {
      assert a + b == a;
    } else {
      var n := |b| - 1;
      assert (a + b)[..|a| + n] == a + b[..n];
      AtLeastConcat(a, b[..n], t);
    }
  }

  lemma AtLeastWithout(b: seq<Performance>, k: nat, t: real)
    requires k < |b|
    ensures var b' := b[..k] + b[k + 1..];
      && multiset(b') == multiset(b) - multiset{b[k]}
      && AtLeast(b, t) == AtLeast(b', t) + if b[k].pp >= t then 1 else 0
  {
    var x := [b[k]];
    assert b == b[..k] + (x + b[k + 1..]);
    AtLeastConcat(b[..k], x + b[k + 1..], t);
    AtLeastConcat(x, b[k + 1..], t);
    AtLeastConcat(b[..k], b[k + 1..], t);
    assert x[..0] == [];
  }

  lemma {:induction false} AtLeastOfPermutation(a: seq<Performance>, b: seq<Performance>, t: real)
    requires multiset(a) == multiset(b)
    ensures AtLeast(a, t) == AtLeast(b, t)
    decreases |a|
  {
    if a == [] {
      assert |multiset(b)| == 0;
    } else {
      var n := |a| - 1;
      assert a[n] in multiset(b);
      var k :| 0 <= k < |b| && b[k] == a[n];
      AtLeastWithout(a, n, t);
      AtLeastWithout(b, k, t);
      assert a[..n] + a[n + 1..] == a[..n];
      AtLeastOfPermutation(a[..n], b[..k] + b[k + 1..], t);
    }
  }

  /** In a descending list the rows with at least `t` pp come first. */
  lemma {:induction false} AtLeastIsPrefix(rows: seq<Performance>, t: real, i: nat)
    requires Descending(rows) && i < |rows|
    ensures rows[i].pp >= t <==> i < AtLeast(rows, t)
  {
    var n := |rows| - 1;
    if i < n {
      AtLeastIsPrefix(rows[..n], t, i);
    } else if n > 0 {
      AtLeastIsPrefix(rows[..n], t, n - 1);
    }
    if rows[n].pp >= t {
      AllAtLeast(rows, t);
    }
  }

  lemma {:induction false} AllAtLeast(rows: seq<Performance>, t: real)
    requires forall j :: 0 <= j < |rows| ==> rows[j].pp >= t
    ensures AtLeast(rows, t) == |rows|
  {
    if rows != [] {
      AllAtLeast(rows[..|rows| - 1], t);
    }
  }

  /** A list with no fewer rows above every threshold dominates position by position once sorted. */
  lemma Dominates(a: seq<Performance>, b: seq<Performance>)
    requires Descending(a) && Descending(b)
    requires forall t: real :: AtLeast(a, t) <= AtLeast(b, t)
    ensures |a| <= |b| && forall i :: 0 <= i < |a| ==> a[i].pp <= b[i].pp
  {
    if a != [] {
      var least := a[|a| - 1].pp;
      AllAtLeast(a, least);
      assert |a| <= AtLeast(b, least);
    }
    forall i | 0 <= i < |a|
      ensures a[i].pp <= b[i].pp
    {
      AtLeastIsPrefix(a, a[i].pp, i);
      assert i < AtLeast(b, a[i].pp);
      AtLeastIsPrefix(b, a[i].pp, i);
    }
  }

  lemma {:induction false} WeightedSumPointwise(xs: seq<real>, ys: seq<real>)
    requires |xs| == |ys| && forall i :: 0 <= i < |xs| ==> xs[i] <= ys[i]
    ensures WeightedSum(xs) <= WeightedSum(ys)
  {
    if ys != [] {
      var n := |ys| - 1;
      WeightedSumPointwise(xs[..n], ys[..n]);
      Scale(xs[n], ys[n], ys[n], Pow(0.95, n));
    }
  }

  lemma {:induction false} WeightedSumGrows(ys: seq<real>, m: nat)
    requires m <= |ys| && forall i :: 0 <= i < |ys| ==> 0.0 <= ys[i]
    ensures WeightedSum(ys[..m]) <= WeightedSum(ys)
  {
    var n := |ys| - 1;
    if m > n {
      assert ys[..m] == ys;
    } else {
      WeightedSumGrows(ys[..n], m);
      assert ys[..n][..m] == ys[..m];
      Scale(0.0, ys[n], ys[n], Pow(0.95, n));
    }
  }

  lemma WeightedSumMonotone(xs: seq<real>, ys: seq<real>)
    requires |xs| <= |ys|
    requires forall i :: 0 <= i < |xs| ==> xs[i] <= ys[i]
    requires forall i :: 0 <= i < |ys| ==> 0.0 <= ys[i]
    ensures WeightedSum(xs) <= WeightedSum(ys)
  {
    WeightedSumPointwise(xs, ys[..|xs|]);
    WeightedSumGrows(ys, |xs|);
  }

  lemma {:induction false} BonusMonotone(m: nat, n: nat)
    requires m <= n
    ensures BonusPp(m) <= BonusPp(n)
    decreases n
  {
    if m < n {
      BonusMonotone(m, n - 1);
      assert Pow(0.9994, n) <= Pow(0.9994, n - 1);
    }
  }

  lemma RoundMonotone(x: real, y: real)
    requires x <= y
    ensures Round(x) <= Round(y)
  {
  }

  /** The stored pp cannot fall when the best list gains or improves an entry. */
  lemma PpMonotone(a: seq<Performance>, b: seq<Performance>)
    requires Descending(a) && Descending(b) && Nonnegative(b)
    requires forall t: real :: AtLeast(a, t) <= AtLeast(b, t)
    ensures CalculateWeightedPp(a) <= CalculateWeightedPp(b)
  {
    Dominates(a, b);
    WeightedSumMonotone(Pps(a), Pps(b));
    BonusMonotone(|a|, |b|);
    RoundMonotone(WeightedSum(Pps(a)) + BonusPp(|a|), WeightedSum(Pps(b)) + BonusPp(|b|));
  }
}
