/** The summary statistics of a run: Jain's fairness index over the per-pid CPU
    totals, and each pid's share of the total CPU time. */
module Fairness {
  import opened Basics

  /** A product kept behind a name, so that the sign lemmas below reason about
      two factors rather than one variable multiplied by itself. */
  function Mul(a: real, b: real): real
  {
    a * b
  }

  function Square(x: real): real
  {
    Mul(x, x)
  }

  lemma MulPositive(a: real, b: real)
    requires (a > 0.0 && b > 0.0) || (a < 0.0 && b < 0.0)
    ensures Mul(a, b) > 0.0
  {
  }

  /** A square is never negative, and is zero only at zero. */
  lemma SquareSign(x: real)
    ensures Square(x) >= 0.0
    ensures x != 0.0 ==> Square(x) > 0.0
  {
    if x != 0.0 {
      MulPositive(x, x);
    }
  }

  /** The sum of squares, accumulated left to right. */
  function SumSq(s: seq<real>): real
  {
    if s == [] then 0.0 else SumSq(s[..|s| - 1]) + Square(s[|s| - 1])
  }

  lemma {:induction false} SumSqNonNegative(s: seq<real>)
    ensures SumSq(s) >= 0.0
  {
    if s != [] {
      SumSqNonNegative(s[..|s| - 1]);
      SquareSign(s[|s| - 1]);
    }
  }

  /** A sequence whose sum is not zero has a non-zero element, so a positive
      sum of squares. */
  lemma {:induction false} SumSqPositive(s: seq<real>)
    requires Sum(s) != 0.0
    ensures SumSq(s) > 0.0
  {
    assert s != [];
    var init := s[..|s| - 1];
    var x := s[|s| - 1];
    assert Sum(s) == Sum(init) + x;
    SquareSign(x);
    if Sum(init) != 0.0 {
      SumSqPositive(init);
    } else {
      SumSqNonNegative(init);
    }
  }

  /** `jain_index`: (Σx)² / (n·Σx²), and 0 for an empty list or a zero sum.
      By Cauchy–Schwarz the index is a fraction between 0 and 1. */
  function JainIndex(values: seq<real>): (r: real)
    ensures 0.0 <= r <= 1.0
  {
    if |values| == 0 || Sum(values) == 0.0 then 0.0
    else
      SumSqPositive(values);
      CauchySchwarz(values);
      PositiveProduct(|values| as real, SumSq(values));
      SquareSign(Sum(values));
      RatioBounds(Square(Sum(values)), |values| as real * SumSq(values));
      Square(Sum(values)) / (|values| as real * SumSq(values))
  }

  /** Σ (s_i − x)² written out: Q − 2·x·S + n·x². */
  lemma {:induction false} SquaredDistances(s: seq<real>, x: real)
    ensures SumSq(s) - 2.0 * x * Sum(s) + |s| as real * Square(x) >= 0.0
  {
    if s != [] {
      var init := s[..|s| - 1];
      var y := s[|s| - 1];
      SquaredDistances(init, x);
      ExpandDistance(SumSq(init), Sum(init), |init| as real, x, y, SumSq(s), Sum(s), |s| as real);
    } else {
      assert |s| as real * Square(x) == 0.0;
    }
  }

  /** Cauchy–Schwarz for one sequence: (Σx)² ≤ n·Σx². */
  lemma {:induction false} CauchySchwarz(s: seq<real>)
    ensures Square(Sum(s)) <= |s| as real * SumSq(s)
  {
    if s == [] {
      assert Square(0.0) == 0.0;
    } else {
      var init, x := s[..|s| - 1], s[|s| - 1];
      SumsSnoc(s);
      SumSqNonNegative(init);
      SquareSign(x);
      CauchySchwarz(init);
      SquaredDistances(init, x);
      ExpandCauchySchwarz(SumSq(init), Sum(init), |init| as real, x, SumSq(s), Sum(s), |s| as real);
    }
  }

  lemma SumsSnoc(s: seq<real>)
    requires s != []
    ensures Sum(s) == Sum(s[..|s| - 1]) + s[|s| - 1]
    ensures SumSq(s) == SumSq(s[..|s| - 1]) + Square(s[|s| - 1])
  {
  }

  /** Whenever the index is not the degenerate 0, it lies in (0, 1]. */
  lemma JainBounds(values: seq<real>)
    requires Sum(values) != 0.0
    ensures 0.0 < JainIndex(values) <= 1.0
  {
    SumSqPositive(values);
    CauchySchwarz(values);
    PositiveProduct(|values| as real, SumSq(values));
    SquareSign(Sum(values));
    RatioBounds(Square(Sum(values)), |values| as real * SumSq(values));
  }

  /** The degenerate cases: no values, or values summing to zero, give 0. */
  lemma JainDegenerate(values: seq<real>)
    ensures |values| == 0 || Sum(values) == 0.0 <==> JainIndex(values) == 0.0
  {
    if |values| > 0 && Sum(values) != 0.0 {
      JainBounds(values);
    }
  }

  /** n equal non-zero values are perfectly fair. */
  lemma JainEqual(n: nat, c: real)
    requires n > 0 && c != 0.0
    ensures JainIndex(seq(n, _ => c)) == 1.0
  {
    var s := seq(n, _ => c);
    ConstantSums(n, c);
    EqualRatio(Sum(s), SumSq(s), |s| as real, c);
  }

  lemma {:induction false} ConstantSums(n: nat, c: real)
    ensures Sum(seq(n, _ => c)) == n as real * c
    ensures SumSq(seq(n, _ => c)) == n as real * Square(c)
  {
    if n > 0 {
      assert seq(n, _ => c)[..n - 1] == seq(n - 1, _ => c);
      ConstantSums(n - 1, c);
    }
  }

  /** One process taking all the CPU out of four gives a quarter. */
  lemma JainOneOfFour()
    ensures JainIndex([40.0, 0.0, 0.0, 0.0]) == 0.25
  {
    var s := [40.0, 0.0, 0.0, 0.0];
    assert s[..3] == [40.0, 0.0, 0.0];
    assert s[..3][..2] == [40.0, 0.0];
    assert s[..3][..2][..1] == [40.0];
    assert [40.0][..0] == [];
    assert Square(40.0) == 1600.0 && Square(0.0) == 0.0;
    assert Sum([40.0]) == 40.0 && SumSq([40.0]) == 1600.0;
    assert Sum([40.0, 0.0]) == 40.0 && SumSq([40.0, 0.0]) == 1600.0;
    assert Sum([40.0, 0.0, 0.0]) == 40.0 && SumSq([40.0, 0.0, 0.0]) == 1600.0;
    assert Sum(s) == 40.0 && SumSq(s) == 1600.0;
  }

  /** The `cpu_share` of one pid: its fraction of the total, or 0 when the total
      is not positive. */
  function CpuShare(tot: real, total: real): (share: real)
    ensures total <= 0.0 ==> share == 0.0
    ensures total > 0.0 && 0.0 <= tot <= total ==> 0.0 <= share <= 1.0
  {
    if total > 0.0 then tot / total else 0.0
  }

  /** The shares of all pids against the sum of their totals. */
  function CpuShares(totals: seq<real>): (shares: seq<real>)
    ensures |shares| == |totals|
  {
    seq(|totals|, i requires 0 <= i < |totals| => CpuShare(totals[i], Sum(totals)))
  }

  /** Sharing every element against a positive d divides the sum by d. */
  lemma {:induction false} SumShares(s: seq<real>, d: real)
    requires d > 0.0
    ensures Sum(seq(|s|, i requires 0 <= i < |s| => CpuShare(s[i], d))) == Sum(s) / d
  {
    var t := seq(|s|, i requires 0 <= i < |s| => CpuShare(s[i], d));
    if s != [] {
      var init := s[..|s| - 1];
      SumShares(init, d);
      assert t[..|t| - 1] == seq(|init|, i requires 0 <= i < |init| => CpuShare(init[i], d));
      DivideSum(Sum(init), s[|s| - 1], d);
    }
  }

  /** With a positive total the shares add up to exactly 1; otherwise all are 0. */
  lemma SharesSumToOne(totals: seq<real>)
    ensures Sum(totals) > 0.0 ==> Sum(CpuShares(totals)) == 1.0
    ensures Sum(totals) <= 0.0 ==> forall i :: 0 <= i < |totals| ==> CpuShares(totals)[i] == 0.0
  {
    if Sum(totals) > 0.0 {
      SumShares(totals, Sum(totals));
    }
  }

  // Real arithmetic used above, one identity or inequality per lemma.

  lemma PositiveProduct(a: real, b: real)
    requires a > 0.0 && b > 0.0
    ensures a * b > 0.0
  {
  }

  lemma ExpandDistance(Q: real, S: real, n: real, x: real, y: real, Q': real, S': real, n': real)
    requires Q' == Q + Square(y) && S' == S + y && n' == n + 1.0
    requires Q - 2.0 * x * S + n * Square(x) >= 0.0
    ensures Q' - 2.0 * x * S' + n' * Square(x) >= 0.0
  {
    assert Q' - 2.0 * x * S' + n' * Square(x) == (Q - 2.0 * x * S + n * Square(x)) + Square(y - x);
    SquareSign(y - x);
  }

  lemma ExpandCauchySchwarz(Q: real, S: real, n: real, x: real, Q': real, S': real, n': real)
    requires Q' == Q + Square(x) && S' == S + x && n' == n + 1.0
    requires Square(S) <= n * Q && Q - 2.0 * x * S + n * Square(x) >= 0.0
    ensures Square(S') <= n' * Q'
  {
    assert n' * Q' - Square(S') == (n * Q - Square(S)) + (Q - 2.0 * x * S + n * Square(x));
  }

  lemma DivideSum(a: real, b: real, d: real)
    requires d != 0.0
    ensures a / d + b / d == (a + b) / d
  {
  }

  lemma RatioBounds(num: real, den: real)
    requires 0.0 < num <= den
    ensures 0.0 < num / den <= 1.0
  {
  }

  lemma EqualRatio(S: real, Q: real, m: real, c: real)
    requires m > 0.0 && c != 0.0 && S == m * c && Q == m * Square(c)
    ensures S != 0.0 && Square(S) / (m * Q) == 1.0
  {
    var cc := Square(c);
    PositiveProduct(m, cc);
    PositiveProduct(m, m * cc);
    assert Square(S) == m * (m * cc);
    assert m * Q == m * (m * cc);
  }
}
