/** The touch-screen calibration of Scripts/pi/gp-sdr-touch-calibrate.py: a Gauss-Jordan
    solver with partial pivoting, and the least-squares affine fit that uses it.
    Floating point numbers are modelled as reals.

    A system is held as its augmented rows.  A vector y of one more entry than there are
    unknowns is annihilated when every augmented row has dot product 0 with it, so
    y == x + [-1.0] says that x solves the system and y == v + [0.0] says that v is in the
    null space of the matrix.  One invariant therefore carries both. */
module Vectors {

  // The product, named so that a proof that only rearranges sums can hide it.
  function Times(a: real, b: real): real { a * b }

  function Dot(a: seq<real>, y: seq<real>): real
    requires |a| == |y|
  {
    if |a| == 0 then 0.0 else Times(a[0], y[0]) + Dot(a[1..], y[1..])
  }

  function Scale(a: seq<real>, s: real): (r: seq<real>)
    ensures |r| == |a| && forall i | 0 <= i < |a| :: r[i] == s * a[i]
  {
    seq(|a|, i requires 0 <= i < |a| => s * a[i])
  }

  function Add(a: seq<real>, b: seq<real>): (r: seq<real>)
    requires |a| == |b|
    ensures |r| == |a| && forall i | 0 <= i < |a| :: r[i] == a[i] + b[i]
  {
    seq(|a|, i requires 0 <= i < |a| => a[i] + b[i])
  }

  function Divide(a: seq<real>, p: real): (r: seq<real>)
    requires p != 0.0
    ensures |r| == |a|
  {
    seq(|a|, i requires 0 <= i < |a| => a[i] / p)
  }

  function SubScaled(a: seq<real>, f: real, b: seq<real>): (r: seq<real>)
    requires |a| == |b|
    ensures |r| == |a|
  {
    seq(|a|, i requires 0 <= i < |a| => a[i] - f * b[i])
  }

  /** The vector of length n that is 1 at position k and 0 elsewhere. */
  function Unit(n: nat, k: nat): (r: seq<real>)
    ensures |r| == n
  {
    seq(n, i => if i == k then 1.0 else 0.0)
  }

  function Zeros(n: nat): (r: seq<real>)
    ensures |r| == n
  {
    seq(n, i => 0.0)
  }

  lemma ScaleTail(a: seq<real>, s: real)
    requires a != []
    ensures Scale(a, s)[1..] == Scale(a[1..], s)
  {
    forall i | 0 <= i < |a| - 1 ensures Scale(a, s)[1..][i] == Scale(a[1..], s)[i] {
      var x := a[i + 1];
      assert a[1..][i] == x;
    }
  }

  lemma Regroup(s: real, a: real, y: real, d: real)
    ensures (s * a) * y + s * d == s * (a * y + d)
  {
  }

  lemma {:induction false} DotScale(a: seq<real>, s: real, y: seq<real>)
    requires |a| == |y|
    ensures Dot(Scale(a, s), y) == s * Dot(a, y)
  {
    if a != [] {
      ScaleTail(a, s);
      DotScale(a[1..], s, y[1..]);
      Regroup(s, a[0], y[0], Dot(a[1..], y[1..]));
    }
  }

  lemma Distribute(a: real, b: real, y: real)
    ensures (a + b) * y == a * y + b * y
  {
  }

  lemma {:induction false} DotAdd(a: seq<real>, b: seq<real>, y: seq<real>)
    requires |a| == |b| == |y|
    ensures Dot(Add(a, b), y) == Dot(a, y) + Dot(b, y)
  {
    if a != [] {
      assert Add(a, b)[1..] == Add(a[1..], b[1..]);
      DotAdd(a[1..], b[1..], y[1..]);
      Distribute(a[0], b[0], y[0]);
    }
  }

  lemma DivideTail(a: seq<real>, p: real)
    requires a != [] && p != 0.0
    ensures Divide(a, p)[1..] == Divide(a[1..], p)
  {
    forall i | 0 <= i < |a| - 1 ensures Divide(a, p)[1..][i] == Divide(a[1..], p)[i] {
      var x := a[i + 1];
      assert a[1..][i] == x;
    }
  }

  lemma DivideSum(a: real, y: real, d: real, p: real)
    requires p != 0.0
    ensures (a / p) * y + d / p == (a * y + d) / p
  {
  }

  lemma {:induction false} DotDivide(a: seq<real>, p: real, y: seq<real>)
    requires |a| == |y| && p != 0.0
    ensures Dot(Divide(a, p), y) == Dot(a, y) / p
  {
    if a != [] {
      DivideTail(a, p);
      DotDivide(a[1..], p, y[1..]);
      DivideSum(a[0], y[0], Dot(a[1..], y[1..]), p);
    }
  }

  lemma SubScaledTail(a: seq<real>, f: real, b: seq<real>)
    requires |a| == |b| && a != []
    ensures SubScaled(a, f, b)[1..] == SubScaled(a[1..], f, b[1..])
  {
    forall i | 0 <= i < |a| - 1 ensures SubScaled(a, f, b)[1..][i] == SubScaled(a[1..], f, b[1..])[i] {
      var x, z := a[i + 1], b[i + 1];
      assert a[1..][i] == x && b[1..][i] == z;
    }
  }

  lemma SubScaledSum(a: real, f: real, b: real, y: real, c: real, d: real)
    ensures (a - f * b) * y + (c - f * d) == (a * y + c) - f * (b * y + d)
  {
  }

  lemma {:induction false} DotSubScaled(a: seq<real>, f: real, b: seq<real>, y: seq<real>)
    requires |a| == |b| == |y|
    ensures Dot(SubScaled(a, f, b), y) == Dot(a, y) - f * Dot(b, y)
  {
    if a != [] {
      SubScaledTail(a, f, b);
      DotSubScaled(a[1..], f, b[1..], y[1..]);
      SubScaledSum(a[0], f, b[0], y[0], Dot(a[1..], y[1..]), Dot(b[1..], y[1..]));
    }
  }

  lemma {:induction false} DotCommutes(a: seq<real>, b: seq<real>)
    requires |a| == |b|
    ensures Dot(a, b) == Dot(b, a)
  {
    if a != [] { DotCommutes(a[1..], b[1..]); }
  }

  lemma {:induction false} DotZeros(a: seq<real>, y: seq<real>)
    requires |a| == |y|
    requires forall i | 0 <= i < |a| :: a[i] == 0.0
    ensures Dot(a, y) == 0.0
  {
    if a != [] { DotZeros(a[1..], y[1..]); }
  }

  lemma {:induction false} DotUnit(n: nat, k: nat, y: seq<real>)
    requires |y| == n && k < n
    ensures Dot(Unit(n, k), y) == y[k]
  {
    if k == 0 {
      DotZeros(Unit(n, k)[1..], y[1..]);
    } else {
      assert Unit(n, k)[1..] == Unit(n - 1, k - 1);
      DotUnit(n - 1, k - 1, y[1..]);
    }
  }

  lemma {:induction false} DotAppend(a: seq<real>, b: real, y: seq<real>, z: real)
    requires |a| == |y|
    ensures Dot(a + [b], y + [z]) == Dot(a, y) + b * z
  {
    if a != [] {
      assert (a + [b])[1..] == a[1..] + [b] && (y + [z])[1..] == y[1..] + [z];
      DotAppend(a[1..], b, y[1..], z);
    }
  }
}

module GaussJordan {
  import opened Vectors

  datatype Outcome<T> = Solved(value: T) | Raised

  type Matrix = seq<seq<real>>

  // Augmented systems: n rows of n + 1 columns.
  ghost predicate Shaped(m: Matrix, n: nat) {
    |m| == n && forall i | 0 <= i < n :: |m[i]| == n + 1
  }

  // What solve's caller provides: n rows of n columns, and n values.
  ghost predicate Square(a: Matrix, n: nat) {
    |a| == n && forall i | 0 <= i < n :: |a[i]| == n
  }

  function Augment(a: Matrix, b: seq<real>): (m: Matrix)
    requires |a| == |b|
    ensures |m| == |b|
    ensures forall i | 0 <= i < |b| :: |m[i]| == |a[i]| + 1
  {
    seq(|b|, i requires 0 <= i < |b| => a[i] + [b[i]])
  }

  ghost predicate Annihilated(m: Matrix, n: nat, y: seq<real>)
    requires Shaped(m, n) && |y| == n + 1
  {
    forall i | 0 <= i < n :: Dot(m[i], y) == 0.0
  }

  ghost predicate SameNullSpace(m: Matrix, k: Matrix, n: nat)
    requires Shaped(m, n) && Shaped(k, n)
  {
    forall y: seq<real> | |y| == n + 1 :: Annihilated(m, n, y) <==> Annihilated(k, n, y)
  }

  ghost predicate UnitColumns(m: Matrix, n: nat, done: nat)
    requires Shaped(m, n) && done <= n
  {
    forall i, j | 0 <= i < n && 0 <= j < done :: m[i][j] == if i == j then 1.0 else 0.0
  }

  function Abs(x: real): real { if x < 0.0 then -x else x }

  /** The first row in [column, upTo) whose entry in the column is largest in magnitude. */
  function PivotRow(m: Matrix, n: nat, column: nat, upTo: nat): (p: nat)
    requires Shaped(m, n) && column < upTo <= n
    ensures column <= p < upTo
    ensures forall i | column <= i < upTo :: Abs(m[i][column]) <= Abs(m[p][column])
    ensures forall i | column <= i < p :: Abs(m[i][column]) < Abs(m[p][column])
  {
    if upTo == column + 1 then column
    else
      var best := PivotRow(m, n, column, upTo - 1);
      if Abs(m[upTo - 1][column]) > Abs(m[best][column]) then upTo - 1 else best
  }

  const TINY: real := 0.000000001

  function Swapped(m: Matrix, i: nat, j: nat): Matrix
    requires i < |m| && j < |m|
  {
    m[i := m[j]][j := m[i]]
  }

  function Normalised(m: Matrix, n: nat, column: nat): Matrix
    requires Shaped(m, n) && column < n && m[column][column] != 0.0
  {
    m[column := Divide(m[column], m[column][column])]
  }

  function EliminatedRow(m: Matrix, n: nat, column: nat, row: nat): (r: seq<real>)
    requires Shaped(m, n) && column < n && row < n
    ensures |r| == n + 1
  {
    if row == column then m[row]
    else SubScaled(m[row], m[row][column], m[column])
  }

  function Eliminated(m: Matrix, n: nat, column: nat): (r: Matrix)
    requires Shaped(m, n) && column < n
    ensures Shaped(r, n)
  {
    seq(n, row requires 0 <= row < n => EliminatedRow(m, n, column, row))
  }

  /** One pass of the outer loop: the matrix after the column, or nothing when the best pivot is
      below the threshold. */
  function Round(m: Matrix, n: nat, column: nat): (r: Outcome<Matrix>)
    requires Shaped(m, n) && column < n
    ensures r.Solved? ==> Shaped(r.value, n)
  {
    var pivot := PivotRow(m, n, column, n);
    if Abs(m[pivot][column]) < TINY then Raised
    else Solved(Eliminated(Normalised(Swapped(m, column, pivot), n, column), n, column))
  }

  function Rounds(m: Matrix, n: nat, columns: nat): (r: Outcome<Matrix>)
    requires Shaped(m, n) && columns <= n
    ensures r.Solved? ==> Shaped(r.value, n)
  {
    if columns == 0 then Solved(m)
    else
      match Rounds(m, n, columns - 1)
      case Raised => Raised
      case Solved(before) => Round(before, n, columns - 1)
  }

  function LastColumn(m: Matrix, n: nat): (x: seq<real>)
    requires Shaped(m, n)
    ensures |x| == n
  {
    seq(n, row requires 0 <= row < n => m[row][n])
  }

  // ---- each row operation keeps the solution set ----

  lemma SwapKeepsNullSpace(m: Matrix, n: nat, i: nat, j: nat)
    requires Shaped(m, n) && i < n && j < n
    ensures Shaped(Swapped(m, i, j), n) && SameNullSpace(m, Swapped(m, i, j), n)
  {
    var s := Swapped(m, i, j);
    forall y: seq<real> | |y| == n + 1
      ensures Annihilated(m, n, y) <==> Annihilated(s, n, y)
    {
      if Annihilated(s, n, y) {
        forall k | 0 <= k < n ensures Dot(m[k], y) == 0.0 {
          var at := if k == i then j else if k == j then i else k;
          assert Dot(s[at], y) == 0.0;
        }
      }
    }
  }

  lemma UnitPivot(a: seq<real>, k: nat)
    requires k < |a| && a[k] != 0.0
    ensures Divide(a, a[k])[k] == 1.0
  {
  }

  lemma NormaliseKeepsNullSpace(m: Matrix, n: nat, column: nat)
    requires Shaped(m, n) && column < n && m[column][column] != 0.0
    ensures Shaped(Normalised(m, n, column), n) && SameNullSpace(m, Normalised(m, n, column), n)
    ensures Normalised(m, n, column)[column][column] == 1.0
  {
    UnitPivot(m[column], column);
    hide Dot, Divide;
    var k := Normalised(m, n, column);
    forall y: seq<real> | |y| == n + 1
      ensures Annihilated(m, n, y) <==> Annihilated(k, n, y)
    {
      DotDivide(m[column], m[column][column], y);
      forall i | 0 <= i < n ensures Dot(m[i], y) == 0.0 <==> Dot(k[i], y) == 0.0 {
        if i != column { assert m[i] == k[i]; }
      }
    }
  }

  lemma EliminateKeepsNullSpace(m: Matrix, n: nat, column: nat)
    requires Shaped(m, n) && column < n
    ensures SameNullSpace(m, Eliminated(m, n, column), n)
  {
    var k := Eliminated(m, n, column);
    forall y: seq<real> | |y| == n + 1
      ensures Annihilated(m, n, y) <==> Annihilated(k, n, y)
    {
      assert k[column] == m[column];
      if Annihilated(m, n, y) {
        forall i | 0 <= i < n ensures Dot(k[i], y) == 0.0 {
          if i != column { DotSubScaled(m[i], m[i][column], m[column], y); }
        }
      } else if Annihilated(k, n, y) {
        forall i | 0 <= i < n ensures Dot(m[i], y) == 0.0 {
          assert Dot(k[column], y) == 0.0 && Dot(k[i], y) == 0.0;
          if i != column { DotSubScaled(m[i], m[i][column], m[column], y); }
        }
      }
    }
  }

  lemma EliminateFinishesColumn(m: Matrix, n: nat, column: nat)
    requires Shaped(m, n) && column < n && UnitColumns(m, n, column) && m[column][column] == 1.0
    ensures UnitColumns(Eliminated(m, n, column), n, column + 1)
  {
    forall i, j | 0 <= i < n && 0 <= j < column + 1
      ensures Eliminated(m, n, column)[i][j] == if i == j then 1.0 else 0.0
    {
      var f, d := m[i][column], m[column][j];
      assert d == if column == j then 1.0 else 0.0;
      assert f * d == if column == j then f else 0.0;
      assert j < column ==> m[i][j] == if i == j then 1.0 else 0.0;
    }
  }

  lemma PivotKeepsUnitColumns(m: Matrix, n: nat, column: nat, pivot: nat)
    requires Shaped(m, n) && column <= pivot < n && UnitColumns(m, n, column) && m[pivot][column] != 0.0
    ensures UnitColumns(Normalised(Swapped(m, column, pivot), n, column), n, column)
  {
    var s := Swapped(m, column, pivot);
    forall i, j | 0 <= i < n && 0 <= j < column
      ensures Normalised(s, n, column)[i][j] == if i == j then 1.0 else 0.0
    {
      assert s[i][j] == if i == j then 1.0 else 0.0;
      if i == column { assert 0.0 / s[column][column] == 0.0; }
    }
  }

  /** One pass keeps the solution set and finishes one more column. */
  lemma RoundCorrect(m: Matrix, n: nat, column: nat)
    requires Shaped(m, n) && column < n && UnitColumns(m, n, column)
    requires Round(m, n, column).Solved?
    ensures SameNullSpace(m, Round(m, n, column).value, n)
    ensures UnitColumns(Round(m, n, column).value, n, column + 1)
  {
    var pivot := PivotRow(m, n, column, n);
    var s := Swapped(m, column, pivot);
    SwapKeepsNullSpace(m, n, column, pivot);
    NormaliseKeepsNullSpace(s, n, column);
    var k := Normalised(s, n, column);
    EliminateKeepsNullSpace(k, n, column);
    SameNullSpaceTransitive(m, s, k, n);
    SameNullSpaceTransitive(m, k, Eliminated(k, n, column), n);
    PivotKeepsUnitColumns(m, n, column, pivot);
    EliminateFinishesColumn(k, n, column);
  }

  lemma SameNullSpaceTransitive(m: Matrix, k: Matrix, l: Matrix, n: nat)
    requires Shaped(m, n) && Shaped(k, n) && Shaped(l, n)
    requires SameNullSpace(m, k, n) && SameNullSpace(k, l, n)
    ensures SameNullSpace(m, l, n)
  {
  }

  lemma RoundExtends(m: Matrix, before: Matrix, n: nat, column: nat)
    requires Shaped(m, n) && Shaped(before, n) && column < n
    requires SameNullSpace(m, before, n) && UnitColumns(before, n, column)
    requires Round(before, n, column).Solved?
    ensures SameNullSpace(m, Round(before, n, column).value, n)
    ensures UnitColumns(Round(before, n, column).value, n, column + 1)
  {
    RoundCorrect(before, n, column);
    SameNullSpaceTransitive(m, before, Round(before, n, column).value, n);
  }

  // What the passes have achieved after the given columns.
  ghost predicate Progress(m: Matrix, r: Matrix, n: nat, columns: nat)
    requires Shaped(m, n) && columns <= n
  {
    Shaped(r, n) && SameNullSpace(m, r, n) && UnitColumns(r, n, columns)
  }

  lemma ProgressStarts(m: Matrix, n: nat)
    requires Shaped(m, n)
    ensures Progress(m, m, n, 0)
  {
  }

  lemma ProgressExtends(m: Matrix, before: Matrix, n: nat, column: nat)
    requires Shaped(m, n) && column < n && Progress(m, before, n, column)
    requires Round(before, n, column).Solved?
    ensures Progress(m, Round(before, n, column).value, n, column + 1)
  {
    RoundExtends(m, before, n, column);
  }

  /** Every finished prefix of passes keeps the solution set and its columns are unit columns. */
  lemma {:induction false} RoundsCorrect(m: Matrix, n: nat, columns: nat)
    requires Shaped(m, n) && columns <= n && Rounds(m, n, columns).Solved?
    ensures Progress(m, Rounds(m, n, columns).value, n, columns)
  {
    hide Progress, Round;
    if columns == 0 {
      ProgressStarts(m, n);
    } else {
      RoundsCorrect(m, n, columns - 1);
      ProgressExtends(m, Rounds(m, n, columns - 1).value, n, columns - 1);
    }
  }

  lemma RoundsStart(m: Matrix, n: nat)
    requires Shaped(m, n)
    ensures Rounds(m, n, 0) == Solved(m)
  {
  }

  lemma RoundsStep(m: Matrix, n: nat, column: nat)
    requires Shaped(m, n) && column < n && Rounds(m, n, column).Solved?
    ensures Rounds(m, n, column + 1) == Round(Rounds(m, n, column).value, n, column)
  {
  }

  lemma {:induction false} RaisedForGood(m: Matrix, n: nat, fewer: nat, more: nat)
    requires Shaped(m, n) && fewer <= more <= n && Rounds(m, n, fewer).Raised?
    ensures Rounds(m, n, more).Raised?
  {
    if fewer < more { RaisedForGood(m, n, fewer, more - 1); }
  }

  // ---- what the answer means ----

  ghost predicate Solves(a: Matrix, b: seq<real>, x: seq<real>)
    requires Square(a, |b|) && |x| == |b|
  {
    forall i | 0 <= i < |b| :: Dot(a[i], x) == b[i]
  }

  // A direction other than 0 that the matrix sends to 0.
  ghost predicate Singular(a: Matrix, n: nat)
    requires Square(a, n)
  {
    exists v: seq<real> :: |v| == n && (exists k | 0 <= k < n :: v[k] != 0.0) && Solves(a, Zeros(n), v)
  }

  lemma SolvesMeansAnnihilated(a: Matrix, b: seq<real>, x: seq<real>)
    requires Square(a, |b|) && |x| == |b|
    ensures Solves(a, b, x) <==> Annihilated(Augment(a, b), |b|, x + [-1.0])
    ensures Solves(a, Zeros(|b|), x) <==> Annihilated(Augment(a, b), |b|, x + [0.0])
  {
    forall i | 0 <= i < |b|
      ensures Dot(Augment(a, b)[i], x + [-1.0]) == Dot(a[i], x) - b[i]
      ensures Dot(Augment(a, b)[i], x + [0.0]) == Dot(a[i], x)
    {
      DotAppend(a[i], b[i], x, -1.0);
      DotAppend(a[i], b[i], x, 0.0);
    }
  }

  // In a fully reduced system row i reads x[i] + last[i] * z == 0.
  lemma ReducedRow(m: Matrix, n: nat, i: nat, x: seq<real>, z: real)
    requires Shaped(m, n) && UnitColumns(m, n, n) && i < n && |x| == n
    ensures Dot(m[i], x + [z]) == x[i] + m[i][n] * z
  {
    assert m[i] == Unit(n, i) + [m[i][n]];
    DotAppend(Unit(n, i), m[i][n], x, z);
    DotUnit(n, i, x);
  }

  // z solves the system the fully reduced m came from exactly when it is m's last column.
  lemma ReducedAnswer(a: Matrix, b: seq<real>, m: Matrix, z: seq<real>)
    requires Square(a, |b|) && Shaped(m, |b|) && |z| == |b|
    requires SameNullSpace(Augment(a, b), m, |b|) && UnitColumns(m, |b|, |b|)
    ensures Solves(a, b, z) <==> z == LastColumn(m, |b|)
  {
    SolvesMeansAnnihilated(a, b, z);
    forall i | 0 <= i < |b| ensures Dot(m[i], z + [-1.0]) == z[i] - m[i][|b|] {
      ReducedRow(m, |b|, i, z, -1.0);
    }
    assert Solves(a, b, z) <==> Annihilated(m, |b|, z + [-1.0]);
  }

  lemma ReducedRegular(a: Matrix, b: seq<real>, m: Matrix, v: seq<real>)
    requires Square(a, |b|) && Shaped(m, |b|) && |v| == |b|
    requires SameNullSpace(Augment(a, b), m, |b|) && UnitColumns(m, |b|, |b|)
    requires Solves(a, Zeros(|b|), v)
    ensures forall k | 0 <= k < |b| :: v[k] == 0.0
  {
    SolvesMeansAnnihilated(a, b, v);
    assert Annihilated(m, |b|, v + [0.0]);
    forall i | 0 <= i < |b| ensures v[i] == 0.0 { ReducedRow(m, |b|, i, v, 0.0); }
  }

  ghost predicate OnlySolution(a: Matrix, b: seq<real>, x: seq<real>)
    requires Square(a, |b|) && |x| == |b|
  {
    forall z: seq<real> | |z| == |b| :: Solves(a, b, z) <==> z == x
  }

  /** A system the passes accept has exactly one solution, the last column, and a regular matrix. */
  lemma AcceptedIsSolved(a: Matrix, b: seq<real>)
    requires Square(a, |b|) && Rounds(Augment(a, b), |b|, |b|).Solved?
    ensures OnlySolution(a, b, LastColumn(Rounds(Augment(a, b), |b|, |b|).value, |b|))
    ensures !Singular(a, |b|)
  {
    hide Annihilated, Round, OnlySolution, Singular;
    var m := Rounds(Augment(a, b), |b|, |b|).value;
    RoundsCorrect(Augment(a, b), |b|, |b|);
    ReducedSystem(a, b, m);
  }

  lemma ReducedSystem(a: Matrix, b: seq<real>, m: Matrix)
    requires Square(a, |b|) && Shaped(m, |b|)
    requires SameNullSpace(Augment(a, b), m, |b|) && UnitColumns(m, |b|, |b|)
    ensures OnlySolution(a, b, LastColumn(m, |b|))
    ensures !Singular(a, |b|)
  {
    forall z: seq<real> | |z| == |b| ensures Solves(a, b, z) <==> z == LastColumn(m, |b|) {
      ReducedAnswer(a, b, m, z);
    }
    forall v: seq<real> | |v| == |b| && Solves(a, Zeros(|b|), v) ensures forall k | 0 <= k < |b| :: v[k] == 0.0 {
      ReducedRegular(a, b, m, v);
    }
  }

  /** The direction that witnesses a column without pivot: 1 there, and minus the entries above. */
  function Witness(m: Matrix, n: nat, column: nat): (y: seq<real>)
    requires Shaped(m, n) && column < n
    ensures |y| == n + 1
  {
    seq(n + 1, k requires 0 <= k < n + 1 => if k < column then -m[k][column] else if k == column then 1.0 else 0.0)
  }

  lemma WitnessDot(m: Matrix, n: nat, column: nat, i: nat)
    requires Shaped(m, n) && column < n && UnitColumns(m, n, column) && i < n
    ensures Dot(m[i], Witness(m, n, column)) == if i < column then 0.0 else m[i][column]
  {
    hide Dot;
    // Only entries up to the column contribute, and of those before it only the diagonal one.
    var y := Witness(m, n, column);
    var row := m[i];
    var kept := if i < column then Add(Scale(Unit(n + 1, i), 1.0), Scale(Unit(n + 1, column), row[column]))
                else Scale(Unit(n + 1, column), row[column]);
    DotSupport(row, kept, y);
    DotScale(Unit(n + 1, column), row[column], y);
    DotUnit(n + 1, column, y);
    if i < column {
      DotScale(Unit(n + 1, i), 1.0, y);
      DotUnit(n + 1, i, y);
      DotAdd(Scale(Unit(n + 1, i), 1.0), Scale(Unit(n + 1, column), row[column]), y);
    }
  }

  lemma {:induction false} DotSupport(a: seq<real>, b: seq<real>, y: seq<real>)
    requires |a| == |b| == |y|
    requires forall k | 0 <= k < |a| :: y[k] == 0.0 || a[k] == b[k]
    ensures Dot(a, y) == Dot(b, y)
  {
    if a != [] {
      DotSupport(a[1..], b[1..], y[1..]);
      assert a[0] * y[0] == b[0] * y[0];
    }
  }

  lemma NoPivotWitness(a: Matrix, b: seq<real>, m: Matrix, column: nat)
    requires Square(a, |b|) && Shaped(m, |b|) && column < |b|
    requires SameNullSpace(Augment(a, b), m, |b|) && UnitColumns(m, |b|, column)
    requires forall i | column <= i < |b| :: m[i][column] == 0.0
    ensures Singular(a, |b|)
  {
    var y := Witness(m, |b|, column);
    forall i | 0 <= i < |b| ensures Dot(m[i], y) == 0.0 { WitnessDot(m, |b|, column, i); }
    assert Annihilated(m, |b|, y);
    var v := y[..|b|];
    assert y == v + [0.0];
    SolvesMeansAnnihilated(a, b, v);
    assert v[column] == 1.0;
  }

  /** A pass that finds no pivot at all proves the matrix singular. */
  lemma NoPivotIsSingular(a: Matrix, b: seq<real>, column: nat)
    requires Square(a, |b|) && column < |b|
    requires Rounds(Augment(a, b), |b|, column).Solved?
    requires var m := Rounds(Augment(a, b), |b|, column).value;
             m[PivotRow(m, |b|, column, |b|)][column] == 0.0
    ensures Singular(a, |b|)
  {
    var m := Rounds(Augment(a, b), |b|, column).value;
    RoundsCorrect(Augment(a, b), |b|, column);
    forall i | column <= i < |b| ensures m[i][column] == 0.0 {
      assert Abs(m[i][column]) <= Abs(0.0);
    }
    NoPivotWitness(a, b, m, column);
  }

  /** A singular matrix always raises, whatever the right-hand side. */
  lemma SingularRaises(a: Matrix, b: seq<real>)
    requires Square(a, |b|) && Singular(a, |b|)
    ensures Rounds(Augment(a, b), |b|, |b|).Raised?
  {
    if Rounds(Augment(a, b), |b|, |b|).Solved? { AcceptedIsSolved(a, b); }
  }

  /** The converse of SingularRaises fails because the threshold is absolute: x / 10^10 == 1 has the
      one solution 10^10, yet it is rejected.  PivotMinors says exactly what is accepted. */
  lemma RegularCanRaise()
    ensures var a: Matrix := [[0.0000000001]];
            !Singular(a, 1) && Solves(a, [1.0], [10000000000.0]) && Rounds(Augment(a, [1.0]), 1, 1).Raised?
  {
    var a: Matrix := [[0.0000000001]];
    assert Dot([0.0000000001], [10000000000.0]) == 1.0;
    var m := Augment(a, [1.0]);
    assert Rounds(m, 1, 0) == Solved(m);
    assert PivotRow(m, 1, 0, 1) == 0 && m[0][0] == 0.0000000001;
    forall v: seq<real> | |v| == 1 && Solves(a, Zeros(1), v) ensures v[0] == 0.0 {
      assert Dot(a[0], v) == Zeros(1)[0];
      assert Dot(a[0], v) == 0.0000000001 * v[0] + Dot([], []);
    }
  }

  /** The solver.  It raises exactly when some pass finds every candidate pivot below the threshold
      (in particular whenever the matrix is singular); otherwise its answer is the one solution. */
  method Solve(matrix: Matrix, values: seq<real>) returns (r: Outcome<seq<real>>)
    requires Square(matrix, |values|)
    ensures r.Raised? <==> Rounds(Augment(matrix, values), |values|, |values|).Raised?
    ensures Singular(matrix, |values|) ==> r.Raised?
    ensures r.Solved? ==> |r.value| == |values| && OnlySolution(matrix, values, r.value)
  {
    hide OnlySolution, Singular, Rounds, SubScaled, Divide, Augment;
    var size := |values|;
    var augmented := Augment(matrix, values);
    ghost var start := augmented;
    RoundsStart(start, size);
    for column := 0 to size
      invariant Shaped(augmented, size)
      invariant Rounds(start, size, column) == Solved(augmented)
    {
      var pivot := PivotRow(augmented, size, column, size);
      RoundsStep(start, size, column);
      if Abs(augmented[pivot][column]) < TINY {
        RaisedForGood(start, size, column + 1, size);
        return Raised;
      }
      augmented := augmented[column := augmented[pivot]][pivot := augmented[column]];
      var scale := augmented[column][column];
      var pivotRow := augmented[column];
      augmented := augmented[column := Divide(pivotRow, scale)];
      ghost var normalised := augmented;
      for row := 0 to size
        invariant Shaped(augmented, size)
        invariant forall k | 0 <= k < row :: augmented[k] == EliminatedRow(normalised, size, column, k)
        invariant forall k | row <= k < size :: augmented[k] == normalised[k]
        invariant augmented[column] == normalised[column]
      {
        if row != column {
          var factor := augmented[row][column];
          augmented := augmented[row := SubScaled(augmented[row], factor, augmented[column])];
        }
      }
      assert augmented == Eliminated(normalised, size, column);
    }
    AcceptedIsSolved(matrix, values);
    r := Solved(LastColumn(augmented, size));
  }
}

/** The least-squares fit that the calibration stores: p[0] * x + p[1] * y + p[2] for each screen axis. */
module AffineFit {
  import opened Vectors
  import opened GaussJordan
  import P = PivotMinors

  type Point = (int, int)

  datatype Fit = Fit(x: seq<real>, y: seq<real>)
  datatype FitResult = Fitted(fit: Fit) | NotDistinct | MoreSamplesThanTargets

  function Row(p: Point): (r: seq<real>)
    ensures |r| == 3
  {
    [p.0 as real, p.1 as real, 1.0]
  }

  function Rows(samples: seq<Point>): (rows: seq<seq<real>>)
    ensures |rows| == |samples| && forall k | 0 <= k < |rows| :: |rows[k]| == 3
  {
    seq(|samples|, k requires 0 <= k < |samples| => Row(samples[k]))
  }

  ghost predicate Wide(rows: seq<seq<real>>) {
    forall k | 0 <= k < |rows| :: |rows[k]| == 3
  }

  // sum(row[i] * row[j] for row in rows)
  function SumOfProducts(rows: seq<seq<real>>, i: nat, j: nat): real
    requires Wide(rows) && i < 3 && j < 3
  {
    if |rows| == 0 then 0.0 else Times(rows[0][i], rows[0][j]) + SumOfProducts(rows[1..], i, j)
  }

  // sum(row[i] * target for row, target in ...)
  function SumWithTargets(rows: seq<seq<real>>, targets: seq<real>, i: nat): real
    requires Wide(rows) && |targets| == |rows| && i < 3
  {
    if |rows| == 0 then 0.0 else Times(rows[0][i], targets[0]) + SumWithTargets(rows[1..], targets[1..], i)
  }

  function NormalRow(rows: seq<seq<real>>, i: nat): (r: seq<real>)
    requires Wide(rows) && i < 3
    ensures |r| == 3
  {
    [SumOfProducts(rows, i, 0), SumOfProducts(rows, i, 1), SumOfProducts(rows, i, 2)]
  }

  function Normal(rows: seq<seq<real>>): (a: Matrix)
    requires Wide(rows)
    ensures |a| == 3 && forall i | 0 <= i < 3 :: |a[i]| == 3
  {
    [NormalRow(rows, 0), NormalRow(rows, 1), NormalRow(rows, 2)]
  }

  function Moments(rows: seq<seq<real>>, targets: seq<real>): (b: seq<real>)
    requires Wide(rows) && |targets| == |rows|
    ensures |b| == 3
  {
    [SumWithTargets(rows, targets, 0), SumWithTargets(rows, targets, 1), SumWithTargets(rows, targets, 2)]
  }

  function Square(x: real): real { Times(x, x) }

  /** The total squared distance between the mapped samples and their targets along one axis. */
  function Cost(rows: seq<seq<real>>, targets: seq<real>, p: seq<real>): real
    requires Wide(rows) && |targets| == |rows| && |p| == 3
  {
    if |rows| == 0 then 0.0
    else Square(Dot(rows[0], p) - targets[0]) + Cost(rows[1..], targets[1..], p)
  }

  // The sum of row[i] times the residual of p.
  function Residual(rows: seq<seq<real>>, targets: seq<real>, p: seq<real>, i: nat): real
    requires Wide(rows) && |targets| == |rows| && |p| == 3 && i < 3
  {
    if |rows| == 0 then 0.0
    else Times(rows[0][i], Dot(rows[0], p) - targets[0]) + Residual(rows[1..], targets[1..], p, i)
  }

  // The sum of the residual of p times what the direction d adds.
  function CrossTerm(rows: seq<seq<real>>, targets: seq<real>, p: seq<real>, d: seq<real>): real
    requires Wide(rows) && |targets| == |rows| && |p| == |d| == 3
  {
    if |rows| == 0 then 0.0
    else Times(Dot(rows[0], p) - targets[0], Dot(rows[0], d)) + CrossTerm(rows[1..], targets[1..], p, d)
  }

  lemma Dot3(a: seq<real>, y: seq<real>)
    requires |a| == |y| == 3
    ensures Dot(a, y) == Times(a[0], y[0]) + Times(a[1], y[1]) + Times(a[2], y[2])
  {
    hide Times;
    assert a[1..][1..] == a[2..] && y[1..][1..] == y[2..];
    assert a[2..][1..] == a[3..] && y[2..][1..] == y[3..];
    assert Dot(a[3..], y[3..]) == 0.0;
    assert Dot(a[2..], y[2..]) == Times(a[2], y[2]) + Dot(a[3..], y[3..]);
    assert Dot(a[1..], y[1..]) == Times(a[1], y[1]) + Dot(a[2..], y[2..]);
  }

  lemma Expand(a: real, b: real, n: real, p: real)
    ensures Times(Times(a, b) + n, p) == Times(a, Times(b, p)) + Times(n, p)
  {
  }

  lemma Factor(a: real, x: real, y: real, z: real)
    ensures Times(a, x + y + z) == Times(a, x) + Times(a, y) + Times(a, z)
  {
  }

  lemma Subtract(a: real, x: real, t: real)
    ensures Times(a, x - t) == Times(a, x) - Times(a, t)
  {
  }

  // One more sample adds an outer product to the normal matrix.
  lemma NormalStep(r: seq<real>, i: nat, p: seq<real>, n: seq<real>)
    requires |r| == |p| == |n| == 3 && i < 3
    ensures Dot([Times(r[i], r[0]) + n[0], Times(r[i], r[1]) + n[1], Times(r[i], r[2]) + n[2]], p)
         == Times(r[i], Dot(r, p)) + Dot(n, p)
  {
    hide Dot, Times;
    Dot3([Times(r[i], r[0]) + n[0], Times(r[i], r[1]) + n[1], Times(r[i], r[2]) + n[2]], p);
    Dot3(r, p);
    Dot3(n, p);
    Expand(r[i], r[0], n[0], p[0]);
    Expand(r[i], r[1], n[1], p[1]);
    Expand(r[i], r[2], n[2], p[2]);
    Factor(r[i], Times(r[0], p[0]), Times(r[1], p[1]), Times(r[2], p[2]));
  }

  /** The normal equations say that the residuals are orthogonal to the columns of the rows. */
  lemma {:induction false} NormalEquations(rows: seq<seq<real>>, targets: seq<real>, p: seq<real>, i: nat)
    requires Wide(rows) && |targets| == |rows| && |p| == 3 && i < 3
    ensures Residual(rows, targets, p, i) == Dot(NormalRow(rows, i), p) - SumWithTargets(rows, targets, i)
  {
    if |rows| == 0 {
      DotZeros(NormalRow(rows, i), p);
    } else {
      hide Dot, Times;
      NormalEquations(rows[1..], targets[1..], p, i);
      NormalStep(rows[0], i, p, NormalRow(rows[1..], i));
      Subtract(rows[0][i], Dot(rows[0], p), targets[0]);
    }
  }

  lemma {:induction false} CrossTermOfResiduals(rows: seq<seq<real>>, targets: seq<real>, p: seq<real>, d: seq<real>)
    requires Wide(rows) && |targets| == |rows| && |p| == |d| == 3
    requires forall i: nat | i < 3 :: Residual(rows, targets, p, i) == 0.0
    ensures CrossTerm(rows, targets, p, d) == 0.0
  {
    hide Dot, Residual, CrossTerm;
    CrossTermSum(rows, targets, p, d);
  }

  lemma {:induction false} CrossTermSum(rows: seq<seq<real>>, targets: seq<real>, p: seq<real>, d: seq<real>)
    requires Wide(rows) && |targets| == |rows| && |p| == |d| == 3
    ensures CrossTerm(rows, targets, p, d)
         == Times(Residual(rows, targets, p, 0), d[0]) + Times(Residual(rows, targets, p, 1), d[1])
          + Times(Residual(rows, targets, p, 2), d[2])
  {
    if |rows| > 0 {
      hide Dot, Times;
      CrossTermSum(rows[1..], targets[1..], p, d);
      Dot3(rows[0], d);
      var e := Dot(rows[0], p) - targets[0];
      Factor(e, Times(rows[0][0], d[0]), Times(rows[0][1], d[1]), Times(rows[0][2], d[2]));
      Swap(e, rows[0][0], Residual(rows[1..], targets[1..], p, 0), d[0]);
      Swap(e, rows[0][1], Residual(rows[1..], targets[1..], p, 1), d[1]);
      Swap(e, rows[0][2], Residual(rows[1..], targets[1..], p, 2), d[2]);
    }
  }

  lemma Swap(e: real, r: real, n: real, d: real)
    ensures Times(Times(r, e) + n, d) == Times(e, Times(r, d)) + Times(n, d)
  {
  }

  /** Moving from p by d costs twice the cross term plus the squared length of what d adds. */
  lemma {:induction false} CostOfMove(rows: seq<seq<real>>, targets: seq<real>, p: seq<real>, d: seq<real>)
    requires Wide(rows) && |targets| == |rows| && |p| == |d| == 3
    ensures Cost(rows, targets, Add(p, d))
         == Cost(rows, targets, p) + CrossTerm(rows, targets, p, d) + CrossTerm(rows, targets, p, d) + Cost(rows, Zeros(|rows|), d)
  {
    if |rows| > 0 {
      hide Dot, Add, Square, Times;
      CostOfMove(rows[1..], targets[1..], p, d);
      assert Zeros(|rows|)[1..] == Zeros(|rows| - 1);
      DotOfSum(rows[0], p, d);
      SquareOfSum(Dot(rows[0], p) - targets[0], Dot(rows[0], d));
    }
  }

  lemma DotOfSum(a: seq<real>, p: seq<real>, d: seq<real>)
    requires |a| == |p| == |d|
    ensures Dot(a, Add(p, d)) == Dot(a, p) + Dot(a, d)
  {
    hide Dot;
    DotCommutes(a, Add(p, d));
    DotAdd(p, d, a);
    DotCommutes(p, a);
    DotCommutes(d, a);
  }

  lemma SquareOfSum(e: real, f: real)
    ensures Square(e + f) == Square(e) + Times(e, f) + Times(e, f) + Square(f - 0.0)
  {
  }

  lemma {:induction false} CostIsNotNegative(rows: seq<seq<real>>, targets: seq<real>, p: seq<real>)
    requires Wide(rows) && |targets| == |rows| && |p| == 3
    ensures Cost(rows, targets, p) >= 0.0
    ensures Cost(rows, targets, p) == 0.0 ==> forall k | 0 <= k < |rows| :: Dot(rows[k], p) == targets[k]
  {
    if |rows| > 0 {
      CostIsNotNegative(rows[1..], targets[1..], p);
      hide Dot, Square, Times;
      SquareIsNotNegative(Dot(rows[0], p) - targets[0]);
      if Cost(rows, targets, p) == 0.0 {
        forall k | 0 <= k < |rows| ensures Dot(rows[k], p) == targets[k] {
          if k > 0 { assert rows[k] == rows[1..][k - 1] && targets[k] == targets[1..][k - 1]; }
        }
      }
    }
  }

  lemma SquareIsNotNegative(x: real)
    ensures Square(x) >= 0.0 && (Square(x) == 0.0 ==> x == 0.0)
  {
    hide Square;
    if x < 0.0 {
      PositiveSquare(-x);
    } else if x > 0.0 {
      PositiveSquare(x);
    } else {
      SquareOfZero();
    }
  }

  lemma SquareOfZero()
    ensures Square(0.0) == 0.0
  {
  }

  lemma PositiveSquare(x: real)
    requires x > 0.0
    ensures Square(x) > 0.0 && Square(-x) == Square(x)
  {
    hide Times;
    SignsOfTimes(x, x);
  }

  lemma SignsOfTimes(x: real, y: real)
    requires x > 0.0 && y > 0.0
    ensures Times(-x, -y) == Times(x, y) > 0.0
  {
  }

  lemma {:induction false} ResidualsOfExactFit(rows: seq<seq<real>>, targets: seq<real>, p: seq<real>, i: nat)
    requires Wide(rows) && |targets| == |rows| && |p| == 3 && i < 3
    requires forall k | 0 <= k < |rows| :: Dot(rows[k], p) == targets[k]
    ensures Residual(rows, targets, p, i) == 0.0
  {
    if |rows| > 0 {
      forall k | 0 <= k < |rows| - 1 ensures Dot(rows[1..][k], p) == targets[1..][k] {
        assert rows[1..][k] == rows[k + 1];
      }
      hide Dot;
      ResidualsOfExactFit(rows[1..], targets[1..], p, i);
      assert Dot(rows[0], p) == targets[0];
      assert Times(rows[0][i], 0.0) == 0.0;
    }
  }

  function Difference(q: seq<real>, p: seq<real>): (d: seq<real>)
    requires |q| == |p|
    ensures |d| == |p| && Add(p, d) == q
  {
    var d := seq(|p|, i requires 0 <= i < |p| => q[i] - p[i]);
    assert Add(p, d) == q;
    d
  }

  /** A solution of the normal equations costs no more than any other map, and strictly less when it is
      their only solution. */
  lemma NormalSolutionIsBest(rows: seq<seq<real>>, targets: seq<real>, p: seq<real>, q: seq<real>)
    requires Wide(rows) && |targets| == |rows| && |p| == |q| == 3
    requires Solves(Normal(rows), Moments(rows, targets), p)
    ensures Cost(rows, targets, p) <= Cost(rows, targets, q)
    ensures OnlySolution(Normal(rows), Moments(rows, targets), p) && q != p ==> Cost(rows, targets, p) < Cost(rows, targets, q)
  {
    var d := Difference(q, p);
    OrthogonalResiduals(rows, targets, p);
    hide Dot, Add, Times, Normal, Moments, Residual, CrossTerm, Cost, Solves;
    CrossTermOfResiduals(rows, targets, p, d);
    CostOfMove(rows, targets, p, d);
    CostIsNotNegative(rows, Zeros(|rows|), d);
    if Cost(rows, Zeros(|rows|), d) == 0.0 {
      NullDirection(rows, targets, p, d);
    }
  }

  lemma OrthogonalResiduals(rows: seq<seq<real>>, targets: seq<real>, p: seq<real>)
    requires Wide(rows) && |targets| == |rows| && |p| == 3
    requires Solves(Normal(rows), Moments(rows, targets), p)
    ensures forall i: nat | i < 3 :: Residual(rows, targets, p, i) == 0.0
  {
    hide Dot, Times, Residual;
    forall i: nat | i < 3 ensures Residual(rows, targets, p, i) == 0.0 {
      NormalEquations(rows, targets, p, i);
      assert Dot(Normal(rows)[i], p) == Moments(rows, targets)[i];
    }
  }

  // A direction that moves no sample solves the homogeneous normal equations, so p + d solves the same ones as p.
  lemma NullDirection(rows: seq<seq<real>>, targets: seq<real>, p: seq<real>, d: seq<real>)
    requires Wide(rows) && |targets| == |rows| && |p| == |d| == 3
    requires Solves(Normal(rows), Moments(rows, targets), p)
    requires forall k | 0 <= k < |rows| :: Dot(rows[k], d) == Zeros(|rows|)[k]
    ensures Solves(Normal(rows), Moments(rows, targets), Add(p, d))
  {
    hide Dot, Add, Normal, Moments;
    forall i: nat | i < 3 ensures Dot(Normal(rows)[i], Add(p, d)) == Moments(rows, targets)[i] {
      NormalOfNullDirection(rows, d, i);
      DotOfSum(Normal(rows)[i], p, d);
    }
  }

  lemma NormalOfNullDirection(rows: seq<seq<real>>, d: seq<real>, i: nat)
    requires Wide(rows) && |d| == 3 && i < 3
    requires forall k | 0 <= k < |rows| :: Dot(rows[k], d) == Zeros(|rows|)[k]
    ensures Dot(Normal(rows)[i], d) == 0.0
  {
    hide Dot;
    ResidualsOfExactFit(rows, Zeros(|rows|), d, i);
    NormalEquations(rows, Zeros(|rows|), d, i);
    NoMoment(rows, i);
  }

  lemma {:induction false} NoMoment(rows: seq<seq<real>>, i: nat)
    requires Wide(rows) && i < 3
    ensures SumWithTargets(rows, Zeros(|rows|), i) == 0.0
  {
    if |rows| > 0 {
      assert Zeros(|rows|)[1..] == Zeros(|rows| - 1);
      NoMoment(rows[1..], i);
      assert Times(rows[0][i], 0.0) == 0.0;
    }
  }

  // All samples lie on one line of the touch panel.
  ghost predicate Collinear(samples: seq<Point>, line: seq<real>) {
    && |line| == 3 && (exists k | 0 <= k < 3 :: line[k] != 0.0)
    && forall k | 0 <= k < |samples| :: Dot(Row(samples[k]), line) == 0.0
  }

  /** Samples on one line cannot be fitted. */
  lemma CollinearIsSingular(samples: seq<Point>, line: seq<real>)
    requires Collinear(samples, line)
    ensures Singular(Normal(Rows(samples)), 3)
  {
    var rows := Rows(samples);
    forall i: nat | i < 3 ensures Dot(Normal(rows)[i], line) == Zeros(3)[i] {
      NormalOfNullDirection(rows, line, i);
    }
    assert Solves(Normal(rows), Zeros(3), line);
  }

  // A direction that the normal matrix sends to 0 has no residual against zero targets, so it moves no sample.
  lemma SingularIsCollinear(samples: seq<Point>, line: seq<real>)
    requires |line| == 3 && (exists k | 0 <= k < 3 :: line[k] != 0.0) && Solves(Normal(Rows(samples)), Zeros(3), line)
    ensures Collinear(samples, line)
  {
    hide Dot, Cost, CrossTerm, Residual, Moments, Times;
    var rows, none := Rows(samples), Zeros(|samples|);
    forall i: nat | i < 3 ensures Residual(rows, none, line, i) == 0.0 {
      NormalEquations(rows, none, line, i);
      NoMoment(rows, i);
      assert Dot(Normal(rows)[i], line) == Zeros(3)[i];
    }
    CrossTermOfResiduals(rows, none, line, line);
    CrossTermIsCost(rows, line);
    CostIsNotNegative(rows, none, line);
    forall k | 0 <= k < |samples| ensures Dot(Row(samples[k]), line) == 0.0 {
      assert Dot(rows[k], line) == none[k];
    }
  }

  lemma {:induction false} CrossTermIsCost(rows: seq<seq<real>>, d: seq<real>)
    requires Wide(rows) && |d| == 3
    ensures CrossTerm(rows, Zeros(|rows|), d, d) == Cost(rows, Zeros(|rows|), d)
  {
    if |rows| > 0 {
      assert Zeros(|rows|)[1..] == Zeros(|rows| - 1);
      CrossTermIsCost(rows[1..], d);
    }
  }

  /** The normal matrix is singular exactly when the samples lie on one line. */
  lemma SingularExactly(samples: seq<Point>)
    ensures Singular(Normal(Rows(samples)), 3) <==> exists line :: Collinear(samples, line)
  {
    if line :| Collinear(samples, line) { CollinearIsSingular(samples, line); }
    if Singular(Normal(Rows(samples)), 3) {
      var line: seq<real> :| |line| == 3 && (exists k | 0 <= k < 3 :: line[k] != 0.0) && Solves(Normal(Rows(samples)), Zeros(3), line);
      SingularIsCollinear(samples, line);
    }
  }

  /** Two points always lie on a line. */
  lemma TwoSamplesAreCollinear(a: Point, b: Point)
    ensures exists line :: Collinear([a, b], line)
  {
    var (x0, y0, x1, y1) := (a.0 as real, a.1 as real, b.0 as real, b.1 as real);
    hide Dot, Row;
    if a == b {
      OnLine(a, 1.0, 0.0, -x0);
      LineOfTwo(a, b, [1.0, 0.0, -x0]);
    } else {
      LineThrough(x0, y0, x1, y1);
      OnLine(a, y0 - y1, x1 - x0, x0 * y1 - x1 * y0);
      OnLine(b, y0 - y1, x1 - x0, x0 * y1 - x1 * y0);
      LineOfTwo(a, b, [y0 - y1, x1 - x0, x0 * y1 - x1 * y0]);
    }
  }

  lemma OnLine(p: Point, u: real, v: real, w: real)
    ensures Dot(Row(p), [u, v, w]) == p.0 as real * u + p.1 as real * v + w
  {
    Dot3(Row(p), [u, v, w]);
  }

  lemma LineOfTwo(a: Point, b: Point, line: seq<real>)
    requires |line| == 3 && (line[0] != 0.0 || line[1] != 0.0)
    requires Dot(Row(a), line) == 0.0 && Dot(Row(b), line) == 0.0
    ensures Collinear([a, b], line)
  {
  }

  lemma LineThrough(x0: real, y0: real, x1: real, y1: real)
    ensures x0 * (y0 - y1) + y0 * (x1 - x0) + (x0 * y1 - x1 * y0) == 0.0
    ensures x1 * (y0 - y1) + y1 * (x1 - x0) + (x0 * y1 - x1 * y0) == 0.0
  {
  }

  ghost predicate Best(samples: seq<Point>, targets: seq<real>, p: seq<real>)
    requires |samples| == |targets| && |p| == 3
  {
    forall q: seq<real> | |q| == 3 && q != p :: Cost(Rows(samples), targets, p) < Cost(Rows(samples), targets, q)
  }

  lemma OnlySolutionIsBest(samples: seq<Point>, targets: seq<real>, p: seq<real>)
    requires |samples| == |targets| && |p| == 3
    requires Solves(Normal(Rows(samples)), Moments(Rows(samples), targets), p)
    ensures OnlySolution(Normal(Rows(samples)), Moments(Rows(samples), targets), p) ==> Best(samples, targets, p)
  {
    hide Solves, OnlySolution, Cost, Normal, Moments, Rows;
    forall q: seq<real> | |q| == 3 && q != p
      ensures OnlySolution(Normal(Rows(samples)), Moments(Rows(samples), targets), p)
          ==> Cost(Rows(samples), targets, p) < Cost(Rows(samples), targets, q)
    {
      NormalSolutionIsBest(Rows(samples), targets, p, q);
    }
  }

  /** When the targets are an affine image of the samples, no other map is best: the fit recovers it. */
  lemma ExactMapIsBest(samples: seq<Point>, targets: seq<real>, p: seq<real>, truth: seq<real>)
    requires |samples| == |targets| && |p| == |truth| == 3
    requires Best(samples, targets, p)
    requires forall k | 0 <= k < |samples| :: Dot(Row(samples[k]), truth) == targets[k]
    ensures p == truth
  {
    ExactCost(Rows(samples), targets, truth);
    CostIsNotNegative(Rows(samples), targets, p);
  }

  lemma {:induction false} ExactCost(rows: seq<seq<real>>, targets: seq<real>, p: seq<real>)
    requires Wide(rows) && |targets| == |rows| && |p| == 3
    requires forall k | 0 <= k < |rows| :: Dot(rows[k], p) == targets[k]
    ensures Cost(rows, targets, p) == 0.0
  {
    if |rows| > 0 {
      forall k | 0 <= k < |rows| - 1 ensures Dot(rows[1..][k], p) == targets[1..][k] {
        assert rows[1..][k] == rows[k + 1];
      }
      hide Dot;
      ExactCost(rows[1..], targets[1..], p);
      assert Dot(rows[0], p) == targets[0];
    }
  }

  function Axis(targets: seq<Point>, count: nat, second: bool): (r: seq<real>)
    requires count <= |targets|
    ensures |r| == count
  {
    seq(count, k requires 0 <= k < count => (if second then targets[k].1 else targets[k].0) as real)
  }

  /** The pivots of the normal matrix pass the solver's threshold. */
  ghost predicate WellSpread(samples: seq<Point>) {
    P.SquareIsTall(Normal(Rows(samples)), 3);
    P.Passes(Normal(Rows(samples)), 3)
  }

  /** What that asks of the samples: with p, q and r the rows of the normal matrix in the order in which they are
      taken, its largest first entry, the 2 by 2 minor and the determinant against each other. */
  lemma WellSpreadExactly(samples: seq<Point>) returns (p: nat, q: nat, r: nat)
    ensures P.Tall(Normal(Rows(samples)), 3) && P.Takes(Normal(Rows(samples)), p, q, r)
    ensures var n := Normal(Rows(samples));
            WellSpread(samples) <==>
              && Abs(n[p][0]) >= TINY
              && Abs(P.Two(n, p, q)) >= Times(TINY, Abs(n[p][0]))
              && Abs(P.Three(n, 0, 1, 2)) >= Times(TINY, Abs(P.Two(n, p, q)))
  {
    hide Normal;
    p, q, r := P.PassesOfThree(Normal(Rows(samples)));
  }

  lemma WellSpreadIsNotCollinear(samples: seq<Point>)
    requires WellSpread(samples)
    ensures !exists line :: Collinear(samples, line)
  {
    hide Normal, Collinear, P.Passes, Rounds, Singular;
    P.AcceptedExactly(Normal(Rows(samples)), Zeros(3));
    AcceptedIsSolved(Normal(Rows(samples)), Zeros(3));
    SingularExactly(samples);
  }

  // Where a row of coefficients puts a sample.
  function Mapped(c: seq<real>, s: Point): real
    requires |c| == 3
  {
    c[0] * s.0 as real + c[1] * s.1 as real + c[2]
  }

  /** How far a fit is off: for every sample the squared distance of (a x + b y + c, d x + e y + f) from its target. */
  function Off(samples: seq<Point>, targets: seq<Point>, f: Fit): real
    requires |samples| <= |targets| && |f.x| == |f.y| == 3
  {
    if |samples| == 0 then 0.0
    else
      Square(Mapped(f.x, samples[0]) - targets[0].0 as real) + Square(Mapped(f.y, samples[0]) - targets[0].1 as real)
      + Off(samples[1..], targets[1..], f)
  }

  lemma RowDot(s: Point, c: seq<real>)
    requires |c| == 3
    ensures Dot(Row(s), c) == Mapped(c, s)
  {
    Dot3(Row(s), c);
  }

  // One sample's part of the cost along an axis.
  lemma CostHead(samples: seq<Point>, targets: seq<Point>, second: bool, c: seq<real>)
    requires 0 < |samples| <= |targets| && |c| == 3
    ensures var t := if second then targets[0].1 else targets[0].0;
            Cost(Rows(samples), Axis(targets, |samples|, second), c) ==
            Square(Mapped(c, samples[0]) - t as real) + Cost(Rows(samples[1..]), Axis(targets[1..], |samples| - 1, second), c)
  {
    hide Square, Dot, Row, Mapped;
    var rows, axis := Rows(samples), Axis(targets, |samples|, second);
    assert rows[1..] == Rows(samples[1..]) && rows[0] == Row(samples[0]);
    assert axis[1..] == Axis(targets[1..], |samples| - 1, second);
    RowDot(samples[0], c);
    assert axis[0] == (if second then targets[0].1 else targets[0].0) as real;
    assert Cost(rows, axis, c) == Square(Dot(rows[0], c) - axis[0]) + Cost(rows[1..], axis[1..], c);
  }

  lemma {:induction false} OffIsCosts(samples: seq<Point>, targets: seq<Point>, f: Fit)
    requires |samples| <= |targets| && |f.x| == |f.y| == 3
    ensures Off(samples, targets, f)
         == Cost(Rows(samples), Axis(targets, |samples|, false), f.x) + Cost(Rows(samples), Axis(targets, |samples|, true), f.y)
  {
    hide Square, Mapped, Dot, Row;
    if |samples| > 0 {
      CostHead(samples, targets, false, f.x);
      CostHead(samples, targets, true, f.y);
      OffIsCosts(samples[1..], targets[1..], f);
      hide Cost, Rows, Axis;
    }
  }

  // Every other map is farther off.
  ghost predicate Closest(samples: seq<Point>, targets: seq<Point>, f: Fit)
    requires |samples| <= |targets| && |f.x| == |f.y| == 3
  {
    forall g: Fit | |g.x| == |g.y| == 3 && g != f :: Off(samples, targets, f) < Off(samples, targets, g)
  }

  lemma BestIsClosest(samples: seq<Point>, targets: seq<Point>, f: Fit)
    requires |samples| <= |targets| && |f.x| == |f.y| == 3
    requires Best(samples, Axis(targets, |samples|, false), f.x) && Best(samples, Axis(targets, |samples|, true), f.y)
    ensures Closest(samples, targets, f)
  {
    hide Off, Cost, Rows, Axis;
    OffIsCosts(samples, targets, f);
    forall g: Fit | |g.x| == |g.y| == 3 && g != f ensures Off(samples, targets, f) < Off(samples, targets, g) {
      OffIsCosts(samples, targets, g);
    }
  }

  /** The fit is given exactly when there are enough targets and the samples are well spread, and then each
      axis gets the one map with the smallest total squared distance to the targets, and so both together. */
  method Affine(samples: seq<Point>, targets: seq<Point>) returns (r: FitResult)
    ensures r.MoreSamplesThanTargets? <==> |samples| > |targets|
    ensures r.Fitted? <==> |samples| <= |targets| && WellSpread(samples)
    ensures r.Fitted? ==> |r.fit.x| == |r.fit.y| == 3
    ensures r.Fitted? ==> Best(samples, Axis(targets, |samples|, false), r.fit.x)
    ensures r.Fitted? ==> Best(samples, Axis(targets, |samples|, true), r.fit.y)
    ensures r.Fitted? ==> Closest(samples, targets, r.fit)
    ensures r.Fitted? ==> !exists line :: Collinear(samples, line)
  {
    var rows := Rows(samples);
    var normal := Normal(rows);
    if |samples| > |targets| { return MoreSamplesThanTargets; }
    hide OnlySolution, Singular, Best, Closest, Normal, Moments, Collinear, P.Passes, Rounds;
    P.AcceptedExactly(normal, Moments(rows, Axis(targets, |samples|, false)));
    P.AcceptedExactly(normal, Moments(rows, Axis(targets, |samples|, true)));
    var x := Solve(normal, Moments(rows, Axis(targets, |samples|, false)));
    if x.Raised? { return NotDistinct; }
    var y := Solve(normal, Moments(rows, Axis(targets, |samples|, true)));
    if y.Raised? { return NotDistinct; }
    WellSpreadIsNotCollinear(samples);
    OnlySolutionIsBest(samples, Axis(targets, |samples|, false), x.value);
    OnlySolutionIsBest(samples, Axis(targets, |samples|, true), y.value);
    BestIsClosest(samples, targets, Fit(x.value, y.value));
    r := Fitted(Fit(x.value, y.value));
  }

  // ---- a triangle too thin ----

  // Four taps, the first repeated, on a touch panel of 4096 by 4096; twice the area they span is 1.
  const THIN: seq<Point> := [(0, 4094), (4095, 4095), (4094, 4095), (0, 4094)]

  /** Four taps that do not lie on a line, yet the fit refuses them: the threshold is absolute and the
      coordinates are in the thousands. */
  lemma ThinTrianglesAreRefused()
    ensures !(exists line :: Collinear(THIN, line)) && !WellSpread(THIN)
  {
    hide Normal, Rows, Collinear, Times, P.Takes, P.Two, P.Three, Abs;
    forall line: seq<real> ensures !Collinear(THIN, line) { ThinIsNoLine(line); }
    ThinNormal();
    var p, q, r := WellSpreadExactly(THIN);
    ThinPivots(Normal(Rows(THIN)), p, q, r);
  }

  // The determinant is 2 and the minor before it about 10^15.
  lemma ThinPivots(n: Matrix, p: nat, q: nat, r: nat)
    requires n == [[33529861.0, 33533955.0, 8189.0], [33533955.0, 67059722.0, 16378.0], [8189.0, 16378.0, 4.0]]
    requires P.Tall(n, 3) && P.Takes(n, p, q, r)
    ensures Abs(P.Three(n, 0, 1, 2)) < Times(TINY, Abs(P.Two(n, p, q)))
  {
    assert p == 1;
    ThinMinors(n);
    hide P.Two, P.Three;
    assert Abs(P.Two(n, p, q)) >= Abs(P.Two(n, 1, 0));
  }

  lemma ThinMinors(n: Matrix)
    requires n == [[33529861.0, 33533955.0, 8189.0], [33533955.0, 67059722.0, 16378.0], [8189.0, 16378.0, 4.0]]
    ensures P.Tall(n, 3) && P.Two(n, 1, 0) == -1123977019416617.0 && P.Three(n, 0, 1, 2) == 2.0
  {
  }

  lemma ThinIsNoLine(line: seq<real>)
    ensures !Collinear(THIN, line)
  {
    if |line| == 3 {
      forall k | 0 <= k < 4
        ensures Dot(Row(THIN[k]), line) == THIN[k].0 as real * line[0] + THIN[k].1 as real * line[1] + line[2]
      {
        Dot3(Row(THIN[k]), line);
      }
      hide Dot;
      var (d0, d1, d2) := (Dot(Row(THIN[0]), line), Dot(Row(THIN[1]), line), Dot(Row(THIN[2]), line));
      assert d0 == d1 == d2 == 0.0 ==> line[0] == line[1] == line[2] == 0.0;
    }
  }

  lemma ThinNormal()
    ensures Normal(Rows(THIN)) == [[33529861.0, 33533955.0, 8189.0], [33533955.0, 67059722.0, 16378.0], [8189.0, 16378.0, 4.0]]
  {
    var rows := Rows(THIN);
    assert rows == [Row(THIN[0]), Row(THIN[1]), Row(THIN[2]), Row(THIN[3])];
    assert rows[1..] == [Row(THIN[1]), Row(THIN[2]), Row(THIN[3])] && rows[1..][1..] == [Row(THIN[2]), Row(THIN[3])];
    assert rows[1..][1..][1..] == [Row(THIN[3])] && rows[1..][1..][1..][1..] == [];
    forall i: nat, j: nat | i < 3 && j < 3
      ensures SumOfProducts(rows, i, j)
           == Times(rows[0][i], rows[0][j]) + Times(rows[1][i], rows[1][j]) + Times(rows[2][i], rows[2][j]) + Times(rows[3][i], rows[3][j])
    {
      SumOfFour(rows, i, j);
    }
  }

  lemma SumOfFour(rows: seq<seq<real>>, i: nat, j: nat)
    requires Wide(rows) && |rows| == 4 && i < 3 && j < 3
    ensures SumOfProducts(rows, i, j)
         == Times(rows[0][i], rows[0][j]) + Times(rows[1][i], rows[1][j]) + Times(rows[2][i], rows[2][j]) + Times(rows[3][i], rows[3][j])
  {
    hide Times;
    var (a, b, c) := (rows[1..], rows[2..], rows[3..]);
    assert a[1..] == b && b[1..] == c && c[1..] == [];
    assert SumOfProducts(c, i, j) == Times(rows[3][i], rows[3][j]) + SumOfProducts([], i, j);
    assert SumOfProducts(b, i, j) == Times(rows[2][i], rows[2][j]) + SumOfProducts(c, i, j);
    assert SumOfProducts(a, i, j) == Times(rows[1][i], rows[1][j]) + SumOfProducts(b, i, j);
  }
}
