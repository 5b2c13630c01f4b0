/** Determinants of a list of k rows, taken on their first k columns, by expansion along the last of
    these columns. */
module Determinants {
  import opened Vectors

  type Row = seq<real>

  // Rows long enough for their determinant.
  ghost predicate Deep(rows: seq<Row>) { forall i | 0 <= i < |rows| :: |rows[i]| >= |rows| }

  function Without(rows: seq<Row>, j: nat): (r: seq<Row>)
    requires j < |rows|
    ensures |r| == |rows| - 1
    ensures forall i | 0 <= i < |r| :: r[i] == rows[if i < j then i else i + 1]
  {
    rows[..j] + rows[j + 1..]
  }

  // What row j contributes: its entry in the last column times the determinant of the others.
  function Term(rows: seq<Row>, j: nat): real
    requires Deep(rows) && j < |rows|
    decreases |rows|, 0
  {
    Times(rows[j][|rows| - 1], Det(Without(rows, j)))
  }

  // The expansion over the first j rows, signs alternating from the last of them.
  function Expansion(rows: seq<Row>, j: nat): real
    requires Deep(rows) && j <= |rows|
    decreases |rows|, j
  {
    if j == 0 then 0.0 else Term(rows, j - 1) - Expansion(rows, j - 1)
  }

  function Det(rows: seq<Row>): real
    requires Deep(rows)
    decreases |rows|, |rows| + 1
  {
    if |rows| == 0 then 1.0 else Expansion(rows, |rows|)
  }

  // ---- the last row ----

  // r is u plus f times v, column by column.
  ghost predicate Combines(r: Row, u: Row, f: real, v: Row) {
    |r| == |u| == |v| && forall c | 0 <= c < |r| :: r[c] == u[c] + Times(f, v[c])
  }

  lemma WithoutLast(rows: seq<Row>, r: Row, j: nat)
    requires j <= |rows|
    ensures Without(rows + [r], j) == if j == |rows| then rows else Without(rows, j) + [r]
  {
  }

  lemma LinearTerm(a: real, x: real, f: real, y: real)
    ensures Times(a, x + Times(f, y)) == Times(a, x) + Times(f, Times(a, y))
    ensures Times(x + Times(f, y), a) == Times(x, a) + Times(f, Times(y, a))
  {
  }

  lemma LinearDifference(f: real, x: real, y: real)
    ensures Times(f, x) - Times(f, y) == Times(f, x - y)
  {
  }

  lemma {:induction false} DetLinear(rows: seq<Row>, r: Row, u: Row, f: real, v: Row)
    requires Deep(rows + [r]) && Combines(r, u, f, v)
    ensures Deep(rows + [u]) && Deep(rows + [v])
    ensures Det(rows + [r]) == Det(rows + [u]) + Times(f, Det(rows + [v]))
    decreases |rows|, |rows| + 2
  {
    DeepLast(rows, r, u);
    DeepLast(rows, r, v);
    hide Times, Det;
    ExpansionLinear(rows, r, u, f, v, |rows| + 1);
    DetIs(rows + [r]);
    DetIs(rows + [u]);
    DetIs(rows + [v]);
  }

  lemma DetIs(rows: seq<Row>)
    requires Deep(rows)
    ensures Det(rows) == if |rows| == 0 then 1.0 else Expansion(rows, |rows|)
  {
  }

  lemma DeepLast(rows: seq<Row>, r: Row, u: Row)
    requires Deep(rows + [r]) && |u| == |r|
    ensures Deep(rows + [u])
  {
    forall i | 0 <= i < |rows| + 1 ensures |(rows + [u])[i]| >= |rows| + 1 {
      assert |(rows + [r])[i]| >= |rows| + 1;
    }
  }

  lemma DeepWithout(rows: seq<Row>, j: nat)
    requires Deep(rows) && j < |rows|
    ensures Deep(Without(rows, j))
  {
  }

  lemma {:induction false} ExpansionLinear(rows: seq<Row>, r: Row, u: Row, f: real, v: Row, j: nat)
    requires Deep(rows + [r]) && Deep(rows + [u]) && Deep(rows + [v]) && Combines(r, u, f, v) && j <= |rows| + 1
    ensures Expansion(rows + [r], j) == Expansion(rows + [u], j) + Times(f, Expansion(rows + [v], j))
    decreases |rows|, j
  {
    hide Times, Term, Deep;
    if j == 0 {
      TimesZero(f);
    } else {
      ExpansionLinear(rows, r, u, f, v, j - 1);
      TermLinear(rows, r, u, f, v, j - 1);
      LinearDifference(f, Term(rows + [v], j - 1), Expansion(rows + [v], j - 1));
    }
  }

  lemma TimesZero(f: real)
    ensures Times(f, 0.0) == 0.0 && Times(0.0, f) == 0.0
  {
  }

  lemma {:induction false} TermLinear(rows: seq<Row>, r: Row, u: Row, f: real, v: Row, j: nat)
    requires Deep(rows + [r]) && Deep(rows + [u]) && Deep(rows + [v]) && Combines(r, u, f, v) && j < |rows| + 1
    ensures Term(rows + [r], j) == Term(rows + [u], j) + Times(f, Term(rows + [v], j))
    decreases |rows|, j
  {
    hide Times, Det, Without, Deep, Term;
    TermBelow(rows, r, j);
    TermBelow(rows, u, j);
    TermBelow(rows, v, j);
    if j < |rows| {
      DetLinear(Without(rows, j), r, u, f, v);
      LinearTerm(rows[j][|rows|], Det(Without(rows, j) + [u]), f, Det(Without(rows, j) + [v]));
    } else {
      LinearTerm(Det(rows), u[j], f, v[j]);
    }
  }

  // A term of rows with one below them, by what stays of them.
  lemma TermBelow(rows: seq<Row>, r: Row, j: nat)
    requires Deep(rows + [r]) && j <= |rows|
    ensures j < |rows| ==>
              && |rows[j]| > |rows| && Deep(Without(rows, j) + [r])
              && Term(rows + [r], j) == Times(rows[j][|rows|], Det(Without(rows, j) + [r]))
    ensures j == |rows| ==> |r| > |rows| && Deep(rows) && Term(rows + [r], j) == Times(r[j], Det(rows))
  {
    hide Times, Det, Without, Deep, Term;
    var all := rows + [r];
    TermIs(all, j);
    WithoutLast(rows, r, j);
    assert |all| == |rows| + 1 && all[j] == if j < |rows| then rows[j] else r;
  }

  lemma TermIs(rows: seq<Row>, j: nat)
    requires Deep(rows) && j < |rows|
    ensures |rows[j]| >= |rows| && Deep(Without(rows, j))
    ensures Term(rows, j) == Times(rows[j][|rows| - 1], Det(Without(rows, j)))
  {
    hide Times, Det, Without;
    DeepWithout(rows, j);
  }

  lemma DeepMeans(rows: seq<Row>, j: nat)
    requires Deep(rows) && j < |rows|
    ensures |rows[j]| >= |rows|
  {
  }

  /** A last row that is zero before its own column only contributes its entry there. */
  lemma {:induction false} DetZeroLast(rows: seq<Row>, z: Row)
    requires Deep(rows + [z]) && |z| > |rows| && forall c | 0 <= c < |rows| :: z[c] == 0.0
    ensures Deep(rows) && Det(rows + [z]) == Times(z[|rows|], Det(rows))
    decreases |rows|, |rows| + 2
  {
    WithoutLast(rows, z, |rows|);
    DeepWithout(rows + [z], |rows|);
    ExpansionZeroLast(rows, z, |rows|);
    hide Times;
    assert Term(rows + [z], |rows|) == Times(z[|rows|], Det(rows));
  }

  lemma {:induction false} ExpansionZeroLast(rows: seq<Row>, z: Row, j: nat)
    requires Deep(rows + [z]) && |z| > |rows| && (forall c | 0 <= c < |rows| :: z[c] == 0.0) && j <= |rows|
    ensures Expansion(rows + [z], j) == 0.0
    decreases |rows|, j
  {
    hide Times, Term, Deep;
    if j > 0 {
      ExpansionZeroLast(rows, z, j - 1);
      TermZeroLast(rows, z, j - 1);
    }
  }

  lemma {:induction false} TermZeroLast(rows: seq<Row>, z: Row, j: nat)
    requires Deep(rows + [z]) && |z| > |rows| && (forall c | 0 <= c < |rows| :: z[c] == 0.0) && j < |rows|
    ensures Term(rows + [z], j) == 0.0
    decreases |rows|, j
  {
    WithoutLast(rows, z, j);
    DeepWithout(rows + [z], j);
    DeepMeans(rows + [z], j);
    hide Times, Det, Without, Deep;
    DetZeroLast(Without(rows, j), z);
    TimesZero((rows + [z])[j][|rows|]);
    TimesZero(Det(Without(rows, j)));
  }

  // ---- swapping neighbours ----

  function Swapped(rows: seq<Row>, p: nat): (r: seq<Row>)
    requires p + 1 < |rows|
    ensures |r| == |rows|
  {
    rows[p := rows[p + 1]][p + 1 := rows[p]]
  }

  // Leaving out one row and swapping two others can be done in either order.
  lemma SwappedWithout(rows: seq<Row>, p: nat, j: nat)
    requires p + 1 < |rows| && j < |rows|
    ensures j < p ==> Without(Swapped(rows, p), j) == Swapped(Without(rows, j), p - 1)
    ensures j > p + 1 ==> Without(Swapped(rows, p), j) == Swapped(Without(rows, j), p)
  {
    var w := Without(Swapped(rows, p), j);
    hide Without;
    if j < p {
      forall i | 0 <= i < |w| ensures w[i] == Swapped(Without(rows, j), p - 1)[i] {}
    }
    if j > p + 1 {
      forall i | 0 <= i < |w| ensures w[i] == Swapped(Without(rows, j), p)[i] {}
    }
  }

  lemma SwappedWithoutOne(rows: seq<Row>, p: nat)
    requires p + 1 < |rows|
    ensures Without(Swapped(rows, p), p) == Without(rows, p + 1)
    ensures Without(Swapped(rows, p), p + 1) == Without(rows, p)
  {
    var w, w' := Without(Swapped(rows, p), p), Without(Swapped(rows, p), p + 1);
    hide Without;
    forall i | 0 <= i < |w| ensures w[i] == Without(rows, p + 1)[i] && w'[i] == Without(rows, p)[i] {}
  }

  lemma {:induction false} DetSwapped(rows: seq<Row>, p: nat)
    requires Deep(rows) && p + 1 < |rows|
    ensures Deep(Swapped(rows, p)) && Det(Swapped(rows, p)) == -Det(rows)
    decreases |rows|, |rows| + 2
  {
    ExpansionSwapped(rows, p, |rows|);
  }

  lemma NegatedTerm(a: real, x: real)
    ensures Times(a, -x) == -Times(a, x)
  {
  }

  lemma {:induction false} ExpansionSwapped(rows: seq<Row>, p: nat, j: nat)
    requires Deep(rows) && p + 1 < |rows| && j <= |rows| && j != p + 1
    ensures Deep(Swapped(rows, p)) && Expansion(Swapped(rows, p), j) == -Expansion(rows, j)
    decreases |rows|, j
  {
    DeepSwapped(rows, p);
    hide Term, Deep, Swapped;
    if j == p + 2 {
      ExpansionSwapped(rows, p, p);
      TermsSwapped(rows, p);
      assert Expansion(rows, p + 2) == Term(rows, p + 1) - Term(rows, p) + Expansion(rows, p);
    } else if j > 0 {
      ExpansionSwapped(rows, p, j - 1);
      TermSwapped(rows, p, j - 1);
    }
  }

  lemma TermsSwapped(rows: seq<Row>, p: nat)
    requires Deep(rows) && p + 1 < |rows| && Deep(Swapped(rows, p))
    ensures Term(Swapped(rows, p), p) == Term(rows, p + 1)
    ensures Term(Swapped(rows, p), p + 1) == Term(rows, p)
  {
    SwappedWithoutOne(rows, p);
    SwappedAt(rows, p);
    hide Times, Det, Without, Swapped;
  }

  lemma {:induction false} TermSwapped(rows: seq<Row>, p: nat, j: nat)
    requires Deep(rows) && p + 1 < |rows| && j < |rows| && j != p && j != p + 1 && Deep(Swapped(rows, p))
    ensures Term(Swapped(rows, p), j) == -Term(rows, j)
    decreases |rows|, j
  {
    SwappedWithout(rows, p, j);
    SwappedAt(rows, p);
    DeepWithout(rows, j);
    DeepMeans(rows, j);
    hide Times, Det, Without, Swapped, Deep;
    DetSwapped(Without(rows, j), if j < p then p - 1 else p);
    NegatedTerm(rows[j][|rows| - 1], Det(Without(rows, j)));
  }

  lemma DeepSwapped(rows: seq<Row>, p: nat)
    requires Deep(rows) && p + 1 < |rows|
    ensures Deep(Swapped(rows, p))
  {
  }

  lemma SwappedAt(rows: seq<Row>, p: nat)
    requires p + 1 < |rows|
    ensures Swapped(rows, p)[p] == rows[p + 1] && Swapped(rows, p)[p + 1] == rows[p]
    ensures forall i | 0 <= i < |rows| && i != p && i != p + 1 :: Swapped(rows, p)[i] == rows[i]
  {
  }

  /** A row that repeats an earlier one makes the determinant zero. */
  lemma {:induction false} DetRepeated(rows: seq<Row>, p: nat)
    requires Deep(rows) && p + 1 < |rows| && rows[p] == rows[|rows| - 1]
    ensures Det(rows) == 0.0
    decreases |rows| - p
  {
    hide Det;
    DetSwapped(rows, p);
    if p + 2 == |rows| {
      assert Swapped(rows, p) == rows;
    } else {
      DetRepeated(Swapped(rows, p), p + 1);
    }
  }

  // ---- scaling, and columns that do not matter ----

  function Power(s: real, k: nat): real { if k == 0 then 1.0 else Times(s, Power(s, k - 1)) }

  lemma ScaledTerm(s: real, a: real, q: real, x: real)
    ensures Times(Times(s, a), Times(q, x)) == Times(Times(s, q), Times(a, x))
  {
  }

  // Every row of r is s times the same row of rows.
  ghost predicate Multiple(r: seq<Row>, rows: seq<Row>, s: real) {
    && |r| == |rows|
    && forall i | 0 <= i < |r| :: |r[i]| == |rows[i]| && forall c | 0 <= c < |r[i]| :: r[i][c] == Times(s, rows[i][c])
  }

  lemma {:induction false} DetMultiple(r: seq<Row>, rows: seq<Row>, s: real)
    requires Deep(rows) && Multiple(r, rows, s)
    ensures Deep(r) && Det(r) == Times(Power(s, |rows|), Det(rows))
    decreases |rows|, |rows| + 2
  {
    if |rows| > 0 { ExpansionMultiple(r, rows, s, |rows|); }
  }

  lemma {:induction false} ExpansionMultiple(r: seq<Row>, rows: seq<Row>, s: real, j: nat)
    requires Deep(rows) && Deep(r) && Multiple(r, rows, s) && |rows| > 0 && j <= |rows|
    ensures Expansion(r, j) == Times(Power(s, |rows|), Expansion(rows, j))
    decreases |rows|, j
  {
    hide Times, Term, Power, Deep, Multiple;
    MultipleSize(r, rows, s);
    if j == 0 {
      TimesZero(Power(s, |rows|));
    } else {
      ExpansionMultiple(r, rows, s, j - 1);
      TermMultiple(r, rows, s, j - 1);
      LinearDifference(Power(s, |rows|), Term(rows, j - 1), Expansion(rows, j - 1));
    }
  }

  lemma MultipleSize(r: seq<Row>, rows: seq<Row>, s: real)
    requires Multiple(r, rows, s)
    ensures |r| == |rows|
  {
  }

  lemma {:induction false} TermMultiple(r: seq<Row>, rows: seq<Row>, s: real, j: nat)
    requires Deep(rows) && Deep(r) && Multiple(r, rows, s) && j < |rows|
    ensures Term(r, j) == Times(Power(s, |rows|), Term(rows, j))
    decreases |rows|, j
  {
    var k := |rows|;
    DeepWithout(rows, j);
    assert Power(s, k) == Times(s, Power(s, k - 1));
    assert Multiple(Without(r, j), Without(rows, j), s);
    assert r[j][k - 1] == Times(s, rows[j][k - 1]);
    hide Times, Det, Power, Without, Multiple;
    DetMultiple(Without(r, j), Without(rows, j), s);
    ScaledTerm(s, rows[j][k - 1], Power(s, k - 1), Det(Without(rows, j)));
  }

  lemma {:induction false} DetColumns(r: seq<Row>, rows: seq<Row>)
    requires Deep(rows) && Deep(r) && |r| == |rows|
    requires forall i, c | 0 <= i < |r| && 0 <= c < |r| :: r[i][c] == rows[i][c]
    ensures Det(r) == Det(rows)
    decreases |rows|, |rows| + 2
  {
    if |rows| > 0 { ExpansionColumns(r, rows, |rows|); }
  }

  lemma {:induction false} ExpansionColumns(r: seq<Row>, rows: seq<Row>, j: nat)
    requires Deep(rows) && Deep(r) && |r| == |rows| > 0 && j <= |rows|
    requires forall i, c | 0 <= i < |r| && 0 <= c < |r| :: r[i][c] == rows[i][c]
    ensures Expansion(r, j) == Expansion(rows, j)
    decreases |rows|, j
  {
    if j > 0 {
      ExpansionColumns(r, rows, j - 1);
      DetColumns(Without(r, j - 1), Without(rows, j - 1));
    }
  }

  // ---- small ones ----

  lemma DetOne(a: Row)
    requires |a| >= 1
    ensures Det([a]) == a[0]
  {
    assert Without([a], 0) == [];
    assert Expansion([a], 0) == 0.0;
    assert Det([]) == 1.0;
    assert Term([a], 0) == a[0];
  }

  lemma DetTwo(a: Row, b: Row)
    requires |a| >= 2 && |b| >= 2
    ensures Det([a, b]) == a[0] * b[1] - a[1] * b[0]
  {
    DetOne(a);
    DetOne(b);
    assert Without([a, b], 0) == [b] && Without([a, b], 1) == [a];
    hide Det, Without;
    var r := [a, b];
    DetIs(r);
    assert Expansion(r, 0) == 0.0;
    assert Expansion(r, 1) == Term(r, 0) - Expansion(r, 0);
    assert Expansion(r, 2) == Term(r, 1) - Expansion(r, 1);
  }

  lemma DetThree(a: Row, b: Row, c: Row)
    requires |a| >= 3 && |b| >= 3 && |c| >= 3
    ensures Det([a, b, c]) == c[2] * (a[0] * b[1] - a[1] * b[0]) - b[2] * (a[0] * c[1] - a[1] * c[0]) + a[2] * (b[0] * c[1] - b[1] * c[0])
  {
    DetTwo(a, b);
    DetTwo(a, c);
    DetTwo(b, c);
    assert Without([a, b, c], 0) == [b, c] && Without([a, b, c], 1) == [a, c] && Without([a, b, c], 2) == [a, b];
    hide Det;
    ThreeTerms(a, b, c);
    DetIs([a, b, c]);
  }

  lemma ThreeTerms(a: Row, b: Row, c: Row)
    requires |a| >= 3 && |b| >= 3 && |c| >= 3
    ensures Expansion([a, b, c], 3)
         == c[2] * Det(Without([a, b, c], 2)) - b[2] * Det(Without([a, b, c], 1)) + a[2] * Det(Without([a, b, c], 0))
  {
    hide Det, Without;
    var r := [a, b, c];
    assert Expansion(r, 0) == 0.0;
    assert Expansion(r, 1) == Term(r, 0) - Expansion(r, 0);
    assert Expansion(r, 2) == Term(r, 1) - Expansion(r, 1);
    assert Expansion(r, 3) == Term(r, 2) - Expansion(r, 2);
  }
}
