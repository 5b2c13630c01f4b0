/** When the solver of Calibration.dfy accepts a matrix, said about the matrix alone: through the minors
    that partial pivoting meets, not through the passes. */
module PivotMinors {
  import opened Vectors
  import opened GaussJordan
  import D = Determinants

  type Row = seq<real>

  // ---- rows that no determinant notices ----

  ghost predicate Long(rows: seq<Row>, n: nat) { forall i | 0 <= i < |rows| :: |rows[i]| == n + 1 }

  // Adding v to the last row, after these rows and any others, changes no determinant.
  ghost predicate Negligible(rows: seq<Row>, n: nat, v: Row)
    requires Long(rows, n) && |v| == n + 1
  {
    forall more: seq<Row> | Long(more, n) && |rows + more| < n + 1 :: D.Deep(rows + more + [v]) && D.Det(rows + more + [v]) == 0.0
  }

  lemma LongDeep(rows: seq<Row>, n: nat, v: Row)
    requires Long(rows, n) && |v| == n + 1 && |rows| < n + 1
    ensures D.Deep(rows + [v])
  {
  }

  lemma RowIsNegligible(rows: seq<Row>, n: nat, p: nat)
    requires Long(rows, n) && p < |rows|
    ensures Negligible(rows, n, rows[p])
  {
    hide D.Det;
    forall more: seq<Row> | Long(more, n) && |rows + more| < n + 1
      ensures D.Deep(rows + more + [rows[p]]) && D.Det(rows + more + [rows[p]]) == 0.0
    {
      LongDeep(rows + more, n, rows[p]);
      D.DetRepeated(rows + more + [rows[p]], p);
    }
  }

  lemma MoreNegligible(rows: seq<Row>, n: nat, r: Row, v: Row)
    requires Long(rows, n) && |r| == |v| == n + 1 && Negligible(rows, n, v)
    ensures Negligible(rows + [r], n, v)
  {
    hide D.Det, D.Deep;
    forall more: seq<Row> | Long(more, n) && |rows + [r] + more| < n + 1
      ensures D.Deep(rows + [r] + more + [v]) && D.Det(rows + [r] + more + [v]) == 0.0
    {
      assert rows + [r] + more == rows + ([r] + more);
      assert Long([r] + more, n);
    }
  }

  lemma CombinedNegligible(rows: seq<Row>, n: nat, r: Row, u: Row, f: real, v: Row)
    requires Long(rows, n) && |r| == |u| == |v| == n + 1
    requires D.Combines(r, u, f, v) && Negligible(rows, n, u) && Negligible(rows, n, v)
    ensures Negligible(rows, n, r)
  {
    hide D.Det;
    forall more: seq<Row> | Long(more, n) && |rows + more| < n + 1
      ensures D.Deep(rows + more + [r]) && D.Det(rows + more + [r]) == 0.0
    {
      LongDeep(rows + more, n, r);
      D.DetLinear(rows + more, r, u, f, v);
      D.TimesZero(f);
    }
  }

  lemma NegligibleAdds(rows: seq<Row>, n: nat, r: Row, u: Row, v: Row)
    requires Long(rows, n) && |r| == |u| == |v| == n + 1 && |rows| < n + 1
    requires D.Combines(r, u, 1.0, v) && Negligible(rows, n, v)
    ensures D.Deep(rows + [r]) && D.Deep(rows + [u]) && D.Det(rows + [r]) == D.Det(rows + [u])
  {
    hide D.Det;
    LongDeep(rows, n, r);
    D.DetLinear(rows, r, u, 1.0, v);
    assert rows + [] + [v] == rows + [v];
    assert Long([], n) && rows + [] == rows;
    D.TimesZero(1.0);
  }

  // ---- the minors that pivoting meets ----

  // A matrix of n rows with at least n columns.
  ghost predicate Tall(a: Matrix, n: nat) { |a| == n && forall i | 0 <= i < n :: |a[i]| >= n }

  predicate Places(order: seq<nat>, n: nat) { |order| == n && forall i | 0 <= i < n :: order[i] < n }

  // The rows chosen first.
  function Picked(a: Matrix, order: seq<nat>, k: nat): (r: seq<Row>)
    requires Places(order, |a|) && k <= |a|
    ensures |r| == k && forall j | 0 <= j < k :: r[j] == a[order[j]]
  {
    seq(k, j requires 0 <= j < k => a[order[j]])
  }

  lemma PickedDeep(a: Matrix, order: seq<nat>, k: nat, i: nat)
    requires Tall(a, |a|) && Places(order, |a|) && k < |a| && i < |a|
    ensures D.Deep(Picked(a, order, k)) && D.Deep(Picked(a, order, k) + [a[order[i]]])
  {
  }

  // The minor that row i of the order would complete.
  function Candidate(a: Matrix, order: seq<nat>, k: nat, i: nat): real
    requires Tall(a, |a|) && Places(order, |a|) && k < |a| && i < |a|
  {
    PickedDeep(a, order, k, i);
    D.Det(Picked(a, order, k) + [a[order[i]]])
  }

  /** The first row from place k on that completes the largest minor. */
  function Best(a: Matrix, order: seq<nat>, k: nat, upTo: nat): (p: nat)
    requires Tall(a, |a|) && Places(order, |a|) && k < upTo <= |a|
    ensures k <= p < upTo
  {
    if upTo == k + 1 then k
    else
      var best := Best(a, order, k, upTo - 1);
      if Abs(Candidate(a, order, k, upTo - 1)) > Abs(Candidate(a, order, k, best)) then upTo - 1 else best
  }

  function Exchanged(order: seq<nat>, i: nat, j: nat): (r: seq<nat>)
    requires i < |order| && j < |order|
    ensures |r| == |order| && r[i] == order[j] && (i != j ==> r[j] == order[i])
    ensures forall k | 0 <= k < |order| && k != i && k != j :: r[k] == order[k]
  {
    order[i := order[j]][j := order[i]]
  }

  /** The order of the rows when k of them are chosen. */
  function Order(a: Matrix, k: nat): (order: seq<nat>)
    requires Tall(a, |a|) && k <= |a|
    ensures Places(order, |a|)
  {
    if k == 0 then seq(|a|, i => i)
    else
      var before := Order(a, k - 1);
      var p := Best(a, before, k - 1, |a|);
      Exchanged(before, k - 1, p)
  }

  /** The largest minor of k rows on the first k columns that extends the one before by a row. */
  function Minor(a: Matrix, k: nat): real
    requires Tall(a, |a|) && k <= |a|
  {
    if k == 0 then 1.0 else Candidate(a, Order(a, k - 1), k - 1, Best(a, Order(a, k - 1), k - 1, |a|))
  }

  // Each minor is at least the threshold times the one before.
  ghost predicate Passes(a: Matrix, k: nat)
    requires Tall(a, |a|) && k <= |a|
  {
    forall j | 0 <= j < k :: Abs(Minor(a, j + 1)) >= Times(TINY, Abs(Minor(a, j)))
  }

  lemma MinorIsDet(a: Matrix, k: nat)
    requires Tall(a, |a|) && k <= |a|
    ensures D.Deep(Picked(a, Order(a, k), k)) && Minor(a, k) == D.Det(Picked(a, Order(a, k), k))
  {
    hide D.Det, Best, Exchanged, Order, Picked;
    if k == 0 {
      assert Picked(a, Order(a, k), k) == [];
      D.DetIs([]);
    } else {
      var o, p := Order(a, k - 1), Best(a, Order(a, k - 1), k - 1, |a|);
      PickedDeep(a, o, k - 1, p);
      OrderNext(a, k - 1);
      PickedNext(a, o, k - 1, p);
    }
  }

  lemma OrderNext(a: Matrix, k: nat)
    requires Tall(a, |a|) && k < |a|
    ensures Order(a, k + 1) == Exchanged(Order(a, k), k, Best(a, Order(a, k), k, |a|))
    ensures Minor(a, k + 1) == Candidate(a, Order(a, k), k, Best(a, Order(a, k), k, |a|))
  {
    hide Candidate, Best, Exchanged;
  }

  lemma PickedNext(a: Matrix, order: seq<nat>, k: nat, p: nat)
    requires Places(order, |a|) && k <= p < |a|
    ensures Picked(a, Exchanged(order, k, p), k + 1) == Picked(a, order, k) + [a[order[p]]]
    ensures Places(Exchanged(order, k, p), |a|)
  {
  }

  // ---- the passes meet these minors ----

  function Minus(u: Row, v: Row): (r: Row)
    requires |u| == |v|
    ensures |r| == |u| && forall c | 0 <= c < |r| :: r[c] == u[c] - v[c]
  {
    seq(|u|, c requires 0 <= c < |u| => u[c] - v[c])
  }

  lemma PickedLong(a: Matrix, n: nat, order: seq<nat>, k: nat)
    requires Shaped(a, n) && Places(order, n) && k <= n
    ensures Long(Picked(a, order, k), n) && Tall(a, |a|)
  {
  }

  // The rows still to be used differ from the original ones by nothing a determinant notices.
  ghost predicate Matches(a: Matrix, n: nat, m: Matrix, order: seq<nat>, k: nat)
    requires Shaped(a, n) && Shaped(m, n) && Places(order, n) && k <= n
  {
    PickedLong(a, n, order, k);
    forall i | k <= i < n :: Negligible(Picked(a, order, k), n, Minus(m[i], a[order[i]]))
  }

  lemma PlusMinus(u: Row, v: Row)
    requires |u| == |v|
    ensures D.Combines(u, v, 1.0, Minus(u, v))
  {
  }

  /** The candidate pivot in a row is the ratio of two minors. */
  lemma PivotIsRatio(a: Matrix, n: nat, m: Matrix, order: seq<nat>, k: nat, i: nat)
    requires Shaped(a, n) && Shaped(m, n) && Places(order, n) && k <= i < n && Tall(a, |a|)
    requires Matches(a, n, m, order, k) && UnitColumns(m, n, k)
    ensures D.Deep(Picked(a, order, k))
    ensures Candidate(a, order, k, i) == Times(m[i][k], D.Det(Picked(a, order, k)))
  {
    hide D.Det, D.Deep, Negligible;
    var rows := Picked(a, order, k);
    PickedLong(a, n, order, k);
    PlusMinus(m[i], a[order[i]]);
    NegligibleAdds(rows, n, m[i], a[order[i]], Minus(m[i], a[order[i]]));
    D.DetZeroLast(rows, m[i]);
  }

  lemma MatchesAtStart(a: Matrix, n: nat)
    requires Shaped(a, n) && Tall(a, |a|)
    ensures Matches(a, n, a, Order(a, 0), 0)
  {
    hide D.Det;
    var order := Order(a, 0);
    forall i | 0 <= i < n ensures Negligible(Picked(a, order, 0), n, Minus(a[i], a[order[i]])) {
      ZeroNegligible(Picked(a, order, 0), n, Minus(a[i], a[i]));
    }
  }

  lemma ZeroNegligible(rows: seq<Row>, n: nat, z: Row)
    requires Long(rows, n) && |z| == n + 1 && forall c | 0 <= c < |z| :: z[c] == 0.0
    ensures Negligible(rows, n, z)
  {
    hide D.Det;
    forall more: seq<Row> | Long(more, n) && |rows + more| < n + 1
      ensures D.Deep(rows + more + [z]) && D.Det(rows + more + [z]) == 0.0
    {
      LongDeep(rows + more, n, z);
      D.DetZeroLast(rows + more, z);
      D.TimesZero(D.Det(rows + more));
    }
  }

  // Subtracting a multiple of the new pivot row from a row keeps it matched, the pivot row now being picked.
  lemma EliminationMatches(rows: seq<Row>, n: nat, s: Row, u: Row, pivot: Row, v: Row, r: Row, g: real)
    requires Long(rows, n) && |s| == |u| == |pivot| == |v| == |r| == n + 1
    requires Negligible(rows, n, Minus(s, u)) && Negligible(rows, n, Minus(pivot, v))
    requires D.Combines(r, s, g, pivot)
    ensures Negligible(rows + [v], n, Minus(r, u))
  {
    hide Negligible;
    MoreNegligible(rows, n, v, Minus(s, u));
    MoreNegligible(rows, n, v, Minus(pivot, v));
    RowIsNegligible(rows + [v], n, |rows|);
    CombinedNegligible(rows + [v], n, pivot, Minus(pivot, v), 1.0, v);
    assert D.Combines(Minus(r, u), Minus(s, u), g, pivot);
    CombinedNegligible(rows + [v], n, Minus(r, u), Minus(s, u), g, pivot);
  }

  // What one pass does to a row that is still to be used.
  lemma RoundRow(m: Matrix, n: nat, k: nat, i: nat)
    requires Shaped(m, n) && k < i < n && Round(m, n, k).Solved?
    ensures var s := GaussJordan.Swapped(m, k, PivotRow(m, n, k, n));
            s[k][k] != 0.0 && D.Combines(Round(m, n, k).value[i], s[i], -(s[i][k] / s[k][k]), s[k])
  {
    hide SubScaled, Divide, D.Combines, PivotRow;
    var s := GaussJordan.Swapped(m, k, PivotRow(m, n, k, n));
    RoundValue(m, n, k, i);
    SubScaledCombines(s[i], s[i][k], s[k], s[k][k]);
  }

  lemma RoundValue(m: Matrix, n: nat, k: nat, i: nat)
    requires Shaped(m, n) && k < i < n && Round(m, n, k).Solved?
    ensures var s := GaussJordan.Swapped(m, k, PivotRow(m, n, k, n));
            s[k][k] != 0.0 && |s[i]| == |s[k]| && Round(m, n, k).value[i] == SubScaled(s[i], s[i][k], Divide(s[k], s[k][k]))
  {
    hide SubScaled, Divide, PivotRow;
  }

  lemma SubScaledCombines(u: Row, f: real, w: Row, d: real)
    requires |u| == |w| && d != 0.0
    ensures D.Combines(SubScaled(u, f, Divide(w, d)), u, -(f / d), w)
  {
    forall c | 0 <= c < |u| ensures SubScaled(u, f, Divide(w, d))[c] == u[c] + Times(-(f / d), w[c]) {
      QuotientTerm(u[c], f, w[c], d);
    }
  }

  lemma QuotientTerm(x: real, f: real, y: real, d: real)
    requires d != 0.0
    ensures x - f * (y / d) == x + Times(-(f / d), y)
  {
  }

  lemma RoundMatches(a: Matrix, n: nat, m: Matrix, order: seq<nat>, k: nat)
    requires Shaped(a, n) && Shaped(m, n) && Places(order, n) && k < n && Tall(a, |a|)
    requires Matches(a, n, m, order, k) && Round(m, n, k).Solved?
    ensures var p := PivotRow(m, n, k, n);
            Places(Exchanged(order, k, p), n) && Matches(a, n, Round(m, n, k).value, Exchanged(order, k, p), k + 1)
  {
    hide Negligible, Round, D.Det, Exchanged, Picked, PivotRow;
    var p := PivotRow(m, n, k, n);
    var s, o := GaussJordan.Swapped(m, k, p), Exchanged(order, k, p);
    var rows := Picked(a, order, k);
    PickedLong(a, n, order, k);
    PickedNext(a, order, k, p);
    forall i | k + 1 <= i < n ensures Negligible(rows + [a[o[k]]], n, Minus(Round(m, n, k).value[i], a[o[i]])) {
      RoundRow(m, n, k, i);
      EliminationMatches(rows, n, s[i], a[o[i]], s[k], a[o[k]], Round(m, n, k).value[i], -(s[i][k] / s[k][k]));
    }
  }

  lemma AbsTimes(x: real, d: real)
    ensures Abs(Times(x, d)) == Times(Abs(x), Abs(d))
  {
  }

  lemma ScaledOrder(x: real, y: real, d: real)
    requires d > 0.0
    ensures Times(x, d) > Times(y, d) <==> x > y
  {
  }

  // Comparing candidates is comparing the minors they complete.
  lemma {:induction false} SameBest(a: Matrix, n: nat, m: Matrix, order: seq<nat>, k: nat, upTo: nat)
    requires Shaped(a, n) && Shaped(m, n) && Places(order, n) && k < upTo <= n && Tall(a, |a|)
    requires Matches(a, n, m, order, k) && UnitColumns(m, n, k)
    requires D.Deep(Picked(a, order, k)) && D.Det(Picked(a, order, k)) != 0.0
    ensures Best(a, order, k, upTo) == PivotRow(m, n, k, upTo)
  {
    hide Candidate, Matches, UnitColumns, D.Det, D.Deep, Picked, Places, Shaped, Tall;
    if upTo > k + 1 {
      SameBest(a, n, m, order, k, upTo - 1);
      CompareCandidates(a, n, m, order, k, upTo - 1, PivotRow(m, n, k, upTo - 1));
    }
  }

  lemma CompareCandidates(a: Matrix, n: nat, m: Matrix, order: seq<nat>, k: nat, i: nat, j: nat)
    requires Shaped(a, n) && Shaped(m, n) && Places(order, n) && k <= i < n && k <= j < n && Tall(a, |a|)
    requires Matches(a, n, m, order, k) && UnitColumns(m, n, k)
    requires D.Deep(Picked(a, order, k)) && D.Det(Picked(a, order, k)) != 0.0
    ensures Abs(Candidate(a, order, k, i)) > Abs(Candidate(a, order, k, j)) <==> Abs(m[i][k]) > Abs(m[j][k])
  {
    hide Candidate, Times, Matches, UnitColumns, D.Det, D.Deep, Picked;
    var d := D.Det(Picked(a, order, k));
    PivotIsRatio(a, n, m, order, k, i);
    PivotIsRatio(a, n, m, order, k, j);
    AbsTimes(m[i][k], d);
    AbsTimes(m[j][k], d);
    ScaledOrder(Abs(m[i][k]), Abs(m[j][k]), Abs(d));
  }

  /** What k passes that do not raise have met: the order and the minors of the original matrix. */
  ghost predicate Met(a: Matrix, n: nat, k: nat)
    requires Shaped(a, n) && Tall(a, |a|) && k <= n
  {
    Rounds(a, n, k).Solved? ==>
      Matches(a, n, Rounds(a, n, k).value, Order(a, k), k) && UnitColumns(Rounds(a, n, k).value, n, k) && Minor(a, k) != 0.0
  }

  lemma MetNext(a: Matrix, n: nat, k: nat)
    requires Shaped(a, n) && Tall(a, |a|) && k < n && Met(a, n, k) && Rounds(a, n, k).Solved?
    ensures Met(a, n, k + 1)
    ensures Rounds(a, n, k + 1).Solved? <==> Abs(Minor(a, k + 1)) >= Times(TINY, Abs(Minor(a, k)))
    ensures var m := Rounds(a, n, k).value; m[PivotRow(m, n, k, n)][k] == 0.0 <==> Minor(a, k + 1) == 0.0
  {
    var m, o := Rounds(a, n, k).value, Order(a, k);
    var p, d := PivotRow(m, n, k, n), D.Det(Picked(a, o, k));
    MinorIsDet(a, k);
    RoundsStep(a, n, k);
    OrderNext(a, k);
    SameBest(a, n, m, o, k, n);
    PivotIsRatio(a, n, m, o, k, p);
    PivotDecides(m, n, k, m[p][k], d, Minor(a, k + 1));
    hide Candidate, Times, Matches, UnitColumns, D.Det, Order, Minor, Best, Rounds, Round;
    if Round(m, n, k).Solved? {
      RoundMatches(a, n, m, o, k);
      RoundCorrect(m, n, k);
    }
  }

  lemma PivotDecides(m: Matrix, n: nat, k: nat, pivot: real, d: real, minor: real)
    requires Shaped(m, n) && k < n && pivot == m[PivotRow(m, n, k, n)][k] && d != 0.0 && minor == Times(pivot, d)
    ensures Round(m, n, k).Solved? <==> Abs(minor) >= Times(TINY, Abs(d))
    ensures pivot == 0.0 <==> minor == 0.0
    ensures Round(m, n, k).Solved? ==> minor != 0.0
  {
    AbsTimes(pivot, d);
    hide Times, PivotRow;
    ScaledBound(Abs(pivot), Abs(d));
    ZeroProduct(pivot, d);
  }

  lemma ScaledBound(x: real, d: real)
    requires d > 0.0
    ensures Times(x, d) >= Times(TINY, d) <==> x >= TINY
  {
  }

  lemma ZeroProduct(x: real, d: real)
    requires d != 0.0
    ensures Times(x, d) == 0.0 <==> x == 0.0
  {
  }

  lemma {:induction false} MetAll(a: Matrix, n: nat, k: nat)
    requires Shaped(a, n) && Tall(a, |a|) && k <= n
    ensures Met(a, n, k) && (Rounds(a, n, k).Solved? <==> Passes(a, k))
  {
    hide Matches, UnitColumns, Order, Minor, Round, Times;
    if k == 0 {
      MetAtStart(a, n);
    } else {
      MetAll(a, n, k - 1);
      if Rounds(a, n, k - 1).Solved? { MetNext(a, n, k - 1); }
    }
  }

  lemma MetAtStart(a: Matrix, n: nat)
    requires Shaped(a, n) && Tall(a, |a|)
    ensures Met(a, n, 0) && Rounds(a, n, 0).Solved?
  {
    MatchesAtStart(a, n);
  }

  // ---- said of the matrix the caller passes ----

  // m has a's columns and possibly more.
  ghost predicate Widens(m: Matrix, a: Matrix) {
    |m| == |a| && Tall(a, |a|) && Tall(m, |m|) && forall i, c | 0 <= i < |a| && 0 <= c < |a| :: m[i][c] == a[i][c]
  }

  lemma SameCandidate(m: Matrix, a: Matrix, order: seq<nat>, k: nat, i: nat)
    requires Widens(m, a) && Places(order, |a|) && k < |a| && i < |a|
    ensures Candidate(m, order, k, i) == Candidate(a, order, k, i)
  {
    PickedDeep(m, order, k, i);
    PickedDeep(a, order, k, i);
    D.DetColumns(Picked(m, order, k) + [m[order[i]]], Picked(a, order, k) + [a[order[i]]]);
  }

  lemma {:induction false} SameBestRow(m: Matrix, a: Matrix, order: seq<nat>, k: nat, upTo: nat)
    requires Widens(m, a) && Places(order, |a|) && k < upTo <= |a|
    ensures Best(m, order, k, upTo) == Best(a, order, k, upTo)
  {
    hide Candidate;
    if upTo > k + 1 {
      SameBestRow(m, a, order, k, upTo - 1);
      SameCandidate(m, a, order, k, upTo - 1);
      SameCandidate(m, a, order, k, Best(a, order, k, upTo - 1));
    }
  }

  lemma {:induction false} SameMinors(m: Matrix, a: Matrix, k: nat)
    requires Widens(m, a) && k <= |a|
    ensures Order(m, k) == Order(a, k) && Minor(m, k) == Minor(a, k)
  {
    hide Candidate, Best, Exchanged, Places, Widens;
    WidensMeans(m, a);
    if k > 0 {
      SameMinors(m, a, k - 1);
      SameBestRow(m, a, Order(a, k - 1), k - 1, |a|);
      SameCandidate(m, a, Order(a, k - 1), k - 1, Best(a, Order(a, k - 1), k - 1, |a|));
    }
  }

  lemma WidensMeans(m: Matrix, a: Matrix)
    requires Widens(m, a)
    ensures |m| == |a| && Tall(a, |a|) && Tall(m, |m|)
  {
  }

  lemma SquareIsTall(a: Matrix, n: nat)
    requires Square(a, n)
    ensures Tall(a, |a|) && |a| == n
  {
  }

  lemma SamePasses(m: Matrix, a: Matrix, k: nat)
    requires Widens(m, a) && k <= |a|
    ensures |m| == |a| && Tall(m, |m|) && Tall(a, |a|) && (Passes(m, k) <==> Passes(a, k))
  {
    hide Minor, Order;
    forall j | 0 <= j <= k ensures Minor(m, j) == Minor(a, j) { SameMinors(m, a, j); }
  }

  lemma AugmentWidens(a: Matrix, b: seq<real>)
    requires Square(a, |b|)
    ensures Widens(Augment(a, b), a) && Shaped(Augment(a, b), |b|) && Tall(Augment(a, b), |b|)
  {
  }

  /** The solver accepts a matrix exactly when each of the minors that pivoting meets is at least the
      threshold times the one before; the right-hand side does not matter. */
  lemma AcceptedExactly(a: Matrix, b: seq<real>)
    requires Square(a, |b|)
    ensures Tall(a, |a|)
    ensures Rounds(Augment(a, b), |b|, |b|).Solved? <==> Passes(a, |b|)
  {
    hide Rounds, Passes, Augment;
    SquareIsTall(a, |b|);
    AugmentWidens(a, b);
    MetAll(Augment(a, b), |b|, |b|);
    SamePasses(Augment(a, b), a, |b|);
  }

  // ---- regular matrices ----

  function Scaled(a: Matrix, s: real): (r: Matrix)
    ensures |r| == |a| && forall i | 0 <= i < |a| :: |r[i]| == |a[i]|
  {
    seq(|a|, i requires 0 <= i < |a| => Scale(a[i], s))
  }

  lemma ScaledCandidate(a: Matrix, s: real, order: seq<nat>, k: nat, i: nat)
    requires Tall(a, |a|) && Places(order, |a|) && k < |a| && i < |a|
    ensures Tall(Scaled(a, s), |a|)
    ensures Candidate(Scaled(a, s), order, k, i) == Times(D.Power(s, k + 1), Candidate(a, order, k, i))
  {
    hide D.Det, D.Power;
    PickedDeep(a, order, k, i);
    var r, rows := Picked(Scaled(a, s), order, k) + [Scaled(a, s)[order[i]]], Picked(a, order, k) + [a[order[i]]];
    forall j | 0 <= j < k + 1 ensures |r[j]| == |rows[j]| && forall c | 0 <= c < |r[j]| :: r[j][c] == Times(s, rows[j][c]) {}
    D.DetMultiple(r, rows, s);
  }

  lemma {:induction false} PowerPositive(s: real, k: nat)
    requires s > 0.0
    ensures D.Power(s, k) > 0.0
  {
    if k > 0 {
      PowerPositive(s, k - 1);
      PositiveProduct(s, D.Power(s, k - 1));
    }
  }

  lemma PositiveProduct(x: real, y: real)
    requires x > 0.0 && y > 0.0
    ensures Times(x, y) > 0.0
  {
  }

  lemma ScaledLarger(q: real, x: real, y: real)
    requires q > 0.0
    ensures Abs(Times(q, x)) > Abs(Times(q, y)) <==> Abs(x) > Abs(y)
  {
    AbsTimes(q, x);
    AbsTimes(q, y);
    Commuted(Abs(x), q);
    Commuted(Abs(y), q);
    hide Times;
    ScaledOrder(Abs(x), Abs(y), q);
  }

  lemma Commuted(x: real, y: real)
    ensures Times(x, y) == Times(y, x)
  {
  }

  lemma {:induction false} ScaledBest(a: Matrix, s: real, order: seq<nat>, k: nat, upTo: nat)
    requires s > 0.0 && Tall(a, |a|) && Places(order, |a|) && k < upTo <= |a|
    ensures Tall(Scaled(a, s), |a|) && Best(Scaled(a, s), order, k, upTo) == Best(a, order, k, upTo)
  {
    hide Candidate, Times, D.Power, Scale, Scaled;
    ScaledCandidate(a, s, order, k, k);
    if upTo > k + 1 {
      ScaledBest(a, s, order, k, upTo - 1);
      var best := Best(a, order, k, upTo - 1);
      ScaledCandidate(a, s, order, k, upTo - 1);
      ScaledCandidate(a, s, order, k, best);
      PowerPositive(s, k + 1);
      ScaledLarger(D.Power(s, k + 1), Candidate(a, order, k, upTo - 1), Candidate(a, order, k, best));
    }
  }

  lemma {:induction false} ScaledMinor(a: Matrix, s: real, k: nat)
    requires s > 0.0 && Tall(a, |a|) && k <= |a|
    ensures Tall(Scaled(a, s), |a|)
    ensures Order(Scaled(a, s), k) == Order(a, k) && Minor(Scaled(a, s), k) == Times(D.Power(s, k), Minor(a, k))
  {
    hide Candidate, Best, Exchanged, Places, Scaled;
    ScaledTall(a, s);
    if k > 0 {
      hide Times, D.Power;
      ScaledMinor(a, s, k - 1);
      ScaledBest(a, s, Order(a, k - 1), k - 1, |a|);
      ScaledCandidate(a, s, Order(a, k - 1), k - 1, Best(a, Order(a, k - 1), k - 1, |a|));
    }
  }

  lemma ScaledTall(a: Matrix, s: real)
    requires Tall(a, |a|)
    ensures |Scaled(a, s)| == |a| && Tall(Scaled(a, s), |a|)
  {
  }

  // For a multiple, only the ratio of neighbouring minors counts.
  lemma ScaledStep(s: real, q: real, more: real, less: real)
    requires s > 0.0 && q > 0.0
    ensures Abs(Times(Times(s, q), more)) >= Times(TINY, Abs(Times(q, less))) <==> Times(s, Abs(more)) >= Times(TINY, Abs(less))
  {
    var x, y := Abs(more), Abs(less);
    PositiveProduct(s, q);
    AbsTimes(Times(s, q), more);
    AbsTimes(q, less);
    assert Times(Times(s, q), x) == Times(q, Times(s, x)) && Times(TINY, Times(q, y)) == Times(q, Times(TINY, y));
    hide Times;
    ScaledAtLeast(q, Times(s, x), Times(TINY, y));
  }

  lemma ScaledAtLeast(q: real, x: real, y: real)
    requires q > 0.0
    ensures Times(q, x) >= Times(q, y) <==> x >= y
  {
  }

  lemma ScaledPasses(a: Matrix, s: real, k: nat)
    requires s > 0.0 && Tall(a, |a|) && k <= |a|
    ensures Tall(Scaled(a, s), |a|)
    ensures Passes(Scaled(a, s), k) <==> forall j | 0 <= j < k :: Times(s, Abs(Minor(a, j + 1))) >= Times(TINY, Abs(Minor(a, j)))
  {
    hide Minor, Times, Scaled, Tall;
    ScaledTall(a, s);
    forall j | 0 <= j < k
      ensures Abs(Minor(Scaled(a, s), j + 1)) >= Times(TINY, Abs(Minor(Scaled(a, s), j)))
         <==> Times(s, Abs(Minor(a, j + 1))) >= Times(TINY, Abs(Minor(a, j)))
    {
      ScaledMinor(a, s, j);
      ScaledMinor(a, s, j + 1);
      PowerPositive(s, j);
      assert D.Power(s, j + 1) == Times(s, D.Power(s, j));
      ScaledStep(s, D.Power(s, j), Minor(a, j + 1), Minor(a, j));
    }
  }

  // Every multiple from s0 on passes the first k of the tests.
  ghost predicate EventuallyPasses(a: Matrix, s0: real, k: nat)
    requires Tall(a, |a|) && k <= |a|
  {
    s0 > 0.0 && forall s: real | s >= s0 :: Tall(Scaled(a, s), |a|) && Passes(Scaled(a, s), k)
  }

  function Larger(x: real, y: real): real { if x >= y then x else y }

  lemma {:induction false} EnoughScale(a: Matrix, k: nat) returns (s0: real)
    requires Tall(a, |a|) && k <= |a| && forall j | 1 <= j <= k :: Minor(a, j) != 0.0
    ensures EventuallyPasses(a, s0, k)
  {
    hide Minor, Times, Scaled, Passes;
    if k == 0 {
      s0 := 1.0;
    } else {
      var before := EnoughScale(a, k - 1);
      var x, y := Abs(Minor(a, k)), Abs(Minor(a, k - 1));
      s0 := Larger(before, TINY * (y / x));
    }
    forall s: real | s >= s0 ensures Tall(Scaled(a, s), |a|) && Passes(Scaled(a, s), k) {
      ScaledTall(a, s);
      ScaledPasses(a, s, k);
      if k > 0 {
        ScaledPasses(a, s, k - 1);
        LargeEnough(s, Abs(Minor(a, k)), Abs(Minor(a, k - 1)));
      }
    }
  }

  lemma LargeEnough(s: real, x: real, y: real)
    requires x > 0.0 && s >= TINY * (y / x)
    ensures Times(s, x) >= Times(TINY, y)
  {
    assert TINY * (y / x) * x == TINY * y;
  }

  lemma ScaledSolves(a: Matrix, s: real, v: seq<real>)
    requires Square(a, |v|) && s != 0.0
    ensures Square(Scaled(a, s), |v|)
    ensures Solves(Scaled(a, s), Zeros(|v|), v) <==> Solves(a, Zeros(|v|), v)
  {
    forall i | 0 <= i < |v| ensures Dot(Scaled(a, s)[i], v) == 0.0 <==> Dot(a[i], v) == 0.0 {
      DotScale(a[i], s, v);
      assert Dot(Scaled(a, s)[i], v) == Times(s, Dot(a[i], v));
      ProductZero(s, Dot(a[i], v));
    }
  }

  lemma ProductZero(s: real, x: real)
    requires s != 0.0
    ensures Times(s, x) == 0.0 <==> x == 0.0
  {
  }

  lemma ScaledSingular(a: Matrix, n: nat, s: real)
    requires Square(a, n) && s != 0.0
    ensures Square(Scaled(a, s), n) && (Singular(Scaled(a, s), n) <==> Singular(a, n))
  {
    hide Solves, Scaled;
    SquareScaled(a, n, s);
    forall v: seq<real> | |v| == n ensures Solves(Scaled(a, s), Zeros(n), v) <==> Solves(a, Zeros(n), v) { ScaledSolves(a, s, v); }
  }

  lemma SquareScaled(a: Matrix, n: nat, s: real)
    requires Square(a, n)
    ensures Square(Scaled(a, s), n)
  {
  }

  // The first minor that vanishes shows the matrix singular.
  lemma VanishingIsSingular(a: Matrix, n: nat, k: nat)
    requires Square(a, n) && Tall(a, |a|) && k < n && Minor(a, k + 1) == 0.0
    requires forall j | 1 <= j <= k :: Minor(a, j) != 0.0
    ensures Singular(a, n)
  {
    hide Minor, Scaled, Singular, Passes, Rounds, Times;
    var s := EnoughScale(a, k);
    var r, b := Scaled(a, s), Zeros(n);
    SquareScaled(a, n, s);
    AugmentWidens(r, b);
    var m := Augment(r, b);
    MetAll(m, n, k);
    SamePasses(m, r, k);
    SameMinors(m, r, k + 1);
    ScaledMinor(a, s, k + 1);
    D.TimesZero(D.Power(s, k + 1));
    MetNext(m, n, k);
    NoPivotIsSingular(r, b, k);
    ScaledSingular(a, n, s);
  }

  lemma {:induction false} FirstVanishing(a: Matrix, n: nat, k: nat)
    requires Square(a, n) && Tall(a, |a|) && 1 <= k <= n && Minor(a, k) == 0.0
    ensures Singular(a, n)
  {
    hide Minor, Singular;
    if forall j | 1 <= j <= k - 1 :: Minor(a, j) != 0.0 {
      VanishingIsSingular(a, n, k - 1);
    } else {
      var j :| 1 <= j <= k - 1 && Minor(a, j) == 0.0;
      FirstVanishing(a, n, j);
    }
  }

  /** A matrix is regular exactly when no minor that pivoting meets vanishes, and then, and only then, all
      its large enough multiples are accepted: the absolute threshold is the only reason for a refusal. */
  lemma RegularExactly(a: Matrix, n: nat)
    requires Square(a, n)
    ensures Tall(a, |a|)
    ensures !Singular(a, n) <==> forall k | 1 <= k <= n :: Minor(a, k) != 0.0
    ensures !Singular(a, n) <==> exists s0: real :: EventuallyPasses(a, s0, n)
  {
    hide Minor, Singular, Passes, Scaled, Rounds;
    SquareIsTall(a, n);
    if exists k | 1 <= k <= n :: Minor(a, k) == 0.0 {
      var k :| 1 <= k <= n && Minor(a, k) == 0.0;
      FirstVanishing(a, n, k);
    } else {
      var s0 := EnoughScale(a, n);
      assert EventuallyPasses(a, s0, n);
    }
    if s0: real :| EventuallyPasses(a, s0, n) {
      SquareScaled(a, n, s0);
      AcceptedExactly(Scaled(a, s0), Zeros(n));
      AcceptedIsSolved(Scaled(a, s0), Zeros(n));
      ScaledSingular(a, n, s0);
    }
  }

  // ---- three unknowns ----

  // The 2 by 2 minor of two rows on the first two columns, and the determinant.
  function Two(a: Matrix, p: nat, q: nat): real
    requires Tall(a, 3) && p < 3 && q < 3
  {
    a[p][0] * a[q][1] - a[p][1] * a[q][0]
  }

  function Three(a: Matrix, p: nat, q: nat, r: nat): real
    requires Tall(a, 3) && p < 3 && q < 3 && r < 3
  {
    a[r][2] * Two(a, p, q) - a[q][2] * Two(a, p, r) + a[p][2] * Two(a, q, r)
  }

  // The rows that partial pivoting takes first, second and third.
  ghost predicate Takes(a: Matrix, p: nat, q: nat, r: nat)
    requires Tall(a, 3)
  {
    && p < 3 && q < 3 && r < 3 && p != q && p != r && q != r
    && (forall i | 0 <= i < 3 :: Abs(a[i][0]) <= Abs(a[p][0]))
    && Abs(Two(a, p, r)) <= Abs(Two(a, p, q))
  }

  lemma {:induction false} BestIsLargest(a: Matrix, order: seq<nat>, k: nat, upTo: nat)
    requires Tall(a, |a|) && Places(order, |a|) && k < upTo <= |a|
    ensures forall i | k <= i < upTo :: Abs(Candidate(a, order, k, i)) <= Abs(Candidate(a, order, k, Best(a, order, k, upTo)))
  {
    hide Candidate;
    if upTo > k + 1 { BestIsLargest(a, order, k, upTo - 1); }
  }

  lemma CandidatesOfThree(a: Matrix, order: seq<nat>, i: nat)
    requires Tall(a, |a|) && |a| == 3 && Places(order, 3) && i < 3
    ensures Candidate(a, order, 0, i) == a[order[i]][0]
    ensures Candidate(a, order, 1, i) == Two(a, order[0], order[i])
    ensures Candidate(a, order, 2, i) == Three(a, order[0], order[1], order[i])
  {
    hide D.Det;
    var x, y, z := a[order[0]], a[order[1]], a[order[i]];
    assert Picked(a, order, 0) + [z] == [z] && Picked(a, order, 1) + [z] == [x, z] && Picked(a, order, 2) + [z] == [x, y, z];
    D.DetOne(z);
    D.DetTwo(x, z);
    D.DetThree(x, y, z);
  }

  lemma ThreeSymmetric(a: Matrix, p: nat, q: nat, r: nat)
    requires Tall(a, 3) && p < 3 && q < 3 && r < 3 && p != q && p != r && q != r
    ensures Abs(Three(a, p, q, r)) == Abs(Three(a, 0, 1, 2))
  {
    ThreeSwapped(a[0][0], a[0][1], a[0][2], a[1][0], a[1][1], a[1][2], a[2][0], a[2][1], a[2][2]);
  }

  // The determinant of three rows changes sign with each exchange.
  lemma ThreeSwapped(a: real, b: real, c: real, d: real, e: real, f: real, g: real, h: real, i: real)
    ensures var det := i * (a * e - b * d) - f * (a * h - b * g) + c * (d * h - e * g);
            && f * (a * h - b * g) - i * (a * e - b * d) + c * (g * e - h * d) == -det
            && i * (d * b - e * a) - c * (d * h - e * g) + f * (a * h - b * g) == -det
            && c * (d * h - e * g) - i * (d * b - e * a) + f * (g * b - h * a) == det
            && f * (g * b - h * a) - c * (g * e - h * d) + i * (a * e - b * d) == det
            && c * (g * e - h * d) - f * (g * b - h * a) + i * (d * b - e * a) == -det
  {
  }

  // The three orders, and the minors in terms of the last of them.
  lemma OrdersOfThree(a: Matrix)
    requires Tall(a, 3) && |a| == 3
    ensures var o, i, j := Order(a, 2), Best(a, Order(a, 0), 0, 3), Best(a, Order(a, 1), 1, 3);
            && Order(a, 0) == [0, 1, 2] && Order(a, 1) == Exchanged([0, 1, 2], 0, i) && o == Exchanged(Order(a, 1), 1, j)
            && Minor(a, 0) == 1.0 && Minor(a, 1) == Candidate(a, [0, 1, 2], 0, i) && Minor(a, 2) == Candidate(a, Order(a, 1), 1, j)
            && Minor(a, 3) == Candidate(a, o, 2, 2)
  {
    hide Candidate, Exchanged;
    OrderNext(a, 0);
    OrderNext(a, 1);
    OrderNext(a, 2);
  }

  lemma TakenRows(a: Matrix) returns (p: nat, q: nat, r: nat)
    requires Tall(a, 3) && |a| == 3
    ensures Takes(a, p, q, r)
    ensures Minor(a, 0) == 1.0 && Minor(a, 1) == a[p][0] && Minor(a, 2) == Two(a, p, q) && Minor(a, 3) == Three(a, p, q, r)
  {
    OrdersOfThree(a);
    var i, second, o := Best(a, [0, 1, 2], 0, 3), Order(a, 1), Order(a, 2);
    var j := Best(a, second, 1, 3);
    p, q, r := o[0], o[1], o[2];
    hide Candidate, Best, Order, Minor, Two, Three;
    BestIsLargest(a, [0, 1, 2], 0, 3);
    BestIsLargest(a, second, 1, 3);
    FirstCandidates(a);
    CandidatesOfThree(a, second, 1);
    CandidatesOfThree(a, second, 2);
    CandidatesOfThree(a, o, 2);
    assert p == second[0] == i;
    forall n | 0 <= n < 3 ensures Abs(a[n][0]) <= Abs(a[p][0]) {
      assert Abs(Candidate(a, [0, 1, 2], 0, n)) <= Abs(Candidate(a, [0, 1, 2], 0, i));
    }
    assert Abs(Candidate(a, second, 1, 1)) <= Abs(Candidate(a, second, 1, j));
    assert Abs(Candidate(a, second, 1, 2)) <= Abs(Candidate(a, second, 1, j));
  }

  lemma FirstCandidates(a: Matrix)
    requires Tall(a, 3) && |a| == 3
    ensures forall n | 0 <= n < 3 :: Candidate(a, [0, 1, 2], 0, n) == a[n][0]
  {
    hide Candidate;
    CandidatesOfThree(a, [0, 1, 2], 0);
    CandidatesOfThree(a, [0, 1, 2], 1);
    CandidatesOfThree(a, [0, 1, 2], 2);
  }

  /** For three unknowns: which rows are taken, and the test in terms of the entries.  The largest first
      entry must reach the threshold, the 2 by 2 minor the threshold times that, and the determinant
      the threshold times the minor. */
  lemma PassesOfThree(a: Matrix) returns (p: nat, q: nat, r: nat)
    requires Tall(a, 3) && |a| == 3
    ensures Takes(a, p, q, r)
    ensures Passes(a, 3) <==>
            && Abs(a[p][0]) >= TINY
            && Abs(Two(a, p, q)) >= Times(TINY, Abs(a[p][0]))
            && Abs(Three(a, 0, 1, 2)) >= Times(TINY, Abs(Two(a, p, q)))
  {
    p, q, r := TakenRows(a);
    hide Two, Three, Times, Minor;
    ThreeSymmetric(a, p, q, r);
    UnitThreshold();
    assert Passes(a, 3) <==>
           && Abs(Minor(a, 0 + 1)) >= Times(TINY, Abs(Minor(a, 0)))
           && Abs(Minor(a, 1 + 1)) >= Times(TINY, Abs(Minor(a, 1)))
           && Abs(Minor(a, 2 + 1)) >= Times(TINY, Abs(Minor(a, 2)));
  }

  lemma UnitThreshold()
    ensures Times(TINY, Abs(1.0)) == TINY
  {
  }
}
