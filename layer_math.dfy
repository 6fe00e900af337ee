/** The arithmetic of a perceptron layer on exact reals
    (neural_network/NeuralLayer.py:26-39, 89-91): the affine map plus
    activation of `feed`, the back-propagated delta of `get_delta`, and the
    outer-product update of `learn`. A matrix is a sequence of rows; a batch
    of inputs is the sequence of its columns. */
module LayerMath {
  import opened Activations

  type Vector = seq<real>
  type Matrix = seq<seq<real>>

  /** `m` has `rows` rows of `cols` entries each. */
  predicate IsMatrix(m: Matrix, rows: nat, cols: nat)
  {
    |m| == rows && forall i :: 0 <= i < |m| ==> |m[i]| == cols
  }

  function Dot(u: Vector, v: Vector): (r: real)
    requires |u| == |v|
    decreases |u|
  {
    if |u| == 0 then 0.0 else u[0] * v[0] + Dot(u[1..], v[1..])
  }

  function Zeros(n: nat): (r: Vector)
    ensures |r| == n && forall i :: 0 <= i < n ==> r[i] == 0.0
  {
    seq(n, _ => 0.0)
  }

  function Add(u: Vector, v: Vector): (r: Vector)
    requires |u| == |v|
    ensures |r| == |u| && forall i :: 0 <= i < |r| ==> r[i] == u[i] + v[i]
  {
    seq(|u|, i requires 0 <= i < |u| => u[i] + v[i])
  }

  function Sub(u: Vector, v: Vector): (r: Vector)
    requires |u| == |v|
    ensures |r| == |u| && forall i :: 0 <= i < |r| ==> r[i] == u[i] - v[i]
  {
    seq(|u|, i requires 0 <= i < |u| => u[i] - v[i])
  }

  function Scale(s: real, u: Vector): (r: Vector)
    ensures |r| == |u| && forall i :: 0 <= i < |r| ==> r[i] == s * u[i]
  {
    seq(|u|, i requires 0 <= i < |u| => s * u[i])
  }

  /** Elementwise application, as numpy applies an activation to an array. */
  function Apply(f: real -> real, u: Vector): (r: Vector)
    ensures |r| == |u| && forall i :: 0 <= i < |r| ==> r[i] == f(u[i])
  {
    seq(|u|, i requires 0 <= i < |u| => f(u[i]))
  }

  /** Elementwise product (numpy's `*` on arrays of one shape). */
  function Hadamard(u: Vector, v: Vector): (r: Vector)
    requires |u| == |v|
    ensures |r| == |u| && forall i :: 0 <= i < |r| ==> r[i] == u[i] * v[i]
  {
    seq(|u|, i requires 0 <= i < |u| => u[i] * v[i])
  }

  /** The matrix-vector product W x. */
  function MatVec(w: Matrix, x: Vector): (r: Vector)
    requires forall i :: 0 <= i < |w| ==> |w[i]| == |x|
    ensures |r| == |w| && forall i :: 0 <= i < |r| ==> r[i] == Dot(w[i], x)
  {
    seq(|w|, i requires 0 <= i < |w| => Dot(w[i], x))
  }

  function Column(w: Matrix, j: nat): (r: Vector)
    requires forall i :: 0 <= i < |w| ==> j < |w[i]|
    ensures |r| == |w| && forall i :: 0 <= i < |r| ==> r[i] == w[i][j]
  {
    seq(|w|, i requires 0 <= i < |w| => w[i][j])
  }

  /** The product of the transpose of an m x n matrix with a vector of
      length m: entry j is the sum over i of d[i] * W[i][j]. */
  function TransposeTimes(w: Matrix, d: Vector, n: nat): (r: Vector)
    requires IsMatrix(w, |d|, n)
    ensures |r| == n
  {
    seq(n, j requires 0 <= j < n => Dot(Column(w, j), d))
  }

  function Identity(n: nat): (r: Matrix)
    ensures IsMatrix(r, n, n)
  {
    seq(n, i => seq(n, j => if i == j then 1.0 else 0.0))
  }

  // ---------------------------------------------------------------------
  // The layer operations

  /** The affine part of `feed` on one column: W x + b. */
  function Affine(w: Matrix, b: Vector, x: Vector): (z: Vector)
    requires |b| == |w| && forall i :: 0 <= i < |w| ==> |w[i]| == |x|
    ensures |z| == |w| && forall i :: 0 <= i < |z| ==> z[i] == Dot(w[i], x) + b[i]
  {
    Add(MatVec(w, x), b)
  }

  /** One column of `feed`: activation(W x + b). */
  function FeedColumn(w: Matrix, b: Vector, act: real -> real, x: Vector): (y: Vector)
    requires |b| == |w| && forall i :: 0 <= i < |w| ==> |w[i]| == |x|
    ensures |y| == |w|
    ensures forall i :: 0 <= i < |y| ==> y[i] == act(Dot(w[i], x) + b[i])
  {
    Apply(act, Affine(w, b, x))
  }

  /** `feed` on a batch given as its columns: the bias vector is added to
      every column. */
  function Feed(w: Matrix, b: Vector, act: real -> real, xs: seq<Vector>): (ys: seq<Vector>)
    requires |b| == |w|
    requires forall c, i :: 0 <= c < |xs| && 0 <= i < |w| ==> |w[i]| == |xs[c]|
    ensures |ys| == |xs| && forall c :: 0 <= c < |ys| ==> |ys[c]| == |w|
    ensures forall c, i :: 0 <= c < |xs| && 0 <= i < |w| ==>
              ys[c][i] == act(Dot(w[i], xs[c]) + b[i])
  {
    seq(|xs|, c requires 0 <= c < |xs| => FeedColumn(w, b, act, xs[c]))
  }

  /** `get_delta`: (W^T d) multiplied elementwise by the derivative at the
      recorded output. */
  function GetDelta(deriv: real -> real, result: Vector, d: Vector, w: Matrix): (r: Vector)
    requires IsMatrix(w, |d|, |result|)
    ensures |r| == |result|
    ensures forall j :: 0 <= j < |r| ==> r[j] == Dot(Column(w, j), d) * deriv(result[j])
  {
    Hadamard(TransposeTimes(w, d, |result|), Apply(deriv, result))
  }

  /** The weight update of `learn`: W + lr * outer(delta, result). */
  function OuterUpdate(w: Matrix, lr: real, delta: Vector, result: Vector): (r: Matrix)
    requires IsMatrix(w, |delta|, |result|)
    ensures IsMatrix(r, |delta|, |result|)
    ensures forall i :: 0 <= i < |delta| ==> r[i] == UpdatedRow(w[i], lr, delta[i], result)
  {
    seq(|delta|, i requires 0 <= i < |delta| => UpdatedRow(w[i], lr, delta[i], result))
  }

  /** Row i of the outer-product update: row + lr * d * result, d = delta[i]. */
  function UpdatedRow(row: Vector, lr: real, d: real, result: Vector): (r: Vector)
    requires |row| == |result|
    ensures |r| == |row| && forall j :: 0 <= j < |r| ==> r[j] == row[j] + lr * d * result[j]
  {
    seq(|row|, j requires 0 <= j < |row| => row[j] + lr * d * result[j])
  }

  /** The bias update of the biased layer's `learn`: b + lr * delta. */
  function BiasUpdate(b: Vector, lr: real, delta: Vector): (r: Vector)
    requires |b| == |delta|
    ensures |r| == |b| && forall i :: 0 <= i < |r| ==> r[i] == b[i] + lr * delta[i]
  {
    Add(b, Scale(lr, delta))
  }

  // ---------------------------------------------------------------------
  // Algebra of the dot product

  lemma {:induction false} DotAdd(u: Vector, v: Vector, x: Vector)
    requires |u| == |v| == |x|
    ensures Dot(Add(u, v), x) == Dot(u, x) + Dot(v, x)
    decreases |u|
  {
    if |u| > 0 {
      DotAdd(u[1..], v[1..], x[1..]);
      assert Add(u, v)[1..] == Add(u[1..], v[1..]);
    }
  }

  lemma {:induction false} DotScale(s: real, u: Vector, x: Vector)
    requires |u| == |x|
    ensures Dot(Scale(s, u), x) == s * Dot(u, x)
    decreases |u|
  {
    if |u| > 0 {
      var t, u1, x1 := Scale(s, u), u[1..], x[1..];
      DotScale(s, u1, x1);
      ScaleTail(s, u);
      var head, tail := u[0] * x[0], Dot(u1, x1);
      calc {
        Dot(t, x);
        t[0] * x[0] + Dot(t[1..], x1);
        (s * u[0]) * x[0] + s * tail;
        { MulAssoc(s, u[0], x[0]); }
        s * head + s * tail;
        s * (head + tail);
      }
    }
  }

  lemma ScaleTail(s: real, u: Vector)
    requires |u| > 0
    ensures Scale(s, u)[1..] == Scale(s, u[1..])
  {
    var t, t1 := Scale(s, u), Scale(s, u[1..]);
    forall k | 0 <= k < |u| - 1 ensures t[1..][k] == t1[k] {
      assert t[1..][k] == t[k + 1];
    }
  }

  lemma MulAssoc(a: real, b: real, c: real)
    ensures (a * b) * c == a * (b * c)
  {
  }

  lemma {:induction false} DotSymmetric(u: Vector, v: Vector)
    requires |u| == |v|
    ensures Dot(u, v) == Dot(v, u)
    decreases |u|
  {
    if |u| > 0 {
      DotSymmetric(u[1..], v[1..]);
    }
  }

  lemma {:induction false} DotZeros(x: Vector)
    ensures Dot(Zeros(|x|), x) == 0.0
    decreases |x|
  {
    if |x| > 0 {
      DotZeros(x[1..]);
      assert Zeros(|x|)[1..] == Zeros(|x| - 1);
    }
  }

  /** The dot product with a row of the identity picks one entry. */
  lemma {:induction false} DotUnit(n: nat, i: nat, x: Vector, k: nat)
    requires i < n && |x| == n - k && k <= n
    ensures Dot(Identity(n)[i][k..], x) == if k <= i then x[i - k] else 0.0
    decreases n - k
  {
    if k < n {
      DotUnit(n, i, x[1..], k + 1);
      assert Identity(n)[i][k..][1..] == Identity(n)[i][k + 1..];
    }
  }

  // ---------------------------------------------------------------------
  // Properties of feed

  /** With the linear activation, a column of `feed` is exactly W x + b. */
  lemma FeedLinearIsAffine(w: Matrix, b: Vector, x: Vector)
    requires |b| == |w| && forall i :: 0 <= i < |w| ==> |w[i]| == |x|
    ensures FeedColumn(w, b, Linear, x) == Affine(w, b, x) == Add(MatVec(w, x), b)
  {
  }

  /** With the linear activation and zero biases, `feed` of a batch is the
      matrix product W X, column by column. */
  lemma FeedLinearZeroBias(w: Matrix, xs: seq<Vector>)
    requires forall c, i :: 0 <= c < |xs| && 0 <= i < |w| ==> |w[i]| == |xs[c]|
    ensures forall c :: 0 <= c < |xs| ==> Feed(w, Zeros(|w|), Linear, xs)[c] == MatVec(w, xs[c])
  {
  }

  /** With the linear activation and zero biases, `feed` is additive in its
      input. */
  lemma FeedSuperposition(w: Matrix, x: Vector, y: Vector)
    requires |x| == |y| && forall i :: 0 <= i < |w| ==> |w[i]| == |x|
    ensures FeedColumn(w, Zeros(|w|), Linear, Add(x, y))
         == Add(FeedColumn(w, Zeros(|w|), Linear, x), FeedColumn(w, Zeros(|w|), Linear, y))
  {
    forall i | 0 <= i < |w|
      ensures Dot(w[i], Add(x, y)) == Dot(w[i], x) + Dot(w[i], y)
    {
      DotSymmetric(w[i], Add(x, y));
      DotAdd(x, y, w[i]);
      DotSymmetric(x, w[i]);
      DotSymmetric(y, w[i]);
    }
  }

  /** A linear layer with identity weights and zero biases reproduces its
      input, so feeding its own output back in is a fixed point. */
  lemma FeedIdentityFixedPoint(x: Vector)
    ensures FeedColumn(Identity(|x|), Zeros(|x|), Linear, x) == x
  {
    var n := |x|;
    forall i | 0 <= i < n ensures Dot(Identity(n)[i], x) == x[i] {
      DotUnit(n, i, x, 0);
      assert Identity(n)[i][0..] == Identity(n)[i];
    }
  }

  // ---------------------------------------------------------------------
  // Properties of get_delta

  /** With the linear derivative, `get_delta` is W^T d. */
  lemma GetDeltaLinearIsTranspose(result: Vector, d: Vector, w: Matrix)
    requires IsMatrix(w, |d|, |result|)
    ensures GetDelta(LinearDeriv, result, d, w) == TransposeTimes(w, d, |result|)
  {
  }

  /** W^T is the adjoint of W: <W^T d, x> == <d, W x>. So with the linear
      derivative, `get_delta` propagates exactly the gradient of the loss
      <d, W x> with respect to the layer's input x. */
  lemma {:induction false} TransposeAdjoint(w: Matrix, d: Vector, x: Vector)
    requires IsMatrix(w, |d|, |x|)
    ensures Dot(TransposeTimes(w, d, |x|), x) == Dot(d, MatVec(w, x))
    decreases |d|
  {
    var n := |x|;
    if |d| == 0 {
      assert TransposeTimes(w, d, n) == Zeros(n);
      DotZeros(x);
    } else {
      var w1, d1 := w[1..], d[1..];
      TransposeAdjoint(w1, d1, x);
      var t1 := TransposeTimes(w1, d1, n);
      TransposeTimesFirstRow(w, d, n);
      DotAdd(Scale(d[0], w[0]), t1, x);
      DotScale(d[0], w[0], x);
      MatVecTail(w, x);
    }
  }

  /** Peeling the first row off W^T d. */
  lemma TransposeTimesFirstRow(w: Matrix, d: Vector, n: nat)
    requires IsMatrix(w, |d|, n) && |d| > 0
    ensures TransposeTimes(w, d, n) == Add(Scale(d[0], w[0]), TransposeTimes(w[1..], d[1..], n))
  {
    var t, t1 := TransposeTimes(w, d, n), TransposeTimes(w[1..], d[1..], n);
    var s := Add(Scale(d[0], w[0]), t1);
    forall j | 0 <= j < n ensures t[j] == s[j] {
      var c := Column(w, j);
      assert c[1..] == Column(w[1..], j);
      assert t[j] == c[0] * d[0] + t1[j];
    }
  }

  lemma MatVecTail(w: Matrix, x: Vector)
    requires |w| > 0 && forall i :: 0 <= i < |w| ==> |w[i]| == |x|
    ensures MatVec(w, x)[1..] == MatVec(w[1..], x)
  {
  }

  /** With the linear derivative, `get_delta` is the adjoint of the linear
      part of `feed`: for every input x of the layer's width,
      <get_delta(d), x> == <d, W x>. */
  lemma GetDeltaIsAdjointOfFeed(result: Vector, d: Vector, w: Matrix, x: Vector)
    requires IsMatrix(w, |d|, |result|) && |x| == |result|
    ensures Dot(GetDelta(LinearDeriv, result, d, w), x) == Dot(d, MatVec(w, x))
  {
    GetDeltaLinearIsTranspose(result, d, w);
    TransposeAdjoint(w, d, x);
  }

  // ---------------------------------------------------------------------
  // Properties of learn

  lemma UpdatedRowTail(row: Vector, lr: real, d: real, y: Vector)
    requires |row| == |y| > 0
    ensures UpdatedRow(row, lr, d, y)[1..] == UpdatedRow(row[1..], lr, d, y[1..])
  {
    var a, b := UpdatedRow(row, lr, d, y)[1..], UpdatedRow(row[1..], lr, d, y[1..]);
    forall j | 0 <= j < |a| ensures a[j] == b[j] {
      assert a[j] == UpdatedRow(row, lr, d, y)[j + 1];
    }
  }

  /** Dot products with an updated row: the update adds lr * d * <y, x>. */
  lemma {:induction false} UpdatedRowDot(row: Vector, lr: real, d: real, y: Vector, x: Vector)
    requires |row| == |y| == |x|
    ensures Dot(UpdatedRow(row, lr, d, y), x) == Dot(row, x) + lr * d * Dot(y, x)
    decreases |x|
  {
    if |x| > 0 {
      var u := UpdatedRow(row, lr, d, y);
      UpdatedRowTail(row, lr, d, y);
      UpdatedRowDot(row[1..], lr, d, y[1..], x[1..]);
      RowDotStep(row[0], y[0], x[0], lr * d, Dot(row[1..], x[1..]), Dot(y[1..], x[1..]));
    }
  }

  lemma RowDotStep(a: real, b: real, c: real, k: real, ra: real, rx: real)
    ensures (a + k * b) * c + (ra + k * rx) == (a * c + ra) + k * (b * c + rx)
  {
  }

  /** A matrix is the `learn` update of w exactly when its entry (i, j) is
      w[i][j] + lr * delta[i] * result[j] for every i and j. */
  lemma OuterUpdateByEntries(w: Matrix, w': Matrix, lr: real, delta: Vector, result: Vector)
    requires IsMatrix(w, |delta|, |result|) && IsMatrix(w', |delta|, |result|)
    ensures w' == OuterUpdate(w, lr, delta, result) <==>
            forall i, j :: 0 <= i < |delta| && 0 <= j < |result| ==>
              w'[i][j] == w[i][j] + lr * delta[i] * result[j]
  {
    var u := OuterUpdate(w, lr, delta, result);
    if forall i, j :: 0 <= i < |delta| && 0 <= j < |result| ==> w'[i][j] == w[i][j] + lr * delta[i] * result[j] {
      forall i | 0 <= i < |delta| ensures w'[i] == u[i] {
        assert forall j :: 0 <= j < |result| ==> w'[i][j] == u[i][j];
      }
    }
  }

  /** One row of W with its bias is one output of the layer. Updating the
      row with the layer input x as `result` moves that output on x by
      lr * d * <x, x>. */
  lemma RowAfterLearn(row: Vector, bi: real, lr: real, d: real, x: Vector)
    requires |row| == |x|
    ensures Dot(UpdatedRow(row, lr, d, x), x) + bi == (Dot(row, x) + bi) + lr * d * Dot(x, x)
  {
    UpdatedRowDot(row, lr, d, x, x);
  }

  /** The biased update also moves the bias by lr * d: the bias acts as a
      weight on a constant input 1, so the output moves by lr * d * (<x, x> + 1). */
  lemma RowAfterBiasedLearn(row: Vector, bi: real, lr: real, d: real, x: Vector)
    requires |row| == |x|
    ensures Dot(UpdatedRow(row, lr, d, x), x) + (bi + lr * d)
         == (Dot(row, x) + bi) + lr * d * (Dot(x, x) + 1.0)
  {
    UpdatedRowDot(row, lr, d, x, x);
    BiasStep(Dot(row, x) + bi, lr * d, Dot(x, x));
  }

  lemma BiasStep(z: real, k: real, q: real)
    ensures (z + k * q) + k == z + k * (q + 1.0)
  {
  }

  /** Undoing a step: the update with -lr after the update with lr gives
      back the original weights. */
  lemma OuterUpdateUndo(w: Matrix, lr: real, delta: Vector, result: Vector)
    requires IsMatrix(w, |delta|, |result|)
    ensures OuterUpdate(OuterUpdate(w, lr, delta, result), -lr, delta, result) == w
  {
    var w1 := OuterUpdate(w, lr, delta, result);
    var w2 := OuterUpdate(w1, -lr, delta, result);
    forall i | 0 <= i < |w| ensures w2[i] == w[i] {
      UpdatedRowUndo(w[i], lr, delta[i], result);
    }
  }

  lemma UpdatedRowUndo(row: Vector, lr: real, d: real, result: Vector)
    requires |row| == |result|
    ensures UpdatedRow(UpdatedRow(row, lr, d, result), -lr, d, result) == row
  {
    var r1 := UpdatedRow(row, lr, d, result);
    var r2 := UpdatedRow(r1, -lr, d, result);
    forall j | 0 <= j < |row| ensures r2[j] == row[j] {
      UndoStep(row[j], lr, d, result[j]);
    }
  }

  lemma UndoStep(a: real, lr: real, d: real, x: real)
    ensures (a + lr * d * x) + -lr * d * x == a
  {
  }

  /** Two steps along the same delta and result add their rates. */
  lemma OuterUpdateCompose(w: Matrix, lr1: real, lr2: real, delta: Vector, result: Vector)
    requires IsMatrix(w, |delta|, |result|)
    ensures OuterUpdate(OuterUpdate(w, lr1, delta, result), lr2, delta, result)
         == OuterUpdate(w, lr1 + lr2, delta, result)
  {
    var w1 := OuterUpdate(w, lr1, delta, result);
    var w2 := OuterUpdate(w1, lr2, delta, result);
    var w3 := OuterUpdate(w, lr1 + lr2, delta, result);
    forall i | 0 <= i < |w| ensures w2[i] == w3[i] {
      UpdatedRowCompose(w[i], lr1, lr2, delta[i], result);
    }
  }

  lemma UpdatedRowCompose(row: Vector, lr1: real, lr2: real, d: real, result: Vector)
    requires |row| == |result|
    ensures UpdatedRow(UpdatedRow(row, lr1, d, result), lr2, d, result)
         == UpdatedRow(row, lr1 + lr2, d, result)
  {
    var r1 := UpdatedRow(row, lr1, d, result);
    var r2 := UpdatedRow(r1, lr2, d, result);
    var r3 := UpdatedRow(row, lr1 + lr2, d, result);
    forall j | 0 <= j < |row| ensures r2[j] == r3[j] {
      ComposeStep(row[j], lr1, lr2, d, result[j]);
    }
  }

  lemma ComposeStep(a: real, lr1: real, lr2: real, d: real, x: real)
    ensures (a + lr1 * d * x) + lr2 * d * x == a + (lr1 + lr2) * d * x
  {
  }

  /** The bias update is undone by the same step with -lr. */
  lemma BiasUpdateUndo(b: Vector, lr: real, delta: Vector)
    requires |b| == |delta|
    ensures BiasUpdate(BiasUpdate(b, lr, delta), -lr, delta) == b
  {
    var b2 := BiasUpdate(BiasUpdate(b, lr, delta), -lr, delta);
    forall i | 0 <= i < |b| ensures b2[i] == b[i] {
      BiasUndoStep(b[i], lr, delta[i]);
    }
  }

  lemma BiasUndoStep(a: real, lr: real, d: real)
    ensures (a + lr * d) + -lr * d == a
  {
  }

  /** <x, x> is never negative, so a positive rate small enough for the
      error bound below always exists. */
  lemma {:induction false} DotSelfNonNegative(x: Vector)
    ensures Dot(x, x) >= 0.0
    decreases |x|
  {
    if |x| > 0 {
      DotSelfNonNegative(x[1..]);
      SquareNonNegative(x[0]);
    }
  }

  /** For an input x other than the zero vector, the rate 1 / <x, x> is
      positive and its step factor is 0: by StepScalesRowError one step at
      that rate puts the output on x exactly on target. */
  lemma ExactRate(x: Vector)
    requires Dot(x, x) != 0.0
    ensures 1.0 / Dot(x, x) > 0.0 && StepFactor(1.0 / Dot(x, x), Dot(x, x)) == 0.0
  {
    DotSelfNonNegative(x);
  }

  /** The error of one output after one step, in scalar form: with output z,
      target t, delta t - z and q = <x, x>, RowAfterLearn puts the new output
      at z + lr * (t - z) * q, and the new error is the old one scaled by
      1 - lr * q. */
  lemma ErrorAfterStep(t: real, z: real, lr: real, q: real)
    ensures t - (z + lr * (t - z) * q) == (t - z) * (1.0 - lr * q)
  {
  }

  lemma DiffOfSquares(d: real, e: real)
    ensures d * d - e * e == (d - e) * (d + e)
  {
  }

  lemma ProductPositiveIf(a: real, b: real)
    ensures a > 0.0 && b > 0.0 ==> a * b > 0.0
  {
  }

  /** The squared error of output z against target t. */
  function SquaredError(t: real, z: real): (e: real)
  {
    (t - z) * (t - z)
  }

  /** The factor by which one step along x scales the error of an output on
      x, with q = <x, x> (ErrorAfterStep). */
  function StepFactor(lr: real, q: real): (k: real)
  {
    1.0 - lr * q
  }

  /** The factor lies strictly inside (-1, 1) exactly when 0 < lr * q < 2. */
  lemma StepFactorInside(lr: real, q: real)
    ensures -1.0 < StepFactor(lr, q) < 1.0 <==> 0.0 < lr * q < 2.0
  {
  }

  /** One training step on a single output, joined up: with z the output
      of row i on x, target t and delta t - z, updating the row along x
      (learn with `result` = x) leaves the error t - z' equal to the old
      error scaled by 1 - lr * <x, x>. */
  lemma StepScalesRowError(row: Vector, bi: real, lr: real, t: real, x: Vector)
    requires |row| == |x|
    ensures var z := Dot(row, x) + bi;
            var z' := Dot(UpdatedRow(row, lr, t - z, x), x) + bi;
            t - z' == (t - z) * StepFactor(lr, Dot(x, x))
  {
    var z := Dot(row, x) + bi;
    var d := t - z;
    var q := Dot(x, x);
    RowAfterLearn(row, bi, lr, d, x);
    ErrorAfterStep(t, z, lr, q);
  }

  /** A step whose factor 1 - lr * <x, x> lies strictly inside (-1, 1),
      that is 0 < lr * <x, x> < 2 (StepFactorInside), strictly reduces the
      squared error of an output that is not yet on target. */
  lemma StepReducesRowError(row: Vector, bi: real, lr: real, t: real, x: Vector)
    requires |row| == |x|
    requires t != Dot(row, x) + bi
    requires -1.0 < StepFactor(lr, Dot(x, x)) < 1.0
    ensures var z := Dot(row, x) + bi;
            var z' := Dot(UpdatedRow(row, lr, t - z, x), x) + bi;
            SquaredError(t, z') < SquaredError(t, z)
  {
    StepScalesRowError(row, bi, lr, t, x);
    SquaredErrorShrinks(t, Dot(row, x) + bi, Dot(UpdatedRow(row, lr, t - (Dot(row, x) + bi), x), x) + bi,
                        StepFactor(lr, Dot(x, x)));
  }

  /** The scalar core of StepReducesRowError: an error t - z that is not
      zero, scaled by a factor k strictly inside (-1, 1), has a strictly
      smaller square. With the factor 1 - lr * q of ErrorAfterStep this is
      the case exactly when 0 < lr * q < 2 (StepFactorInside). */
  lemma SquaredErrorShrinks(t: real, z: real, z': real, k: real)
    requires t - z' == (t - z) * k
    requires t != z && -1.0 < k < 1.0
    ensures SquaredError(t, z') < SquaredError(t, z)
  {
    var d, e := t - z, t - z';
    assert e == d * k;
    var u, v := 1.0 - k, 1.0 + k;
    var p, q := d - e, d + e;
    assert p == d * u && q == d * v;
    DiffOfSquares(d, e);
    if d > 0.0 {
      ProductPositiveIf(d, u);
      ProductPositiveIf(d, v);
      ProductPositiveIf(p, q);
    } else {
      var nd, np, nq := -d, -p, -q;
      assert np == nd * u && nq == nd * v;
      ProductPositiveIf(nd, u);
      ProductPositiveIf(nd, v);
      ProductPositiveIf(np, nq);
      assert np * nq == p * q;
    }
    assert p * q > 0.0;
    assert d * d - e * e == p * q;
    assert SquaredError(t, z) == d * d && SquaredError(t, z') == e * e;
  }

  /** A layer can be given the sigmoid when the exponential is positive, and
      then every output of `feed` lies strictly between 0 and 1. */
  lemma FeedSigmoidInUnit(w: Matrix, b: Vector, exp: real -> real, xs: seq<Vector>)
    requires forall y :: exp(y) > 0.0
    requires |b| == |w|
    requires forall c, i :: 0 <= c < |xs| && 0 <= i < |w| ==> |w[i]| == |xs[c]|
    ensures var sig: real -> real := x => Sigmoid(exp, x);
            forall c, i :: 0 <= c < |xs| && 0 <= i < |w| ==> 0.0 < Feed(w, b, sig, xs)[c][i] < 1.0
  {
  }

  /** The worked example: in_size 2, out_size 1, zero weights, input [1, 1],
      target 1 and learning rate 0.1. The delta is 1, the weights move to
      [[0.1, 0.1]] along the input, and the output rises from 0 to 0.2. */
  lemma GradientStepExample()
    ensures var w, x := [[0.0, 0.0]], [1.0, 1.0];
            var delta := Sub([1.0], FeedColumn(w, [0.0], Linear, x));
            delta == [1.0] &&
            OuterUpdate(w, 0.1, delta, x) == [[0.1, 0.1]] &&
            FeedColumn(OuterUpdate(w, 0.1, delta, x), [0.0], Linear, x) == [0.2]
  {
    var w, x := [[0.0, 0.0]], [1.0, 1.0];
    assert Dot(w[0], x) == 0.0;
    var delta := Sub([1.0], FeedColumn(w, [0.0], Linear, x));
    assert delta == [1.0];
    var w' := OuterUpdate(w, 0.1, delta, x);
    assert w'[0] == [0.1, 0.1];
    assert w' == [[0.1, 0.1]];
    assert Dot(w'[0], x) == 0.2;
  }
}
