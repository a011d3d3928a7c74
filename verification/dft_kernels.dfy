/** The two element-wise utilities of the DFT processor: the checkerboard
    frequency shift and the logarithmic scaling of a magnitude image, each an
    in-place loop over OpenCV matrices specified by a pure function. */
module DftKernels {

  /** `pow(b, k)` for a natural exponent, computed exactly over the reals. */
  function Power(b: real, k: nat): (r: real)
  {
    if k == 0 then 1.0 else b * Power(b, k - 1)
  }

  /** (-1)^k is 1 for an even k and -1 for an odd k. */
  lemma {:induction false} PowerOfMinusOne(k: nat)
    ensures Power(-1.0, k) == if k % 2 == 0 then 1.0 else -1.0
  {
    if k > 0 {
      PowerOfMinusOne(k - 1);
    }
  }

  // ---------------------------------------------------------------------
  // Frequency shift: imgOut(i, j) = (-1)^(i+j) * imgIn(i, j)
  // ---------------------------------------------------------------------

  /** The shifted value of the element at row `i`, column `j`. */
  function ShiftedCell(v: real, i: nat, j: nat): (r: real)
  {
    v * Power(-1.0, i + j)
  }

  /** The shift keeps the elements where i + j is even and negates the others. */
  lemma ShiftedCellParity(v: real, i: nat, j: nat)
    ensures ShiftedCell(v, i, j) == if (i + j) % 2 == 0 then v else -v
  {
    PowerOfMinusOne(i + j);
  }

  /** Shifting an element twice gives it back: the same routine serves the
      forward and the reverse direction. */
  lemma ShiftedCellInvolution(v: real, i: nat, j: nat)
    ensures ShiftedCell(ShiftedCell(v, i, j), i, j) == v
  {
    ShiftedCellParity(v, i, j);
    ShiftedCellParity(ShiftedCell(v, i, j), i, j);
  }

  /** An image as rows of values. */
  type Grid = seq<seq<real>>

  /** The frequency-shifted image, of the same shape as `g`. */
  function Shifted(g: Grid): (r: Grid)
    ensures |r| == |g|
    ensures forall i :: 0 <= i < |g| ==> |r[i]| == |g[i]|
  {
    seq(|g|, i requires 0 <= i < |g| =>
      seq(|g[i]|, j requires 0 <= j < |g[i]| => ShiftedCell(g[i][j], i, j)))
  }

  /** Each element of the shifted image is kept or negated by the parity of
      its row plus column. */
  lemma ShiftedAt(g: Grid, i: nat, j: nat)
    requires i < |g| && j < |g[i]|
    ensures Shifted(g)[i][j] == if (i + j) % 2 == 0 then g[i][j] else -g[i][j]
  {
    ShiftedCellParity(g[i][j], i, j);
  }

  /** Applying the shift twice returns the original image. */
  lemma ShiftTwiceIsIdentity(g: Grid)
    ensures Shifted(Shifted(g)) == g
  {
    var r := Shifted(Shifted(g));
    forall i | 0 <= i < |g|
      ensures r[i] == g[i]
    {
      forall j | 0 <= j < |g[i]|
        ensures r[i][j] == g[i][j]
      {
        ShiftedCellInvolution(g[i][j], i, j);
      }
    }
  }

  /** The top-left `rows` x `cols` block of a matrix, as rows of values. */
  ghost function Cells(a: array2<real>, rows: nat, cols: nat): (g: Grid)
    reads a
    requires rows <= a.Length0 && cols <= a.Length1
    ensures |g| == rows && forall i :: 0 <= i < rows ==> |g[i]| == cols
  {
    seq(rows, i requires 0 <= i < rows reads a => seq(cols, j requires 0 <= j < cols reads a => a[i, j]))
  }

  /** frequencyShift<double>: writes the shifted value of every element of
      `imgIn` into the element at the same place of `imgOut`. The two
      matrices may be the same one; `imgOut` must be at least as large as
      `imgIn`, and its elements outside `imgIn`'s extent are left alone. */
  method FrequencyShift(imgIn: array2<real>, imgOut: array2<real>)
    requires imgIn.Length0 <= imgOut.Length0 && imgIn.Length1 <= imgOut.Length1
    modifies imgOut
    ensures forall i, j :: 0 <= i < imgIn.Length0 && 0 <= j < imgIn.Length1 ==>
      imgOut[i, j] == ShiftedCell(old(imgIn[i, j]), i, j)
    ensures forall i, j :: 0 <= i < imgOut.Length0 && 0 <= j < imgOut.Length1 && (imgIn.Length0 <= i || imgIn.Length1 <= j) ==>
      imgOut[i, j] == old(imgOut[i, j])
    ensures Cells(imgOut, imgIn.Length0, imgIn.Length1) == Shifted(old(Cells(imgIn, imgIn.Length0, imgIn.Length1)))
  {
    var rows, cols := imgIn.Length0, imgIn.Length1;
    var i := 0;
    while i < rows
      invariant 0 <= i <= rows
      invariant forall a, b :: 0 <= a < i && 0 <= b < cols ==>
        imgOut[a, b] == ShiftedCell(old(imgIn[a, b]), a, b)
      invariant forall a, b :: i <= a < rows && 0 <= b < cols ==> imgIn[a, b] == old(imgIn[a, b])
      invariant forall a, b :: 0 <= a < imgOut.Length0 && 0 <= b < imgOut.Length1 && (i <= a || cols <= b) ==>
        imgOut[a, b] == old(imgOut[a, b])
    {
      var j := 0;
      while j < cols
        invariant 0 <= j <= cols
        invariant forall a, b :: 0 <= a < i && 0 <= b < cols ==>
          imgOut[a, b] == ShiftedCell(old(imgIn[a, b]), a, b)
        invariant forall b :: 0 <= b < j ==> imgOut[i, b] == ShiftedCell(old(imgIn[i, b]), i, b)
        invariant forall a, b :: i <= a < rows && 0 <= b < cols && (i < a || j <= b) ==>
          imgIn[a, b] == old(imgIn[a, b])
        invariant forall a, b :: 0 <= a < imgOut.Length0 && 0 <= b < imgOut.Length1 && (i < a || cols <= b || (a == i && j <= b)) ==>
          imgOut[a, b] == old(imgOut[a, b])
      {
        imgOut[i, j] := imgIn[i, j] * Power(-1.0, i + j);
        j := j + 1;
      }
      i := i + 1;
    }
    ghost var before := old(Cells(imgIn, rows, cols));
    ghost var after := Cells(imgOut, rows, cols);
    forall a | 0 <= a < rows
      ensures after[a] == Shifted(before)[a]
    {
      forall b | 0 <= b < cols
        ensures after[a][b] == Shifted(before)[a][b]
      {
        assert before[a][b] == old(imgIn[a, b]);
        assert after[a][b] == imgOut[a, b];
      }
    }
  }

  // ---------------------------------------------------------------------
  // Log scaling: imgOut = scaleFactor * log(1 + imgIn)
  // ---------------------------------------------------------------------

  /** The elements of the output after the lock-step walk over the elements
      of the input `xs` and of the output `ys`: the walk stops at the end of
      the shorter one, every visited output element becomes
      `scaleFactor * log(1 + x)` and the others keep their value. `log` is
      the natural logarithm, kept abstract. */
  function LogScaled(xs: seq<real>, ys: seq<real>, scaleFactor: real, log: real -> real): (r: seq<real>)
    ensures |r| == |ys|
    decreases |xs|
  {
    if xs == [] || ys == [] then ys
    else [scaleFactor * log(1.0 + xs[0])] + LogScaled(xs[1..], ys[1..], scaleFactor, log)
  }

  /** A visited element holds the scaled logarithm of its input. */
  lemma {:induction false} LogScaledAt(xs: seq<real>, ys: seq<real>, scaleFactor: real, log: real -> real, k: nat)
    requires k < |xs| && k < |ys|
    ensures LogScaled(xs, ys, scaleFactor, log)[k] == scaleFactor * log(1.0 + xs[k])
    decreases k
  {
    if k > 0 {
      LogScaledAt(xs[1..], ys[1..], scaleFactor, log, k - 1);
    }
  }

  /** An output element past the end of the input keeps its value. */
  lemma {:induction false} LogScaledBeyond(xs: seq<real>, ys: seq<real>, scaleFactor: real, log: real -> real, k: nat)
    requires |xs| <= k < |ys|
    ensures LogScaled(xs, ys, scaleFactor, log)[k] == ys[k]
    decreases k
  {
    if xs != [] {
      LogScaledBeyond(xs[1..], ys[1..], scaleFactor, log, k - 1);
    }
  }

  /** With log(1) = 0, an all-zero magnitude gives an all-zero log magnitude. */
  lemma LogScaleOfZeroIsZero(xs: seq<real>, ys: seq<real>, scaleFactor: real, log: real -> real)
    requires log(1.0) == 0.0
    requires |xs| == |ys|
    requires forall k :: 0 <= k < |xs| ==> xs[k] == 0.0
    ensures forall k :: 0 <= k < |ys| ==> LogScaled(xs, ys, scaleFactor, log)[k] == 0.0
  {
    forall k | 0 <= k < |ys|
      ensures LogScaled(xs, ys, scaleFactor, log)[k] == 0.0
    {
      LogScaledAt(xs, ys, scaleFactor, log, k);
    }
  }

  /** logScaleImg<double>: walks the elements of `imgIn` and `imgOut` in
      lock-step, in storage order, and stops at the end of the shorter one.
      The two matrices may be the same one. */
  method LogScaleImg(imgIn: array<real>, imgOut: array<real>, scaleFactor: real, log: real -> real)
    modifies imgOut
    ensures imgOut[..] == LogScaled(old(imgIn[..]), old(imgOut[..]), scaleFactor, log)
  {
    ghost var xs, ys := imgIn[..], imgOut[..];
    var k := 0;
    while k < imgIn.Length && k < imgOut.Length
      invariant 0 <= k <= imgIn.Length && k <= imgOut.Length
      invariant forall m :: 0 <= m < k ==> imgOut[m] == scaleFactor * log(1.0 + xs[m])
      invariant forall m :: k <= m < imgOut.Length ==> imgOut[m] == ys[m]
      invariant forall m :: k <= m < imgIn.Length ==> imgIn[m] == xs[m]
    {
      imgOut[k] := scaleFactor * log(1.0 + imgIn[k]);
      k := k + 1;
    }
    forall m | 0 <= m < imgOut.Length
      ensures imgOut[m] == LogScaled(xs, ys, scaleFactor, log)[m]
    {
      if m < k {
        LogScaledAt(xs, ys, scaleFactor, log, m);
      } else {
        LogScaledBeyond(xs, ys, scaleFactor, log, m);
      }
    }
  }
}
