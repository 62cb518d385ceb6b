/** Dense matrices as Armadillo stores them: column by column.
    A matrix is the list of its columns together with the number of rows; the
    element values are opaque (nothing in the converter inspects them). */
module Tensors {

  /** One matrix element. The converter only copies elements around. */
  type Elem = real

  datatype Mat = Mat(rows: nat, columns: seq<seq<Elem>>)

  predicate Rectangular(m: Mat) {
    forall j :: 0 <= j < |m.columns| ==> |m.columns[j]| == m.rows
  }

  /** What the tensor loader hands back: a rectangular rows x cols matrix. */
  type Matrix = m: Mat | Rectangular(m) witness Mat(0, [])

  function Cols(m: Matrix): nat { |m.columns| }

  /** Element in row i, column j. */
  function At(m: Matrix, i: nat, j: nat): Elem
    requires i < m.rows && j < Cols(m)
  {
    m.columns[j][i]
  }

  /** Armadillo's `n_elem`. */
  function NElem(m: Matrix): nat { m.rows * Cols(m) }

  /** Armadillo's `.t()`: rows become columns. */
  function Transpose(m: Matrix): (t: Matrix)
    ensures t.rows == Cols(m) && Cols(t) == m.rows
    ensures forall i, j :: 0 <= i < t.rows && 0 <= j < Cols(t) ==> At(t, i, j) == At(m, j, i)
  {
    Mat(Cols(m), seq(m.rows, i requires 0 <= i < m.rows => seq(Cols(m), j requires 0 <= j < Cols(m) => m.columns[j][i])))
  }

  lemma TransposeInvolutive(m: Matrix)
    ensures Transpose(Transpose(m)) == m
  {
    var tt := Transpose(Transpose(m));
    assert tt.rows == m.rows && |tt.columns| == |m.columns|;
    forall j | 0 <= j < |m.columns| ensures tt.columns[j] == m.columns[j] {
      forall i | 0 <= i < m.rows ensures tt.columns[j][i] == m.columns[j][i] {
        assert At(tt, i, j) == At(m, i, j);
      }
    }
  }

  /** Concatenation of a list of runs. */
  function Concat(xss: seq<seq<Elem>>): seq<Elem> {
    if xss == [] then [] else xss[0] + Concat(xss[1..])
  }

  /** The inverse of Concat for runs of equal length k: cut into pieces of k. */
  function Chunks(xs: seq<Elem>, k: nat, count: nat): seq<seq<Elem>>
    requires |xs| == k * count
  {
    if count == 0 then [] else [xs[..k]] + Chunks(xs[k..], k, count - 1)
  }

  lemma {:induction false} ConcatLength(xss: seq<seq<Elem>>, k: nat)
    requires forall j :: 0 <= j < |xss| ==> |xss[j]| == k
    ensures |Concat(xss)| == k * |xss|
  {
    if xss != [] {
      ConcatLength(xss[1..], k);
    }
  }

  lemma {:induction false} ChunksConcat(xss: seq<seq<Elem>>, k: nat)
    requires forall j :: 0 <= j < |xss| ==> |xss[j]| == k
    ensures |Concat(xss)| == k * |xss|
    ensures Chunks(Concat(xss), k, |xss|) == xss
  {
    ConcatLength(xss, k);
    if xss != [] {
      ChunksConcat(xss[1..], k);
      assert Concat(xss)[..k] == xss[0];
      assert Concat(xss)[k..] == Concat(xss[1..]);
    }
  }

  /** The elements `wTemp = weight.t()` writes through an n_elem x 1 alias:
      the transpose in column-major order, i.e. the matrix read row by row. */
  function Layout(m: Matrix): (run: seq<Elem>)
    ensures |run| == NElem(m)
  {
    var t := Transpose(m);
    ConcatLength(t.columns, t.rows);
    Concat(t.columns)
  }

  /** Reading a run of length rows*cols back into a rows x cols matrix:
      cut it into the columns of the transpose and transpose again. */
  function Unlayout(run: seq<Elem>, rows: nat, cols: nat): Matrix
    requires |run| == rows * cols
  {
    var pieces := Chunks(run, cols, rows);
    ChunksShape(run, cols, rows);
    Transpose(Mat(cols, pieces))
  }

  lemma {:induction false} ChunksShape(xs: seq<Elem>, k: nat, count: nat)
    requires |xs| == k * count
    ensures |Chunks(xs, k, count)| == count
    ensures forall j :: 0 <= j < count ==> |Chunks(xs, k, count)[j]| == k
  {
    if count > 0 {
      ChunksShape(xs[k..], k, count - 1);
    }
  }

  /** Round trip: the run a tensor occupies in the parameter buffer gives the
      tensor back. */
  lemma LayoutRoundTrip(m: Matrix)
    ensures Unlayout(Layout(m), m.rows, Cols(m)) == m
  {
    var t := Transpose(m);
    ChunksConcat(t.columns, t.rows);
    assert Mat(Cols(m), Chunks(Layout(m), Cols(m), m.rows)) == t;
    TransposeInvolutive(m);
  }

  /** Position i * cols + j of the run holds element (i, j): row-major order. */
  lemma LayoutAt(m: Matrix, i: nat, j: nat)
    requires i < m.rows && j < Cols(m)
    ensures i * Cols(m) + j < NElem(m)
    ensures Layout(m)[i * Cols(m) + j] == At(m, i, j)
  {
    var t := Transpose(m);
    ConcatAt(t.columns, Cols(m), i, j);
  }

  lemma {:induction false} ConcatAt(xss: seq<seq<Elem>>, k: nat, i: nat, j: nat)
    requires forall c :: 0 <= c < |xss| ==> |xss[c]| == k
    requires i < |xss| && j < k
    ensures |Concat(xss)| == k * |xss| && i * k + j < k * |xss|
    ensures Concat(xss)[i * k + j] == xss[i][j]
  {
    ConcatLength(xss, k);
    if i == 0 {
      assert Concat(xss) == xss[0] + Concat(xss[1..]);
    } else {
      ConcatAt(xss[1..], k, i - 1, j);
      assert i * k + j == k + ((i - 1) * k + j);
    }
  }

  /** The runs of several tensors, one after another. */
  function LayoutAll(ms: seq<Matrix>): (run: seq<Elem>)
    ensures |run| == ShapeTotal(Shapes(ms))
  {
    if ms == [] then [] else Layout(ms[0]) + LayoutAll(ms[1..])
  }

  datatype Shape = Shape(rows: nat, cols: nat)

  function Shapes(ms: seq<Matrix>): (shapes: seq<Shape>)
    ensures |shapes| == |ms|
  {
    if ms == [] then [] else [Shape(ms[0].rows, Cols(ms[0]))] + Shapes(ms[1..])
  }

  function ShapeTotal(shapes: seq<Shape>): nat {
    if shapes == [] then 0 else shapes[0].rows * shapes[0].cols + ShapeTotal(shapes[1..])
  }

  /** Cuts a buffer into consecutive runs of the given shapes and reads each
      run back as a matrix. */
  function Split(run: seq<Elem>, shapes: seq<Shape>): (ms: seq<Matrix>)
    requires |run| == ShapeTotal(shapes)
    ensures |ms| == |shapes|
  {
    if shapes == [] then []
    else
      var n := shapes[0].rows * shapes[0].cols;
      [Unlayout(run[..n], shapes[0].rows, shapes[0].cols)] + Split(run[n..], shapes[1..])
  }

  lemma {:induction false} LayoutAllAppend(a: seq<Matrix>, b: seq<Matrix>)
    ensures LayoutAll(a + b) == LayoutAll(a) + LayoutAll(b)
  {
    if a != [] {
      assert (a + b)[1..] == a[1..] + b;
      LayoutAllAppend(a[1..], b);
    } else {
      assert a + b == b;
    }
  }

  /** Round trip over a whole buffer: splitting the concatenated runs by the
      tensors' shapes gives the tensors back, in order. */
  lemma {:induction false} SplitLayoutAll(ms: seq<Matrix>)
    ensures Split(LayoutAll(ms), Shapes(ms)) == ms
  {
    if ms != [] {
      var run := LayoutAll(ms);
      var n := ms[0].rows * Cols(ms[0]);
      assert run[..n] == Layout(ms[0]);
      assert run[n..] == LayoutAll(ms[1..]);
      LayoutRoundTrip(ms[0]);
      SplitLayoutAll(ms[1..]);
    }
  }
}
