/** Abstract tensors: a shape, the elements in row-major order and a dtype tag.
    Element values are symbolic; a cast changes the tag only. */
module Tensors {
  import opened Common

  /** A tensor element. Only the infinities of unbounded Box spaces need more than a value. */
  datatype Num = Fin(x: real) | NegInf | PosInf

  datatype DType = Bool | Int8 | Int32 | Int64 | Float32 | Float64 | Named(name: string)

  /** The array library a wrapper builds its results with (torch or numpy). */
  datatype ArrayLib = Torch | NumPy

  datatype Tensor = Tensor(shape: seq<nat>, data: seq<Num>, dtype: DType)

  function Product(shape: seq<nat>): nat
  {
    if shape == [] then 1 else shape[0] * Product(shape[1..])
  }

  predicate WellFormed(t: Tensor)
  {
    |t.data| == Product(t.shape)
  }

  /** A two-dimensional tensor with `rows` rows. */
  predicate HasRows(t: Tensor, rows: nat)
  {
    |t.shape| == 2 && t.shape[0] == rows && |t.data| == rows * t.shape[1]
  }

  lemma MatrixWellFormed(t: Tensor, rows: nat)
    requires HasRows(t, rows)
    ensures WellFormed(t)
  {
    calc {
      Product(t.shape);
      t.shape[0] * Product(t.shape[1..]);
      { assert t.shape[1..][1..] == []; }
      t.shape[0] * (t.shape[1] * 1);
    }
  }

  /** Integer multiplication facts that the solver does not find alone. */
  lemma MulDiv(n: nat, w: nat)
    requires n > 0
    ensures (n * w) / n == w && (n * w) % n == 0
  {
    var q, r := (n * w) / n, (n * w) % n;
    assert n * w == n * q + r && 0 <= r < n;
    if q < w {
      assert n * (w - q) == n * w - n * q;
      MulMono(n, w - q);
      assert false;
    } else if q > w {
      assert n * (q - w) == n * q - n * w;
      MulMono(n, q - w);
      assert false;
    }
  }

  lemma MulMono(n: nat, k: int)
    requires k >= 1
    ensures n * k >= n
  {
  }

  lemma MulPred(n: nat, w: nat)
    requires n > 0
    ensures (n - 1) * w == n * w - w
  {
  }

  lemma DivMul(d: nat, n: nat)
    requires n > 0 && d % n == 0
    ensures n * (d / n) == d
  {
  }

  /** `t.view(rows, -1)` (torch) and `t.reshape(rows, -1)` (numpy). */
  function View(t: Tensor, rows: nat): (r: Result<Tensor>)
    ensures r.Ok? <==> rows > 0 && |t.data| % rows == 0
    ensures r.Ok? ==> HasRows(r.value, rows) && r.value.data == t.data && r.value.dtype == t.dtype
  {
    if rows > 0 && |t.data| % rows == 0 then
      DivMul(|t.data|, rows);
      Ok(Tensor([rows, |t.data| / rows], t.data, t.dtype))
    else
      Err(ShapeMismatch)
  }

  /** Viewing a tensor that already has `rows` rows as `(rows, -1)` changes nothing. */
  lemma ViewOfRows(t: Tensor, rows: nat)
    requires HasRows(t, rows) && rows > 0
    ensures View(t, rows) == Ok(t)
  {
    MulDiv(rows, t.shape[1]);
    assert t.shape == [rows, t.shape[1]];
  }

  /** `t.view(-1, 1)`: one element per row. */
  function Column(t: Tensor): (r: Tensor)
    ensures HasRows(r, |t.data|) && r.shape[1] == 1 && r.data == t.data && r.dtype == t.dtype
  {
    Tensor([|t.data|, 1], t.data, t.dtype)
  }

  /** `a.reshape(shape)` with an explicit target shape. */
  function Reshape(t: Tensor, shape: seq<nat>): (r: Result<Tensor>)
    ensures r.Ok? <==> Product(shape) == |t.data|
    ensures r.Ok? ==> WellFormed(r.value) && r.value.shape == shape && r.value.data == t.data
  {
    if Product(shape) == |t.data| then Ok(Tensor(shape, t.data, t.dtype)) else Err(ShapeMismatch)
  }

  /** An array of the given shape with every element `v` (`np.full(shape, v, dtype)`). */
  function Full(shape: seq<nat>, v: Num, dtype: DType): (r: Tensor)
    ensures WellFormed(r) && r.shape == shape && r.dtype == dtype
    ensures forall i | 0 <= i < |r.data| :: r.data[i] == v
  {
    Tensor(shape, seq(Product(shape), _ => v), dtype)
  }

  /** `torch.zeros_like(t)`. */
  function ZerosLike(t: Tensor): (r: Tensor)
    ensures r.shape == t.shape && r.dtype == t.dtype && |r.data| == |t.data|
    ensures forall i | 0 <= i < |r.data| :: r.data[i] == Fin(0.0)
  {
    Tensor(t.shape, seq(|t.data|, _ => Fin(0.0)), t.dtype)
  }

  function Flatten(rows: seq<seq<Num>>): seq<Num>
  {
    if rows == [] then [] else rows[0] + Flatten(rows[1..])
  }

  /** Cuts `d` into `n` consecutive rows of `width` elements. */
  function Chunks(d: seq<Num>, width: nat, n: nat): (rows: seq<seq<Num>>)
    requires |d| == n * width
    ensures |rows| == n && forall i | 0 <= i < n :: |rows[i]| == width
  {
    if n == 0 then [] else [d[..width]] + Chunks(d[width..], width, n - 1)
  }

  /** The rows of a two-dimensional tensor. */
  function Rows(t: Tensor): (rows: seq<seq<Num>>)
    requires |t.shape| == 2 && |t.data| == t.shape[0] * t.shape[1]
    ensures |rows| == t.shape[0]
  {
    Chunks(t.data, t.shape[1], t.shape[0])
  }

  lemma {:induction false} FlattenChunks(d: seq<Num>, width: nat, n: nat)
    requires |d| == n * width
    ensures Flatten(Chunks(d, width, n)) == d
  {
    if n > 0 {
      MulPred(n, width);
      var rest := d[width..];
      FlattenChunks(rest, width, n - 1);
      assert Chunks(d, width, n) == [d[..width]] + Chunks(rest, width, n - 1);
      assert d == d[..width] + rest;
    }
  }

  lemma {:induction false} ChunksFlatten(rows: seq<seq<Num>>, width: nat)
    requires forall i | 0 <= i < |rows| :: |rows[i]| == width
    ensures |Flatten(rows)| == |rows| * width
    ensures Chunks(Flatten(rows), width, |rows|) == rows
  {
    if rows != [] {
      ChunksFlatten(rows[1..], width);
      var f := Flatten(rows);
      assert f == rows[0] + Flatten(rows[1..]);
      assert f[..width] == rows[0];
      assert f[width..] == Flatten(rows[1..]);
      assert rows == [rows[0]] + rows[1..];
    }
  }

  /** The matrix whose rows are `rows`, all `width` wide. */
  function FromRows(rows: seq<seq<Num>>, width: nat, dtype: DType): (r: Tensor)
    requires forall i | 0 <= i < |rows| :: |rows[i]| == width
    ensures HasRows(r, |rows|) && r.shape[1] == width && r.dtype == dtype
    ensures Rows(r) == rows && r.data == Flatten(rows)
  {
    ChunksFlatten(rows, width);
    Tensor([|rows|, width], Flatten(rows), dtype)
  }

  /** The rows of `view(-1, 1)` are the single elements, in order. */
  lemma {:induction false} ColumnRows(t: Tensor)
    ensures Rows(Column(t)) == seq(|t.data|, i requires 0 <= i < |t.data| => [t.data[i]])
  {
    ChunksOfOne(t.data);
  }

  lemma {:induction false} ChunksOfOne(d: seq<Num>)
    ensures Chunks(d, 1, |d|) == seq(|d|, i requires 0 <= i < |d| => [d[i]])
  {
    if d != [] {
      ChunksOfOne(d[1..]);
      var lhs := Chunks(d, 1, |d|);
      var rhs := seq(|d|, i requires 0 <= i < |d| => [d[i]]);
      assert lhs == [d[..1]] + Chunks(d[1..], 1, |d| - 1);
      forall i | 0 <= i < |d| ensures lhs[i] == rhs[i] {
        if i > 0 {
          assert lhs[i] == Chunks(d[1..], 1, |d| - 1)[i - 1];
        }
      }
    }
  }

  /** A single-row matrix has its whole data as its row. */
  lemma SingleRow(t: Tensor)
    requires HasRows(t, 1)
    ensures Rows(t) == [t.data]
  {
    assert t.data[..t.shape[1]] == t.data;
  }

  predicate IsFloat(d: DType) { d == Float32 || d == Float64 }

  function IntRank(d: DType): nat
  {
    match d
    case Bool => 0
    case Int8 => 1
    case Int32 => 2
    case Int64 => 3
    case _ => 0
  }

  /** The dtype of `torch.cat` / `np.concatenate` of two tensors. numpy widens
      float32 combined with a 32- or 64-bit integer to float64; torch keeps the float type. */
  function Promote(lib: ArrayLib, a: DType, b: DType): DType
  {
    if a == b then a
    else if IsFloat(a) && IsFloat(b) then Float64
    else if IsFloat(a) || IsFloat(b) then
      var f := if IsFloat(a) then a else b;
      var i := if IsFloat(a) then b else a;
      if lib == NumPy && f == Float32 && (i == Int32 || i == Int64) then Float64 else f
    else if IntRank(a) >= IntRank(b) then a else b
  }

  /** `torch.cat([a, b], dim=-1)` of two matrices with the same number of rows. */
  function Cat2(lib: ArrayLib, a: Tensor, b: Tensor, n: nat): (r: Tensor)
    requires HasRows(a, n) && HasRows(b, n)
    ensures HasRows(r, n) && r.shape[1] == a.shape[1] + b.shape[1]
    ensures forall i | 0 <= i < n :: Rows(r)[i] == Rows(a)[i] + Rows(b)[i]
  {
    var ra, rb := Rows(a), Rows(b);
    FromRows(seq(n, i requires 0 <= i < n && i < |ra| && i < |rb| => ra[i] + rb[i]),
             a.shape[1] + b.shape[1], Promote(lib, a.dtype, b.dtype))
  }

  /** Row `i` of every part, concatenated in order. */
  function RowAcross(parts: seq<Tensor>, n: nat, i: nat): seq<Num>
    requires forall j | 0 <= j < |parts| :: HasRows(parts[j], n)
    requires i < n
  {
    if parts == [] then []
    else
      assert HasRows(parts[0], n);
      Rows(parts[0])[i] + RowAcross(parts[1..], n, i)
  }

  /** The elements of every part, concatenated in order. */
  function AllData(parts: seq<Tensor>): seq<Num>
  {
    if parts == [] then [] else parts[0].data + AllData(parts[1..])
  }

  /** `torch.cat(parts, dim=-1)` / `np.concatenate(parts, axis=-1)` of a non-empty list of
      matrices with `n` rows each: row `i` of the result is row `i` of every part, in order. */
  function CatAll(lib: ArrayLib, parts: seq<Tensor>, n: nat): (r: Tensor)
    requires |parts| > 0
    requires forall j | 0 <= j < |parts| :: HasRows(parts[j], n)
    ensures HasRows(r, n)
    ensures forall i | 0 <= i < n :: Rows(r)[i] == RowAcross(parts, n, i)
  {
    if |parts| == 1 then parts[0]
    else Cat2(lib, parts[0], CatAll(lib, parts[1..], n), n)
  }

  /** With a single row, concatenating along the last axis concatenates the data. */
  lemma {:induction false} RowAcrossSingle(parts: seq<Tensor>)
    requires forall j | 0 <= j < |parts| :: HasRows(parts[j], 1)
    ensures RowAcross(parts, 1, 0) == AllData(parts)
  {
    if parts != [] {
      SingleRow(parts[0]);
      RowAcrossSingle(parts[1..]);
    }
  }

  lemma CatAllSingleRow(lib: ArrayLib, parts: seq<Tensor>)
    requires |parts| > 0
    requires forall j | 0 <= j < |parts| :: HasRows(parts[j], 1)
    ensures CatAll(lib, parts, 1).data == AllData(parts)
  {
    var r := CatAll(lib, parts, 1);
    SingleRow(r);
    RowAcrossSingle(parts);
  }

  function StackedDType(ts: seq<Tensor>): DType
    requires |ts| > 0
  {
    if |ts| == 1 then ts[0].dtype else Promote(NumPy, ts[0].dtype, StackedDType(ts[1..]))
  }

  /** `np.stack(ts, axis=0)`: needs at least one array and equal shapes. */
  function Stack(ts: seq<Tensor>): (r: Result<Tensor>)
    ensures r.Ok? <==> |ts| > 0 && forall j | 0 <= j < |ts| :: ts[j].shape == ts[0].shape
    ensures r.Ok? ==> r.value.shape == [|ts|] + ts[0].shape && r.value.data == AllData(ts)
  {
    if |ts| == 0 then Err(EmptyConcat)
    else if exists j | 0 <= j < |ts| :: ts[j].shape != ts[0].shape then Err(ShapeMismatch)
    else Ok(Tensor([|ts|] + ts[0].shape, AllData(ts), StackedDType(ts)))
  }

  /** Stacking `n` copies of one array repeats its elements `n` times. */
  lemma {:induction false} StackCopies(t: Tensor, n: nat)
    requires n > 0
    ensures var r := Stack(seq(n, _ => t));
      && r.Ok? && r.value.shape == [n] + t.shape
      && |r.value.data| == n * |t.data|
      && Chunks(r.value.data, |t.data|, n) == seq(n, _ => t.data)
  {
    var copies := seq(n, _ => t);
    AllDataOfCopies(t, n);
    var rows := seq(n, _ => t.data);
    ChunksFlatten(rows, |t.data|);
  }

  lemma {:induction false} AllDataOfCopies(t: Tensor, n: nat)
    ensures AllData(seq(n, _ => t)) == Flatten(seq(n, _ => t.data))
  {
    if n > 0 {
      AllDataOfCopies(t, n - 1);
      assert seq(n, _ => t)[1..] == seq(n - 1, _ => t);
      assert seq(n, _ => t.data)[1..] == seq(n - 1, _ => t.data);
    }
  }
}
