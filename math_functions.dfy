/**
 * Reference semantics of the dense linear-algebra and elementwise primitives
 * the LSTM layer calls: `caffe_cpu_gemm`, `caffe_mul`, `caffe_add` and
 * `caffe_set`. Matrices are flat row-major buffers of `real`; an operand
 * that the layer addresses through a pointer offset (a gate slice) is an
 * array together with that offset.
 */
module MathFunctions {

  /** Whether a gemm operand is used as stored or transposed. */
  datatype Transpose = NoTrans | Trans

  // ---------------------------------------------------------------------
  // Flat row-major indexing

  lemma MulMonotone(a: nat, b: nat, c: nat)
    requires a <= b
    ensures a * c <= b * c
  {
    assert b * c == a * c + (b - a) * c;
  }

  /** `r * cols + c` addresses an element of a `rows × cols` matrix. */
  lemma FlatIndexInRange(r: nat, c: nat, rows: nat, cols: nat)
    requires r < rows && c < cols
    ensures r * cols + c < rows * cols
  {
    assert (r + 1) * cols == r * cols + cols;
    MulMonotone(r + 1, rows, cols);
  }

  /** Every position of a `rows × cols` buffer is the flat index of exactly the row and column it lies in. */
  lemma FlatCovers(p: nat, rows: nat, cols: nat)
    requires p < rows * cols
    ensures cols > 0 && p / cols < rows && Flat(p / cols, p % cols, rows, cols) == p
  {
    assert cols != 0;
    if p / cols >= rows {
      MulMonotone(rows, p / cols, cols);
    }
  }

  /** The row and column of a flat index are recovered by division and remainder. */
  lemma FlatInverse(r: nat, c: nat, rows: nat, cols: nat)
    requires r < rows && c < cols
    ensures Flat(r, c, rows, cols) / cols == r && Flat(r, c, rows, cols) % cols == c
  {
    var p := Flat(r, c, rows, cols);
    assert p == r * cols + c;
    var q, m := p / cols, p % cols;
    assert p == q * cols + m && 0 <= m < cols;
    assert (q + 1) * cols == q * cols + cols && (r + 1) * cols == r * cols + cols;
    if q < r {
      MulMonotone(q + 1, r, cols);
    } else if q > r {
      MulMonotone(r + 1, q, cols);
    }
  }

  lemma FlatInverses(rows: nat, cols: nat)
    ensures forall r, c :: 0 <= r < rows && 0 <= c < cols ==>
      Flat(r, c, rows, cols) / cols == r && Flat(r, c, rows, cols) % cols == c
  {
    forall r, c | 0 <= r < rows && 0 <= c < cols
      ensures Flat(r, c, rows, cols) / cols == r && Flat(r, c, rows, cols) % cols == c
    {
      FlatInverse(r, c, rows, cols);
    }
  }

  /** An array whose elements agree with a sequence at every flat index of a `rows × cols` matrix holds that sequence. */
  lemma ArrayMatchesFlat(a: array<real>, s: seq<real>, rows: nat, cols: nat)
    requires a.Length == |s| == rows * cols
    requires forall r, c :: 0 <= r < rows && 0 <= c < cols ==> a[Flat(r, c, rows, cols)] == s[Flat(r, c, rows, cols)]
    ensures a[..] == s
  {
    forall p | 0 <= p < |s|
      ensures a[p] == s[p]
    {
      FlatCovers(p, rows, cols);
    }
  }

  // ---------------------------------------------------------------------
  // Matrix product

  /** The gemm update of one element: `alpha · x + beta · y`. */
  function Axpby(alpha: real, x: real, beta: real, y: real): real
  {
    alpha * x + beta * y
  }

  /** Position of element `(r, c)` in a `rows × cols` matrix stored row-major. */
  function Flat(r: nat, c: nat, rows: nat, cols: nat): (p: nat)
    requires r < rows && c < cols
    ensures p < rows * cols
  {
    FlatIndexInRange(r, c, rows, cols);
    r * cols + c
  }

  /**
   * Position in the stored buffer of element `(r, c)` of `op(A)`, where
   * `op(A)` is a `rows × cols` matrix: `A` itself stored row-major
   * (`NoTrans`), or the transpose of a `cols × rows` matrix stored row-major
   * (`Trans`).
   */
  function OpIndex(t: Transpose, rows: nat, cols: nat, r: nat, c: nat): (p: nat)
    requires r < rows && c < cols
    ensures p < rows * cols
  {
    if t == NoTrans then Flat(r, c, rows, cols) else Flat(c, r, cols, rows)
  }

  /** Element `(r, c)` of `op(A)`. */
  function OpAt(t: Transpose, A: seq<real>, rows: nat, cols: nat, r: nat, c: nat): real
    requires r < rows && c < cols && rows * cols <= |A|
  {
    A[OpIndex(t, rows, cols, r, c)]
  }

  /** `sum_{l < k} op(A)[i, l] * op(B)[l, j]` with `op(A)` of `M × K` and `op(B)` of `K × N`. */
  function Dot(tA: Transpose, tB: Transpose, A: seq<real>, B: seq<real>,
               M: nat, N: nat, K: nat, i: nat, j: nat, k: nat): real
    requires i < M && j < N && k <= K
    requires M * K <= |A| && K * N <= |B|
    decreases k
  {
    if k == 0 then 0.0
    else Dot(tA, tB, A, B, M, N, K, i, j, k - 1)
         + OpAt(tA, A, M, K, i, k - 1) * OpAt(tB, B, K, N, k - 1, j)
  }

  /** A product with an all-zero right operand is zero. */
  lemma {:induction false} DotZeroRight(tA: Transpose, tB: Transpose, A: seq<real>, B: seq<real>,
                                         M: nat, N: nat, K: nat, i: nat, j: nat, k: nat)
    requires i < M && j < N && k <= K
    requires M * K <= |A| && K * N <= |B|
    requires forall p :: 0 <= p < |B| ==> B[p] == 0.0
    ensures Dot(tA, tB, A, B, M, N, K, i, j, k) == 0.0
  {
    if k > 0 {
      DotZeroRight(tA, tB, A, B, M, N, K, i, j, k - 1);
      var p := OpIndex(tB, K, N, k - 1, j);
      assert B[p] == 0.0;
    }
  }

  /**
   * The dot product computed by the innermost loop of the reference gemm:
   * it reads the two stored operands directly.
   */
  method DotProduct(tA: Transpose, tB: Transpose, A: array<real>, B: array<real>,
                    M: nat, N: nat, K: nat, i: nat, j: nat) returns (s: real)
    requires i < M && j < N
    requires M * K <= A.Length && K * N <= B.Length
    ensures s == Dot(tA, tB, A[..], B[..], M, N, K, i, j, K)
  {
    s := 0.0;
    var l := 0;
    while l < K
      invariant l <= K
      invariant s == Dot(tA, tB, A[..], B[..], M, N, K, i, j, l)
    {
      var x := A[OpIndex(tA, M, K, i, l)];
      var y := B[OpIndex(tB, K, N, l, j)];
      assert x == OpAt(tA, A[..], M, K, i, l) && y == OpAt(tB, B[..], K, N, l, j);
      s := s + x * y;
      l := l + 1;
    }
  }

  /**
   * `caffe_cpu_gemm(tA, tB, M, N, K, alpha, A, B, beta, C + cOff)`:
   * `C = alpha · op(A) · op(B) + beta · C` on the `M × N` row-major block of
   * C that starts at `cOff`; nothing else in C changes. With `beta == 0` the
   * old block is overwritten, with `beta == 1` the product is added onto it.
   */
  method Gemm(tA: Transpose, tB: Transpose, M: nat, N: nat, K: nat, alpha: real,
              A: array<real>, B: array<real>, beta: real, C: array<real>, cOff: nat)
    requires M * K <= A.Length && K * N <= B.Length && cOff + M * N <= C.Length
    requires C != A && C != B
    modifies C
    ensures forall r, c :: 0 <= r < M && 0 <= c < N ==>
      C[cOff + Flat(r, c, M, N)] == Axpby(alpha, Dot(tA, tB, A[..], B[..], M, N, K, r, c, K), beta, old(C[cOff + Flat(r, c, M, N)]))
    ensures forall p :: 0 <= p < C.Length && !(cOff <= p < cOff + M * N) ==> C[p] == old(C[p])
  {
    ghost var a, b := A[..], B[..];
    var i, row := 0, cOff;
    while i < M
      invariant i <= M
      invariant row == cOff + i * N <= cOff + M * N
      invariant forall r, c :: 0 <= r < i && 0 <= c < N ==>
        C[cOff + Flat(r, c, M, N)] == Axpby(alpha, Dot(tA, tB, a, b, M, N, K, r, c, K), beta, old(C[cOff + Flat(r, c, M, N)]))
      invariant forall p :: 0 <= p < C.Length && !(cOff <= p < row) ==> C[p] == old(C[p])
    {
      assert row + N == cOff + (i + 1) * N;
      MulMonotone(i + 1, M, N);
      forall r, c | 0 <= r < i && 0 <= c < N
        ensures cOff + Flat(r, c, M, N) < row
      {
        FlatIndexInRange(r, c, i, N);
      }
      GemmRow(tA, tB, M, N, K, alpha, A, B, beta, C, cOff, i, row);
      i, row := i + 1, row + N;
    }
    assert A[..] == a && B[..] == b;
  }

  /** One row of the reference gemm: the block `[row, row + N)` of C, where `row == cOff + i * N`. */
  method GemmRow(tA: Transpose, tB: Transpose, M: nat, N: nat, K: nat, alpha: real,
                 A: array<real>, B: array<real>, beta: real, C: array<real>, cOff: nat,
                 i: nat, row: nat)
    requires i < M && row == cOff + i * N && row + N <= cOff + M * N
    requires M * K <= A.Length && K * N <= B.Length && cOff + M * N <= C.Length
    requires C != A && C != B
    modifies C
    ensures forall c :: 0 <= c < N ==>
      C[cOff + Flat(i, c, M, N)] == Axpby(alpha, Dot(tA, tB, A[..], B[..], M, N, K, i, c, K), beta, old(C[cOff + Flat(i, c, M, N)]))
    ensures forall p :: 0 <= p < C.Length && !(row <= p < row + N) ==> C[p] == old(C[p])
  {
    var j := 0;
    while j < N
      invariant j <= N
      invariant forall c :: 0 <= c < j ==>
        C[cOff + Flat(i, c, M, N)] == Axpby(alpha, Dot(tA, tB, A[..], B[..], M, N, K, i, c, K), beta, old(C[cOff + Flat(i, c, M, N)]))
      invariant forall p :: 0 <= p < C.Length && !(row <= p < row + j) ==> C[p] == old(C[p])
    {
      var s := DotProduct(tA, tB, A, B, M, N, K, i, j);
      C[row + j] := Axpby(alpha, s, beta, C[row + j]);
      j := j + 1;
    }
  }

  /** `caffe_mul(n, a + aOff, b + bOff, y)`: `y[p] = a[aOff + p] * b[bOff + p]` for `p < n`; y may be a or b. */
  method Mul(n: nat, a: array<real>, aOff: nat, b: array<real>, bOff: nat, y: array<real>)
    requires aOff + n <= a.Length && bOff + n <= b.Length && n <= y.Length
    requires a == y ==> aOff == 0
    requires b == y ==> bOff == 0
    modifies y
    ensures forall p :: 0 <= p < y.Length ==>
      y[p] == if p < n then old(a[aOff + p]) * old(b[bOff + p]) else old(y[p])
  {
    var p := 0;
    while p < n
      invariant p <= n
      invariant forall r :: 0 <= r < y.Length ==>
        y[r] == if r < p then old(a[aOff + r]) * old(b[bOff + r]) else old(y[r])
    {
      y[p] := a[aOff + p] * b[bOff + p];
      p := p + 1;
    }
  }

  /** `caffe_add(n, a, b, y)`: `y[p] = a[p] + b[p]` for `p < n`; y may be a or b. */
  method Add(n: nat, a: array<real>, b: array<real>, y: array<real>)
    requires n <= a.Length && n <= b.Length && n <= y.Length
    modifies y
    ensures forall p :: 0 <= p < y.Length ==>
      y[p] == if p < n then old(a[p]) + old(b[p]) else old(y[p])
  {
    var p := 0;
    while p < n
      invariant p <= n
      invariant forall r :: 0 <= r < y.Length ==>
        y[r] == if r < p then old(a[r]) + old(b[r]) else old(y[r])
    {
      y[p] := a[p] + b[p];
      p := p + 1;
    }
  }

  /** `caffe_set(n, alpha, y)`: the first n elements of y become alpha. */
  method Set(n: nat, alpha: real, y: array<real>)
    requires n <= y.Length
    modifies y
    ensures forall p :: 0 <= p < y.Length ==> y[p] == if p < n then alpha else old(y[p])
  {
    var p := 0;
    while p < n
      invariant p <= n
      invariant forall r :: 0 <= r < y.Length ==> y[r] == if r < p then alpha else old(y[r])
    {
      y[p] := alpha;
      p := p + 1;
    }
  }

  /** An array whose elements agree one by one with a sequence holds that sequence. */
  lemma ArrayMatches(a: array<real>, s: seq<real>)
    requires a.Length == |s| && forall q :: 0 <= q < |s| ==> a[q] == s[q]
    ensures a[..] == s
  {
  }
}
