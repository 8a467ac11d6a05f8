/** 4x4 matrices in row-column layout, as lib/gmaths/Mat4.java defines them.
    Java `float` is modelled as `real` (exact arithmetic). */
module Matrices {
  import opened Vectors

  /** The value held by a Mat4: four rows of four entries, `m[row][column]`. */
  type Mat = m: seq<seq<real>> | |m| == 4 && forall i :: 0 <= i < 4 ==> |m[i]| == 4
    witness [[0.0, 0.0, 0.0, 0.0], [0.0, 0.0, 0.0, 0.0], [0.0, 0.0, 0.0, 0.0], [0.0, 0.0, 0.0, 0.0]]

  /** The matrix with `f` on the diagonal and 0 elsewhere. */
  function Diagonal(f: real): Mat {
    seq(4, i => seq(4, j => if i == j then f else 0.0))
  }

  /** `new Mat4(1)`, the frame every scene-graph node starts with. */
  function Identity(): Mat {
    Diagonal(1.0)
  }

  /** Two matrices with the same entries are the same value. */
  lemma MatExtensionality(a: Mat, b: Mat)
    requires forall i, j :: 0 <= i < 4 && 0 <= j < 4 ==> a[i][j] == b[i][j]
    ensures a == b
  {
    assert forall i | 0 <= i < 4 :: a[i] == b[i];
  }

  /** The sum `a[i][0]*b[0][j] + ... + a[i][k-1]*b[k-1][j]`, accumulated from
      0 in the order in which `Mat4.multiply` adds the terms. */
  function PartialDot(a: Mat, b: Mat, i: int, j: int, k: nat): real
    requires 0 <= i < 4 && 0 <= j < 4 && k <= 4
  {
    if k == 0 then 0.0 else PartialDot(a, b, i, j, k - 1) + a[i][k - 1] * b[k - 1][j]
  }

  /** The matrix product `a x b`: entry (i, j) is the sum over k of a[i][k]*b[k][j]. */
  function Product(a: Mat, b: Mat): Mat {
    seq(4, i requires 0 <= i < 4 => seq(4, j requires 0 <= j < 4 => PartialDot(a, b, i, j, 4)))
  }

  /** A row of the identity picks out one row of the right-hand factor. */
  lemma {:induction false} PartialDotIdentityLeft(m: Mat, i: int, j: int, k: nat)
    requires 0 <= i < 4 && 0 <= j < 4 && k <= 4
    ensures PartialDot(Identity(), m, i, j, k) == if i < k then m[i][j] else 0.0
  {
    if k > 0 {
      PartialDotIdentityLeft(m, i, j, k - 1);
    }
  }

  /** A column of the identity picks out one column of the left-hand factor. */
  lemma {:induction false} PartialDotIdentityRight(m: Mat, i: int, j: int, k: nat)
    requires 0 <= i < 4 && 0 <= j < 4 && k <= 4
    ensures PartialDot(m, Identity(), i, j, k) == if j < k then m[i][j] else 0.0
  {
    if k > 0 {
      PartialDotIdentityRight(m, i, j, k - 1);
    }
  }

  /** Over the reals, `Mat4(1)` is neutral for `multiply` on both sides. */
  lemma IdentityIsNeutral(m: Mat)
    ensures Product(Identity(), m) == m
    ensures Product(m, Identity()) == m
  {
    forall i, j | 0 <= i < 4 && 0 <= j < 4
      ensures Product(Identity(), m)[i][j] == m[i][j]
      ensures Product(m, Identity())[i][j] == m[i][j]
    {
      PartialDotIdentityLeft(m, i, j, 4);
      PartialDotIdentityRight(m, i, j, 4);
    }
    MatExtensionality(Product(Identity(), m), m);
    MatExtensionality(Product(m, Identity()), m);
  }

  /** The 16 floats that `toFloatArrayForGLSL` hands to the shaders:
      the matrix column by column. */
  function ColumnMajor(m: Mat): (f: seq<real>)
    ensures |f| == 16
    ensures forall i, j :: 0 <= i < 4 && 0 <= j < 4 ==> f[j * 4 + i] == m[i][j]
  {
    seq(16, k requires 0 <= k < 16 => m[k % 4][k / 4])
  }

  /** Reads 16 column-major floats back into a matrix. */
  function FromColumnMajor(f: seq<real>): Mat
    requires |f| == 16
  {
    seq(4, i requires 0 <= i < 4 => seq(4, j requires 0 <= j < 4 => f[j * 4 + i]))
  }

  /** The column-major layout loses nothing: it reads back as the same matrix,
      and every 16-float array is the layout of exactly one matrix. */
  lemma ColumnMajorRoundTrip(m: Mat, f: seq<real>)
    requires |f| == 16
    ensures FromColumnMajor(ColumnMajor(m)) == m
    ensures ColumnMajor(FromColumnMajor(f)) == f
  {
    MatExtensionality(FromColumnMajor(ColumnMajor(m)), m);
    var g := ColumnMajor(FromColumnMajor(f));
    forall k | 0 <= k < 16 ensures g[k] == f[k] {
      assert k == (k / 4) * 4 + k % 4;
    }
  }

  /** The translation part of an affine matrix: the top three entries of
      the last column. */
  function Translation(m: Mat): V3 {
    V3(m[0][3], m[1][3], m[2][3])
  }

  /** `getTranslateVec` reads floats 12, 13 and 14 of the column-major
      array, which are exactly the translation column. */
  lemma TranslationIsColumnMajorTail(m: Mat)
    ensures Translation(m) == V3(ColumnMajor(m)[12], ColumnMajor(m)[13], ColumnMajor(m)[14])
  {
    assert ColumnMajor(m)[3 * 4 + 0] == m[0][3];
    assert ColumnMajor(m)[3 * 4 + 1] == m[1][3];
    assert ColumnMajor(m)[3 * 4 + 2] == m[2][3];
  }

  /** A Mat4 object.  `values` is `final` in Java: the 4x4 array never
      changes, its entries do. */
  class Mat4 {
    const values: array2<real>

    /** Every Mat4 is built with a 4x4 array. */
    predicate Valid() {
      values.Length0 == 4 && values.Length1 == 4
    }

    /** The current entries. */
    function Value(): (m: Mat)
      requires Valid()
      reads values
      ensures forall i, j :: 0 <= i < 4 && 0 <= j < 4 ==> m[i][j] == values[i, j]
    {
      seq(4, i requires 0 <= i < 4 reads values =>
        seq(4, j requires 0 <= j < 4 reads values => values[i, j]))
    }

    /** `new Mat4(f)`: zero every entry, then put `f` on the diagonal.
        The no-argument constructor delegates here with `f = 0`. */
    constructor (f: real)
      ensures Valid() && fresh(values)
      ensures Value() == Diagonal(f)
    {
      values := new real[4, 4];
      new;
      MakeZero();
      var i := 0;
      while i < 4
        invariant 0 <= i <= 4
        invariant forall r, c :: 0 <= r < 4 && 0 <= c < 4 ==>
          values[r, c] == if r == c && r < i then f else 0.0
      {
        values[i, i] := f;
        i := i + 1;
      }
      MatExtensionality(Value(), Diagonal(f));
    }

    /** `new Mat4(m)`: copies the entries of `m`, row by row, into a new array. */
    constructor Copy(m: Mat4)
      requires m.Valid()
      ensures Valid() && fresh(values)
      ensures Value() == m.Value()
    {
      values := new real[4, 4];
      new;
      var i := 0;
      while i < 4
        invariant 0 <= i <= 4
        invariant forall r, c :: 0 <= r < i && 0 <= c < 4 ==> values[r, c] == m.values[r, c]
      {
        forall c | 0 <= c < 4 {
          values[i, c] := m.values[i, c];
        }
        i := i + 1;
      }
      MatExtensionality(Value(), m.Value());
    }

    /** `set(r, c, f)`: entry (r, c) becomes `f` and no other entry changes. */
    method Set(r: int, c: int, f: real)
      requires Valid() && 0 <= r < 4 && 0 <= c < 4
      modifies values
      ensures Valid()
      ensures Value() == old(Value())[r := old(Value())[r][c := f]]
    {
      ghost var before := Value();
      values[r, c] := f;
      MatExtensionality(Value(), before[r := before[r][c := f]]);
    }

    /** `makeZero()`: every entry becomes 0. */
    method MakeZero()
      requires Valid()
      modifies values
      ensures Value() == Diagonal(0.0)
    {
      var i := 0;
      while i < 4
        invariant 0 <= i <= 4
        invariant forall r, c :: 0 <= r < i && 0 <= c < 4 ==> values[r, c] == 0.0
      {
        var j := 0;
        while j < 4
          invariant 0 <= j <= 4
          invariant forall r, c :: 0 <= r < i && 0 <= c < 4 ==> values[r, c] == 0.0
          invariant forall c :: 0 <= c < j ==> values[i, c] == 0.0
        {
          values[i, j] := 0.0;
          j := j + 1;
        }
        i := i + 1;
      }
      MatExtensionality(Value(), Diagonal(0.0));
    }

    /** Static `multiply(a, b)`: a new matrix holding `a x b`.  Each entry
        starts at 0 and the four products are added to it one by one; `a`
        and `b` are only read, and may be the same object. */
    static method Multiply(a: Mat4, b: Mat4) returns (result: Mat4)
      requires a.Valid() && b.Valid()
      ensures fresh(result) && fresh(result.values) && result.Valid()
      ensures result.Value() == Product(a.Value(), b.Value())
    {
      ghost var A, B := a.Value(), b.Value();
      result := new Mat4(0.0);
      var i := 0;
      while i < 4
        invariant 0 <= i <= 4
        invariant fresh(result) && fresh(result.values) && result.Valid()
        invariant forall r, c :: 0 <= r < 4 && 0 <= c < 4 ==>
          result.values[r, c] == if r < i then PartialDot(A, B, r, c, 4) else 0.0
      {
        var j := 0;
        while j < 4
          invariant 0 <= j <= 4
          invariant forall r, c :: 0 <= r < 4 && 0 <= c < 4 ==>
            result.values[r, c] == if r < i || (r == i && c < j) then PartialDot(A, B, r, c, 4) else 0.0
        {
          AddProducts(result, a, b, i, j);
          j := j + 1;
        }
        i := i + 1;
      }
      MatExtensionality(result.Value(), Product(A, B));
    }

    /** The innermost loop of `multiply`, for entry (i, j) of the result:
        the products a[i][k]*b[k][j], k = 0 .. 3, added in turn to that
        entry, which starts at 0.  No other entry changes. */
    static method AddProducts(result: Mat4, a: Mat4, b: Mat4, i: int, j: int)
      requires result.Valid() && a.Valid() && b.Valid()
      requires result.values != a.values && result.values != b.values
      requires 0 <= i < 4 && 0 <= j < 4 && result.values[i, j] == 0.0
      modifies result.values
      ensures result.values[i, j] == PartialDot(a.Value(), b.Value(), i, j, 4)
      ensures forall r, c :: 0 <= r < 4 && 0 <= c < 4 && (r != i || c != j) ==>
        result.values[r, c] == old(result.values[r, c])
    {
      var k := 0;
      while k < 4
        invariant 0 <= k <= 4
        invariant forall r, c :: 0 <= r < 4 && 0 <= c < 4 && (r != i || c != j) ==>
          result.values[r, c] == old(result.values[r, c])
        invariant result.values[i, j] == PartialDot(a.Value(), b.Value(), i, j, k)
      {
        result.values[i, j] := result.values[i, j] + a.values[i, k] * b.values[k, j];
        k := k + 1;
      }
    }

    /** `toFloatArrayForGLSL()`: a new 16-float array holding the entries
        column by column: entry (i, j) lands at index `4 * j + i`. */
    method ToFloatArrayForGLSL() returns (f: array<real>)
      requires Valid()
      ensures fresh(f)
      ensures f[..] == ColumnMajor(Value())
    {
      f := new real[16](_ => 0.0);
      var j := 0;
      while j < 4
        invariant 0 <= j <= 4
        invariant forall k :: 0 <= k < 16 ==> f[k] == if k < j * 4 then values[k % 4, k / 4] else 0.0
      {
        var i := 0;
        while i < 4
          invariant 0 <= i <= 4
          invariant forall k :: 0 <= k < 16 ==> f[k] == if k < j * 4 + i then values[k % 4, k / 4] else 0.0
        {
          f[j * 4 + i] := values[i, j];
          i := i + 1;
        }
        j := j + 1;
      }
    }

    /** `getTranslateVec()`: a new vector holding floats 12, 13 and 14 of
        the column-major array, the translation of this matrix. */
    method GetTranslateVec() returns (v: Vec3)
      requires Valid()
      ensures fresh(v)
      ensures v.Value() == Translation(Value())
    {
      var f := ToFloatArrayForGLSL();
      v := new Vec3(f[12], f[13], f[14]);
      TranslationIsColumnMajorTail(Value());
    }
  }
}
