/**
 * The value of a Transform2D: a 3x3 homogeneous 2D coordinate transform,
 * with the element type modelled as exact `real`.  Everything a Transform2D
 * computes without changing itself (element reads, composition, inversion,
 * application to a point, normalisation of a value) lives here.
 */
module Transform2DMath {
  import opened Errors

  /** The nine elements m_00 .. m_22, row by row. */
  datatype Mat3 = Mat3(m00: real, m01: real, m02: real,
                       m10: real, m11: real, m12: real,
                       m20: real, m21: real, m22: real)

  /** A homogeneous 2D point (x, y, w). */
  datatype Vec3 = Vec3(x: real, y: real, w: real)

  /** A dense 2D array: `rows` x `columns` elements stored row by row in `data`. */
  datatype Array2D = Array2D(rows: nat, columns: nat, data: seq<real>)

  /* ---------------- Arithmetic on single elements ----------------
   * The matrix operations are written in terms of these three functions, so
   * that the ring identities below are proved once, on plain reals. */

  function Times(k: real, x: real): real
  {
    k * x
  }

  /** a0 * b0 + a1 * b1 + a2 * b2: one element of a product. */
  function Dot3(a0: real, a1: real, a2: real, b0: real, b1: real, b2: real): real
  {
    a0 * b0 + a1 * b1 + a2 * b2
  }

  /** det012012 of the source: the determinant expanded along the first row. */
  function Det3(a00: real, a01: real, a02: real,
                a10: real, a11: real, a12: real,
                a20: real, a21: real, a22: real): real
  {
    a00 * (a11 * a22 - a12 * a21) - a01 * (a10 * a22 - a12 * a20) + a02 * (a10 * a21 - a11 * a20)
  }

  lemma DotScaleLeft(k: real, a0: real, a1: real, a2: real, b0: real, b1: real, b2: real)
    ensures Dot3(Times(k, a0), Times(k, a1), Times(k, a2), b0, b1, b2) == Times(k, Dot3(a0, a1, a2, b0, b1, b2))
  {
  }

  lemma DotScaleRight(k: real, a0: real, a1: real, a2: real, b0: real, b1: real, b2: real)
    ensures Dot3(a0, a1, a2, Times(k, b0), Times(k, b1), Times(k, b2)) == Times(k, Dot3(a0, a1, a2, b0, b1, b2))
  {
  }

  /** Regrouping a double sum of products: one element of associativity. */
  lemma Regroup(a0: real, a1: real, a2: real,
                b00: real, b01: real, b02: real,
                b10: real, b11: real, b12: real,
                b20: real, b21: real, b22: real,
                c0: real, c1: real, c2: real)
    ensures Dot3(Dot3(a0, a1, a2, b00, b10, b20), Dot3(a0, a1, a2, b01, b11, b21),
                 Dot3(a0, a1, a2, b02, b12, b22), c0, c1, c2)
         == Dot3(a0, a1, a2, Dot3(b00, b01, b02, c0, c1, c2), Dot3(b10, b11, b12, c0, c1, c2),
                 Dot3(b20, b21, b22, c0, c1, c2))
  {
  }

  lemma DivIsTimes(x: real, d: real)
    requires d != 0.0
    ensures x / d == Times(1.0 / d, x)
  {
  }

  lemma DivNegIsTimes(x: real, d: real)
    requires d != 0.0
    ensures -x / d == Times(1.0 / d, -x)
  {
  }

  lemma TimesReciprocal(d: real)
    requires d != 0.0
    ensures Times(1.0 / d, d) == 1.0 && 1.0 / d != 0.0
  {
  }

  /** The 2x2 determinant a * d - b * c of the rows (a, b) and (c, d). */
  function Minor(a: real, b: real, c: real, d: real): real
  {
    a * d - b * c
  }

  /* The cofactor identities: row i of the adjugate against column j of the
   * matrix (and row i of the matrix against column j of the adjugate) gives
   * the determinant when i == j and 0 otherwise. */

  lemma CofactorsLeftExpanded(m00: real, m01: real, m02: real, m10: real, m11: real, m12: real,
                          m20: real, m21: real, m22: real)
    ensures Dot3(m11 * m22 - m12 * m21, -(m01 * m22 - m02 * m21), m01 * m12 - m02 * m11, m00, m10, m20) == Det3(m00, m01, m02, m10, m11, m12, m20, m21, m22)
    ensures Dot3(m11 * m22 - m12 * m21, -(m01 * m22 - m02 * m21), m01 * m12 - m02 * m11, m01, m11, m21) == 0.0
    ensures Dot3(m11 * m22 - m12 * m21, -(m01 * m22 - m02 * m21), m01 * m12 - m02 * m11, m02, m12, m22) == 0.0
    ensures Dot3(-(m10 * m22 - m12 * m20), m00 * m22 - m02 * m20, -(m00 * m12 - m02 * m10), m00, m10, m20) == 0.0
    ensures Dot3(-(m10 * m22 - m12 * m20), m00 * m22 - m02 * m20, -(m00 * m12 - m02 * m10), m01, m11, m21) == Det3(m00, m01, m02, m10, m11, m12, m20, m21, m22)
    ensures Dot3(-(m10 * m22 - m12 * m20), m00 * m22 - m02 * m20, -(m00 * m12 - m02 * m10), m02, m12, m22) == 0.0
    ensures Dot3(m10 * m21 - m11 * m20, -(m00 * m21 - m01 * m20), m00 * m11 - m01 * m10, m00, m10, m20) == 0.0
    ensures Dot3(m10 * m21 - m11 * m20, -(m00 * m21 - m01 * m20), m00 * m11 - m01 * m10, m01, m11, m21) == 0.0
    ensures Dot3(m10 * m21 - m11 * m20, -(m00 * m21 - m01 * m20), m00 * m11 - m01 * m10, m02, m12, m22) == Det3(m00, m01, m02, m10, m11, m12, m20, m21, m22)
  {
  }

  lemma CofactorsLeft(m00: real, m01: real, m02: real, m10: real, m11: real, m12: real,
                          m20: real, m21: real, m22: real)
    ensures Dot3(Minor(m11, m12, m21, m22), -Minor(m01, m02, m21, m22), Minor(m01, m02, m11, m12), m00, m10, m20) == Det3(m00, m01, m02, m10, m11, m12, m20, m21, m22)
    ensures Dot3(Minor(m11, m12, m21, m22), -Minor(m01, m02, m21, m22), Minor(m01, m02, m11, m12), m01, m11, m21) == 0.0
    ensures Dot3(Minor(m11, m12, m21, m22), -Minor(m01, m02, m21, m22), Minor(m01, m02, m11, m12), m02, m12, m22) == 0.0
    ensures Dot3(-Minor(m10, m12, m20, m22), Minor(m00, m02, m20, m22), -Minor(m00, m02, m10, m12), m00, m10, m20) == 0.0
    ensures Dot3(-Minor(m10, m12, m20, m22), Minor(m00, m02, m20, m22), -Minor(m00, m02, m10, m12), m01, m11, m21) == Det3(m00, m01, m02, m10, m11, m12, m20, m21, m22)
    ensures Dot3(-Minor(m10, m12, m20, m22), Minor(m00, m02, m20, m22), -Minor(m00, m02, m10, m12), m02, m12, m22) == 0.0
    ensures Dot3(Minor(m10, m11, m20, m21), -Minor(m00, m01, m20, m21), Minor(m00, m01, m10, m11), m00, m10, m20) == 0.0
    ensures Dot3(Minor(m10, m11, m20, m21), -Minor(m00, m01, m20, m21), Minor(m00, m01, m10, m11), m01, m11, m21) == 0.0
    ensures Dot3(Minor(m10, m11, m20, m21), -Minor(m00, m01, m20, m21), Minor(m00, m01, m10, m11), m02, m12, m22) == Det3(m00, m01, m02, m10, m11, m12, m20, m21, m22)
  {
    CofactorsLeftExpanded(m00, m01, m02, m10, m11, m12, m20, m21, m22);
  }

  lemma CofactorsRightExpanded(m00: real, m01: real, m02: real, m10: real, m11: real, m12: real,
                          m20: real, m21: real, m22: real)
    ensures Dot3(m00, m01, m02, m11 * m22 - m12 * m21, -(m10 * m22 - m12 * m20), m10 * m21 - m11 * m20) == Det3(m00, m01, m02, m10, m11, m12, m20, m21, m22)
    ensures Dot3(m00, m01, m02, -(m01 * m22 - m02 * m21), m00 * m22 - m02 * m20, -(m00 * m21 - m01 * m20)) == 0.0
    ensures Dot3(m00, m01, m02, m01 * m12 - m02 * m11, -(m00 * m12 - m02 * m10), m00 * m11 - m01 * m10) == 0.0
    ensures Dot3(m10, m11, m12, m11 * m22 - m12 * m21, -(m10 * m22 - m12 * m20), m10 * m21 - m11 * m20) == 0.0
    ensures Dot3(m10, m11, m12, -(m01 * m22 - m02 * m21), m00 * m22 - m02 * m20, -(m00 * m21 - m01 * m20)) == Det3(m00, m01, m02, m10, m11, m12, m20, m21, m22)
    ensures Dot3(m10, m11, m12, m01 * m12 - m02 * m11, -(m00 * m12 - m02 * m10), m00 * m11 - m01 * m10) == 0.0
    ensures Dot3(m20, m21, m22, m11 * m22 - m12 * m21, -(m10 * m22 - m12 * m20), m10 * m21 - m11 * m20) == 0.0
    ensures Dot3(m20, m21, m22, -(m01 * m22 - m02 * m21), m00 * m22 - m02 * m20, -(m00 * m21 - m01 * m20)) == 0.0
    ensures Dot3(m20, m21, m22, m01 * m12 - m02 * m11, -(m00 * m12 - m02 * m10), m00 * m11 - m01 * m10) == Det3(m00, m01, m02, m10, m11, m12, m20, m21, m22)
  {
  }

  lemma CofactorsRight(m00: real, m01: real, m02: real, m10: real, m11: real, m12: real,
                          m20: real, m21: real, m22: real)
    ensures Dot3(m00, m01, m02, Minor(m11, m12, m21, m22), -Minor(m10, m12, m20, m22), Minor(m10, m11, m20, m21)) == Det3(m00, m01, m02, m10, m11, m12, m20, m21, m22)
    ensures Dot3(m00, m01, m02, -Minor(m01, m02, m21, m22), Minor(m00, m02, m20, m22), -Minor(m00, m01, m20, m21)) == 0.0
    ensures Dot3(m00, m01, m02, Minor(m01, m02, m11, m12), -Minor(m00, m02, m10, m12), Minor(m00, m01, m10, m11)) == 0.0
    ensures Dot3(m10, m11, m12, Minor(m11, m12, m21, m22), -Minor(m10, m12, m20, m22), Minor(m10, m11, m20, m21)) == 0.0
    ensures Dot3(m10, m11, m12, -Minor(m01, m02, m21, m22), Minor(m00, m02, m20, m22), -Minor(m00, m01, m20, m21)) == Det3(m00, m01, m02, m10, m11, m12, m20, m21, m22)
    ensures Dot3(m10, m11, m12, Minor(m01, m02, m11, m12), -Minor(m00, m02, m10, m12), Minor(m00, m01, m10, m11)) == 0.0
    ensures Dot3(m20, m21, m22, Minor(m11, m12, m21, m22), -Minor(m10, m12, m20, m22), Minor(m10, m11, m20, m21)) == 0.0
    ensures Dot3(m20, m21, m22, -Minor(m01, m02, m21, m22), Minor(m00, m02, m20, m22), -Minor(m00, m01, m20, m21)) == 0.0
    ensures Dot3(m20, m21, m22, Minor(m01, m02, m11, m12), -Minor(m00, m02, m10, m12), Minor(m00, m01, m10, m11)) == Det3(m00, m01, m02, m10, m11, m12, m20, m21, m22)
  {
    CofactorsRightExpanded(m00, m01, m02, m10, m11, m12, m20, m21, m22);
  }

  lemma DetMulExpanded(a00: real, a01: real, a02: real, a10: real, a11: real, a12: real,
                       a20: real, a21: real, a22: real,
                       b00: real, b01: real, b02: real, b10: real, b11: real, b12: real,
                       b20: real, b21: real, b22: real)
    ensures Det3(a00 * b00 + a01 * b10 + a02 * b20, a00 * b01 + a01 * b11 + a02 * b21,
                 a00 * b02 + a01 * b12 + a02 * b22,
                 a10 * b00 + a11 * b10 + a12 * b20, a10 * b01 + a11 * b11 + a12 * b21,
                 a10 * b02 + a11 * b12 + a12 * b22,
                 a20 * b00 + a21 * b10 + a22 * b20, a20 * b01 + a21 * b11 + a22 * b21,
                 a20 * b02 + a21 * b12 + a22 * b22)
         == Det3(a00, a01, a02, a10, a11, a12, a20, a21, a22) * Det3(b00, b01, b02, b10, b11, b12, b20, b21, b22)
  {
  }

  lemma DetMulRaw(a00: real, a01: real, a02: real, a10: real, a11: real, a12: real,
                  a20: real, a21: real, a22: real,
                  b00: real, b01: real, b02: real, b10: real, b11: real, b12: real,
                  b20: real, b21: real, b22: real)
    ensures Det3(Dot3(a00, a01, a02, b00, b10, b20), Dot3(a00, a01, a02, b01, b11, b21),
                 Dot3(a00, a01, a02, b02, b12, b22),
                 Dot3(a10, a11, a12, b00, b10, b20), Dot3(a10, a11, a12, b01, b11, b21),
                 Dot3(a10, a11, a12, b02, b12, b22),
                 Dot3(a20, a21, a22, b00, b10, b20), Dot3(a20, a21, a22, b01, b11, b21),
                 Dot3(a20, a21, a22, b02, b12, b22))
         == Det3(a00, a01, a02, a10, a11, a12, a20, a21, a22) * Det3(b00, b01, b02, b10, b11, b12, b20, b21, b22)
  {
    assert Det3(Dot3(a00, a01, a02, b00, b10, b20), Dot3(a00, a01, a02, b01, b11, b21),
                Dot3(a00, a01, a02, b02, b12, b22),
                Dot3(a10, a11, a12, b00, b10, b20), Dot3(a10, a11, a12, b01, b11, b21),
                Dot3(a10, a11, a12, b02, b12, b22),
                Dot3(a20, a21, a22, b00, b10, b20), Dot3(a20, a21, a22, b01, b11, b21),
                Dot3(a20, a21, a22, b02, b12, b22))
        == Det3(a00 * b00 + a01 * b10 + a02 * b20, a00 * b01 + a01 * b11 + a02 * b21,
                a00 * b02 + a01 * b12 + a02 * b22,
                a10 * b00 + a11 * b10 + a12 * b20, a10 * b01 + a11 * b11 + a12 * b21,
                a10 * b02 + a11 * b12 + a12 * b22,
                a20 * b00 + a21 * b10 + a22 * b20, a20 * b01 + a21 * b11 + a22 * b21,
                a20 * b02 + a21 * b12 + a22 * b22);
    DetMulExpanded(a00, a01, a02, a10, a11, a12, a20, a21, a22,
                   b00, b01, b02, b10, b11, b12, b20, b21, b22);
  }

  /* ---------------- Layout ---------------- */

  /** The elements in row-major order: element (r, c) is at index 3 * r + c. */
  function Flatten(m: Mat3): (s: seq<real>)
    ensures |s| == 9
  {
    [m.m00, m.m01, m.m02, m.m10, m.m11, m.m12, m.m20, m.m21, m.m22]
  }

  /** The transform whose row-major elements are `s`. */
  function FromRowMajor(s: seq<real>): (m: Mat3)
    requires |s| == 9
    ensures Flatten(m) == s
  {
    var m := Mat3(s[0], s[1], s[2], s[3], s[4], s[5], s[6], s[7], s[8]);
    assert forall i :: 0 <= i < 9 ==> Flatten(m)[i] == s[i];
    m
  }

  /** Row-major layout loses nothing: a transform is determined by its nine elements. */
  lemma FlattenInjective(a: Mat3, b: Mat3)
    requires Flatten(a) == Flatten(b)
    ensures a == b
  {
    assert Flatten(a)[1] == Flatten(b)[1] && Flatten(a)[2] == Flatten(b)[2];
    assert Flatten(a)[3] == Flatten(b)[3] && Flatten(a)[5] == Flatten(b)[5];
    assert Flatten(a)[6] == Flatten(b)[6] && Flatten(a)[7] == Flatten(b)[7];
  }

  /* ---------------- Element access ---------------- */

  /**
   * getValue<row, column>(): the element at (row, column), or IndexException
   * when either index is 3 or more.
   */
  function Entry(m: Mat3, row: nat, column: nat): (r: Result<real>)
    ensures r.Ok? <==> row < 3 && column < 3
    ensures r.Err? ==> r.error == IndexException
    ensures r.Ok? ==> r.value == Flatten(m)[3 * row + column]
  {
    if row == 0 then
      if column == 0 then Ok(m.m00)
      else if column == 1 then Ok(m.m01)
      else if column == 2 then Ok(m.m02)
      else Err(IndexException)
    else if row == 1 then
      if column == 0 then Ok(m.m10)
      else if column == 1 then Ok(m.m11)
      else if column == 2 then Ok(m.m12)
      else Err(IndexException)
    else if row == 2 then
      if column == 0 then Ok(m.m20)
      else if column == 1 then Ok(m.m21)
      else if column == 2 then Ok(m.m22)
      else Err(IndexException)
    else
      Err(IndexException)
  }

  /** The value the default constructor gives: ones on the diagonal, zeros elsewhere. */
  function Identity(): (r: Mat3)
    ensures forall row: nat, column: nat :: row < 3 && column < 3 ==>
              Entry(r, row, column) == Ok(if row == column then 1.0 else 0.0)
  {
    Mat3(1.0, 0.0, 0.0,
         0.0, 1.0, 0.0,
         0.0, 0.0, 1.0)
  }

  /* ---------------- Normalisation and construction ---------------- */

  /** Every element multiplied by `k`. */
  function Scale(k: real, m: Mat3): Mat3
  {
    Mat3(Times(k, m.m00), Times(k, m.m01), Times(k, m.m02),
         Times(k, m.m10), Times(k, m.m11), Times(k, m.m12),
         Times(k, m.m20), Times(k, m.m21), Times(k, m.m22))
  }

  /**
   * normalize() applied to a value: ValueException when m_22 is 0, otherwise
   * every element divided by m_22 (left as it is when m_22 is already 1).
   */
  function Normalized(m: Mat3): (r: Result<Mat3>)
    ensures r.Err? <==> m.m22 == 0.0
    ensures r.Err? ==> r.error == ValueException
    ensures r.Ok? ==> r.value.m22 == 1.0
    ensures r.Ok? ==> forall i :: 0 <= i < 9 ==> Flatten(r.value)[i] == Flatten(m)[i] / m.m22
  {
    if m.m22 == 0.0 then Err(ValueException)
    else if m.m22 == 1.0 then Ok(m)
    else Ok(Mat3(m.m00 / m.m22, m.m01 / m.m22, m.m02 / m.m22,
                 m.m10 / m.m22, m.m11 / m.m22, m.m12 / m.m22,
                 m.m20 / m.m22, m.m21 / m.m22, m.m22 / m.m22))
  }

  /** Normalising an already normalised value changes nothing. */
  lemma NormalizedIdempotent(m: Mat3)
    requires Normalized(m).Ok?
    ensures Normalized(Normalized(m).value) == Normalized(m)
  {
  }

  /** Normalising is scaling by 1 / m_22. */
  lemma NormalizedIsScale(m: Mat3)
    requires m.m22 != 0.0
    ensures Normalized(m) == Ok(Scale(1.0 / m.m22, m))
  {
    var n := Normalized(m).value;
    var s := Scale(1.0 / m.m22, m);
    forall i | 0 <= i < 9 ensures Flatten(n)[i] == Flatten(s)[i] {
      DivIsTimes(Flatten(m)[i], m.m22);
    }
    FlattenInjective(n, s);
  }

  /**
   * The nine-argument constructor (and setTransform) applied to a value:
   * the elements as given, normalised when `doNormalize` is set.
   */
  function Construct(m: Mat3, doNormalize: bool): (r: Result<Mat3>)
    ensures r.Err? <==> doNormalize && m.m22 == 0.0
    ensures r.Err? ==> r.error == ValueException
    ensures !doNormalize ==> r == Ok(m)
    ensures r.Ok? && doNormalize ==> r.value.m22 == 1.0 && r.value == Scale(1.0 / m.m22, m)
  {
    if !doNormalize then Ok(m)
    else
      assert m.m22 != 0.0 ==> Normalized(m) == Ok(Scale(1.0 / m.m22, m)) by {
        if m.m22 != 0.0 { NormalizedIsScale(m); }
      }
      Normalized(m)
  }

  /**
   * The Array2D constructor: ValueException unless `source` is 3 x 3;
   * otherwise element (row, column) is source(3 * row + column).
   */
  function FromArray2D(source: Array2D, doNormalize: bool): (r: Result<Mat3>)
    requires |source.data| == source.rows * source.columns
    ensures source.rows != 3 || source.columns != 3 ==> r == Err(ValueException)
    ensures source.rows == 3 && source.columns == 3 && !doNormalize ==>
              r.Ok? && forall row: nat, column: nat :: row < 3 && column < 3 ==>
                         Entry(r.value, row, column) == Ok(source.data[3 * row + column])
    ensures source.rows == 3 && source.columns == 3 && doNormalize ==>
              r == Normalized(FromRowMajor(source.data))
  {
    if source.rows != 3 || source.columns != 3 then Err(ValueException)
    else
      var d := source.data;
      Construct(Mat3(d[0], d[1], d[2], d[3], d[4], d[5], d[6], d[7], d[8]), doNormalize)
  }

  /* ---------------- Reference definitions of the linear algebra ---------------- */

  /** Sum of the pairwise products of two equally long sequences. */
  function Dot(u: seq<real>, v: seq<real>): real
    requires |u| == |v|
  {
    if u == [] then 0.0 else Times(u[0], v[0]) + Dot(u[1..], v[1..])
  }

  /** Row `r` of the transform, left to right. */
  function Row(m: Mat3, r: nat): (s: seq<real>)
    requires r < 3
    ensures |s| == 3
  {
    Flatten(m)[3 * r .. 3 * r + 3]
  }

  /** Column `c` of the transform, top to bottom. */
  function Column(m: Mat3, c: nat): (s: seq<real>)
    requires c < 3
    ensures |s| == 3
  {
    [Flatten(m)[c], Flatten(m)[3 + c], Flatten(m)[6 + c]]
  }

  /** The components of a homogeneous point as a sequence. */
  function Components(v: Vec3): seq<real>
  {
    [v.x, v.y, v.w]
  }

  lemma {:induction false} DotOfThree(u: seq<real>, v: seq<real>)
    requires |u| == 3 && |v| == 3
    ensures Dot(u, v) == Dot3(u[0], u[1], u[2], v[0], v[1], v[2])
  {
    assert u[1..][1..][1..] == [];
    assert Dot(u[1..][1..], v[1..][1..]) == Times(u[2], v[2]) + Dot(u[1..][1..][1..], v[1..][1..][1..]);
  }

  /* ---------------- Composition ---------------- */

  /**
   * An element of p that is row r of a times column c of b, written out as
   * three products, is Row(a, r) dotted with Column(b, c).
   */
  lemma ProductEntry(a: Mat3, b: Mat3, p: Mat3, r: nat, c: nat)
    requires r < 3 && c < 3
    requires Flatten(p)[3 * r + c] ==
             Dot3(Flatten(a)[3 * r], Flatten(a)[3 * r + 1], Flatten(a)[3 * r + 2],
                  Flatten(b)[c], Flatten(b)[3 + c], Flatten(b)[6 + c])
    ensures Entry(p, r, c) == Ok(Dot(Row(a, r), Column(b, c)))
  {
    var u, w := Row(a, r), Column(b, c);
    DotOfThree(u, w);
    assert u[0] == Flatten(a)[3 * r] && u[1] == Flatten(a)[3 * r + 1] && u[2] == Flatten(a)[3 * r + 2];
  }

  /**
   * The elements of transform0 * transform1, each a sum of three products:
   * element (r, c) is row r of the left factor dotted with column c of the
   * right.
   */
  function Mul(a: Mat3, b: Mat3): (p: Mat3)
    ensures forall r: nat, c: nat :: r < 3 && c < 3 ==> Entry(p, r, c) == Ok(Dot(Row(a, r), Column(b, c)))
  {
    var p := Mat3(Dot3(a.m00, a.m01, a.m02, b.m00, b.m10, b.m20),
         Dot3(a.m00, a.m01, a.m02, b.m01, b.m11, b.m21),
         Dot3(a.m00, a.m01, a.m02, b.m02, b.m12, b.m22),
         Dot3(a.m10, a.m11, a.m12, b.m00, b.m10, b.m20),
         Dot3(a.m10, a.m11, a.m12, b.m01, b.m11, b.m21),
         Dot3(a.m10, a.m11, a.m12, b.m02, b.m12, b.m22),
         Dot3(a.m20, a.m21, a.m22, b.m00, b.m10, b.m20),
         Dot3(a.m20, a.m21, a.m22, b.m01, b.m11, b.m21),
         Dot3(a.m20, a.m21, a.m22, b.m02, b.m12, b.m22));
    assert forall r: nat, c: nat :: r < 3 && c < 3 ==> Entry(p, r, c) == Ok(Dot(Row(a, r), Column(b, c))) by {
      forall r: nat, c: nat | r < 3 && c < 3
        ensures Entry(p, r, c) == Ok(Dot(Row(a, r), Column(b, c)))
      {
        if r == 0 {
          if c == 0 { ProductEntry(a, b, p, 0, 0); }
          else if c == 1 { ProductEntry(a, b, p, 0, 1); }
          else { ProductEntry(a, b, p, 0, 2); }
        } else if r == 1 {
          if c == 0 { ProductEntry(a, b, p, 1, 0); }
          else if c == 1 { ProductEntry(a, b, p, 1, 1); }
          else { ProductEntry(a, b, p, 1, 2); }
        } else {
          if c == 0 { ProductEntry(a, b, p, 2, 0); }
          else if c == 1 { ProductEntry(a, b, p, 2, 1); }
          else { ProductEntry(a, b, p, 2, 2); }
        }
      }
    }
    p
  }

  /** The identity is a unit for composition on both sides. */
  lemma MulIdentity(m: Mat3)
    ensures Mul(Identity(), m) == m && Mul(m, Identity()) == m
  {
  }

  /** A scalar factor on either operand comes out of the product. */
  lemma MulScale(k: real, a: Mat3, b: Mat3)
    ensures Mul(Scale(k, a), b) == Scale(k, Mul(a, b))
    ensures Mul(a, Scale(k, b)) == Scale(k, Mul(a, b))
  {
    DotScaleLeft(k, a.m00, a.m01, a.m02, b.m00, b.m10, b.m20);
    DotScaleLeft(k, a.m00, a.m01, a.m02, b.m01, b.m11, b.m21);
    DotScaleLeft(k, a.m00, a.m01, a.m02, b.m02, b.m12, b.m22);
    DotScaleLeft(k, a.m10, a.m11, a.m12, b.m00, b.m10, b.m20);
    DotScaleLeft(k, a.m10, a.m11, a.m12, b.m01, b.m11, b.m21);
    DotScaleLeft(k, a.m10, a.m11, a.m12, b.m02, b.m12, b.m22);
    DotScaleLeft(k, a.m20, a.m21, a.m22, b.m00, b.m10, b.m20);
    DotScaleLeft(k, a.m20, a.m21, a.m22, b.m01, b.m11, b.m21);
    DotScaleLeft(k, a.m20, a.m21, a.m22, b.m02, b.m12, b.m22);
    DotScaleRight(k, a.m00, a.m01, a.m02, b.m00, b.m10, b.m20);
    DotScaleRight(k, a.m00, a.m01, a.m02, b.m01, b.m11, b.m21);
    DotScaleRight(k, a.m00, a.m01, a.m02, b.m02, b.m12, b.m22);
    DotScaleRight(k, a.m10, a.m11, a.m12, b.m00, b.m10, b.m20);
    DotScaleRight(k, a.m10, a.m11, a.m12, b.m01, b.m11, b.m21);
    DotScaleRight(k, a.m10, a.m11, a.m12, b.m02, b.m12, b.m22);
    DotScaleRight(k, a.m20, a.m21, a.m22, b.m00, b.m10, b.m20);
    DotScaleRight(k, a.m20, a.m21, a.m22, b.m01, b.m11, b.m21);
    DotScaleRight(k, a.m20, a.m21, a.m22, b.m02, b.m12, b.m22);
  }

  /**
   * operator*(transform0, transform1): the matrix product, passed through the
   * nine-argument constructor (normalised when `doNormalize` is set).
   * Applying the result to a point applies transform1 and then transform0,
   * up to the factor 1 / m_22 of the product when normalising; it fails
   * exactly when normalisation meets a product whose m_22 is 0.
   */
  function Compose(transform0: Mat3, transform1: Mat3, doNormalize: bool): (r: Result<Mat3>)
    ensures r.Err? <==> doNormalize && Mul(transform0, transform1).m22 == 0.0
    ensures r.Err? ==> r.error == ValueException
    ensures r.Ok? ==>
              forall v :: Apply(r.value, v) ==
                            if doNormalize then ScaleVec(1.0 / Mul(transform0, transform1).m22, Apply(transform0, Apply(transform1, v)))
                            else Apply(transform0, Apply(transform1, v))
  {
    var p := Mul(transform0, transform1);
    var r := Construct(p, doNormalize);
    assert r.Ok? ==>
             forall v :: Apply(r.value, v) ==
                           if doNormalize then ScaleVec(1.0 / p.m22, Apply(transform0, Apply(transform1, v)))
                           else Apply(transform0, Apply(transform1, v)) by {
      forall v | r.Ok?
        ensures Apply(r.value, v) ==
                (if doNormalize then ScaleVec(1.0 / p.m22, Apply(transform0, Apply(transform1, v)))
                 else Apply(transform0, Apply(transform1, v)))
      {
        ApplyMul(transform0, transform1, v);
        if doNormalize {
          ApplyScale(1.0 / p.m22, p, v);
        }
      }
    }
    r
  }

  /* ---------------- Application to a point ---------------- */

  /** The matrix times a homogeneous point. */
  function Apply(m: Mat3, v: Vec3): Vec3
  {
    Vec3(Dot3(m.m00, m.m01, m.m02, v.x, v.y, v.w),
         Dot3(m.m10, m.m11, m.m12, v.x, v.y, v.w),
         Dot3(m.m20, m.m21, m.m22, v.x, v.y, v.w))
  }

  /**
   * operator*(Vector2D): the homogeneous 3-vector the source hands to the
   * three-argument Vector2D constructor for the point (x, y).
   */
  function ApplyPoint(m: Mat3, x: real, y: real): (r: Vec3)
    ensures r == Apply(m, Vec3(x, y, 1.0))
  {
    Vec3(m.m00 * x + m.m01 * y + m.m02,
         m.m10 * x + m.m11 * y + m.m12,
         m.m20 * x + m.m21 * y + m.m22)
  }

  /** Every component multiplied by `k`. */
  function ScaleVec(k: real, v: Vec3): Vec3
  {
    Vec3(Times(k, v.x), Times(k, v.y), Times(k, v.w))
  }

  /** Each component of the applied point is the matching row dotted with the point. */
  lemma ApplyIsMatrixVectorProduct(m: Mat3, v: Vec3)
    ensures Components(Apply(m, v)) ==
            [Dot(Row(m, 0), Components(v)), Dot(Row(m, 1), Components(v)), Dot(Row(m, 2), Components(v))]
  {
    DotOfThree(Row(m, 0), Components(v));
    DotOfThree(Row(m, 1), Components(v));
    DotOfThree(Row(m, 2), Components(v));
  }

  /** The identity leaves every point where it is. */
  lemma ApplyIdentity(v: Vec3)
    ensures Apply(Identity(), v) == v
  {
  }

  /** (transform0 * transform1) * v == transform0 * (transform1 * v) on homogeneous points. */
  lemma ApplyMul(a: Mat3, b: Mat3, v: Vec3)
    ensures Apply(Mul(a, b), v) == Apply(a, Apply(b, v))
  {
    Regroup(a.m00, a.m01, a.m02, b.m00, b.m01, b.m02, b.m10, b.m11, b.m12, b.m20, b.m21, b.m22, v.x, v.y, v.w);
    Regroup(a.m10, a.m11, a.m12, b.m00, b.m01, b.m02, b.m10, b.m11, b.m12, b.m20, b.m21, b.m22, v.x, v.y, v.w);
    Regroup(a.m20, a.m21, a.m22, b.m00, b.m01, b.m02, b.m10, b.m11, b.m12, b.m20, b.m21, b.m22, v.x, v.y, v.w);
  }

  /** A scaled transform sends every point to the same multiple of its image. */
  lemma ApplyScale(k: real, m: Mat3, v: Vec3)
    ensures Apply(Scale(k, m), v) == ScaleVec(k, Apply(m, v))
  {
    DotScaleLeft(k, m.m00, m.m01, m.m02, v.x, v.y, v.w);
    DotScaleLeft(k, m.m10, m.m11, m.m12, v.x, v.y, v.w);
    DotScaleLeft(k, m.m20, m.m21, m.m22, v.x, v.y, v.w);
  }

  /**
   * A normalised transform maps each homogeneous point to a multiple of the
   * point the original maps it to: both denote the same 2D point.
   */
  lemma NormalizedProjective(m: Mat3, v: Vec3)
    requires Normalized(m).Ok?
    ensures Apply(Normalized(m).value, v) == ScaleVec(1.0 / m.m22, Apply(m, v))
  {
    NormalizedIsScale(m);
    ApplyScale(1.0 / m.m22, m, v);
  }

  /**
   * The composition operator satisfies its documented equation on points:
   * exactly without normalisation, and up to the factor 1 / m_22 of the
   * product with it.
   */
  lemma ComposeApply(a: Mat3, b: Mat3, doNormalize: bool, x: real, y: real)
    requires Compose(a, b, doNormalize).Ok?
    ensures !doNormalize ==> Compose(a, b, doNormalize) == Ok(Mul(a, b))
    ensures ApplyPoint(Compose(a, b, doNormalize).value, x, y) ==
            (if doNormalize then ScaleVec(1.0 / Mul(a, b).m22, Apply(a, ApplyPoint(b, x, y)))
             else Apply(a, ApplyPoint(b, x, y)))
  {
    ApplyMul(a, b, Vec3(x, y, 1.0));
    if doNormalize {
      NormalizedProjective(Mul(a, b), Vec3(x, y, 1.0));
    }
  }

  /* ---------------- Inversion ---------------- */

  /**
   * The determinant det012012, which invert() expands along the top row:
   * the expansion by cofactors along any row or any column gives the same
   * value.
   */
  function Det(m: Mat3): (d: real)
    ensures d == Dot3(m.m00, m.m01, m.m02, Minor(m.m11, m.m12, m.m21, m.m22), -Minor(m.m10, m.m12, m.m20, m.m22), Minor(m.m10, m.m11, m.m20, m.m21))
    ensures d == Dot3(m.m10, m.m11, m.m12, -Minor(m.m01, m.m02, m.m21, m.m22), Minor(m.m00, m.m02, m.m20, m.m22), -Minor(m.m00, m.m01, m.m20, m.m21))
    ensures d == Dot3(m.m20, m.m21, m.m22, Minor(m.m01, m.m02, m.m11, m.m12), -Minor(m.m00, m.m02, m.m10, m.m12), Minor(m.m00, m.m01, m.m10, m.m11))
    ensures d == Dot3(Minor(m.m11, m.m12, m.m21, m.m22), -Minor(m.m01, m.m02, m.m21, m.m22), Minor(m.m01, m.m02, m.m11, m.m12), m.m00, m.m10, m.m20)
    ensures d == Dot3(-Minor(m.m10, m.m12, m.m20, m.m22), Minor(m.m00, m.m02, m.m20, m.m22), -Minor(m.m00, m.m02, m.m10, m.m12), m.m01, m.m11, m.m21)
    ensures d == Dot3(Minor(m.m10, m.m11, m.m20, m.m21), -Minor(m.m00, m.m01, m.m20, m.m21), Minor(m.m00, m.m01, m.m10, m.m11), m.m02, m.m12, m.m22)
  {
    CofactorsLeft(m.m00, m.m01, m.m02, m.m10, m.m11, m.m12, m.m20, m.m21, m.m22);
    CofactorsRight(m.m00, m.m01, m.m02, m.m10, m.m11, m.m12, m.m20, m.m21, m.m22);
    Det3(m.m00, m.m01, m.m02, m.m10, m.m11, m.m12, m.m20, m.m21, m.m22)
  }

  /** The transposed matrix of cofactors, which invert() divides by the determinant. */
  function Adjugate(m: Mat3): Mat3
  {
    Mat3(Minor(m.m11, m.m12, m.m21, m.m22), -Minor(m.m01, m.m02, m.m21, m.m22), Minor(m.m01, m.m02, m.m11, m.m12),
         -Minor(m.m10, m.m12, m.m20, m.m22), Minor(m.m00, m.m02, m.m20, m.m22), -Minor(m.m00, m.m02, m.m10, m.m12),
         Minor(m.m10, m.m11, m.m20, m.m21), -Minor(m.m00, m.m01, m.m20, m.m21), Minor(m.m00, m.m01, m.m10, m.m11))
  }

  /** The cofactor matrix times the matrix, on either side, is the determinant times the identity. */
  lemma AdjugateProduct(m: Mat3)
    ensures Mul(Adjugate(m), m) == Mat3(Det(m), 0.0, 0.0, 0.0, Det(m), 0.0, 0.0, 0.0, Det(m))
    ensures Mul(m, Adjugate(m)) == Mat3(Det(m), 0.0, 0.0, 0.0, Det(m), 0.0, 0.0, 0.0, Det(m))
  {
    CofactorsLeft(m.m00, m.m01, m.m02, m.m10, m.m11, m.m12, m.m20, m.m21, m.m22);
    CofactorsRight(m.m00, m.m01, m.m02, m.m10, m.m11, m.m12, m.m20, m.m21, m.m22);
  }

  /** The determinant of a product is the product of the determinants. */
  lemma DetMul(a: Mat3, b: Mat3)
    ensures Det(Mul(a, b)) == Det(a) * Det(b)
  {
    DetMulRaw(a.m00, a.m01, a.m02, a.m10, a.m11, a.m12, a.m20, a.m21, a.m22,
              b.m00, b.m01, b.m02, b.m10, b.m11, b.m12, b.m20, b.m21, b.m22);
  }

  /**
   * The matrix invert() builds before the constructor sees it: each cofactor
   * over det012012, that is the adjugate scaled by 1 / det012012, which is a
   * two-sided inverse.
   */
  function Inverse(m: Mat3): (r: Mat3)
    requires Det(m) != 0.0
    ensures r == Scale(1.0 / Det(m), Adjugate(m))
    ensures Mul(r, m) == Identity() && Mul(m, r) == Identity()
  {
    var det0101 := Minor(m.m00, m.m01, m.m10, m.m11);
    var det0102 := Minor(m.m00, m.m02, m.m10, m.m12);
    var det0112 := Minor(m.m01, m.m02, m.m11, m.m12);
    var det0201 := Minor(m.m00, m.m01, m.m20, m.m21);
    var det0202 := Minor(m.m00, m.m02, m.m20, m.m22);
    var det0212 := Minor(m.m01, m.m02, m.m21, m.m22);
    var det1201 := Minor(m.m10, m.m11, m.m20, m.m21);
    var det1202 := Minor(m.m10, m.m12, m.m20, m.m22);
    var det1212 := Minor(m.m11, m.m12, m.m21, m.m22);
    var d := Det(m);
    var r := Mat3(det1212 / d, -det0212 / d, det0112 / d,
                  -det1202 / d, det0202 / d, -det0102 / d,
                  det1201 / d, -det0201 / d, det0101 / d);
    assert r == Scale(1.0 / d, Adjugate(m)) by {
      DivIsTimes(det1212, d);
      DivNegIsTimes(det0212, d);
      DivIsTimes(det0112, d);
      DivNegIsTimes(det1202, d);
      DivIsTimes(det0202, d);
      DivNegIsTimes(det0102, d);
      DivIsTimes(det1201, d);
      DivNegIsTimes(det0201, d);
      DivIsTimes(det0101, d);
    }
    assert Mul(r, m) == Identity() && Mul(m, r) == Identity() by {
      AdjugateProduct(m);
      MulScale(1.0 / d, Adjugate(m), m);
      MulScale(1.0 / d, m, Adjugate(m));
      TimesReciprocal(d);
    }
    r
  }

  /** A transform with determinant 0 has no inverse on either side, so invert() is right to refuse it. */
  lemma SingularHasNoInverse(m: Mat3, n: Mat3)
    requires Det(m) == 0.0
    ensures Mul(n, m) != Identity()
    ensures Mul(m, n) != Identity()
  {
    DetMul(n, m);
    DetMul(m, n);
  }

  /** p is a nonzero multiple of the identity: the identity as a projective transform. */
  predicate IsScaledIdentity(p: Mat3)
  {
    p.m00 != 0.0 && p == Scale(p.m00, Identity())
  }

  /**
   * invert(): ValueException when det012012 is 0; otherwise the cofactor
   * quotients passed through the nine-argument constructor.  With
   * normalisation the constructor raises ValueException when the bottom
   * right cofactor det0101 is 0, and otherwise the result, with m_22 equal
   * to 1, is the inverse up to a nonzero factor on either side.
   */
  function Invert(m: Mat3, doNormalize: bool): (r: Result<Mat3>)
    ensures Det(m) == 0.0 ==> r == Err(ValueException)
    ensures Det(m) != 0.0 && !doNormalize ==>
              r.Ok? && Mul(r.value, m) == Identity() && Mul(m, r.value) == Identity()
    ensures Det(m) != 0.0 && doNormalize ==>
              (r.Ok? <==> Minor(m.m00, m.m01, m.m10, m.m11) != 0.0)
    ensures r.Err? ==> r.error == ValueException
    ensures r.Ok? && doNormalize ==> r.value.m22 == 1.0
    ensures r.Ok? ==> IsScaledIdentity(Mul(r.value, m)) && IsScaledIdentity(Mul(m, r.value))
  {
    if Det(m) == 0.0 then Err(ValueException)
    else
      var inv := Inverse(m);
      assert inv.m22 != 0.0 ==>
               IsScaledIdentity(Mul(Scale(1.0 / inv.m22, inv), m)) &&
               IsScaledIdentity(Mul(m, Scale(1.0 / inv.m22, inv))) by {
        if inv.m22 != 0.0 {
          var k := 1.0 / inv.m22;
          MulScale(k, inv, m);
          MulScale(k, m, inv);
          TimesReciprocal(inv.m22);
          assert Scale(k, Identity()).m00 == k;
        }
      }
      Construct(inv, doNormalize)
  }

  /**
   * With normalisation, invert() rejects some invertible transforms: the
   * permutation that swaps x and w has determinant -1 and bottom right
   * cofactor 0.
   */
  lemma InvertNormalizedRejectsSwap()
    ensures var p := Mat3(0.0, 0.0, 1.0, 0.0, 1.0, 0.0, 1.0, 0.0, 0.0);
            Det(p) == -1.0 && Invert(p, true) == Err(ValueException) && Invert(p, false).Ok?
  {
    var p := Mat3(0.0, 0.0, 1.0, 0.0, 1.0, 0.0, 1.0, 0.0, 0.0);
    assert Det(p) == -1.0 by {
      assert Det3(0.0, 0.0, 1.0, 0.0, 1.0, 0.0, 1.0, 0.0, 0.0) == -1.0;
    }
    assert Minor(p.m00, p.m01, p.m10, p.m11) == 0.0;
  }
}
