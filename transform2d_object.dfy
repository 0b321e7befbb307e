/**
 * Transform2D as an object: nine scalar fields that the constructors,
 * setValue, setTransform, normalize and the assignment operator update in
 * place.  Each method is specified by the value-level functions of
 * Transform2DMath applied to `Value()`, the matrix the fields hold.
 */
module Transform2DObject {
  import opened Errors
  import opened Transform2DMath

  class Transform2D {
    var m00: real
    var m01: real
    var m02: real
    var m10: real
    var m11: real
    var m12: real
    var m20: real
    var m21: real
    var m22: real

    /** The matrix the nine fields currently hold. */
    function Value(): Mat3
      reads this
    {
      Mat3(m00, m01, m02, m10, m11, m12, m20, m21, m22)
    }

    /** The default constructor: the identity transform. */
    constructor ()
      ensures Value() == Identity()
    {
      m00, m01, m02 := 1.0, 0.0, 0.0;
      m10, m11, m12 := 0.0, 1.0, 0.0;
      m20, m21, m22 := 0.0, 0.0, 1.0;
    }

    /** The copy constructor: an independent object holding the same elements. */
    constructor Copy(src: Transform2D)
      ensures Value() == src.Value()
    {
      m00, m01, m02 := src.m00, src.m01, src.m02;
      m10, m11, m12 := src.m10, src.m11, src.m12;
      m20, m21, m22 := src.m20, src.m21, src.m22;
    }

    /** The member initialisers of the nine-argument constructor, before any normalisation. */
    constructor Elements(a00: real, a01: real, a02: real,
                         a10: real, a11: real, a12: real,
                         a20: real, a21: real, a22: real)
      ensures Value() == Mat3(a00, a01, a02, a10, a11, a12, a20, a21, a22)
    {
      m00, m01, m02 := a00, a01, a02;
      m10, m11, m12 := a10, a11, a12;
      m20, m21, m22 := a20, a21, a22;
    }

    /**
     * The nine-argument constructor: the elements as given, then normalize()
     * when `doNormalize` is set; the ValueException normalize() raises is
     * returned as an error instead of an object.
     */
    static method Create(a00: real, a01: real, a02: real,
                         a10: real, a11: real, a12: real,
                         a20: real, a21: real, a22: real,
                         doNormalize: bool) returns (r: Result<Transform2D>)
      ensures var c := Construct(Mat3(a00, a01, a02, a10, a11, a12, a20, a21, a22), doNormalize);
              match c
              case Ok(m) => r.Ok? && fresh(r.value) && r.value.Value() == m
              case Err(e) => r == Err(e)
    {
      var t := new Transform2D.Elements(a00, a01, a02, a10, a11, a12, a20, a21, a22);
      if doNormalize {
        var o := t.Normalize();
        if o.Fail? {
          return Err(o.error);
        }
      }
      return Ok(t);
    }

    /**
     * The Array2D constructor: ValueException unless `source` is 3 x 3,
     * otherwise its elements in row-major order, normalised when
     * `doNormalize` is set.
     */
    static method CreateFromArray(source: Array2D, doNormalize: bool) returns (r: Result<Transform2D>)
      requires |source.data| == source.rows * source.columns
      ensures match FromArray2D(source, doNormalize)
              case Ok(m) => r.Ok? && fresh(r.value) && r.value.Value() == m
              case Err(e) => r == Err(e)
    {
      if source.rows != 3 || source.columns != 3 {
        return Err(ValueException);
      }
      var d := source.data;
      var t := new Transform2D.Elements(d[0], d[1], d[2], d[3], d[4], d[5], d[6], d[7], d[8]);
      if doNormalize {
        var o := t.Normalize();
        if o.Fail? {
          return Err(o.error);
        }
      }
      return Ok(t);
    }

    /**
     * operator()(row, column): the field at (row, column), or IndexException.
     * It reads the same element as getValue<row, column>().
     */
    function Element(row: nat, column: nat): (r: Result<real>)
      reads this
      ensures r == Entry(Value(), row, column)
    {
      match (row, column)
      case (0, 0) => Ok(m00)
      case (0, 1) => Ok(m01)
      case (0, 2) => Ok(m02)
      case (1, 0) => Ok(m10)
      case (1, 1) => Ok(m11)
      case (1, 2) => Ok(m12)
      case (2, 0) => Ok(m20)
      case (2, 1) => Ok(m21)
      case (2, 2) => Ok(m22)
      case _ => Err(IndexException)
    }

    /**
     * setValue(row, column, val): writes exactly the one field at (row,
     * column); IndexException, and no change, when either index is 3 or more.
     */
    method SetValue(row: nat, column: nat, val: real) returns (o: Outcome)
      modifies this
      ensures o == Pass <==> row < 3 && column < 3
      ensures o.Fail? ==> o.error == IndexException && Value() == old(Value())
      ensures o == Pass ==> Flatten(Value()) == Flatten(old(Value()))[3 * row + column := val]
      ensures o == Pass ==> Element(row, column) == Ok(val)
    {
      match (row, column)
      case (0, 0) => m00 := val; return Pass;
      case (0, 1) => m01 := val; return Pass;
      case (0, 2) => m02 := val; return Pass;
      case (1, 0) => m10 := val; return Pass;
      case (1, 1) => m11 := val; return Pass;
      case (1, 2) => m12 := val; return Pass;
      case (2, 0) => m20 := val; return Pass;
      case (2, 1) => m21 := val; return Pass;
      case (2, 2) => m22 := val; return Pass;
      case _ => return Fail(IndexException);
    }

    /**
     * normalize(): ValueException, and no change, when m_22 is 0; otherwise
     * every field divided by the original m_22, which is divided last.
     */
    method Normalize() returns (o: Outcome)
      modifies this
      ensures match Normalized(old(Value()))
              case Ok(n) => o == Pass && Value() == n
              case Err(e) => o == Fail(e) && Value() == old(Value())
    {
      if m22 == 0.0 {
        return Fail(ValueException);
      }
      if m22 != 1.0 {
        m00 := m00 / m22;
        m01 := m01 / m22;
        m02 := m02 / m22;
        m10 := m10 / m22;
        m11 := m11 / m22;
        m12 := m12 / m22;
        m20 := m20 / m22;
        m21 := m21 / m22;
        m22 := m22 / m22;
      }
      return Pass;
    }

    /**
     * setTransform(a00, ..., a22, doNormalize): all nine fields set, then
     * normalize() when `doNormalize` is set.  When normalize() raises, the
     * fields keep the values just assigned.
     */
    method SetTransform(a00: real, a01: real, a02: real,
                        a10: real, a11: real, a12: real,
                        a20: real, a21: real, a22: real,
                        doNormalize: bool) returns (o: Outcome)
      modifies this
      ensures var given := Mat3(a00, a01, a02, a10, a11, a12, a20, a21, a22);
              match Construct(given, doNormalize)
              case Ok(n) => o == Pass && Value() == n
              case Err(e) => o == Fail(e) && Value() == given
    {
      m00, m01, m02 := a00, a01, a02;
      m10, m11, m12 := a10, a11, a12;
      m20, m21, m22 := a20, a21, a22;
      o := Pass;
      if doNormalize {
        o := Normalize();
      }
    }

    /** operator=(source): this object takes the elements of `source`; self-assignment changes nothing. */
    method Assign(source: Transform2D)
      modifies this
      ensures Value() == old(source.Value())
    {
      if source != this {
        m00, m01, m02 := source.m00, source.m01, source.m02;
        m10, m11, m12 := source.m10, source.m11, source.m12;
        m20, m21, m22 := source.m20, source.m21, source.m22;
      }
    }
  }

  /**
   * Normalising an object twice leaves it as normalising it once did, and
   * both calls report the same outcome.
   */
  method NormalizeTwice(t: Transform2D) returns (first: Outcome, second: Outcome)
    modifies t
    ensures first == second
    ensures first == Pass ==> t.m22 == 1.0
    ensures match Normalized(old(t.Value()))
            case Ok(n) => t.Value() == n
            case Err(_) => t.Value() == old(t.Value())
  {
    first := t.Normalize();
    if first == Pass {
      NormalizedIdempotent(old(t.Value()));
    }
    second := t.Normalize();
  }

  /**
   * setValue followed by the bounds-checked read of the same element: the
   * read returns what was written, and the other eight elements keep their
   * values; out of range, both calls raise IndexException and nothing
   * changes.
   */
  method SetThenGet(t: Transform2D, row: nat, column: nat, val: real) returns (o: Outcome, r: Result<real>)
    modifies t
    ensures o == Pass <==> row < 3 && column < 3
    ensures o.Fail? ==> o.error == IndexException && t.Value() == old(t.Value())
    ensures r == if row < 3 && column < 3 then Ok(val) else Err(IndexException)
    ensures forall i: nat, j: nat :: i < 3 && j < 3 && (i != row || j != column) ==>
              t.Element(i, j) == old(t.Element(i, j))
  {
    o := t.SetValue(row, column, val);
    r := t.Element(row, column);
  }
}
