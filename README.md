# Transform2D: a verified model of brick's homogeneous 2D transform

`brick::numeric::Transform2D<Type>` is a 2D coordinate transform held in
homogeneous form: a 3x3 matrix stored as nine scalar fields `m_00 .. m_22`.
This project models it in Dafny with `Type` taken as exact `real`. It covers:

- checked element reads and writes, which raise `IndexException` on an index of 3 or more;
- the constructors: default (the identity), nine elements, a 3x3 `Array2D` (raises
  `ValueException` when the array is not 3x3), and copy;
- `setTransform`, `normalize()` and the assignment operator;
- composition `operator*`, `invert()` and application to a point;
- the text form `Transform2D(a00, ..., a22)` that `operator<<` writes and `operator>>` reads.

The project has four modules:

- `Errors` (`errors.dfy`): the two exceptions the class raises, plus `Result` and
  `Outcome`, which carry them as values.
- `Transform2DMath` (`transform2d_math.dfy`): the value of a transform, a `Mat3`
  datatype, and everything computed from it without change.
  - Element lookup, normalisation, construction, composition, inversion and
    application to points.
  - The algebra proved about them, on exact reals:
    - composition equals applying the two transforms in turn;
    - the cofactor inverse is a two-sided inverse;
    - a singular transform has no inverse;
    - normalisation changes the homogeneous image of a point only by a common factor.
- `Transform2DObject` (`transform2d_object.dfy`): `class Transform2D`, whose nine
  fields are updated in place by the constructors, `setValue`, `setTransform`,
  `normalize()` and `operator=`.
  - Every method is specified through `Value()`, the `Mat3` the fields hold, and
    the functions of `Transform2DMath`.
- `Transform2DCodec` (`transform2d_codec.dfy`): the text form as a token sequence.
  - `operator<<` becomes the function `Format`.
  - `TokenStream` is a class holding the tokens, a read position and a good/fail state.
  - `Read` models `operator>>`: its loop reads eight values into a nine-element buffer.
  - Proved: `operator>>` accepts exactly the layout `operator<<` writes and stops
    at the first token that does not fit. On an early stop the target is untouched.

Design decisions:

- **`doNormalize` is an explicit parameter.** Its default, used by `invert()`,
  composition and `operator>>`, is declared in `transform2D.hh`. That header is
  not part of this model. So `Construct`, `Compose`, `Invert`, `Transform2D.Create`,
  `Transform2D.SetTransform` and `Read` take it as an argument, and the
  properties are stated for both values.
- **Raising constructors are static methods.** A constructor that can raise
  `ValueException` becomes a static method returning `Result<Transform2D>`.
- **`setTransform` is not failure-atomic.** It assigns the nine fields before
  `normalize()` can raise, so after a `ValueException` the object holds the
  un-normalised elements. `operator>>` catches only stream failures, so this
  exception escapes it too. `Read` returns it as `Fail(ValueException)`.
- **Normalising `invert()` rejects some invertible transforms.**
  - When the determinant is not 0, `Invert` with `doNormalize` set fails exactly
    when the cofactor `det0101` is 0.
  - `InvertNormalizedRejectsSwap` exhibits one such transform.
- **Arithmetic helpers carry the proofs.** Matrix elements are written through
  `Dot3` (a sum of three products), `Times`, `Minor` (a 2x2 determinant) and
  `Det3`. The ring identities are proved once on plain reals in small lemmas
  (`Regroup`, `DotScaleLeft`, `CofactorsLeft`, `DetMulRaw`, ...).

## Model

| member | source | states |
|---|---|---|
| Transform2DMath.Identity | numeric/brick/numeric/transform2D_impl.hh:26-36 | the default value has element (r, c) equal to 1 when r == c and 0 otherwise |
| Transform2DMath.Entry | numeric/brick/numeric/transform2D_impl.hh:104-149 | getValue<row, column> succeeds exactly when both indices are below 3, returns the row-major element 3 * row + column, and otherwise raises IndexException |
| Transform2DMath.FromRowMajor | numeric/brick/numeric/transform2D_impl.hh:70-72 | nine values placed row by row give back exactly those values in row-major order |
| Transform2DMath.FromArray2D | numeric/brick/numeric/transform2D_impl.hh:58-76 | an Array2D that is not 3 x 3 raises ValueException; a 3 x 3 one gives element (r, c) = source(3 * r + c), normalised when doNormalize is set |
| Transform2DMath.Normalized | numeric/brick/numeric/transform2D_impl.hh:378-400 | fails with ValueException exactly when m_22 is 0; otherwise the result has m_22 == 1 and every element is the original divided by the original m_22 |
| Transform2DMath.NormalizedIdempotent | numeric/brick/numeric/transform2D_impl.hh:378-400 | normalising a normalised value returns it unchanged |
| Transform2DMath.NormalizedIsScale | numeric/brick/numeric/transform2D_impl.hh:389-399 | the nine divisions are scaling the whole matrix by 1 / m_22 |
| Transform2DMath.NormalizedProjective | numeric/brick/numeric/transform2D_impl.hh:378-400 | a normalised transform maps each homogeneous point to the original image times 1 / m_22, the same 2D point |
| Transform2DMath.Construct | numeric/brick/numeric/transform2D_impl.hh:39-55 | the nine-argument constructor on a value: without normalisation the elements as given; with it, ValueException exactly when m_22 is 0, and otherwise the elements scaled by 1 / m_22, so that m_22 becomes 1 |
| Transform2DMath.Mul | numeric/brick/numeric/transform2D_impl.hh:447-473 | element (r, c) of the composition is row r of transform0 dotted with column c of transform1 |
| Transform2DMath.MulIdentity | numeric/brick/numeric/transform2D_impl.hh:447-473 | composing with the identity on either side gives the other operand back |
| Transform2DMath.ApplyPoint | numeric/brick/numeric/transform2D_impl.hh:349-360 | operator*(Vector2D) on (x, y) is the matrix times the homogeneous point (x, y, 1) |
| Transform2DMath.ApplyIsMatrixVectorProduct | numeric/brick/numeric/transform2D_impl.hh:356-359 | each component of the image is the matching row dotted with the point |
| Transform2DMath.ApplyIdentity | numeric/brick/numeric/transform2D_impl.hh:349-360 | the identity leaves every homogeneous point unchanged |
| Transform2DMath.ApplyMul | numeric/brick/numeric/transform2D_impl.hh:405-408 | (transform0 * transform1) * v == transform0 * (transform1 * v) for every homogeneous point v |
| Transform2DMath.Compose | numeric/brick/numeric/transform2D_impl.hh:405-479 | ValueException exactly when normalisation meets a product whose m_22 is 0; otherwise applying the result to any homogeneous point applies transform1 and then transform0, scaled by 1 / m_22 of the product when normalising |
| Transform2DMath.ComposeApply | numeric/brick/numeric/transform2D_impl.hh:405-478 | without normalisation the composition is the matrix product and satisfies the documented equation exactly; with it, up to the factor 1 / m_22 of the product |
| Transform2DMath.Det | numeric/brick/numeric/transform2D_impl.hh:166-178 | det012012, written as the expansion along the top row, equals the expansion by cofactors along each of the three rows and each of the three columns |
| Transform2DMath.AdjugateProduct | numeric/brick/numeric/transform2D_impl.hh:166-178 | the cofactor matrix times the matrix, on either side, is det012012 times the identity |
| Transform2DMath.DetMul | numeric/brick/numeric/transform2D_impl.hh:166-178 | the determinant det012012 of a product is the product of the determinants |
| Transform2DMath.Inverse | numeric/brick/numeric/transform2D_impl.hh:166-190 | when det012012 is not 0, the cofactor quotients are the cofactor matrix scaled by 1 / det012012 and form a two-sided inverse |
| Transform2DMath.SingularHasNoInverse | numeric/brick/numeric/transform2D_impl.hh:180-185 | when det012012 is 0 no transform composed with it on either side gives the identity, so refusing it loses nothing |
| Transform2DMath.Invert | numeric/brick/numeric/transform2D_impl.hh:152-191 | raises ValueException when det012012 is 0; without normalisation returns a two-sided inverse; with it succeeds exactly when det0101 is not 0 and the result has m_22 == 1; any result composed with the original on either side is a nonzero multiple of the identity |
| Transform2DMath.InvertNormalizedRejectsSwap | numeric/brick/numeric/transform2D_impl.hh:187-190 | the invertible permutation swapping x and w is inverted without normalisation but rejected with it |
| Transform2DObject.Transform2D.constructor | numeric/brick/numeric/transform2D_impl.hh:26-36 | a new object holds the identity |
| Transform2DObject.Transform2D.Copy | numeric/brick/numeric/transform2D_impl.hh:79-89 | the copy holds the same nine elements as its source |
| Transform2DObject.Transform2D.Elements | numeric/brick/numeric/transform2D_impl.hh:39-50 | the member initialisers store the nine arguments in row-major order |
| Transform2DObject.Transform2D.Create | numeric/brick/numeric/transform2D_impl.hh:39-55 | the nine-argument constructor yields a fresh object holding the given elements, normalised when doNormalize is set, or the ValueException normalize() raises |
| Transform2DObject.Transform2D.CreateFromArray | numeric/brick/numeric/transform2D_impl.hh:58-76 | the Array2D constructor yields a fresh object holding FromArray2D's value, or its ValueException |
| Transform2DObject.Transform2D.Element | numeric/brick/numeric/transform2D_impl.hh:304-346 | operator()(row, column) reads the same element as getValue<row, column>, including IndexException out of range |
| Transform2DObject.Transform2D.SetValue | numeric/brick/numeric/transform2D_impl.hh:216-256 | in range, exactly the row-major element 3 * row + column becomes val, the other eight are unchanged, and a later read returns val; out of range, IndexException and no change |
| Transform2DObject.Transform2D.Normalize | numeric/brick/numeric/transform2D_impl.hh:378-400 | normalize() leaves the object holding Normalized of its old value, or raises ValueException and changes nothing |
| Transform2DObject.Transform2D.SetTransform | numeric/brick/numeric/transform2D_impl.hh:194-213 | the object holds the given elements, normalised when doNormalize is set; when normalisation raises, the given elements stay |
| Transform2DObject.Transform2D.Assign | numeric/brick/numeric/transform2D_impl.hh:363-375 | after operator=, the object holds the source's elements; self-assignment changes nothing |
| Transform2DObject.NormalizeTwice | numeric/brick/numeric/transform2D_impl.hh:378-400 | two calls of normalize() report the same outcome and leave the object as one call does, with m_22 == 1 on success |
| Transform2DObject.SetThenGet | numeric/brick/numeric/transform2D_impl.hh:216-256 | on any transform, setValue followed by operator() on the same indices returns setValue's outcome and the value written, the other eight elements keep their values; out of range both raise IndexException and nothing changes |
| Transform2DCodec.Format | numeric/brick/numeric/transform2D_impl.hh:482-497 | operator<< writes 19 tokens, each fitting the layout the reader expects at its position, with the elements in row-major order at the odd positions |
| Transform2DCodec.MatchFrom | numeric/brick/numeric/transform2D_impl.hh:519-540 | from position k the reader accepts a run of tokens that fit and stops at the end of the form, the end of the input, or the first token that does not fit |
| Transform2DCodec.MatchLength | numeric/brick/numeric/transform2D_impl.hh:519-540 | the number of tokens operator>> consumes: all accepted, and followed by the end of the input or a misfit unless all 19 were read |
| Transform2DCodec.ParsedValues | numeric/brick/numeric/transform2D_impl.hh:527-537 | the nine values of a complete form, in the order they appear |
| Transform2DCodec.MatchLengthComplete | numeric/brick/numeric/transform2D_impl.hh:519-540 | a complete transform is read exactly when the input starts with "Transform2D(", nine values separated by commas, and ")" |
| Transform2DCodec.FormatParses | numeric/brick/numeric/transform2D_impl.hh:482-540 | whatever follows it, the text operator<< writes is read completely and yields the original elements in order |
| Transform2DCodec.TokenStream.ExpectWord | numeric/brick/numeric/transform2D_impl.hh:524 | common::Expect consumes the expected word, or fails the stream without consuming |
| Transform2DCodec.TokenStream.ReadNumber | numeric/brick/numeric/transform2D_impl.hh:530 | reading a value consumes a number token and returns it, or fails the stream without consuming |
| Transform2DCodec.ReadValueThen | numeric/brick/numeric/transform2D_impl.hh:529-540 | one value and the punctuation after it: either both fit and advance two positions, or the stream fails exactly where reading stops |
| Transform2DCodec.ReadLeading | numeric/brick/numeric/transform2D_impl.hh:527-534 | the loop reads the first eight values into the buffer in order, or stops where the input stops fitting |
| Transform2DCodec.ReadElements | numeric/brick/numeric/transform2D_impl.hh:519-540 | the reader consumes MatchLength tokens, stays good exactly after a complete form, and then returns its nine values |
| Transform2DCodec.Read | numeric/brick/numeric/transform2D_impl.hh:500-553 | a bad stream is left alone; an incomplete form fails the stream and leaves the transform unchanged; a complete one goes through setTransform, whose ValueException is passed on |
| Transform2DCodec.ReadBack | numeric/brick/numeric/transform2D_impl.hh:482-553 | writing a transform and reading it back without normalisation gives the same elements and consumes exactly the 19 tokens of the form |

## Left out

- The default of `doNormalize` is declared in `transform2D.hh`, which is not part of this model. Every operation that uses it takes it as a parameter.
- Floating point: `Type` is exact `real`, so roundoff is not modelled. This includes the remark in `invert()` that near-singular matrices pass the `== 0.0` test.
- The `Vector2D` type and its three-argument constructor, which dehomogenises, are not part of this model. `ApplyPoint` returns the homogeneous 3-vector that is handed to that constructor.
- `getFunctor()` and `Transform2DFunctor` are not modelled: the functor type is not part of this model.
- The templated `setValue<row, column>(val)` is modelled by `Transform2D.SetValue`. It has the same branches and exception, with the indices fixed at compile time.
- Transform2D.Element: `operator()` reads element (2, 0) through `value<2, 0>()`, which is not defined in the modelled file. It is modelled as reading `m_20`, as `getValue<2, 0>()` does.
- Messages of exceptions are not modelled; only the exception type is.
- Stream mechanics of `operator>>` are not modelled:
  - saving and restoring the exception mask;
  - whitespace skipping by `common::Expect`;
  - the character-level syntax of numbers;
  - `eofbit` raised at the end of input.
  - The text is a token sequence. `", "` and `","` are the same comma token, and a token that does not fit is taken not to be consumed.
- FormatParses, ReadBack: the exact round trip holds because a number token carries an exact real. `operator<<` prints each element at the stream's precision, six significant digits by default, so the program reads back only an approximation of the elements.
- Read: `if (!stream)` tests only for failure, and the exception mask, which includes `eofbit`, is set at lines 512-514, before the `try` block at line 517. On a stream that has `eofbit` set but has not failed, setting the mask raises `ios_base::failure` at once, and it escapes `operator>>`. The model's "a bad stream is left alone" covers only a stream that has already failed.
- Read: when setTransform's normalisation raises `ValueException`, the exception leaves `operator>>` before the exception mask is restored. The model returns it as an outcome and does not model the mask.
- The specialisations of composition for `double` and `float` mentioned in a comment of the composition operator are not in the modelled file.
- Composition and inversion are modelled as functions on values (`Compose`, `Invert`) rather than as methods that allocate a new `Transform2D` through the nine-argument constructor. The object wrapper is `Transform2D.Create`.
- The remaining repository files, an FFT test and a bullseye keypoint detector test, are not part of this model. They are floating-point numerics and image I/O around code whose implementation is not present.
