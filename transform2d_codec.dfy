/**
 * The text form of a Transform2D, "Transform2D(a00, a01, ..., a22)", as a
 * sequence of tokens: the words "Transform2D(", "," and ")" and one Number
 * token per element.  Whitespace and the digits of a number are below the
 * level of this model.
 */
module Transform2DCodec {
  import opened Errors
  import opened Transform2DMath
  import opened Transform2DObject

  datatype Token = Word(text: string) | Number(value: real)

  /** The word that opens the text form. */
  const Open: string := "Transform2D("

  /** The number of tokens in the text form: the opening word, nine numbers, eight commas, ")". */
  const FormLength: nat := 19

  /** What the reader demands at one position of the text form. */
  datatype Expected = ExpectWord(text: string) | ExpectNumber

  /** The position of the text form each token must fill: numbers at the odd positions. */
  function ExpectedAt(k: nat): Expected
  {
    if k == 0 then ExpectWord(Open)
    else if k == FormLength - 1 then ExpectWord(")")
    else if k % 2 == 1 then ExpectNumber
    else ExpectWord(",")
  }

  lemma ExpectedNumberAt(i: nat)
    requires i < 9
    ensures ExpectedAt(2 * i + 1) == ExpectNumber
  {
  }

  lemma ExpectedCommaAt(i: nat)
    requires i < 8
    ensures ExpectedAt(2 * i + 2) == ExpectWord(",")
  {
  }

  predicate Accepts(e: Expected, t: Token)
  {
    match e
    case ExpectWord(w) => t == Word(w)
    case ExpectNumber => t.Number?
  }

  /**
   * The text form, spelled out independently of ExpectedAt: the opening
   * word, then the nine elements with a comma after each but the last, then ")".
   */
  predicate WellFormed(toks: seq<Token>)
  {
    && |toks| >= FormLength
    && toks[0] == Word(Open)
    && (forall i :: 0 <= i < 9 ==> toks[2 * i + 1].Number?)
    && (forall i :: 0 <= i < 8 ==> toks[2 * i + 2] == Word(","))
    && toks[FormLength - 1] == Word(")")
  }

  /**
   * operator<<: "Transform2D(", the nine elements row by row, each but the
   * last followed by ",", then ")".
   */
  function Format(m: Mat3): (r: seq<Token>)
    ensures |r| == FormLength
    ensures forall k :: 0 <= k < FormLength ==> Accepts(ExpectedAt(k), r[k])
    ensures forall i :: 0 <= i < 9 ==> r[2 * i + 1] == Number(Flatten(m)[i])
  {
    [Word(Open),
     Number(m.m00), Word(","), Number(m.m01), Word(","), Number(m.m02), Word(","),
     Number(m.m10), Word(","), Number(m.m11), Word(","), Number(m.m12), Word(","),
     Number(m.m20), Word(","), Number(m.m21), Word(","), Number(m.m22),
     Word(")")]
  }

  /**
   * How many tokens of `toks`, from position k on, the reader accepts before
   * it stops: at the end of the form, at the end of the input, or at the
   * first token that does not fit.
   */
  function MatchFrom(toks: seq<Token>, k: nat): (n: nat)
    requires k <= FormLength
    ensures k <= n <= FormLength
    ensures n == k || n <= |toks|
    ensures forall j :: k <= j < n ==> Accepts(ExpectedAt(j), toks[j])
    ensures n < FormLength ==> n >= |toks| || !Accepts(ExpectedAt(n), toks[n])
    decreases FormLength - k
  {
    if k == FormLength || k >= |toks| || !Accepts(ExpectedAt(k), toks[k]) then k
    else MatchFrom(toks, k + 1)
  }

  /** The number of tokens operator>> consumes from `toks` before it stops. */
  function MatchLength(toks: seq<Token>): (n: nat)
    ensures n <= FormLength && n <= |toks|
    ensures forall j :: 0 <= j < n ==> Accepts(ExpectedAt(j), toks[j])
    ensures n < FormLength ==> n == |toks| || !Accepts(ExpectedAt(n), toks[n])
  {
    MatchFrom(toks, 0)
  }

  /** The accepted prefix and the place where reading stops determine MatchFrom. */
  lemma {:induction false} MatchFromIs(toks: seq<Token>, k: nat, n: nat)
    requires k <= n <= FormLength
    requires n == k || n <= |toks|
    requires forall j :: k <= j < n ==> Accepts(ExpectedAt(j), toks[j])
    requires n < FormLength ==> n >= |toks| || !Accepts(ExpectedAt(n), toks[n])
    ensures MatchFrom(toks, k) == n
    decreases n - k
  {
    if k < n {
      assert Accepts(ExpectedAt(k), toks[k]);
      MatchFromIs(toks, k + 1, n);
    }
  }

  /** A token that fits at position n, once the first n have been accepted, is accepted too. */
  lemma Advance(toks: seq<Token>, n: nat)
    requires n < FormLength && MatchLength(toks) >= n
    requires n < |toks| && Accepts(ExpectedAt(n), toks[n])
    ensures MatchLength(toks) >= n + 1
  {
  }

  /** Reading stops at the first position whose token does not fit, or at the end of the input. */
  lemma StopAt(toks: seq<Token>, n: nat)
    requires n < FormLength && MatchLength(toks) >= n
    requires n >= |toks| || !Accepts(ExpectedAt(n), toks[n])
    ensures MatchLength(toks) == n
  {
  }

  /** The nine values read, in the order they appear. */
  function ParsedValues(toks: seq<Token>): (s: seq<real>)
    requires MatchLength(toks) == FormLength
    ensures |s| == 9
    ensures forall i :: 0 <= i < 9 ==> toks[2 * i + 1] == Number(s[i])
  {
    assert forall i :: 0 <= i < 9 ==> toks[2 * i + 1].Number? by {
      forall i | 0 <= i < 9 ensures toks[2 * i + 1].Number? {
        assert Accepts(ExpectedAt(2 * i + 1), toks[2 * i + 1]);
      }
    }
    seq(9, i requires 0 <= i < 9 => toks[2 * i + 1].value)
  }

  /** operator>> reads a complete transform exactly when the input starts with the text form. */
  lemma MatchLengthComplete(toks: seq<Token>)
    ensures MatchLength(toks) == FormLength <==> WellFormed(toks)
  {
    if WellFormed(toks) {
      forall j | 0 <= j < FormLength
        ensures Accepts(ExpectedAt(j), toks[j])
      {
        if 0 < j < FormLength - 1 {
          if j % 2 == 1 {
            assert toks[2 * ((j - 1) / 2) + 1].Number?;
          } else {
            assert toks[2 * ((j - 2) / 2) + 2] == Word(",");
          }
        }
      }
      MatchFromIs(toks, 0, FormLength);
    }
    if MatchLength(toks) == FormLength {
      forall i | 0 <= i < 9 ensures toks[2 * i + 1].Number? {
        assert Accepts(ExpectedAt(2 * i + 1), toks[2 * i + 1]);
      }
      forall i | 0 <= i < 8 ensures toks[2 * i + 2] == Word(",") {
        assert Accepts(ExpectedAt(2 * i + 2), toks[2 * i + 2]);
      }
      assert Accepts(ExpectedAt(0), toks[0]);
      assert Accepts(ExpectedAt(FormLength - 1), toks[FormLength - 1]);
    }
  }

  /** What operator<< writes, operator>> reads back, whatever follows it. */
  lemma FormatParses(m: Mat3, rest: seq<Token>)
    ensures MatchLength(Format(m) + rest) == FormLength
    ensures ParsedValues(Format(m) + rest) == Flatten(m)
  {
  }

  /** An input stream of tokens with its read position and its good/fail state. */
  class TokenStream {
    var tokens: seq<Token>
    var pos: nat
    var good: bool

    predicate Valid()
      reads this
    {
      pos <= |tokens|
    }

    constructor (input: seq<Token>)
      ensures Valid() && tokens == input && pos == 0 && good
    {
      tokens, pos, good := input, 0, true;
    }

    /**
     * common::Expect(text): consumes the next token when it is the word
     * `text`; otherwise the stream fails and the token stays where it is.
     */
    method ExpectWord(text: string)
      requires Valid()
      modifies this
      ensures Valid() && tokens == old(tokens)
      ensures var ok := old(good) && old(pos) < |tokens| && tokens[old(pos)] == Word(text);
              (good <==> ok) && pos == (if ok then old(pos) + 1 else old(pos))
    {
      if good && pos < |tokens| && tokens[pos] == Word(text) {
        pos := pos + 1;
      } else {
        good := false;
      }
    }

    /**
     * stream >> value: consumes the next token when it is a number and
     * returns its value; otherwise the stream fails and the token stays.
     */
    method ReadNumber() returns (v: real)
      requires Valid()
      modifies this
      ensures Valid() && tokens == old(tokens)
      ensures var ok := old(good) && old(pos) < |tokens| && tokens[old(pos)].Number?;
              (good <==> ok) && pos == (if ok then old(pos) + 1 else old(pos))
              && (ok ==> v == tokens[old(pos)].value)
    {
      if good && pos < |tokens| && tokens[pos].Number? {
        v := tokens[pos].value;
        pos := pos + 1;
      } else {
        v := 0.0;
        good := false;
      }
    }
  }

  /**
   * A value and the word after it: one pass of the loop of operator>>
   * ("," after the value at position 2 * index + 1), and, for index 8, the
   * final value and ")".
   */
  method ReadValueThen(stream: TokenStream, ghost rest: seq<Token>, ghost p0: nat, index: nat, text: string)
      returns (v: real)
    requires index < 9 && ExpectedAt(2 * index + 2) == ExpectWord(text)
    requires stream.Valid() && stream.good && stream.pos == p0 + 1 + 2 * index
    requires p0 <= |stream.tokens| && rest == stream.tokens[p0..] && MatchLength(rest) >= 1 + 2 * index
    modifies stream
    ensures stream.Valid() && stream.tokens == old(stream.tokens)
    ensures stream.good ==>
              stream.pos == p0 + 3 + 2 * index && MatchLength(rest) >= 3 + 2 * index && rest[2 * index + 1] == Number(v)
    ensures !stream.good ==> stream.pos == p0 + MatchLength(rest) && MatchLength(rest) < 3 + 2 * index
  {
    ExpectedNumberAt(index);
    v := stream.ReadNumber();
    if !stream.good {
      StopAt(rest, 1 + 2 * index);
      return;
    }
    Advance(rest, 1 + 2 * index);
    stream.ExpectWord(text);
    if !stream.good {
      StopAt(rest, 2 + 2 * index);
      return;
    }
    Advance(rest, 2 + 2 * index);
  }

  /**
   * The loop of operator>>: eight values, each followed by ",", read into a
   * nine-element buffer, stopping at the first token that does not fit.
   * `rest` is the input from the opening word on, which is already consumed.
   */
  method ReadLeading(stream: TokenStream, ghost rest: seq<Token>, ghost p0: nat) returns (inputValues: array<real>)
    requires stream.Valid() && stream.good && stream.pos == p0 + 1
    requires p0 <= |stream.tokens| && rest == stream.tokens[p0..] && MatchLength(rest) >= 1
    modifies stream
    ensures fresh(inputValues) && inputValues.Length == 9
    ensures stream.Valid() && stream.tokens == old(stream.tokens)
    ensures stream.good ==>
              && stream.pos == p0 + 17 && MatchLength(rest) >= 17
              && forall j :: 0 <= j < 8 ==> rest[2 * j + 1] == Number(inputValues[j])
    ensures !stream.good ==> stream.pos == p0 + MatchLength(rest) && MatchLength(rest) < 17
  {
    inputValues := new real[9];
    var index := 0;
    while index < 8
      invariant 0 <= index <= 8
      invariant stream.Valid() && stream.tokens == old(stream.tokens) && stream.good
      invariant stream.pos == p0 + 1 + 2 * index
      invariant MatchLength(rest) >= 1 + 2 * index
      invariant forall j :: 0 <= j < index ==> rest[2 * j + 1] == Number(inputValues[j])
    {
      ExpectedCommaAt(index);
      var v := ReadValueThen(stream, rest, p0, index, ",");
      if !stream.good {
        return;
      }
      inputValues[index] := v;
      index := index + 1;
    }
  }

  /**
   * The reading part of operator>>: "Transform2D(", the loop, the last value
   * and ")", stopping at the first token that does not fit.  When all nine
   * values are read they are returned in order.
   */
  method ReadElements(stream: TokenStream, ghost rest: seq<Token>) returns (values: seq<real>)
    requires stream.Valid() && stream.good && rest == stream.tokens[stream.pos..]
    modifies stream
    ensures stream.Valid() && stream.tokens == old(stream.tokens)
    ensures stream.pos == old(stream.pos) + MatchLength(rest)
    ensures stream.good <==> MatchLength(rest) == FormLength
    ensures stream.good ==> values == ParsedValues(rest)
  {
    ghost var p0 := stream.pos;
    values := [];
    stream.ExpectWord(Open);
    if !stream.good {
      StopAt(rest, 0);
      return;
    }
    Advance(rest, 0);
    var inputValues := ReadLeading(stream, rest, p0);
    if !stream.good {
      return;
    }
    assert ExpectedAt(FormLength - 1) == ExpectWord(")");
    var last := ReadValueThen(stream, rest, p0, 8, ")");
    if !stream.good {
      return;
    }
    inputValues[8] := last;
    values := inputValues[..];
    assert forall i :: 0 <= i < 9 ==> values[i] == ParsedValues(rest)[i];
  }

  /**
   * operator>>(stream, transform0).  A stream that is already bad is left
   * alone.  Otherwise the reader consumes MatchLength of the remaining tokens;
   * when it stops early the stream fails and transform0 is unchanged.  After
   * a complete text form transform0 is set by setTransform, whose
   * ValueException from normalisation is not caught and is returned here.
   */
  method Read(stream: TokenStream, transform0: Transform2D, doNormalize: bool) returns (o: Outcome)
    requires stream.Valid()
    modifies stream, transform0
    ensures stream.Valid() && stream.tokens == old(stream.tokens)
    ensures !old(stream.good) ==>
              !stream.good && stream.pos == old(stream.pos) && transform0.Value() == old(transform0.Value()) && o == Pass
    ensures old(stream.good) ==>
              var rest := old(stream.tokens[stream.pos..]);
              var n := MatchLength(rest);
              && stream.pos == old(stream.pos) + n
              && (stream.good <==> n == FormLength)
              && (n < FormLength ==> transform0.Value() == old(transform0.Value()) && o == Pass)
              && (n == FormLength ==>
                    var given := FromRowMajor(ParsedValues(rest));
                    match Construct(given, doNormalize)
                    case Ok(m) => o == Pass && transform0.Value() == m
                    case Err(e) => o == Fail(e) && transform0.Value() == given)
  {
    if !stream.good {
      return Pass;
    }
    var inputValues := ReadElements(stream, stream.tokens[stream.pos..]);
    if !stream.good {
      return Pass;
    }
    o := transform0.SetTransform(inputValues[0], inputValues[1], inputValues[2],
                                 inputValues[3], inputValues[4], inputValues[5],
                                 inputValues[6], inputValues[7], inputValues[8], doNormalize);
  }

  /**
   * Writing a transform and reading the text back, without normalisation,
   * gives the same elements, and the reader stops right after the form.
   */
  method ReadBack(m: Mat3, rest: seq<Token>) returns (r: Mat3, consumed: nat)
    ensures r == m
    ensures consumed == FormLength
  {
    var stream := new TokenStream(Format(m) + rest);
    var t := new Transform2D();
    FormatParses(m, rest);
    var o := Read(stream, t, false);
    r, consumed := t.Value(), stream.pos;
  }
}
