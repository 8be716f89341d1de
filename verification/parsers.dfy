/** The nom combinators the message decoders are built from, and the shared
    field parsers of `lib/src/rf_explorer/parsers.rs`. A parser maps its input
    to the parsed value and the unconsumed rest, or to a nom failure. */
module Parsers {
  import opened Wrappers
  import opened Bytes
  import opened Numbers

  /** nom's two outcomes that matter here: a recoverable `Error`, and
      `Incomplete`, which only a streaming parser on short input produces. */
  datatype Failure = NomError | NomIncomplete

  datatype Parsed<T> = Parsed(value: T, rest: seq<Byte>)

  type PResult<T> = Result<Parsed<T>, Failure>

  /** `bytes::complete::tag` */
  function Tag(input: seq<Byte>, t: seq<Byte>): (r: PResult<seq<Byte>>)
    ensures r.Ok? <==> StartsWith(input, t)
    ensures r.Ok? ==> input == t + r.value.rest
    ensures r.Err? ==> r.error == NomError
  {
    if StartsWith(input, t) then
      assert input == t + input[|t|..];
      Ok(Parsed(t, input[|t|..]))
    else Err(NomError)
  }

  /** `bytes::complete::take`: too little input is an `Error`. */
  function Take(input: seq<Byte>, n: nat): (r: PResult<seq<Byte>>)
    ensures r.Ok? <==> n <= |input|
    ensures r.Ok? ==> |r.value.value| == n && input == r.value.value + r.value.rest
    ensures r.Err? ==> r.error == NomError
  {
    if n <= |input| then
      assert input == input[..n] + input[n..];
      Ok(Parsed(input[..n], input[n..]))
    else Err(NomError)
  }

  /** `bytes::streaming::take`: too little input is `Incomplete`. */
  function TakeStreaming(input: seq<Byte>, n: nat): (r: PResult<seq<Byte>>)
    ensures r.Ok? <==> n <= |input|
    ensures r.Ok? ==> |r.value.value| == n && input == r.value.value + r.value.rest
    ensures r.Err? ==> r.error == NomIncomplete
  {
    if n <= |input| then
      assert input == input[..n] + input[n..];
      Ok(Parsed(input[..n], input[n..]))
    else Err(NomIncomplete)
  }

  /** `combinator::opt` applied to the outcome `r` of a parser run on
      `input`: an `Error` becomes `None` and consumes nothing. */
  function Opt<T>(r: PResult<T>, input: seq<Byte>): (o: PResult<Option<T>>)
    ensures r.Ok? ==> o == Ok(Parsed(Some(r.value.value), r.value.rest))
    ensures r == Err(NomError) ==> o == Ok(Parsed(None, input))
    ensures r == Err(NomIncomplete) ==> o == Err(NomIncomplete)
  {
    match r
    case Ok(p) => Ok(Parsed(Some(p.value), p.rest))
    case Err(NomError) => Ok(Parsed(None, input))
    case Err(NomIncomplete) => Err(NomIncomplete)
  }

  /** `opt` over a complete parser, which cannot report `Incomplete`, so the
      outcome is always a parse. */
  function OptComplete<T>(r: PResult<T>, input: seq<Byte>): (o: Parsed<Option<T>>)
    requires r != Err(NomIncomplete)
    ensures r.Ok? ==> o == Parsed(Some(r.value.value), r.value.rest)
    ensures r.Err? ==> o == Parsed(None, input)
  {
    Opt(r, input).value
  }

  /** A comma followed by a `parse_num` field, the shape of every field after
      the first. */
  function CommaNum(input: seq<Byte>, digits: nat, t: IntType): (r: PResult<int>)
    ensures r.Ok? <==> |input| >= 1 && input[0] == COMMA && ParseNum(input[1..], digits, t).Ok?
    ensures r.Ok? ==> r == ParseNum(input[1..], digits, t)
    ensures r.Err? ==> r.error == NomError
  {
    var c :- ParseComma(input);
    ParseNum(c.rest, digits, t)
  }

  /** `branch::alt` over two parser outcomes on the same input: the second
      is tried only when the first failed with `Error`. */
  function Alt<T>(first: PResult<T>, second: PResult<T>): (r: PResult<T>)
    ensures first.Ok? ==> r == first
    ensures first == Err(NomError) ==> r == second
  {
    if first == Err(NomError) then second else first
  }

  /** `parse_num(digits)`: exactly `digits` bytes, read as a number of
      type `t`. */
  function ParseNum(input: seq<Byte>, digits: nat, t: IntType): (r: PResult<int>)
    ensures r.Ok? <==> digits <= |input| && FromStr(input[..digits], t).Some?
    ensures r.Ok? ==> r.value.rest == input[digits..] && t.Contains(r.value.value)
    ensures r.Ok? ==> -(Pow10(digits) as int) < r.value.value < Pow10(digits)
    ensures r.Err? ==> r.error == NomError
  {
    var field :- Take(input, digits);
    match FromStr(field.value, t)
    case Some(v) => Ok(Parsed(v, field.rest))
    case None => Err(NomError)
  }

  /** `parse_frequency(digits)` is `parse_num` at type `u64`. */
  function ParseFrequency(input: seq<Byte>, digits: nat): (r: PResult<int>)
    ensures r == ParseNum(input, digits, U64)
    ensures r.Ok? ==> 0 <= r.value.value <= U64_MAX
  {
    ParseNum(input, digits, U64)
  }

  function ParseComma(input: seq<Byte>): (r: PResult<seq<Byte>>)
    ensures r.Ok? <==> |input| >= 1 && input[0] == COMMA
    ensures r.Ok? ==> r.value.rest == input[1..]
    ensures r.Err? ==> r.error == NomError
  {
    Tag(input, [COMMA])
  }

  /** `character::complete::line_ending` */
  function LineEnding(input: seq<Byte>): (r: PResult<seq<Byte>>)
    ensures r.Ok? <==> StartsWith(input, [LF]) || StartsWith(input, [CR, LF])
    ensures r.Ok? ==> (r.value.value == [LF] || r.value.value == [CR, LF])
                      && input == r.value.value + r.value.rest
    ensures r.Err? ==> r.error == NomError
  {
    if StartsWith(input, [LF]) then
      assert input == [LF] + input[1..];
      Ok(Parsed([LF], input[1..]))
    else if StartsWith(input, [CR, LF]) then
      assert input == [CR, LF] + input[2..];
      Ok(Parsed([CR, LF], input[2..]))
    else Err(NomError)
  }

  /** `all_consuming` applied to the outcome of a parser. */
  function AllConsuming<T>(r: PResult<T>): (o: PResult<T>)
    ensures o.Ok? <==> r.Ok? && r.value.rest == []
  {
    match r
    case Ok(p) => if p.rest == [] then r else Err(NomError)
    case Err(e) => r
  }

  predicate IsLineEnding(s: seq<Byte>) {
    s == [] || s == [LF] || s == [CR, LF]
  }

  /** `parse_opt_line_ending`: nothing but an optional `\n` or `\r\n` may
      remain. */
  function ParseOptLineEnding(input: seq<Byte>): (r: PResult<Option<seq<Byte>>>)
    ensures r.Ok? <==> IsLineEnding(input)
    ensures r.Ok? ==> r.value.rest == [] && (r.value.value.Some? <==> input != [])
    ensures r.Err? ==> r.error == NomError
  {
    LineEndingAlone(input);
    AllConsuming(Opt(LineEnding(input), input))
  }

  lemma LineEndingAlone(input: seq<Byte>)
    ensures LineEnding(input).Ok? ==> (LineEnding(input).value.rest == [] <==> IsLineEnding(input))
    ensures LineEnding(input).Err? ==> (input == [] <==> IsLineEnding(input))
  {
    var le := LineEnding(input);
    if le.Ok? {
      if le.value.rest == [] {
        assert input == le.value.value;
      }
      if input == [LF] {
        assert StartsWith(input, [LF]);
        assert le.value.rest == input[1..] == [];
      } else if input == [CR, LF] {
        assert input[..1] == [CR] && input[..2] == [CR, LF];
        assert le.value.rest == input[2..] == [];
      }
    } else {
      assert input != [LF] && input != [CR, LF];
    }
  }

  /** A non-empty digit string is consumed by `parse_num` of its own width. */
  lemma ParseNumDigits(s: seq<Byte>, t: IntType, rest: seq<Byte>)
    requires |s| >= 1 && AllDigits(s) && t.Contains(DecValue(s))
    ensures ParseNum(s + rest, |s|, t) == Ok(Parsed(DecValue(s) as int, rest))
  {
    assert (s + rest)[..|s|] == s && (s + rest)[|s|..] == rest;
    assert IsDigit(s[0]);
  }

  /** A `{:0w}` rendering is consumed by `parse_num(w)` exactly. */
  lemma ParseNumPadded(v: nat, w: nat, t: IntType, rest: seq<Byte>)
    requires t.Contains(v) && v < Pow10(w) && w >= 1
    ensures ParseNum(Padded(v, w) + rest, w, t) == Ok(Parsed(v as int, rest))
  {
    var s := Padded(v, w) + rest;
    assert s[..w] == Padded(v, w);
    assert s[w..] == rest;
    FromStrPadded(v, w, t);
  }

  /** The same for a signed `{:0w}` rendering whose value fits the width. */
  lemma ParseNumSignedPadded(v: int, w: nat, t: IntType, rest: seq<Byte>)
    requires t.Contains(v) && w >= 2
    requires if v >= 0 then v < Pow10(w) else -v < Pow10(w - 1)
    ensures ParseNum(SignedPadded(v, w) + rest, w, t) == Ok(Parsed(v, rest))
  {
    if v >= 0 {
      ParseNumPadded(v, w, t, rest);
    } else {
      var s := SignedPadded(v, w);
      assert |s| == w;
      assert (s + rest)[..w] == s && (s + rest)[w..] == rest;
      FromStrSignedPadded(v, w, t);
    }
  }

  /** A comma and a `{:0w}` field are consumed by `CommaNum` exactly. */
  lemma CommaNumPadded(v: nat, w: nat, t: IntType, rest: seq<Byte>)
    requires t.Contains(v) && v < Pow10(w) && w >= 1
    ensures CommaNum([COMMA] + (Padded(v, w) + rest), w, t) == Ok(Parsed(v as int, rest))
  {
    assert ([COMMA] + (Padded(v, w) + rest))[1..] == Padded(v, w) + rest;
    ParseNumPadded(v, w, t, rest);
  }

  lemma CommaNumSignedPadded(v: int, w: nat, t: IntType, rest: seq<Byte>)
    requires t.Contains(v) && w >= 2
    requires if v >= 0 then v < Pow10(w) else -v < Pow10(w - 1)
    ensures CommaNum([COMMA] + (SignedPadded(v, w) + rest), w, t) == Ok(Parsed(v, rest))
  {
    assert ([COMMA] + (SignedPadded(v, w) + rest))[1..] == SignedPadded(v, w) + rest;
    ParseNumSignedPadded(v, w, t, rest);
  }

  lemma TagThen(t: seq<Byte>, rest: seq<Byte>)
    ensures Tag(t + rest, t) == Ok(Parsed(t, rest))
  {
    assert (t + rest)[..|t|] == t && (t + rest)[|t|..] == rest;
  }

  lemma CommaThen(rest: seq<Byte>)
    ensures ParseComma([COMMA] + rest) == Ok(Parsed([COMMA], rest))
  {
    assert ([COMMA] + rest)[1..] == rest;
  }

  /** A one-digit field holding `d`. */
  lemma DigitField(d: nat)
    requires d < 10
    ensures Padded(d, 1) == [48 + d]
  {
  }

  /** `parse_num` on too little input fails with `Error`, never with
      `Incomplete`. */
  lemma ParseNumShortIsError(input: seq<Byte>, digits: nat, t: IntType)
    requires |input| < digits
    ensures ParseNum(input, digits, t) == Err(NomError)
  {
  }

  /** A one-digit `u8` field is exactly one ASCII digit, read as itself. */
  lemma ParseNumOneDigit(input: seq<Byte>)
    ensures ParseNum(input, 1, U8).Ok? <==> |input| >= 1 && IsDigit(input[0])
    ensures ParseNum(input, 1, U8).Ok? ==> ParseNum(input, 1, U8).value.value == input[0] - 48
  {
    if |input| >= 1 {
      var s := input[..1];
      assert s[..0] == [];
      if IsDigit(input[0]) {
        assert AllDigits(s);
        assert DecValue(s) == input[0] - 48;
      } else {
        assert !IsDigit(s[0]);
      }
    }
  }
}
