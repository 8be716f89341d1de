/** Messages made of a prefix, one code byte and an optional line ending:
    the input stage `#a`, the tracking status `#K` and the generator
    temperature `#T:`. The byte is taken with a complete parser, so a
    message cut before its code byte is an error, not `Incomplete`. */
module CodeMessages {
  import opened Wrappers
  import opened Bytes
  import opened Parsers
  import opened MessageError

  /** `preceded(tag(prefix), map_res(u8, T::try_from))` followed by
      `parse_opt_line_ending`. */
  function ParseCode<T>(bytes: seq<Byte>, prefix: seq<Byte>, decode: Byte -> Option<T>): (r: PResult<T>)
    ensures r.Ok? <==> (StartsWith(bytes, prefix) && |bytes| > |prefix| && decode(bytes[|prefix|]).Some?
                        && IsLineEnding(bytes[|prefix| + 1..]))
    ensures r.Ok? ==> Some(r.value.value) == decode(bytes[|prefix|]) && r.value.rest == []
    ensures r.Err? ==> r.error == NomError
  {
    var t :- Tag(bytes, prefix);
    var b :- Take(t.rest, 1);
    assert b.value[0] == bytes[|prefix|] && b.rest == bytes[|prefix| + 1..];
    match decode(b.value[0])
    case None => Err(NomError)
    case Some(v) =>
      var le :- ParseOptLineEnding(b.rest);
      Ok(Parsed(v, le.rest))
  }

  function FromBytesCode<T>(bytes: seq<Byte>, prefix: seq<Byte>, decode: Byte -> Option<T>)
    : (r: Result<T, MessageParseError>)
    ensures r.Ok? <==> ParseCode(bytes, prefix, decode).Ok?
    ensures r.Ok? ==> r.value == ParseCode(bytes, prefix, decode).value.value
    ensures r.Err? ==> r.error == Invalid
  {
    LiftParsed(ParseCode(bytes, prefix, decode))
  }

  lemma RoundTrip<T>(prefix: seq<Byte>, decode: Byte -> Option<T>, code: Byte, lineEnding: seq<Byte>)
    requires decode(code).Some? && IsLineEnding(lineEnding)
    ensures FromBytesCode(prefix + [code] + lineEnding, prefix, decode) == Ok(decode(code).value)
  {
    var b := prefix + [code] + lineEnding;
    assert b[..|prefix|] == prefix && b[|prefix|] == code && b[|prefix| + 1..] == lineEnding;
  }

  /** The prefix alone is rejected outright: there is no waiting for the
      code byte. */
  lemma PrefixAloneIsInvalid<T>(prefix: seq<Byte>, decode: Byte -> Option<T>)
    ensures FromBytesCode(prefix, prefix, decode) == Err(Invalid)
  {
  }
}

/** `DspMode`, the `DSP:` message: one decimal digit. */
module DspModes {
  import opened Wrappers
  import opened Bytes
  import opened Numbers
  import opened Parsers
  import opened MessageError

  datatype DspMode = Auto | Filter | Fast | NoImg {
    function Code(): (c: Byte)
      ensures FromCode(c) == Some(this)
    {
      match this
      case Auto => 0
      case Filter => 1
      case Fast => 2
      case NoImg => 3
    }
  }

  const DEFAULT: DspMode := Auto
  const PREFIX: seq<Byte> := [68, 83, 80, 58]   // "DSP:"

  function FromCode(code: int): (r: Option<DspMode>)
    ensures r.Some? <==> 0 <= code <= 3
  {
    match code
    case 0 => Some(Auto)
    case 1 => Some(Filter)
    case 2 => Some(Fast)
    case 3 => Some(NoImg)
    case _ => None
  }

  lemma {:induction false} CodeRoundTrip(m: DspMode, code: int)
    ensures FromCode(m.Code()) == Some(m)
    ensures FromCode(code) == Some(m) ==> m.Code() == code
  {
  }

  /** `tag("DSP:")`, `map_res(parse_num::<u8>(1), DspMode::try_from)`,
      `parse_opt_line_ending`. */
  function Parse(bytes: seq<Byte>): (r: PResult<DspMode>)
    ensures r.Ok? <==> (StartsWith(bytes, PREFIX) && |bytes| > 4 && 48 <= bytes[4] <= 51
                        && IsLineEnding(bytes[5..]))
    ensures r.Ok? ==> r.value.value.Code() == bytes[4] - 48 && r.value.rest == []
    ensures r.Err? ==> r.error == NomError
  {
    var t :- Tag(bytes, PREFIX);
    ParseNumOneDigit(t.rest);
    var n :- ParseNum(t.rest, 1, U8);
    assert t.rest == bytes[4..];
    match FromCode(n.value)
    case None => Err(NomError)
    case Some(m) =>
      var le :- ParseOptLineEnding(n.rest);
      Ok(Parsed(m, le.rest))
  }

  function FromBytes(bytes: seq<Byte>): (r: Result<DspMode, MessageParseError>)
    ensures r.Ok? <==> (StartsWith(bytes, PREFIX) && |bytes| > 4 && 48 <= bytes[4] <= 51
                        && IsLineEnding(bytes[5..]))
    ensures r.Ok? ==> r.value.Code() == bytes[4] - 48
    ensures r.Err? ==> r.error == Invalid
  {
    LiftParsed(Parse(bytes))
  }

  lemma RoundTrip(m: DspMode, lineEnding: seq<Byte>)
    requires IsLineEnding(lineEnding)
    ensures FromBytes(PREFIX + [48 + m.Code()] + lineEnding) == Ok(m)
  {
    var b := PREFIX + [48 + m.Code()] + lineEnding;
    assert b[..4] == PREFIX && b[4] == 48 + m.Code() && b[5..] == lineEnding;
    CodeRoundTrip(m, m.Code());
  }

  /** `DSP:0` is `Auto`, the default mode. */
  lemma AcceptAuto()
    ensures FromBytes([68, 83, 80, 58, 48]) == Ok(DEFAULT)
  {
    RoundTrip(Auto, []);
    assert PREFIX + [48 + Auto.Code()] + [] == [68, 83, 80, 58, 48];
  }

  /** Digits beyond the enum are rejected. */
  lemma RejectUnknownDigit(d: Byte, lineEnding: seq<Byte>)
    requires 52 <= d <= 57
    ensures FromBytes(PREFIX + [d] + lineEnding) == Err(Invalid)
  {
    var b := PREFIX + [d] + lineEnding;
    assert b[..4] == PREFIX && b[4] == d;
  }
}

/** `InputStage`, the `#a` message: the stage is the ASCII digit itself. */
module InputStages {
  import opened Wrappers
  import opened Bytes
  import opened Parsers
  import opened MessageError
  import CodeMessages

  datatype InputStage = Direct | Attenuator30dB | Lna25dB | Attenuator60dB | Lna12dB {
    function Code(): (c: Byte)
      ensures FromCode(c) == Some(this)
    {
      match this
      case Direct => 48
      case Attenuator30dB => 49
      case Lna25dB => 50
      case Attenuator60dB => 51
      case Lna12dB => 52
    }
  }

  const PREFIX: seq<Byte> := [35, 97]   // "#a"

  function FromCode(code: Byte): (r: Option<InputStage>)
    ensures r.Some? <==> 48 <= code <= 52
  {
    match code
    case 48 => Some(Direct)
    case 49 => Some(Attenuator30dB)
    case 50 => Some(Lna25dB)
    case 51 => Some(Attenuator60dB)
    case 52 => Some(Lna12dB)
    case _ => None
  }

  lemma {:induction false} CodeRoundTrip(s: InputStage, code: Byte)
    ensures FromCode(s.Code()) == Some(s)
    ensures FromCode(code) == Some(s) ==> s.Code() == code
  {
  }

  function FromBytes(bytes: seq<Byte>): (r: Result<InputStage, MessageParseError>)
    ensures r.Ok? <==> (StartsWith(bytes, PREFIX) && |bytes| > 2 && 48 <= bytes[2] <= 52
                        && IsLineEnding(bytes[3..]))
    ensures r.Ok? ==> r.value.Code() == bytes[2]
    ensures r.Err? ==> r.error == Invalid
  {
    var r := CodeMessages.FromBytesCode(bytes, PREFIX, FromCode);
    if r.Ok? then CodeRoundTrip(r.value, bytes[2]); r else r
  }

  lemma RoundTrip(s: InputStage, lineEnding: seq<Byte>)
    requires IsLineEnding(lineEnding)
    ensures FromBytes(PREFIX + [s.Code()] + lineEnding) == Ok(s)
  {
    CodeMessages.RoundTrip(PREFIX, FromCode, s.Code(), lineEnding);
  }
}

/** `TrackingStatus`, the `#K` message: a raw byte, not a digit. */
module TrackingStatuses {
  import opened Wrappers
  import opened Bytes
  import opened Parsers
  import opened MessageError
  import CodeMessages

  datatype TrackingStatus = Disabled | Enabled {
    function Code(): (c: Byte)
      ensures FromCode(c) == Some(this)
    {
      match this
      case Disabled => 0
      case Enabled => 1
    }
  }

  const DEFAULT: TrackingStatus := Disabled
  const PREFIX: seq<Byte> := [35, 75]   // "#K"

  function FromCode(code: Byte): (r: Option<TrackingStatus>)
    ensures r.Some? <==> code <= 1
  {
    if code == 0 then Some(Disabled) else if code == 1 then Some(Enabled) else None
  }

  function FromBytes(bytes: seq<Byte>): (r: Result<TrackingStatus, MessageParseError>)
    ensures r.Ok? <==> (StartsWith(bytes, PREFIX) && |bytes| > 2 && bytes[2] <= 1
                        && IsLineEnding(bytes[3..]))
    ensures r.Ok? ==> r.value.Code() == bytes[2]
    ensures r.Err? ==> r.error == Invalid
  {
    CodeMessages.FromBytesCode(bytes, PREFIX, FromCode)
  }

  lemma RoundTrip(s: TrackingStatus, lineEnding: seq<Byte>)
    requires IsLineEnding(lineEnding)
    ensures FromBytes(PREFIX + [s.Code()] + lineEnding) == Ok(s)
  {
    CodeMessages.RoundTrip(PREFIX, FromCode, s.Code(), lineEnding);
  }

  /** `[#, K, 0]` is `Disabled`; the ASCII digit `'0'` is not a status. */
  lemma AcceptRawZero()
    ensures FromBytes([35, 75, 0]) == Ok(DEFAULT)
    ensures FromBytes([35, 75, 48]) == Err(Invalid)
  {
    RoundTrip(Disabled, []);
    assert PREFIX + [Disabled.Code()] + [] == [35, 75, 0];
  }
}

/** `Temperature`, the generator's `#T:` message: an ASCII digit naming a
    ten-degree band. */
module Temperatures {
  import opened Wrappers
  import opened Bytes
  import opened Parsers
  import opened MessageError
  import CodeMessages

  datatype Temperature =
    | MinusTenToZero | ZeroToTen | TenToTwenty | TwentyToThirty
    | ThirtyToForty | FortyToFifty | FiftyToSixty
  {
    function Code(): (c: Byte)
      ensures FromCode(c) == Some(this)
    {
      match this
      case MinusTenToZero => 48
      case ZeroToTen => 49
      case TenToTwenty => 50
      case TwentyToThirty => 51
      case ThirtyToForty => 52
      case FortyToFifty => 53
      case FiftyToSixty => 54
    }

    /** `range()`: the inclusive band in °C, as a pair of `i8` bounds. */
    function Range(): (r: (int, int))
      ensures r.1 == r.0 + 10
      ensures r.0 == 10 * (Code() - 48) - 10
      ensures I8_MIN <= r.0 && r.1 <= I8_MAX
    {
      match this
      case MinusTenToZero => (-10, 0)
      case ZeroToTen => (0, 10)
      case TenToTwenty => (10, 20)
      case TwentyToThirty => (20, 30)
      case ThirtyToForty => (30, 40)
      case FortyToFifty => (40, 50)
      case FiftyToSixty => (50, 60)
    }
  }

  const PREFIX: seq<Byte> := [35, 84, 58]   // "#T:"

  function FromCode(code: Byte): (r: Option<Temperature>)
    ensures r.Some? <==> 48 <= code <= 54
  {
    match code
    case 48 => Some(MinusTenToZero)
    case 49 => Some(ZeroToTen)
    case 50 => Some(TenToTwenty)
    case 51 => Some(TwentyToThirty)
    case 52 => Some(ThirtyToForty)
    case 53 => Some(FortyToFifty)
    case 54 => Some(FiftyToSixty)
    case _ => None
  }

  lemma {:induction false} CodeRoundTrip(t: Temperature, code: Byte)
    ensures FromCode(t.Code()) == Some(t)
    ensures FromCode(code) == Some(t) ==> t.Code() == code
  {
  }

  /** The bands tile −10..=60 °C: consecutive codes share their boundary. */
  lemma BandsAreContiguous(lo: Temperature, hi: Temperature)
    requires hi.Code() == lo.Code() + 1
    ensures lo.Range().1 == hi.Range().0
  {
  }

  /** Every temperature in −10..=60 °C lies in some band; the witness is the
      band whose lower bound is the temperature rounded down to ten. */
  function BandOf(celsius: int): (t: Temperature)
    requires -10 <= celsius <= 60
    ensures t.Range().0 <= celsius <= t.Range().1
  {
    var d := if celsius == 60 then 6 else (celsius + 10) / 10;
    FromCode(48 + d).value
  }

  function FromBytes(bytes: seq<Byte>): (r: Result<Temperature, MessageParseError>)
    ensures r.Ok? <==> (StartsWith(bytes, PREFIX) && |bytes| > 3 && 48 <= bytes[3] <= 54
                        && IsLineEnding(bytes[4..]))
    ensures r.Ok? ==> r.value.Code() == bytes[3]
    ensures r.Err? ==> r.error == Invalid
  {
    var r := CodeMessages.FromBytesCode(bytes, PREFIX, FromCode);
    if r.Ok? then CodeRoundTrip(r.value, bytes[3]); r else r
  }

  lemma RoundTrip(t: Temperature, lineEnding: seq<Byte>)
    requires IsLineEnding(lineEnding)
    ensures FromBytes(PREFIX + [t.Code()] + lineEnding) == Ok(t)
  {
    CodeMessages.RoundTrip(PREFIX, FromCode, t.Code(), lineEnding);
  }
}
