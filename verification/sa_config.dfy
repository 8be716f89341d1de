/** The spectrum-analyzer configuration message `#C2-F:` and the enums it
    carries. The message is a comma-separated list of fixed-width decimal
    fields; three trailing fields (RBW, amplitude offset, calculator mode)
    are optional because older firmware does not send them. */
module SpectrumAnalyzerConfig {
  import opened Wrappers
  import opened Bytes
  import opened Numbers
  import opened Parsers
  import opened Frequencies
  import opened MessageError

  datatype Mode =
    | SpectrumAnalyzer | RfGenerator | WifiAnalyzer | AnalyzerTracking | RfSniffer
    | CwTransmitter | SweepFrequency | SweepAmplitude | GeneratorTracking | Unknown
  {
    function Code(): (c: Byte)
      ensures ModeFromCode(c) == Some(this)
    {
      match this
      case SpectrumAnalyzer => 0
      case RfGenerator => 1
      case WifiAnalyzer => 2
      case AnalyzerTracking => 5
      case RfSniffer => 6
      case CwTransmitter => 60
      case SweepFrequency => 61
      case SweepAmplitude => 62
      case GeneratorTracking => 63
      case Unknown => 255
    }
  }

  const DEFAULT_MODE: Mode := SpectrumAnalyzer

  /** `Mode::try_from(u8)`: no catch-all, so unlisted codes fail. */
  function ModeFromCode(code: int): (r: Option<Mode>)
    ensures r.Some? <==> code in {0, 1, 2, 5, 6, 60, 61, 62, 63, 255}
  {
    match code
    case 0 => Some(SpectrumAnalyzer)
    case 1 => Some(RfGenerator)
    case 2 => Some(WifiAnalyzer)
    case 5 => Some(AnalyzerTracking)
    case 6 => Some(RfSniffer)
    case 60 => Some(CwTransmitter)
    case 61 => Some(SweepFrequency)
    case 62 => Some(SweepAmplitude)
    case 63 => Some(GeneratorTracking)
    case 255 => Some(Mode.Unknown)
    case _ => None
  }

  datatype CalcMode = Normal | Max | Avg | Overwrite | MaxHold | MaxHistorical | Unknown {
    function Code(): (c: Byte)
      ensures CalcModeFromCode(c) == Some(this)
    {
      match this
      case Normal => 0
      case Max => 1
      case Avg => 2
      case Overwrite => 3
      case MaxHold => 4
      case MaxHistorical => 5
      case Unknown => 255
    }
  }

  const DEFAULT_CALC_MODE: CalcMode := Normal

  function CalcModeFromCode(code: int): (r: Option<CalcMode>)
    ensures r.Some? <==> (0 <= code <= 5 || code == 255)
  {
    match code
    case 0 => Some(Normal)
    case 1 => Some(Max)
    case 2 => Some(Avg)
    case 3 => Some(Overwrite)
    case 4 => Some(MaxHold)
    case 5 => Some(MaxHistorical)
    case 255 => Some(CalcMode.Unknown)
    case _ => None
  }

  const PREFIX: seq<Byte> := Ascii("#C2-F:")

  datatype Config = Config(
    startFreq: Frequency,
    stopFreq: Frequency,
    stepSize: Frequency,
    centerFreq: Frequency,
    span: Frequency,
    maxAmpDbm: int,
    minAmpDbm: int,
    sweepLen: nat,
    isExpansionRadioModuleActive: bool,
    mode: Mode,
    minFreq: Frequency,
    maxFreq: Frequency,
    maxSpan: Frequency,
    rbw: Option<Frequency>,
    ampOffsetDb: Option<int>,
    calcMode: Option<CalcMode>)
  {
    /** `contains_start_stop_amp_range`: the device reports a configuration
        that matches a request up to one step at the start and two steps at
        the stop, with exactly the requested amplitudes. */
    predicate ContainsStartStopAmpRange(start: Frequency, stop: Frequency, minAmp: int, maxAmp: int) {
      startFreq.AbsDiff(start).hz <= stepSize.hz
      && stopFreq.AbsDiff(stop).hz <= stepSize.hz * 2
      && minAmpDbm == minAmp
      && maxAmpDbm == maxAmp
    }
  }

  /** The raw values of the fields up to the sweep length. */
  datatype Head = Head(startKhz: nat, stepHz: nat, maxAmp: int, minAmp: int, sweepLen: nat)

  /** The raw values of the mandatory fields after the sweep length. */
  datatype Middle = Middle(expansion: bool, mode: Mode, minKhz: nat, maxKhz: nat, maxSpanKhz: nat)

  /** The raw values of the optional trailing fields. */
  datatype Tail = Tail(rbwKhz: Option<nat>, offset: Option<int>, calcMode: Option<CalcMode>)

  function ParseExpansionFlag(b: seq<Byte>): (r: PResult<bool>)
    ensures r.Ok? <==> |b| >= 1 && (b[0] == 48 || b[0] == 49)
    ensures r.Ok? ==> r.value.value == (b[0] == 49) && r.value.rest == b[1..]
    ensures r.Err? ==> r.error == NomError
  {
    var n :- ParseNum(b, 1, I32);
    if n.value == 0 then Ok(Parsed(false, n.rest))
    else if n.value == 1 then Ok(Parsed(true, n.rest))
    else Err(NomError)
  }

  function ParseMode(b: seq<Byte>): (r: PResult<Mode>)
    ensures r.Ok? ==> |b| >= 3 && r.value.rest == b[3..]
    ensures r.Ok? ==> FromStr(b[..3], U8) == Some(r.value.value.Code() as int)
    ensures r.Err? ==> r.error == NomError
  {
    var n :- ParseNum(b, 3, U8);
    match ModeFromCode(n.value)
    case Some(m) => Ok(Parsed(m, n.rest))
    case None => Err(NomError)
  }

  function ParseCalcMode(b: seq<Byte>): (r: PResult<CalcMode>)
    ensures r.Ok? ==> |b| >= 3 && r.value.rest == b[3..]
    ensures r.Ok? ==> FromStr(b[..3], U8) == Some(r.value.value.Code() as int)
    ensures r.Err? ==> r.error == NomError
  {
    var n :- ParseNum(b, 3, U8);
    match CalcModeFromCode(n.value)
    case Some(m) => Ok(Parsed(m, n.rest))
    case None => Err(NomError)
  }

  /** The comma and the sweep-length field: 0-9999 points use four digits
      and 10000 or more use five, and five are tried first. */
  function ParseSweepLen(b: seq<Byte>): (r: PResult<int>)
    ensures r.Ok? ==> 0 <= r.value.value <= U16_MAX
    ensures r.Err? ==> r.error == NomError
  {
    var c :- ParseComma(b);
    Alt(ParseNum(c.rest, 5, U16), ParseNum(c.rest, 4, U16))
  }

  function ParseHead(b: seq<Byte>): (r: PResult<Head>)
    ensures r.Ok? ==> StartsWith(b, PREFIX)
    ensures r.Ok? ==> r.value.value.startKhz < Pow10(7) && r.value.value.stepHz < Pow10(7)
    ensures r.Ok? ==> r.value.value.sweepLen <= U16_MAX
    ensures r.Err? ==> r.error == NomError
  {
    var p :- Tag(b, PREFIX);
    var freqs :- ParseStartStep(p.rest);
    var amps :- ParseAmplitudes(freqs.rest);
    var len :- ParseSweepLen(amps.rest);
    Ok(Parsed(Head(freqs.value.0, freqs.value.1, amps.value.0, amps.value.1, len.value), len.rest))
  }

  /** The start frequency in kHz and, after a comma, the step in Hz. */
  function ParseStartStep(b: seq<Byte>): (r: PResult<(int, int)>)
    ensures r.Ok? ==> 0 <= r.value.value.0 < Pow10(7) && 0 <= r.value.value.1 < Pow10(7)
    ensures r.Err? ==> r.error == NomError
  {
    var start :- ParseFrequency(b, 7);
    var step :- CommaNum(start.rest, 7, U64);
    Ok(Parsed((start.value, step.value), step.rest))
  }

  /** The maximum and minimum amplitude in dBm, each after its comma. */
  function ParseAmplitudes(b: seq<Byte>): (r: PResult<(int, int)>)
    ensures r.Ok? ==> I16_MIN <= r.value.value.0 <= I16_MAX && I16_MIN <= r.value.value.1 <= I16_MAX
    ensures r.Err? ==> r.error == NomError
  {
    var maxAmp :- CommaNum(b, 4, I16);
    var minAmp :- CommaNum(maxAmp.rest, 4, I16);
    Ok(Parsed((maxAmp.value, minAmp.value), minAmp.rest))
  }

  /** The expansion-active flag and the mode, each after its comma. */
  function ParseFlagAndMode(b: seq<Byte>): (r: PResult<(bool, Mode)>)
    ensures r.Err? ==> r.error == NomError
  {
    var c5 :- ParseComma(b);
    var flag :- ParseExpansionFlag(c5.rest);
    var c6 :- ParseComma(flag.rest);
    var mode :- ParseMode(c6.rest);
    Ok(Parsed((flag.value, mode.value), mode.rest))
  }

  /** The minimum and maximum frequency and the maximum span, in kHz. */
  function ParseLimits(b: seq<Byte>): (r: PResult<(int, int, int)>)
    ensures r.Ok? ==> 0 <= r.value.value.0 < Pow10(7) && 0 <= r.value.value.1 < Pow10(7)
    ensures r.Ok? ==> 0 <= r.value.value.2 < Pow10(7)
    ensures r.Err? ==> r.error == NomError
  {
    var minF :- CommaNum(b, 7, U64);
    var maxF :- CommaNum(minF.rest, 7, U64);
    var maxSpan :- CommaNum(maxF.rest, 7, U64);
    Ok(Parsed((minF.value, maxF.value, maxSpan.value), maxSpan.rest))
  }

  function ParseMiddle(b: seq<Byte>): (r: PResult<Middle>)
    ensures r.Ok? ==> r.value.value.minKhz < Pow10(7) && r.value.value.maxKhz < Pow10(7)
    ensures r.Ok? ==> r.value.value.maxSpanKhz < Pow10(7)
    ensures r.Err? ==> r.error == NomError
  {
    var fm :- ParseFlagAndMode(b);
    var lim :- ParseLimits(fm.rest);
    var (minKhz, maxKhz, maxSpanKhz) := lim.value;
    Ok(Parsed(Middle(fm.value.0, fm.value.1, minKhz, maxKhz, maxSpanKhz), lim.rest))
  }

  /** The optional fields: each comma and each field is skipped, consuming
      nothing, when it does not parse. */
  function ParseTail(b: seq<Byte>): (r: Parsed<Tail>)
    ensures r.value.rbwKhz.Some? ==> r.value.rbwKhz.value < Pow10(5)
    ensures r.value.offset.Some? ==> I8_MIN <= r.value.offset.value <= I8_MAX
  {
    var rbw := OptRbw(b);
    var off := OptOffset(rbw.rest);
    var calcMode := OptCalcMode(off.rest);
    Parsed(Tail(rbw.value, off.value, calcMode.value), calcMode.rest)
  }

  /** `opt(parse_comma)` then `opt(parse_frequency(5))`. */
  function OptRbw(b: seq<Byte>): (r: Parsed<Option<int>>)
    ensures r.value.Some? ==> 0 <= r.value.value < Pow10(5)
  {
    var comma := OptComplete(ParseComma(b), b);
    OptComplete(ParseFrequency(comma.rest, 5), comma.rest)
  }

  /** `opt(parse_comma)` then `opt(parse_amplitude)`, an `i8`. */
  function OptOffset(b: seq<Byte>): (r: Parsed<Option<int>>)
    ensures r.value.Some? ==> I8_MIN <= r.value.value <= I8_MAX
  {
    var comma := OptComplete(ParseComma(b), b);
    OptComplete(ParseNum(comma.rest, 4, I8), comma.rest)
  }

  /** `opt(parse_comma)` then `opt(parse_calc_mode)`. */
  function OptCalcMode(b: seq<Byte>): Parsed<Option<CalcMode>> {
    var comma := OptComplete(ParseComma(b), b);
    OptComplete(ParseCalcMode(comma.rest), comma.rest)
  }

  lemma MulMono(a: nat, b: nat, c: nat, d: nat)
    requires a <= c && b <= d
    ensures a * b <= c * d
  {
    assert a * b <= c * b;
    assert c * b <= c * d;
  }

  /** The configuration the raw fields describe, with the derived stop,
      centre and span. A sweep length of 0 makes the source's `u16`
      subtraction `sweep_len - 1` panic; that input is rejected here. */
  function Build(h: Head, m: Middle, t: Tail): (r: Result<Config, Failure>)
    requires h.startKhz < Pow10(7) && h.stepHz < Pow10(7) && h.sweepLen <= U16_MAX
    requires m.minKhz < Pow10(7) && m.maxKhz < Pow10(7) && m.maxSpanKhz < Pow10(7)
    requires t.rbwKhz.Some? ==> t.rbwKhz.value < Pow10(5)
    ensures r.Ok? <==> h.sweepLen >= 1
    ensures r.Ok? ==> r.value.startFreq.hz == 1000 * h.startKhz && r.value.stepSize.hz == h.stepHz
    ensures r.Ok? ==> r.value.stopFreq.hz == r.value.startFreq.hz + r.value.stepSize.hz * (h.sweepLen - 1)
    ensures r.Ok? ==> r.value.span.hz == r.value.stopFreq.hz - r.value.startFreq.hz
    ensures r.Ok? ==> r.value.startFreq.Le(r.value.centerFreq) && r.value.centerFreq.Le(r.value.stopFreq)
    ensures r.Ok? ==> 2 * r.value.centerFreq.hz <= r.value.startFreq.hz + r.value.stopFreq.hz < 2 * r.value.centerFreq.hz + 2
    ensures r.Err? ==> r.error == NomError
  {
    if h.sweepLen == 0 then Err(NomError)
    else
      MulMono(h.stepHz, h.sweepLen - 1, Pow10(7), U16_MAX);
      var start := FromKhz(h.startKhz);
      var step := FromHz(h.stepHz);
      var stop := start.Add(step.Mul(h.sweepLen - 1));
      Ok(Config(
        start, stop, step, start.Add(stop).Div(2), stop.Sub(start),
        h.maxAmp, h.minAmp, h.sweepLen, m.expansion, m.mode,
        FromKhz(m.minKhz), FromKhz(m.maxKhz), FromKhz(m.maxSpanKhz),
        if t.rbwKhz.Some? then Some(FromKhz(t.rbwKhz.value)) else None,
        t.offset, t.calcMode))
  }

  /** `Config::try_from` before the error conversion. */
  function Parse(b: seq<Byte>): (r: Result<Config, Failure>)
    ensures r.Ok? ==> StartsWith(b, PREFIX)
    ensures r.Err? ==> r.error == NomError
  {
    var h :- ParseHead(b);
    var m :- ParseMiddle(h.rest);
    var t := ParseTail(m.rest);
    var _ :- ParseOptLineEnding(t.rest);
    Build(h.value, m.value, t.value)
  }

  /** `Config::try_from`: the decoder never reports `Incomplete`. */
  function FromBytes(b: seq<Byte>): (r: Result<Config, MessageParseError>)
    ensures r.Err? ==> r.error == Invalid
    ensures !StartsWith(b, PREFIX) ==> r == Err(Invalid)
  {
    Lift(Parse(b))
  }
}

/** A reference encoder for `#C2-F:` messages, in the fixed-width layout the
    device uses, and the proofs that the decoder reads it back. */
module SpectrumAnalyzerConfigFormat {
  import opened Wrappers
  import opened Bytes
  import opened Numbers
  import opened Parsers
  import opened Frequencies
  import opened MessageError
  import opened SpectrumAnalyzerConfig

  predicate FitsSigned4(v: int) { -1000 < v < 10000 }

  predicate ValidHead(h: Head) {
    h.startKhz < Pow10(7) && h.stepHz < Pow10(7)
    && I16_MIN <= h.maxAmp <= I16_MAX && FitsSigned4(h.maxAmp)
    && I16_MIN <= h.minAmp <= I16_MAX && FitsSigned4(h.minAmp)
    && h.sweepLen <= U16_MAX
  }

  predicate ValidMiddle(m: Middle) {
    m.minKhz < Pow10(7) && m.maxKhz < Pow10(7) && m.maxSpanKhz < Pow10(7)
  }

  /** Either all three optional fields are present or none is. */
  predicate ValidTail(t: Tail) {
    t == Tail(None, None, None)
    || (t.rbwKhz.Some? && t.rbwKhz.value < Pow10(5)
        && t.offset.Some? && I8_MIN <= t.offset.value <= I8_MAX
        && t.calcMode.Some?)
  }

  function FormatHead(h: Head, rest: seq<Byte>): seq<Byte>
    requires ValidHead(h)
  {
    PREFIX + (Padded(h.startKhz, 7) + ([COMMA] + (Padded(h.stepHz, 7)
      + ([COMMA] + (SignedPadded(h.maxAmp, 4) + ([COMMA] + (SignedPadded(h.minAmp, 4)
      + ([COMMA] + (Padded(h.sweepLen, 4) + rest)))))))))
  }

  function FormatMiddle(m: Middle, rest: seq<Byte>): seq<Byte>
    requires ValidMiddle(m)
  {
    [COMMA] + ([if m.expansion then 49 else 48] + ([COMMA] + (Padded(m.mode.Code(), 3)
      + ([COMMA] + (Padded(m.minKhz, 7) + ([COMMA] + (Padded(m.maxKhz, 7)
      + ([COMMA] + (Padded(m.maxSpanKhz, 7) + rest)))))))))
  }

  function FormatTail(t: Tail, rest: seq<Byte>): seq<Byte>
    requires ValidTail(t)
  {
    if t.rbwKhz.None? then rest
    else
      [COMMA] + (Padded(t.rbwKhz.value, 5) + ([COMMA] + (SignedPadded(t.offset.value, 4)
        + ([COMMA] + (Padded(t.calcMode.value.Code(), 3) + rest)))))
  }

  /** The whole message, followed by `rest` (normally a line ending). */
  function Format(h: Head, m: Middle, t: Tail, rest: seq<Byte>): seq<Byte>
    requires ValidHead(h) && ValidMiddle(m) && ValidTail(t)
  {
    FormatHead(h, FormatMiddle(m, FormatTail(t, rest)))
  }

  lemma SweepLenRoundTrip(n: nat, rest: seq<Byte>)
    requires n <= U16_MAX && |rest| >= 1 && rest[0] == COMMA
    ensures ParseSweepLen([COMMA] + (Padded(n, 4) + rest)) == Ok(Parsed(n as int, rest))
  {
    var s := Padded(n, 4);
    NumDigitsFits(n, 5);
    CommaThen(s + rest);
    ParseNumDigits(s, U16, rest);
    if |s| == 4 {
      var five := (s + rest)[..5];
      assert five[4] == COMMA && IsDigit(five[0]);
      assert !AllDigits(five);
      assert FromStr(five, U16) == None;
    }
  }

  lemma StartStepRoundTrip(start: nat, step: nat, rest: seq<Byte>)
    requires start < Pow10(7) && step < Pow10(7)
    ensures ParseStartStep(Padded(start, 7) + ([COMMA] + (Padded(step, 7) + rest)))
      == Ok(Parsed((start as int, step as int), rest))
  {
    var x := [COMMA] + (Padded(step, 7) + rest);
    ParseNumPadded(start, 7, U64, x);
    assert ParseFrequency(Padded(start, 7) + x, 7) == Ok(Parsed(start as int, x));
    CommaNumPadded(step, 7, U64, rest);
  }

  lemma AmplitudesRoundTrip(maxAmp: int, minAmp: int, rest: seq<Byte>)
    requires I16_MIN <= maxAmp <= I16_MAX && FitsSigned4(maxAmp)
    requires I16_MIN <= minAmp <= I16_MAX && FitsSigned4(minAmp)
    ensures ParseAmplitudes([COMMA] + (SignedPadded(maxAmp, 4) + ([COMMA] + (SignedPadded(minAmp, 4) + rest))))
      == Ok(Parsed((maxAmp, minAmp), rest))
  {
    assert Pow10(3) == 1_000;
    var x := [COMMA] + (SignedPadded(minAmp, 4) + rest);
    CommaNumSignedPadded(maxAmp, 4, I16, x);
    CommaNumSignedPadded(minAmp, 4, I16, rest);
  }

  lemma {:induction false} HeadRoundTrip(h: Head, rest: seq<Byte>)
    requires ValidHead(h) && |rest| >= 1 && rest[0] == COMMA
    ensures ParseHead(FormatHead(h, rest)) == Ok(Parsed(h, rest))
  {
    var x2 := [COMMA] + (SignedPadded(h.maxAmp, 4) + ([COMMA] + (SignedPadded(h.minAmp, 4)
      + ([COMMA] + (Padded(h.sweepLen, 4) + rest)))));
    var x1 := Padded(h.startKhz, 7) + ([COMMA] + (Padded(h.stepHz, 7) + x2));
    var b := PREFIX + x1;
    assert b == FormatHead(h, rest);
    assert Tag(b, PREFIX) == Ok(Parsed(PREFIX, x1)) by {
      assert b[..|PREFIX|] == PREFIX;
      assert b[|PREFIX|..] == x1;
    }
    StartStepRoundTrip(h.startKhz, h.stepHz, x2);
    AmplitudesRoundTrip(h.maxAmp, h.minAmp, [COMMA] + (Padded(h.sweepLen, 4) + rest));
    SweepLenRoundTrip(h.sweepLen, rest);
  }

  lemma FlagField(expansion: bool, rest: seq<Byte>)
    ensures ParseExpansionFlag([if expansion then 49 else 48] + rest) == Ok(Parsed(expansion, rest))
  {
    var flag: Byte := if expansion then 49 else 48;
    ParseNumDigits([flag], I32, rest);
  }

  lemma ModeField(mode: Mode, rest: seq<Byte>)
    ensures ParseMode(Padded(mode.Code(), 3) + rest) == Ok(Parsed(mode, rest))
  {
    var code := mode.Code();
    ParseNumPadded(code, 3, U8, rest);
    assert ParseNum(Padded(code, 3) + rest, 3, U8) == Ok(Parsed(code as int, rest));
    assert ModeFromCode(code) == Some(mode);
  }

  lemma FlagAndModeRoundTrip(expansion: bool, mode: Mode, rest: seq<Byte>)
    ensures ParseFlagAndMode([COMMA] + ([if expansion then 49 else 48] + ([COMMA] + (Padded(mode.Code(), 3) + rest))))
      == Ok(Parsed((expansion, mode), rest))
  {
    var flag: Byte := if expansion then 49 else 48;
    var y0 := [COMMA] + (Padded(mode.Code(), 3) + rest);
    CommaThen([flag] + y0);
    FlagField(expansion, y0);
    CommaThen(Padded(mode.Code(), 3) + rest);
    ModeField(mode, rest);
  }

  lemma LimitsRoundTrip(minKhz: nat, maxKhz: nat, maxSpanKhz: nat, rest: seq<Byte>)
    requires minKhz < Pow10(7) && maxKhz < Pow10(7) && maxSpanKhz < Pow10(7)
    ensures ParseLimits([COMMA] + (Padded(minKhz, 7) + ([COMMA] + (Padded(maxKhz, 7)
      + ([COMMA] + (Padded(maxSpanKhz, 7) + rest))))))
      == Ok(Parsed((minKhz as int, maxKhz as int, maxSpanKhz as int), rest))
  {
    var y3 := [COMMA] + (Padded(maxSpanKhz, 7) + rest);
    var y2 := [COMMA] + (Padded(maxKhz, 7) + y3);
    CommaNumPadded(minKhz, 7, U64, y2);
    CommaNumPadded(maxKhz, 7, U64, y3);
    CommaNumPadded(maxSpanKhz, 7, U64, rest);
  }

  lemma {:induction false} MiddleRoundTrip(m: Middle, rest: seq<Byte>)
    requires ValidMiddle(m)
    ensures ParseMiddle(FormatMiddle(m, rest)) == Ok(Parsed(m, rest))
  {
    var y1 := [COMMA] + (Padded(m.minKhz, 7) + ([COMMA] + (Padded(m.maxKhz, 7)
      + ([COMMA] + (Padded(m.maxSpanKhz, 7) + rest)))));
    FlagAndModeRoundTrip(m.expansion, m.mode, y1);
    LimitsRoundTrip(m.minKhz, m.maxKhz, m.maxSpanKhz, rest);
  }

  /** Input that cannot start a comma or a field of the tail leaves every
      optional field absent and consumes nothing. */
  lemma AbsentTail(rest: seq<Byte>)
    requires |rest| <= 2 && (|rest| == 0 || rest[0] != COMMA)
    ensures ParseTail(rest) == Parsed(Tail(None, None, None), rest)
  {
  }

  lemma RbwRoundTrip(v: nat, rest: seq<Byte>)
    requires v < Pow10(5)
    ensures OptRbw([COMMA] + (Padded(v, 5) + rest)) == Parsed(Some(v as int), rest)
  {
    CommaThen(Padded(v, 5) + rest);
    ParseNumPadded(v, 5, U64, rest);
  }

  lemma OffsetRoundTrip(v: int, rest: seq<Byte>)
    requires I8_MIN <= v <= I8_MAX
    ensures OptOffset([COMMA] + (SignedPadded(v, 4) + rest)) == Parsed(Some(v), rest)
  {
    CommaThen(SignedPadded(v, 4) + rest);
    ParseNumSignedPadded(v, 4, I8, rest);
  }

  lemma CalcModeRoundTrip(c: CalcMode, rest: seq<Byte>)
    ensures OptCalcMode([COMMA] + (Padded(c.Code(), 3) + rest)) == Parsed(Some(c), rest)
  {
    var code := c.Code();
    assert Pow10(3) == 1_000;
    CommaThen(Padded(code, 3) + rest);
    ParseNumPadded(code, 3, U8, rest);
    assert ParseCalcMode(Padded(code, 3) + rest) == Ok(Parsed(c, rest));
  }

  lemma {:induction false} PresentTail(t: Tail, rest: seq<Byte>)
    requires ValidTail(t) && t.rbwKhz.Some?
    ensures ParseTail(FormatTail(t, rest)) == Parsed(t, rest)
  {
    var z2 := [COMMA] + (Padded(t.calcMode.value.Code(), 3) + rest);
    var z1 := [COMMA] + (SignedPadded(t.offset.value, 4) + z2);
    RbwRoundTrip(t.rbwKhz.value, z1);
    OffsetRoundTrip(t.offset.value, z2);
    CalcModeRoundTrip(t.calcMode.value, rest);
  }

  /** Round trip: the decoder reads back every field of a well-formed
      message, with or without the optional fields, whatever line ending
      follows it; the derived fields are those `Build` computes. */
  lemma {:induction false} RoundTrip(h: Head, m: Middle, t: Tail, lineEnding: seq<Byte>)
    requires ValidHead(h) && ValidMiddle(m) && ValidTail(t) && IsLineEnding(lineEnding)
    ensures Parse(Format(h, m, t, lineEnding)) == Build(h, m, t)
    ensures h.sweepLen >= 1 ==> FromBytes(Format(h, m, t, lineEnding)).Ok?
  {
    var tailBytes := FormatTail(t, lineEnding);
    var middleBytes := FormatMiddle(m, tailBytes);
    HeadRoundTrip(h, middleBytes);
    MiddleRoundTrip(m, tailBytes);
    if t.rbwKhz.Some? {
      PresentTail(t, lineEnding);
    } else {
      AbsentTail(lineEnding);
    }
  }

  /** When every optional field is present, nothing but a line ending may
      follow the last one. */
  lemma {:induction false} OnlyLineEndingMayFollow(h: Head, m: Middle, t: Tail, trailer: seq<Byte>)
    requires ValidHead(h) && ValidMiddle(m) && ValidTail(t) && t.rbwKhz.Some?
    requires h.sweepLen >= 1
    ensures Parse(Format(h, m, t, trailer)).Ok? <==> IsLineEnding(trailer)
  {
    var tailBytes := FormatTail(t, trailer);
    HeadRoundTrip(h, FormatMiddle(m, tailBytes));
    MiddleRoundTrip(m, tailBytes);
    PresentTail(t, trailer);
  }

  /** With the optional fields absent, a lone comma before the line ending
      is still accepted: `opt(parse_comma)` takes it and every optional
      field then fails without consuming anything. */
  lemma {:induction false} LoneCommaAccepted(h: Head, m: Middle, lineEnding: seq<Byte>)
    requires ValidHead(h) && ValidMiddle(m) && IsLineEnding(lineEnding)
    ensures Parse(Format(h, m, Tail(None, None, None), [COMMA] + lineEnding)) == Build(h, m, Tail(None, None, None))
  {
    var tailBytes := [COMMA] + lineEnding;
    HeadRoundTrip(h, FormatMiddle(m, tailBytes));
    MiddleRoundTrip(m, tailBytes);
    assert OptRbw(tailBytes) == Parsed(None, lineEnding);
    AbsentTail(lineEnding);
  }

  /** Any input that does not start with `#C2-F:` is rejected as invalid. */
  lemma WrongPrefixRejected(b: seq<Byte>)
    requires !StartsWith(b, PREFIX)
    ensures FromBytes(b) == Err(Invalid)
  {
  }

  /** A configuration always contains its own start, stop and amplitudes. */
  lemma ContainsOwnValues(c: Config)
    ensures c.ContainsStartStopAmpRange(c.startFreq, c.stopFreq, c.minAmpDbm, c.maxAmpDbm)
  {
  }

  /** `contains_start_stop_amp_range` as interval membership: the requested
      start lies within one step of the reported start, the requested stop
      within two steps of the reported stop. */
  lemma {:induction false} ContainsAsIntervals(c: Config, s: Frequency, t: Frequency, minAmp: int, maxAmp: int)
    ensures c.ContainsStartStopAmpRange(s, t, minAmp, maxAmp) <==>
      (c.startFreq.hz - c.stepSize.hz <= s.hz <= c.startFreq.hz + c.stepSize.hz
       && c.stopFreq.hz - 2 * c.stepSize.hz <= t.hz <= c.stopFreq.hz + 2 * c.stepSize.hz
       && c.minAmpDbm == minAmp && c.maxAmpDbm == maxAmp)
  {
    var ds := c.startFreq.AbsDiff(s);
    var dt := c.stopFreq.AbsDiff(t);
    assert ds.hz == if c.startFreq.hz <= s.hz then s.hz - c.startFreq.hz else c.startFreq.hz - s.hz;
    assert dt.hz == if c.stopFreq.hz <= t.hz then t.hz - c.stopFreq.hz else c.stopFreq.hz - t.hz;
  }
}

module SpectrumAnalyzerConfigSamples {
  import opened Wrappers
  import opened Bytes
  import opened Numbers
  import opened Parsers
  import Frequencies
  import opened SpectrumAnalyzerConfig
  import opened SpectrumAnalyzerConfigFormat

  /** The message of the unit tests,
      `#C2-F:5249000,0196428,-030,-118,0112,0,000,4850000,6100000,0600000,00200,0000,000`,
      written out one field at a time. */
  const MESSAGE: seq<Byte> :=
    PREFIX + ([53, 50, 52, 57, 48, 48, 48] + ([COMMA] + ([48, 49, 57, 54, 52, 50, 56]
    + ([COMMA] + (([MINUS] + [48, 51, 48]) + ([COMMA] + (([MINUS] + [49, 49, 56]) + ([COMMA] + ([48, 49, 49, 50]
    + ([COMMA] + ([48] + ([COMMA] + ([48, 48, 48] + ([COMMA] + ([52, 56, 53, 48, 48, 48, 48]
    + ([COMMA] + ([54, 49, 48, 48, 48, 48, 48] + ([COMMA] + ([48, 54, 48, 48, 48, 48, 48]
    + ([COMMA] + ([48, 48, 50, 48, 48] + ([COMMA] + ([48, 48, 48, 48] + ([COMMA] + [48, 48, 48]))))))))))))))))))))))))

  /** The field values of the unit tests' message: start 5249000 kHz, step
      196428 Hz, amplitudes -30 and -118 dBm, 112 points; no expansion,
      analyzer mode, 4.85 to 6.1 GHz, a 600 MHz maximum span; RBW 200 kHz,
      offset 0 and the normal calculator mode. */
  function SampleHead(): Head { Head(5249000, 196428, -30, -118, 112) }

  function SampleMiddle(): Middle { Middle(false, SpectrumAnalyzer, 4850000, 6100000, 600000) }

  function SampleTail(): Tail { Tail(Some(200), Some(0), Some(Normal)) }

  /** Integer halving is pinned down by its bounds. */
  lemma HalfOf(x: int, c: int)
    requires 2 * c <= x < 2 * c + 2
    ensures c == x / 2
  {
  }

  // The rendering of each field of the message. Each literal is evaluated
  // in a lemma of its own, and each field lemma takes its value as a
  // variable, which keeps every proof obligation small.

  // The fields of the unit tests' message are within their ranges.

  lemma HeadValid(h: Head)
    requires h == SampleHead()
    ensures ValidHead(h)
  {
    assert Pow10(7) == 10_000_000;
  }

  lemma MiddleValid(m: Middle)
    requires m == SampleMiddle()
    ensures ValidMiddle(m)
  {
    assert Pow10(7) == 10_000_000;
  }

  lemma TailValid(t: Tail)
    requires t == SampleTail()
    ensures ValidTail(t)
  {
    assert Pow10(5) == 100_000;
  }

  lemma SpelledStart()
    ensures Spelled(5249000, 7) == [53, 50, 52, 57, 48, 48, 48]
  {
  }

  lemma StartField(v: nat)
    requires v == 5249000
    ensures Padded(v, 7) == [53, 50, 52, 57, 48, 48, 48]
  {
    assert Pow10(7) == 10_000_000;
    PaddedSpelled(v, 7);
    SpelledStart();
  }

  lemma SpelledStep()
    ensures Spelled(196428, 7) == [48, 49, 57, 54, 52, 50, 56]
  {
  }

  lemma StepField(v: nat)
    requires v == 196428
    ensures Padded(v, 7) == [48, 49, 57, 54, 52, 50, 56]
  {
    assert Pow10(7) == 10_000_000;
    PaddedSpelled(v, 7);
    SpelledStep();
  }

  lemma SpelledMaxAmp()
    ensures Spelled(30, 3) == [48, 51, 48]
  {
  }

  lemma MaxAmpDigits(u: nat)
    requires u == 30
    ensures Padded(u, 3) == [48, 51, 48]
  {
    assert Pow10(3) == 1_000;
    PaddedSpelled(u, 3);
    SpelledMaxAmp();
  }

  lemma SpelledMinAmp()
    ensures Spelled(118, 3) == [49, 49, 56]
  {
  }

  lemma MinAmpDigits(u: nat)
    requires u == 118
    ensures Padded(u, 3) == [49, 49, 56]
  {
    assert Pow10(3) == 1_000;
    PaddedSpelled(u, 3);
    SpelledMinAmp();
  }

  lemma SpelledSweepLen()
    ensures Spelled(112, 4) == [48, 49, 49, 50]
  {
  }

  lemma SweepLenField(v: nat)
    requires v == 112
    ensures Padded(v, 4) == [48, 49, 49, 50]
  {
    assert Pow10(4) == 10_000;
    PaddedSpelled(v, 4);
    SpelledSweepLen();
  }

  lemma SpelledCode()
    ensures Spelled(0, 3) == [48, 48, 48]
  {
  }

  lemma CodeField(v: nat)
    requires v == 0
    ensures Padded(v, 3) == [48, 48, 48]
  {
    assert Pow10(3) == 1_000;
    PaddedSpelled(v, 3);
    SpelledCode();
  }

  lemma SpelledMinFreq()
    ensures Spelled(4850000, 7) == [52, 56, 53, 48, 48, 48, 48]
  {
  }

  lemma MinFreqField(v: nat)
    requires v == 4850000
    ensures Padded(v, 7) == [52, 56, 53, 48, 48, 48, 48]
  {
    assert Pow10(7) == 10_000_000;
    PaddedSpelled(v, 7);
    SpelledMinFreq();
  }

  lemma SpelledMaxFreq()
    ensures Spelled(6100000, 7) == [54, 49, 48, 48, 48, 48, 48]
  {
  }

  lemma MaxFreqField(v: nat)
    requires v == 6100000
    ensures Padded(v, 7) == [54, 49, 48, 48, 48, 48, 48]
  {
    assert Pow10(7) == 10_000_000;
    PaddedSpelled(v, 7);
    SpelledMaxFreq();
  }

  lemma SpelledMaxSpan()
    ensures Spelled(600000, 7) == [48, 54, 48, 48, 48, 48, 48]
  {
  }

  lemma MaxSpanField(v: nat)
    requires v == 600000
    ensures Padded(v, 7) == [48, 54, 48, 48, 48, 48, 48]
  {
    assert Pow10(7) == 10_000_000;
    PaddedSpelled(v, 7);
    SpelledMaxSpan();
  }

  lemma SpelledRbw()
    ensures Spelled(200, 5) == [48, 48, 50, 48, 48]
  {
  }

  lemma RbwField(v: nat)
    requires v == 200
    ensures Padded(v, 5) == [48, 48, 50, 48, 48]
  {
    assert Pow10(5) == 100_000;
    PaddedSpelled(v, 5);
    SpelledRbw();
  }

  lemma SpelledOffset()
    ensures Spelled(0, 4) == [48, 48, 48, 48]
  {
  }

  lemma OffsetField(v: nat)
    requires v == 0
    ensures Padded(v, 4) == [48, 48, 48, 48]
  {
    assert Pow10(4) == 10_000;
    PaddedSpelled(v, 4);
    SpelledOffset();
  }

  lemma HeadText(h: Head, rest: seq<Byte>)
    requires h == SampleHead()
    ensures ValidHead(h)
    ensures FormatHead(h, rest) == PREFIX + ([53, 50, 52, 57, 48, 48, 48] + ([COMMA] + ([48, 49, 57, 54, 52, 50, 56]
      + ([COMMA] + (([MINUS] + [48, 51, 48]) + ([COMMA] + (([MINUS] + [49, 49, 56]) + ([COMMA] + ([48, 49, 49, 50] + rest)))))))))
  {
    HeadValid(h);
    StartField(h.startKhz);
    StepField(h.stepHz);
    SignedPaddedNegative(h.maxAmp, 4);
    MaxAmpDigits(-h.maxAmp);
    SignedPaddedNegative(h.minAmp, 4);
    MinAmpDigits(-h.minAmp);
    SweepLenField(h.sweepLen);
  }

  lemma MiddleText(m: Middle, rest: seq<Byte>)
    requires m == SampleMiddle()
    ensures ValidMiddle(m)
    ensures FormatMiddle(m, rest) == [COMMA] + ([48] + ([COMMA] + ([48, 48, 48] + ([COMMA] + ([52, 56, 53, 48, 48, 48, 48]
      + ([COMMA] + ([54, 49, 48, 48, 48, 48, 48] + ([COMMA] + ([48, 54, 48, 48, 48, 48, 48] + rest)))))))))
  {
    MiddleValid(m);
    CodeField(m.mode.Code() as nat);
    MinFreqField(m.minKhz);
    MaxFreqField(m.maxKhz);
    MaxSpanField(m.maxSpanKhz);
  }

  lemma TailText(t: Tail, rest: seq<Byte>)
    requires t == SampleTail()
    ensures ValidTail(t)
    ensures FormatTail(t, rest) == [COMMA] + ([48, 48, 50, 48, 48] + ([COMMA] + ([48, 48, 48, 48] + ([COMMA] + ([48, 48, 48] + rest)))))
  {
    TailValid(t);
    RbwField(t.rbwKhz.value);
    OffsetField(t.offset.value);
    CodeField(t.calcMode.value.Code() as nat);
  }

  /** The unit tests' message is `Format` of these fields, with no line
      ending. */
  lemma SampleMessage(h: Head, m: Middle, t: Tail)
    requires h == SampleHead()
    requires m == SampleMiddle()
    requires t == SampleTail()
    ensures ValidHead(h) && ValidMiddle(m) && ValidTail(t)
    ensures Format(h, m, t, []) == MESSAGE
  {
    TailText(t, []);
    assert [48, 48, 48] + [] == [48, 48, 48];
    var tail := FormatTail(t, []);
    MiddleText(m, tail);
    HeadText(h, FormatMiddle(m, tail));
  }

  /** The fields of the unit tests' message build the configuration the
      tests assert, with its derived stop, centre and span. */
  lemma SampleBuild(h: Head, m: Middle, t: Tail)
    requires h == SampleHead()
    requires m == SampleMiddle()
    requires t == SampleTail()
    ensures ValidHead(h) && ValidMiddle(m) && ValidTail(t)
    ensures var c := Build(h, m, t);
      c.Ok? && c.value.startFreq.hz == 5_249_000_000 && c.value.stepSize.hz == 196_428
      && c.value.stopFreq.hz == 5_270_803_508 && c.value.centerFreq.hz == 5_259_901_754
      && c.value.span.hz == 21_803_508 && c.value.maxAmpDbm == -30 && c.value.minAmpDbm == -118
      && c.value.sweepLen == 112 && !c.value.isExpansionRadioModuleActive && c.value.mode == SpectrumAnalyzer
      && c.value.minFreq.hz == 4_850_000_000 && c.value.maxFreq.hz == 6_100_000_000
      && c.value.maxSpan.hz == 600_000_000 && c.value.rbw == Some(Frequencies.Frequency(200_000))
      && c.value.ampOffsetDb == Some(0) && c.value.calcMode == Some(Normal)
  {
    HeadValid(h);
    MiddleValid(m);
    TailValid(t);
    var c := Build(h, m, t).value;
    assert c.startFreq.hz + c.stopFreq.hz == 10_519_803_508;
    HalfOf(c.startFreq.hz + c.stopFreq.hz, c.centerFreq.hz);
  }

  /** `RoundTrip` for a message given by name, so that the proof below does
      not evaluate the parser on the literal bytes. */
  lemma ParseFormatted(b: seq<Byte>, h: Head, m: Middle, t: Tail)
    requires ValidHead(h) && ValidMiddle(m) && ValidTail(t) && b == Format(h, m, t, [])
    ensures Parse(b) == Build(h, m, t)
  {
    RoundTrip(h, m, t, []);
  }

  /** The unit tests' message parses to the configuration its fields build. */
  lemma SampleParses(h: Head, m: Middle, t: Tail)
    requires h == SampleHead()
    requires m == SampleMiddle()
    requires t == SampleTail()
    ensures ValidHead(h) && ValidMiddle(m) && ValidTail(t)
    ensures Parse(MESSAGE) == Build(h, m, t)
  {
    SampleMessage(h, m, t);
    ParseFormatted(MESSAGE, h, m, t);
  }

  /** `parse_6g_combo_config`: the unit tests' message decodes to the
      configuration `SampleBuild` describes. */
  lemma SampleDecodes(h: Head, m: Middle, t: Tail)
    requires h == SampleHead()
    requires m == SampleMiddle()
    requires t == SampleTail()
    ensures ValidHead(h) && ValidMiddle(m) && ValidTail(t)
    ensures Build(h, m, t).Ok? && FromBytes(MESSAGE) == Ok(Build(h, m, t).value)
  {
    SampleParses(h, m, t);
    SampleBuild(h, m, t);
  }
}
