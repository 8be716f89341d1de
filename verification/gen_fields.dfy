/** The signal-generator enums carried by its configuration messages, the
    field parsers of `signal_generator/parsers.rs`, and the groups of fields
    the four configuration messages share. Every group starts with the
    comma that separates it from the field before. */
module GeneratorFields {
  import opened Wrappers
  import opened Bytes
  import opened Numbers
  import opened Parsers
  import opened Frequencies

  datatype Attenuation = On | Off {
    function Code(): (c: nat)
      ensures AttenuationFromCode(c) == Some(this)
    {
      match this
      case On => 0
      case Off => 1
    }
  }

  datatype PowerLevel = Lowest | Low | High | Highest {
    function Code(): (c: nat)
      ensures PowerLevelFromCode(c) == Some(this)
    {
      match this
      case Lowest => 0
      case Low => 1
      case High => 2
      case Highest => 3
    }
  }

  /** Note that code 0 is "on" and 1 is "off". */
  datatype RfPower = RfOn | RfOff {
    function Code(): (c: nat)
      ensures RfPowerFromCode(c) == Some(this)
    {
      match this
      case RfOn => 0
      case RfOff => 1
    }
  }

  const DEFAULT_ATTENUATION: Attenuation := On
  const DEFAULT_POWER_LEVEL: PowerLevel := Lowest
  const DEFAULT_RF_POWER: RfPower := RfOff

  function AttenuationFromCode(code: int): (r: Option<Attenuation>)
    ensures r.Some? <==> 0 <= code <= 1
  {
    if code == 0 then Some(On) else if code == 1 then Some(Off) else None
  }

  function PowerLevelFromCode(code: int): (r: Option<PowerLevel>)
    ensures r.Some? <==> 0 <= code <= 3
  {
    match code
    case 0 => Some(Lowest)
    case 1 => Some(Low)
    case 2 => Some(High)
    case 3 => Some(Highest)
    case _ => None
  }

  function RfPowerFromCode(code: int): (r: Option<RfPower>)
    ensures r.Some? <==> 0 <= code <= 1
  {
    if code == 0 then Some(RfOn) else if code == 1 then Some(RfOff) else None
  }

  /** Each decoder inverts its `Code`. */
  lemma {:induction false} CodesRoundTrip(a: Attenuation, p: PowerLevel, rf: RfPower, code: int)
    ensures AttenuationFromCode(code) == Some(a) ==> a.Code() == code
    ensures PowerLevelFromCode(code) == Some(p) ==> p.Code() == code
    ensures RfPowerFromCode(code) == Some(rf) ==> rf.Code() == code
  {
  }

  /** `map_res(num_parser::<u8>(1), T::try_from)`: one ASCII digit that
      must name a value. */
  function ParseDigitEnum<T>(b: seq<Byte>, decode: int -> Option<T>): (r: PResult<T>)
    ensures r.Ok? <==> |b| >= 1 && IsDigit(b[0]) && decode(b[0] - 48).Some?
    ensures r.Ok? ==> Some(r.value.value) == decode(b[0] - 48) && r.value.rest == b[1..]
    ensures r.Err? ==> r.error == NomError
  {
    ParseNumOneDigit(b);
    var n :- ParseNum(b, 1, U8);
    match decode(n.value)
    case Some(v) => Ok(Parsed(v, n.rest))
    case None => Err(NomError)
  }

  /** A comma, then a one-digit enum. */
  function CommaDigitEnum<T>(b: seq<Byte>, decode: int -> Option<T>): (r: PResult<T>)
    ensures r.Ok? <==> |b| >= 2 && b[0] == COMMA && IsDigit(b[1]) && decode(b[1] - 48).Some?
    ensures r.Ok? ==> Some(r.value.value) == decode(b[1] - 48) && r.value.rest == b[2..]
    ensures r.Err? ==> r.error == NomError
  {
    var c :- ParseComma(b);
    ParseDigitEnum(c.rest, decode)
  }

  /** The rendering of a one-digit field after its comma. */
  function EnumField(code: nat, rest: seq<Byte>): seq<Byte>
    requires code < 10
  {
    [COMMA] + ([48 + code] + rest)
  }

  lemma CommaDigitEnumRoundTrip<T>(code: nat, decode: int -> Option<T>, rest: seq<Byte>)
    requires code < 10 && decode(code).Some?
    ensures CommaDigitEnum(EnumField(code, rest), decode) == Ok(Parsed(decode(code).value, rest))
  {
    var b := EnumField(code, rest);
    assert b[1] == 48 + code && b[2..] == rest;
  }

  /** A frequency the device can report: a whole number of kHz with at most
      seven digits. */
  predicate KhzField(f: Frequency) {
    f.hz % KHZ == 0 && f.AsKhz() < Pow10(7)
  }

  /** `Frequency::from_khz` of a seven-digit field. */
  function FieldFrequency(khz: int): (f: Frequency)
    requires 0 <= khz < Pow10(7)
    ensures KhzField(f) && f.hz == khz * KHZ
  {
    assert Pow10(7) == 10_000_000;
    FromKhz(khz)
  }

  lemma KhzFieldRoundTrip(f: Frequency)
    requires KhzField(f)
    ensures FieldFrequency(f.AsKhz()) == f
  {
    AccessorsRoundDown(f);
  }

  /** `,ttttt`: a comma and a five-digit `u16` in milliseconds, the
      `parse_sweep_delay_ms` field. */
  function CommaDelay(b: seq<Byte>): (r: PResult<int>)
    ensures r.Ok? ==> 0 <= r.value.value <= U16_MAX
    ensures r.Ok? ==> |b| >= 6 && r.value.rest == b[6..]
    ensures r.Err? ==> r.error == NomError
  {
    CommaNum(b, 5, U16)
  }

  /** `,a,p`: an attenuation and a power level. */
  function CommaLevel(b: seq<Byte>): (r: PResult<(Attenuation, PowerLevel)>)
    ensures r.Ok? ==> |b| >= 4 && r.value.rest == b[4..]
    ensures r.Ok? ==> Some(r.value.value.0) == AttenuationFromCode(b[1] as int - 48)
    ensures r.Ok? ==> Some(r.value.value.1) == PowerLevelFromCode(b[3] as int - 48)
    ensures r.Err? ==> r.error == NomError
  {
    var att :- CommaDigitEnum(b, AttenuationFromCode);
    var pwr :- CommaDigitEnum(att.rest, PowerLevelFromCode);
    Ok(Parsed((att.value, pwr.value), pwr.rest))
  }

  function FormatLevel(a: Attenuation, p: PowerLevel, rest: seq<Byte>): seq<Byte> {
    EnumField(a.Code(), EnumField(p.Code(), rest))
  }

  lemma LevelRoundTrip(a: Attenuation, p: PowerLevel, rest: seq<Byte>)
    ensures CommaLevel(FormatLevel(a, p, rest)) == Ok(Parsed((a, p), rest))
  {
    CommaDigitEnumRoundTrip(a.Code(), AttenuationFromCode, EnumField(p.Code(), rest));
    CommaDigitEnumRoundTrip(p.Code(), PowerLevelFromCode, rest);
  }

  /** The amplitude-sweep group: `,ssss` power steps, then the start and
      the stop level. */
  datatype SweepLevels = SweepLevels(
    sweepPowerSteps: nat,
    startAttenuation: Attenuation,
    startPowerLevel: PowerLevel,
    stopAttenuation: Attenuation,
    stopPowerLevel: PowerLevel)
  {
    predicate Valid() { sweepPowerSteps < Pow10(4) }
  }

  function CommaSweepLevels(b: seq<Byte>): (r: PResult<SweepLevels>)
    ensures r.Ok? ==> r.value.value.Valid() && r.value.value.sweepPowerSteps <= U16_MAX
    ensures r.Ok? ==> |b| >= 13 && r.value.rest == b[13..]
    ensures r.Err? ==> r.error == NomError
  {
    var steps :- CommaNum(b, 4, U16);
    var start :- CommaLevel(steps.rest);
    var stop :- CommaLevel(start.rest);
    Ok(Parsed(SweepLevels(steps.value, start.value.0, start.value.1, stop.value.0, stop.value.1), stop.rest))
  }

  function FormatSweepLevels(s: SweepLevels, rest: seq<Byte>): seq<Byte>
    requires s.Valid()
  {
    [COMMA] + (Padded(s.sweepPowerSteps, 4)
      + FormatLevel(s.startAttenuation, s.startPowerLevel, FormatLevel(s.stopAttenuation, s.stopPowerLevel, rest)))
  }

  lemma SweepLevelsRoundTrip(s: SweepLevels, rest: seq<Byte>)
    requires s.Valid()
    ensures CommaSweepLevels(FormatSweepLevels(s, rest)) == Ok(Parsed(s, rest))
  {
    assert Pow10(4) == 10_000;
    var stop := FormatLevel(s.stopAttenuation, s.stopPowerLevel, rest);
    CommaNumPadded(s.sweepPowerSteps, 4, U16, FormatLevel(s.startAttenuation, s.startPowerLevel, stop));
    LevelRoundTrip(s.startAttenuation, s.startPowerLevel, stop);
    LevelRoundTrip(s.stopAttenuation, s.stopPowerLevel, rest);
  }

  /** The frequency-sweep group: `,tttt` total steps (`u32`) and `,fffffff`
      the step in kHz. */
  function CommaSteps(b: seq<Byte>): (r: PResult<(int, Frequency)>)
    ensures r.Ok? ==> 0 <= r.value.value.0 < Pow10(4) && KhzField(r.value.value.1)
    ensures r.Ok? ==> |b| >= 13 && r.value.rest == b[13..]
    ensures r.Err? ==> r.error == NomError
  {
    var steps :- CommaNum(b, 4, U32);
    var step :- CommaNum(steps.rest, 7, U64);
    Ok(Parsed((steps.value, FieldFrequency(step.value)), step.rest))
  }

  function FormatSteps(totalSteps: nat, step: Frequency, rest: seq<Byte>): seq<Byte>
    requires totalSteps < Pow10(4) && KhzField(step)
  {
    [COMMA] + (Padded(totalSteps, 4) + ([COMMA] + (Padded(step.AsKhz(), 7) + rest)))
  }

  lemma StepsRoundTrip(totalSteps: nat, step: Frequency, rest: seq<Byte>)
    requires totalSteps < Pow10(4) && KhzField(step)
    ensures CommaSteps(FormatSteps(totalSteps, step, rest)) == Ok(Parsed((totalSteps as int, step), rest))
  {
    assert Pow10(4) == 10_000 && Pow10(7) == 10_000_000;
    var after := [COMMA] + (Padded(step.AsKhz(), 7) + rest);
    CommaNumPadded(totalSteps, 4, U32, after);
    CommaNumPadded(step.AsKhz(), 7, U64, rest);
    KhzFieldRoundTrip(step);
  }

  /** A seven-digit kHz field after its comma. */
  function CommaFrequency(b: seq<Byte>): (r: PResult<Frequency>)
    ensures r.Ok? ==> KhzField(r.value.value)
    ensures r.Ok? ==> |b| >= 8 && r.value.rest == b[8..]
    ensures r.Err? ==> r.error == NomError
  {
    var f :- CommaNum(b, 7, U64);
    Ok(Parsed(FieldFrequency(f.value), f.rest))
  }

  /** A seven-digit kHz field at the start of the message body. */
  function LeadingFrequency(b: seq<Byte>): (r: PResult<Frequency>)
    ensures r.Ok? ==> KhzField(r.value.value)
    ensures r.Ok? ==> |b| >= 7 && r.value.rest == b[7..]
    ensures r.Err? ==> r.error == NomError
  {
    var f :- ParseFrequency(b, 7);
    Ok(Parsed(FieldFrequency(f.value), f.rest))
  }

  lemma FrequencyRoundTrip(f: Frequency, rest: seq<Byte>)
    requires KhzField(f)
    ensures LeadingFrequency(Padded(f.AsKhz(), 7) + rest) == Ok(Parsed(f, rest))
    ensures CommaFrequency([COMMA] + (Padded(f.AsKhz(), 7) + rest)) == Ok(Parsed(f, rest))
  {
    assert Pow10(7) == 10_000_000;
    ParseNumPadded(f.AsKhz(), 7, U64, rest);
    CommaNumPadded(f.AsKhz(), 7, U64, rest);
    KhzFieldRoundTrip(f);
  }

  /** Five digits hold up to 99999 ms, but the field is a `u16`: only
      delays up to 65535 ms read back. */
  lemma DelayRoundTrip(ms: nat, rest: seq<Byte>)
    requires ms <= U16_MAX
    ensures CommaDelay([COMMA] + (Padded(ms, 5) + rest)) == Ok(Parsed(ms as int, rest))
  {
    assert Pow10(5) == 100_000;
    CommaNumPadded(ms, 5, U16, rest);
  }
}
