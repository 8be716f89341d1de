/** The signal-generator configuration `#C3-*:`: every setting of the
    generator in one comma-separated line of fixed-width decimal fields.
    Frequencies travel in kHz; the capture timestamp is not modelled. */
module GeneratorConfig {
  import opened Wrappers
  import opened Bytes
  import opened Numbers
  import opened Parsers
  import opened Frequencies
  import opened MessageError
  import opened GeneratorFields

  const PREFIX: seq<Byte> := [35, 67, 51, 45, 42, 58]   // "#C3-*:"

  datatype Config = Config(
    start: Frequency,
    cw: Frequency,
    totalSteps: nat,
    step: Frequency,
    attenuation: Attenuation,
    powerLevel: PowerLevel,
    sweepPowerSteps: nat,
    startAttenuation: Attenuation,
    startPowerLevel: PowerLevel,
    stopAttenuation: Attenuation,
    stopPowerLevel: PowerLevel,
    rfPower: RfPower,
    sweepDelayMs: nat)
  {
    /** What the fixed-width fields can carry. */
    predicate Valid() {
      KhzField(start) && KhzField(cw) && totalSteps < Pow10(4) && KhzField(step)
      && sweepPowerSteps < Pow10(4) && sweepDelayMs <= U16_MAX
    }

    function Levels(): SweepLevels {
      SweepLevels(sweepPowerSteps, startAttenuation, startPowerLevel, stopAttenuation, stopPowerLevel)
    }
  }

  /** The prefix, the start and CW frequencies, the step count and the step
      size. */
  function ParseHead(b: seq<Byte>): (r: PResult<(Frequency, Frequency, int, Frequency)>)
    ensures r.Ok? ==> StartsWith(b, PREFIX)
    ensures r.Ok? ==> KhzField(r.value.value.0) && KhzField(r.value.value.1)
    ensures r.Ok? ==> 0 <= r.value.value.2 < Pow10(4) && KhzField(r.value.value.3)
    ensures r.Err? ==> r.error == NomError
  {
    var p :- Tag(b, PREFIX);
    var start :- LeadingFrequency(p.rest);
    var cw :- CommaFrequency(start.rest);
    var steps :- CommaSteps(cw.rest);
    Ok(Parsed((start.value, cw.value, steps.value.0, steps.value.1), steps.rest))
  }

  /** `Config::try_from` before the error conversion. */
  function Parse(b: seq<Byte>): (r: Result<Config, Failure>)
    ensures r.Ok? ==> StartsWith(b, PREFIX) && r.value.Valid()
    ensures r.Err? ==> r.error == NomError
  {
    var head :- ParseHead(b);
    var level :- CommaLevel(head.rest);
    var sweep :- CommaSweepLevels(level.rest);
    var rf :- CommaDigitEnum(sweep.rest, RfPowerFromCode);
    var delay :- CommaDelay(rf.rest);
    var _ :- ParseOptLineEnding(delay.rest);
    var (start, cw, totalSteps, step) := head.value;
    var s := sweep.value;
    Ok(Config(start, cw, totalSteps, step, level.value.0, level.value.1,
              s.sweepPowerSteps, s.startAttenuation, s.startPowerLevel, s.stopAttenuation, s.stopPowerLevel,
              rf.value, delay.value))
  }

  function FromBytes(b: seq<Byte>): (r: Result<Config, MessageParseError>)
    ensures r.Ok? <==> Parse(b).Ok?
    ensures r.Ok? ==> r.value == Parse(b).value
    ensures r.Err? ==> r.error == Invalid
  {
    Lift(Parse(b))
  }

  /** The device side of `Parse`, in the layout the unit test shows. */
  function Format(c: Config, lineEnding: seq<Byte>): seq<Byte>
    requires c.Valid()
  {
    PREFIX + FormatBody(c, lineEnding)
  }

  function FormatBody(c: Config, lineEnding: seq<Byte>): seq<Byte>
    requires c.Valid()
  {
    Padded(c.start.AsKhz(), 7) + ([COMMA] + (Padded(c.cw.AsKhz(), 7)
      + FormatSteps(c.totalSteps, c.step, FormatTail(c, lineEnding))))
  }

  function FormatTail(c: Config, lineEnding: seq<Byte>): seq<Byte>
    requires c.Valid()
  {
    FormatLevel(c.attenuation, c.powerLevel,
      FormatSweepLevels(c.Levels(), EnumField(c.rfPower.Code(), [COMMA] + (Padded(c.sweepDelayMs, 5) + lineEnding))))
  }

  lemma {:induction false} HeadRoundTrip(c: Config, lineEnding: seq<Byte>)
    requires c.Valid()
    ensures ParseHead(Format(c, lineEnding)) == Ok(Parsed((c.start, c.cw, c.totalSteps as int, c.step), FormatTail(c, lineEnding)))
  {
    var tail := FormatTail(c, lineEnding);
    var x2 := FormatSteps(c.totalSteps, c.step, tail);
    var x1 := [COMMA] + (Padded(c.cw.AsKhz(), 7) + x2);
    var b := Format(c, lineEnding);
    assert b == PREFIX + (Padded(c.start.AsKhz(), 7) + x1);
    assert Tag(b, PREFIX) == Ok(Parsed(PREFIX, Padded(c.start.AsKhz(), 7) + x1)) by {
      assert b[..|PREFIX|] == PREFIX;
      assert b[|PREFIX|..] == Padded(c.start.AsKhz(), 7) + x1;
    }
    FrequencyRoundTrip(c.start, x1);
    FrequencyRoundTrip(c.cw, x2);
    StepsRoundTrip(c.totalSteps, c.step, tail);
  }

  lemma {:induction false} TailRoundTrip(c: Config, lineEnding: seq<Byte>)
    requires c.Valid()
    ensures CommaLevel(FormatTail(c, lineEnding)).Ok?
    ensures var level := CommaLevel(FormatTail(c, lineEnding)).value;
      level.value == (c.attenuation, c.powerLevel)
      && CommaSweepLevels(level.rest) == Ok(Parsed(c.Levels(), EnumField(c.rfPower.Code(), [COMMA] + (Padded(c.sweepDelayMs, 5) + lineEnding))))
  {
    var x6 := [COMMA] + (Padded(c.sweepDelayMs, 5) + lineEnding);
    var x5 := EnumField(c.rfPower.Code(), x6);
    LevelRoundTrip(c.attenuation, c.powerLevel, FormatSweepLevels(c.Levels(), x5));
    SweepLevelsRoundTrip(c.Levels(), x5);
  }

  /** Round trip: every valid configuration, followed by any line ending,
      reads back as itself. */
  lemma {:induction false} RoundTrip(c: Config, lineEnding: seq<Byte>)
    requires c.Valid() && IsLineEnding(lineEnding)
    ensures FromBytes(Format(c, lineEnding)) == Ok(c)
  {
    var x6 := [COMMA] + (Padded(c.sweepDelayMs, 5) + lineEnding);
    HeadRoundTrip(c, lineEnding);
    TailRoundTrip(c, lineEnding);
    CommaDigitEnumRoundTrip(c.rfPower.Code(), RfPowerFromCode, x6);
    DelayRoundTrip(c.sweepDelayMs, lineEnding);
  }

  /** Any input that does not start with `#C3-*:` is rejected. */
  lemma WrongPrefixRejected(b: seq<Byte>)
    requires !StartsWith(b, PREFIX)
    ensures FromBytes(b) == Err(Invalid)
  {
  }

  /** The configuration the unit test's message
      `#C3-*:0510000,0186525,0005,0001000,0,3,0000,0,0,1,3,0,00100\r\n`
      describes; that message is its `Format` with a `\r\n` ending. */
  function Sample(): (c: Config)
    ensures c.Valid()
  {
    assert Pow10(4) == 10_000 && Pow10(7) == 10_000_000;
    Config(Frequency(510_000_000), Frequency(186_525_000), 5, Frequency(1_000_000),
           On, Highest, 0, On, Lowest, Off, Highest, RfOn, 100)
  }
}

/** The amplitude-sweep configuration `#C3-A:`. */
module GeneratorConfigAmpSweep {
  import opened Wrappers
  import opened Bytes
  import opened Numbers
  import opened Parsers
  import opened Frequencies
  import opened MessageError
  import opened GeneratorFields

  const PREFIX: seq<Byte> := [35, 67, 51, 45, 65, 58]   // "#C3-A:"

  datatype ConfigAmpSweep = ConfigAmpSweep(
    cw: Frequency,
    sweepPowerSteps: nat,
    startAttenuation: Attenuation,
    startPowerLevel: PowerLevel,
    stopAttenuation: Attenuation,
    stopPowerLevel: PowerLevel,
    rfPower: RfPower,
    sweepDelayMs: nat)
  {
    predicate Valid() {
      KhzField(cw) && sweepPowerSteps < Pow10(4) && sweepDelayMs <= U16_MAX
    }

    function Levels(): SweepLevels {
      SweepLevels(sweepPowerSteps, startAttenuation, startPowerLevel, stopAttenuation, stopPowerLevel)
    }
  }

  function Parse(b: seq<Byte>): (r: Result<ConfigAmpSweep, Failure>)
    ensures r.Ok? ==> StartsWith(b, PREFIX) && r.value.Valid()
    ensures r.Err? ==> r.error == NomError
  {
    var p :- Tag(b, PREFIX);
    var cw :- LeadingFrequency(p.rest);
    var sweep :- CommaSweepLevels(cw.rest);
    var rf :- CommaDigitEnum(sweep.rest, RfPowerFromCode);
    var delay :- CommaDelay(rf.rest);
    var _ :- ParseOptLineEnding(delay.rest);
    var s := sweep.value;
    Ok(ConfigAmpSweep(cw.value, s.sweepPowerSteps, s.startAttenuation, s.startPowerLevel,
                      s.stopAttenuation, s.stopPowerLevel, rf.value, delay.value))
  }

  function FromBytes(b: seq<Byte>): (r: Result<ConfigAmpSweep, MessageParseError>)
    ensures r.Ok? <==> Parse(b).Ok?
    ensures r.Ok? ==> r.value == Parse(b).value
    ensures r.Err? ==> r.error == Invalid
  {
    Lift(Parse(b))
  }

  function Format(c: ConfigAmpSweep, lineEnding: seq<Byte>): seq<Byte>
    requires c.Valid()
  {
    PREFIX + (Padded(c.cw.AsKhz(), 7)
      + FormatSweepLevels(c.Levels(), EnumField(c.rfPower.Code(), [COMMA] + (Padded(c.sweepDelayMs, 5) + lineEnding))))
  }

  lemma {:induction false} RoundTrip(c: ConfigAmpSweep, lineEnding: seq<Byte>)
    requires c.Valid() && IsLineEnding(lineEnding)
    ensures FromBytes(Format(c, lineEnding)) == Ok(c)
  {
    var x6 := [COMMA] + (Padded(c.sweepDelayMs, 5) + lineEnding);
    var x5 := EnumField(c.rfPower.Code(), x6);
    var x1 := FormatSweepLevels(c.Levels(), x5);
    var b := Format(c, lineEnding);
    assert Tag(b, PREFIX) == Ok(Parsed(PREFIX, Padded(c.cw.AsKhz(), 7) + x1)) by {
      assert b[..|PREFIX|] == PREFIX;
      assert b[|PREFIX|..] == Padded(c.cw.AsKhz(), 7) + x1;
    }
    FrequencyRoundTrip(c.cw, x1);
    SweepLevelsRoundTrip(c.Levels(), x5);
    CommaDigitEnumRoundTrip(c.rfPower.Code(), RfPowerFromCode, x6);
    DelayRoundTrip(c.sweepDelayMs, lineEnding);
  }

  /** The unit test's message `#C3-A:0186525,0000,0,0,1,3,0,00100\r\n`. */
  function Sample(): (c: ConfigAmpSweep)
    ensures c.Valid()
  {
    assert Pow10(4) == 10_000 && Pow10(7) == 10_000_000;
    ConfigAmpSweep(Frequency(186_525_000), 0, On, Lowest, Off, Highest, RfOn, 100)
  }
}

/** The CW configuration `#C3-G:`. The CW frequency is sent twice; the
    second copy must parse but is discarded. */
module GeneratorConfigCw {
  import opened Wrappers
  import opened Bytes
  import opened Numbers
  import opened Parsers
  import opened Frequencies
  import opened MessageError
  import opened GeneratorFields

  const PREFIX: seq<Byte> := [35, 67, 51, 45, 71, 58]   // "#C3-G:"

  datatype ConfigCw = ConfigCw(
    cw: Frequency,
    totalSteps: nat,
    stepFreq: Frequency,
    attenuation: Attenuation,
    powerLevel: PowerLevel,
    rfPower: RfPower)
  {
    predicate Valid() {
      KhzField(cw) && totalSteps < Pow10(4) && KhzField(stepFreq)
    }
  }

  function Parse(b: seq<Byte>): (r: Result<ConfigCw, Failure>)
    ensures r.Ok? ==> StartsWith(b, PREFIX) && r.value.Valid()
    ensures r.Err? ==> r.error == NomError
  {
    var p :- Tag(b, PREFIX);
    var cw :- LeadingFrequency(p.rest);
    var _ :- CommaFrequency(cw.rest);
    var steps :- CommaSteps(cw.rest[8..]);
    var level :- CommaLevel(steps.rest);
    var rf :- CommaDigitEnum(level.rest, RfPowerFromCode);
    var _ :- ParseOptLineEnding(rf.rest);
    Ok(ConfigCw(cw.value, steps.value.0, steps.value.1, level.value.0, level.value.1, rf.value))
  }

  function FromBytes(b: seq<Byte>): (r: Result<ConfigCw, MessageParseError>)
    ensures r.Ok? <==> Parse(b).Ok?
    ensures r.Ok? ==> r.value == Parse(b).value
    ensures r.Err? ==> r.error == Invalid
  {
    Lift(Parse(b))
  }

  /** The device side; `secondCw` is the repeated CW field, which the
      decoder ignores. */
  function Format(c: ConfigCw, secondCw: Frequency, lineEnding: seq<Byte>): seq<Byte>
    requires c.Valid() && KhzField(secondCw)
  {
    PREFIX + (Padded(c.cw.AsKhz(), 7) + ([COMMA] + (Padded(secondCw.AsKhz(), 7)
      + FormatSteps(c.totalSteps, c.stepFreq,
          FormatLevel(c.attenuation, c.powerLevel, EnumField(c.rfPower.Code(), lineEnding))))))
  }

  /** Round trip, whatever the repeated CW field holds. */
  lemma {:induction false} RoundTrip(c: ConfigCw, secondCw: Frequency, lineEnding: seq<Byte>)
    requires c.Valid() && KhzField(secondCw) && IsLineEnding(lineEnding)
    ensures FromBytes(Format(c, secondCw, lineEnding)) == Ok(c)
  {
    var x4 := EnumField(c.rfPower.Code(), lineEnding);
    var x3 := FormatLevel(c.attenuation, c.powerLevel, x4);
    var x2 := FormatSteps(c.totalSteps, c.stepFreq, x3);
    var x1 := [COMMA] + (Padded(secondCw.AsKhz(), 7) + x2);
    var b := Format(c, secondCw, lineEnding);
    assert Tag(b, PREFIX) == Ok(Parsed(PREFIX, Padded(c.cw.AsKhz(), 7) + x1)) by {
      assert b[..|PREFIX|] == PREFIX;
      assert b[|PREFIX|..] == Padded(c.cw.AsKhz(), 7) + x1;
    }
    FrequencyRoundTrip(c.cw, x1);
    FrequencyRoundTrip(secondCw, x2);
    assert x1[8..] == x2;
    StepsRoundTrip(c.totalSteps, c.stepFreq, x3);
    LevelRoundTrip(c.attenuation, c.powerLevel, x4);
    CommaDigitEnumRoundTrip(c.rfPower.Code(), RfPowerFromCode, lineEnding);
  }

  /** The unit test's message `#C3-G:0186525,0186525,0005,0001000,0,3,0\r\n`. */
  function Sample(): (c: ConfigCw)
    ensures c.Valid()
  {
    assert Pow10(4) == 10_000 && Pow10(7) == 10_000_000;
    ConfigCw(Frequency(186_525_000), 5, Frequency(1_000_000), On, Highest, RfOn)
  }
}

/** The frequency-sweep configuration `#C3-F:`. Its parser is a nom parser
    that returns the unconsumed input, which is always empty. */
module GeneratorConfigFreqSweep {
  import opened Wrappers
  import opened Bytes
  import opened Numbers
  import opened Parsers
  import opened Frequencies
  import opened MessageError
  import opened GeneratorFields

  const PREFIX: seq<Byte> := [35, 67, 51, 45, 70, 58]   // "#C3-F:"

  datatype ConfigFreqSweep = ConfigFreqSweep(
    start: Frequency,
    totalSteps: nat,
    step: Frequency,
    attenuation: Attenuation,
    powerLevel: PowerLevel,
    rfPower: RfPower,
    sweepDelayMs: nat)
  {
    predicate Valid() {
      KhzField(start) && totalSteps < Pow10(4) && KhzField(step) && sweepDelayMs <= U16_MAX
    }
  }

  function Parse(b: seq<Byte>): (r: PResult<ConfigFreqSweep>)
    ensures r.Ok? ==> StartsWith(b, PREFIX) && r.value.value.Valid() && r.value.rest == []
    ensures r.Err? ==> r.error == NomError
  {
    var p :- Tag(b, PREFIX);
    var start :- LeadingFrequency(p.rest);
    var steps :- CommaSteps(start.rest);
    var level :- CommaLevel(steps.rest);
    var rf :- CommaDigitEnum(level.rest, RfPowerFromCode);
    var delay :- CommaDelay(rf.rest);
    var le :- ParseOptLineEnding(delay.rest);
    Ok(Parsed(ConfigFreqSweep(start.value, steps.value.0, steps.value.1, level.value.0, level.value.1,
                              rf.value, delay.value), le.rest))
  }

  function FromBytes(b: seq<Byte>): (r: Result<ConfigFreqSweep, MessageParseError>)
    ensures r.Ok? <==> Parse(b).Ok?
    ensures r.Ok? ==> StartsWith(b, PREFIX) && r.value.Valid() && r.value == Parse(b).value.value
    ensures r.Err? ==> r.error == Invalid
  {
    LiftParsed(Parse(b))
  }

  function Format(c: ConfigFreqSweep, lineEnding: seq<Byte>): seq<Byte>
    requires c.Valid()
  {
    PREFIX + (Padded(c.start.AsKhz(), 7)
      + FormatSteps(c.totalSteps, c.step,
          FormatLevel(c.attenuation, c.powerLevel,
            EnumField(c.rfPower.Code(), [COMMA] + (Padded(c.sweepDelayMs, 5) + lineEnding)))))
  }

  lemma {:induction false} RoundTrip(c: ConfigFreqSweep, lineEnding: seq<Byte>)
    requires c.Valid() && IsLineEnding(lineEnding)
    ensures Parse(Format(c, lineEnding)) == Ok(Parsed(c, []))
    ensures FromBytes(Format(c, lineEnding)) == Ok(c)
  {
    var x5 := [COMMA] + (Padded(c.sweepDelayMs, 5) + lineEnding);
    var x4 := EnumField(c.rfPower.Code(), x5);
    var x3 := FormatLevel(c.attenuation, c.powerLevel, x4);
    var x1 := FormatSteps(c.totalSteps, c.step, x3);
    var b := Format(c, lineEnding);
    assert Tag(b, PREFIX) == Ok(Parsed(PREFIX, Padded(c.start.AsKhz(), 7) + x1)) by {
      assert b[..|PREFIX|] == PREFIX;
      assert b[|PREFIX|..] == Padded(c.start.AsKhz(), 7) + x1;
    }
    FrequencyRoundTrip(c.start, x1);
    StepsRoundTrip(c.totalSteps, c.step, x3);
    LevelRoundTrip(c.attenuation, c.powerLevel, x4);
    CommaDigitEnumRoundTrip(c.rfPower.Code(), RfPowerFromCode, x5);
    DelayRoundTrip(c.sweepDelayMs, lineEnding);
  }

  /** The unit test's message `#C3-F:0186525,0005,0001000,0,3,0,00100`,
      which has no line ending. */
  function Sample(): (c: ConfigFreqSweep)
    ensures c.Valid()
  {
    assert Pow10(4) == 10_000 && Pow10(7) == 10_000_000;
    ConfigFreqSweep(Frequency(186_525_000), 5, Frequency(1_000_000), On, Highest, RfOn, 100)
  }
}
