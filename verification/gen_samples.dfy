/** The messages of the signal-generator configuration unit tests, written
    out byte by byte, and what each of them decodes to. */
module GeneratorConfigSamples {
  import opened Wrappers
  import opened Bytes
  import opened Numbers
  import opened Parsers
  import opened Frequencies
  import opened MessageError
  import opened GeneratorFields
  import GeneratorConfig
  import GeneratorConfigAmpSweep
  import GeneratorConfigCw
  import GeneratorConfigFreqSweep

  /** `#C3-*:0510000,0186525,0005,0001000,0,3,0000,0,0,1,3,0,00100\r\n`,
      one field at a time. */
  const CONFIG_MESSAGE: seq<Byte> :=
    GeneratorConfig.PREFIX + ([48, 53, 49, 48, 48, 48, 48] + ([COMMA] + ([48, 49, 56, 54, 53, 50, 53]
    + ([COMMA] + ([48, 48, 48, 53] + ([COMMA] + ([48, 48, 48, 49, 48, 48, 48]
    + ([COMMA] + ([48] + ([COMMA] + ([51]
    + ([COMMA] + ([48, 48, 48, 48] + ([COMMA] + ([48] + ([COMMA] + ([48] + ([COMMA] + ([49] + ([COMMA] + ([51]
    + ([COMMA] + ([48] + ([COMMA] + ([48, 48, 49, 48, 48] + [CR, LF])))))))))))))))))))))))))

  /** `#C3-A:0186525,0000,0,0,1,3,0,00100\r\n`. */
  const AMP_SWEEP_MESSAGE: seq<Byte> :=
    GeneratorConfigAmpSweep.PREFIX + ([48, 49, 56, 54, 53, 50, 53]
    + ([COMMA] + ([48, 48, 48, 48] + ([COMMA] + ([48] + ([COMMA] + ([48] + ([COMMA] + ([49] + ([COMMA] + ([51]
    + ([COMMA] + ([48] + ([COMMA] + ([48, 48, 49, 48, 48] + [CR, LF])))))))))))))))

  /** `#C3-G:0186525,0186525,0005,0001000,0,3,0\r\n`. */
  const CW_MESSAGE: seq<Byte> :=
    GeneratorConfigCw.PREFIX + ([48, 49, 56, 54, 53, 50, 53] + ([COMMA] + ([48, 49, 56, 54, 53, 50, 53]
    + ([COMMA] + ([48, 48, 48, 53] + ([COMMA] + ([48, 48, 48, 49, 48, 48, 48]
    + ([COMMA] + ([48] + ([COMMA] + ([51] + ([COMMA] + ([48] + [CR, LF])))))))))))))

  /** `#C3-F:0186525,0005,0001000,0,3,0,00100`, with no line ending. */
  const FREQ_SWEEP_MESSAGE: seq<Byte> :=
    GeneratorConfigFreqSweep.PREFIX + ([48, 49, 56, 54, 53, 50, 53]
    + ([COMMA] + ([48, 48, 48, 53] + ([COMMA] + ([48, 48, 48, 49, 48, 48, 48]
    + ([COMMA] + ([48] + ([COMMA] + ([51] + ([COMMA] + ([48] + ([COMMA] + ([48, 48, 49, 48, 48] + [])))))))))))))

  // The rendering of each field value of the messages. Each literal is
  // evaluated in a lemma of its own, and each field lemma takes its value
  // as a variable, which keeps every proof obligation small.

  lemma Spelled510000()
    ensures Spelled(510_000, 7) == [48, 53, 49, 48, 48, 48, 48]
  {
  }

  lemma StartField(f: Frequency)
    requires f == Frequency(510_000_000)
    ensures KhzField(f) && Padded(f.AsKhz(), 7) == [48, 53, 49, 48, 48, 48, 48]
  {
    assert Pow10(7) == 10_000_000;
    PaddedSpelled(f.AsKhz(), 7);
    Spelled510000();
  }

  lemma Spelled1865()
    ensures Spelled(1_865, 5) == [48, 49, 56, 54, 53]
  {
  }

  lemma Spelled186525()
    ensures Spelled(186_525, 7) == [48, 49, 56, 54, 53, 50, 53]
  {
    Spelled1865();
    assert Spelled(18_652, 6) == [48, 49, 56, 54, 53] + [50];
  }

  lemma CwField(f: Frequency)
    requires f == Frequency(186_525_000)
    ensures KhzField(f) && Padded(f.AsKhz(), 7) == [48, 49, 56, 54, 53, 50, 53]
  {
    assert Pow10(7) == 10_000_000;
    PaddedSpelled(f.AsKhz(), 7);
    Spelled186525();
  }

  lemma Spelled5()
    ensures Spelled(5, 4) == [48, 48, 48, 53]
  {
  }

  lemma Spelled1000()
    ensures Spelled(1_000, 7) == [48, 48, 48, 49, 48, 48, 48]
  {
  }

  lemma StepCountField(n: nat)
    requires n == 5
    ensures n < Pow10(4) && Padded(n, 4) == [48, 48, 48, 53]
  {
    assert Pow10(4) == 10_000;
    PaddedSpelled(n, 4);
    Spelled5();
  }

  lemma StepField(f: Frequency)
    requires f == Frequency(1_000_000)
    ensures KhzField(f) && Padded(f.AsKhz(), 7) == [48, 48, 48, 49, 48, 48, 48]
  {
    assert Pow10(7) == 10_000_000;
    PaddedSpelled(f.AsKhz(), 7);
    Spelled1000();
  }

  lemma StepsText(n: nat, step: Frequency, rest: seq<Byte>)
    requires n == 5 && step == Frequency(1_000_000)
    ensures n < Pow10(4) && KhzField(step)
    ensures FormatSteps(n, step, rest)
      == [COMMA] + ([48, 48, 48, 53] + ([COMMA] + ([48, 48, 48, 49, 48, 48, 48] + rest)))
  {
    StepCountField(n);
    StepField(step);
  }

  lemma Spelled0()
    ensures Spelled(0, 4) == [48, 48, 48, 48]
  {
  }

  lemma PowerStepsField(n: nat)
    requires n == 0
    ensures n < Pow10(4) && Padded(n, 4) == [48, 48, 48, 48]
  {
    assert Pow10(4) == 10_000;
    PaddedSpelled(n, 4);
    Spelled0();
  }

  lemma SweepLevelsText(s: SweepLevels, rest: seq<Byte>)
    requires s == SweepLevels(0, On, Lowest, Off, Highest)
    ensures s.Valid()
    ensures FormatSweepLevels(s, rest) == [COMMA] + ([48, 48, 48, 48]
      + ([COMMA] + ([48] + ([COMMA] + ([48] + ([COMMA] + ([49] + ([COMMA] + ([51] + rest)))))))))
  {
    PowerStepsField(s.sweepPowerSteps);
    var stop := FormatLevel(s.stopAttenuation, s.stopPowerLevel, rest);
    StopLevelText(s.stopAttenuation, s.stopPowerLevel, rest);
    StartLevelText(s.startAttenuation, s.startPowerLevel, stop);
  }

  lemma StartLevelText(a: Attenuation, p: PowerLevel, rest: seq<Byte>)
    requires a == On && p == Lowest
    ensures FormatLevel(a, p, rest) == [COMMA] + ([48] + ([COMMA] + ([48] + rest)))
  {
  }

  lemma StopLevelText(a: Attenuation, p: PowerLevel, rest: seq<Byte>)
    requires a == Off && p == Highest
    ensures FormatLevel(a, p, rest) == [COMMA] + ([49] + ([COMMA] + ([51] + rest)))
  {
  }

  lemma LevelText(a: Attenuation, p: PowerLevel, rest: seq<Byte>)
    requires a == On && p == Highest
    ensures FormatLevel(a, p, rest) == [COMMA] + ([48] + ([COMMA] + ([51] + rest)))
  {
  }

  lemma Spelled100()
    ensures Spelled(100, 5) == [48, 48, 49, 48, 48]
  {
  }

  lemma DelayField(ms: nat)
    requires ms == 100
    ensures ms <= U16_MAX && Padded(ms, 5) == [48, 48, 49, 48, 48]
  {
    assert Pow10(5) == 100_000;
    PaddedSpelled(ms, 5);
    Spelled100();
  }

  lemma RfDelayText(rf: RfPower, ms: nat, lineEnding: seq<Byte>)
    requires rf == RfOn && ms == 100
    ensures ms <= U16_MAX
    ensures EnumField(rf.Code(), [COMMA] + (Padded(ms, 5) + lineEnding))
      == [COMMA] + ([48] + ([COMMA] + ([48, 48, 49, 48, 48] + lineEnding)))
  {
    DelayField(ms);
  }

  // `#C3-*:`

  lemma ConfigTailText(c: GeneratorConfig.Config, lineEnding: seq<Byte>)
    requires c == GeneratorConfig.Sample()
    ensures c.Valid()
    ensures GeneratorConfig.FormatTail(c, lineEnding) == [COMMA] + ([48] + ([COMMA] + ([51]
      + ([COMMA] + ([48, 48, 48, 48] + ([COMMA] + ([48] + ([COMMA] + ([48] + ([COMMA] + ([49] + ([COMMA] + ([51]
      + ([COMMA] + ([48] + ([COMMA] + ([48, 48, 49, 48, 48] + lineEnding)))))))))))))))))
  {
    RfDelayText(c.rfPower, c.sweepDelayMs, lineEnding);
    var x5 := EnumField(c.rfPower.Code(), [COMMA] + (Padded(c.sweepDelayMs, 5) + lineEnding));
    SweepLevelsText(c.Levels(), x5);
    LevelText(c.attenuation, c.powerLevel, FormatSweepLevels(c.Levels(), x5));
  }

  /** The unit test's message is `Format` of the sample with a `\r\n`
      ending. */
  lemma ConfigMessage(c: GeneratorConfig.Config)
    requires c == GeneratorConfig.Sample()
    ensures c.Valid() && GeneratorConfig.Format(c, [CR, LF]) == CONFIG_MESSAGE
  {
    var tail := GeneratorConfig.FormatTail(c, [CR, LF]);
    ConfigTailText(c, [CR, LF]);
    StepsText(c.totalSteps, c.step, tail);
    CwField(c.cw);
    StartField(c.start);
  }

  lemma ConfigParsesFormatted(b: seq<Byte>, c: GeneratorConfig.Config)
    requires c.Valid() && b == GeneratorConfig.Format(c, [CR, LF])
    ensures GeneratorConfig.FromBytes(b) == Ok(c)
  {
    GeneratorConfig.RoundTrip(c, [CR, LF]);
  }

  /** The unit test's bytes decode to start 510 MHz, CW 186.525 MHz, five
      steps of 1 MHz, attenuation on at the highest level, no power steps
      from (on, lowest) to (off, highest), RF on and a 100 ms delay. */
  lemma ConfigSampleDecodes(c: GeneratorConfig.Config)
    requires c == GeneratorConfig.Sample()
    ensures GeneratorConfig.FromBytes(CONFIG_MESSAGE) == Ok(c)
  {
    ConfigMessage(c);
    ConfigParsesFormatted(CONFIG_MESSAGE, c);
  }

  /** The fields the unit test asserts. */
  lemma ConfigSampleFields()
    ensures GeneratorConfig.FromBytes(CONFIG_MESSAGE).Ok?
    ensures var c := GeneratorConfig.FromBytes(CONFIG_MESSAGE).value;
      c.start.AsHz() == 510_000_000 && c.cw.AsHz() == 186_525_000 && c.totalSteps == 5
      && c.step.AsHz() == 1_000_000 && c.attenuation == On && c.powerLevel == Highest
      && c.sweepPowerSteps == 0 && c.startAttenuation == On && c.startPowerLevel == Lowest
      && c.stopAttenuation == Off && c.stopPowerLevel == Highest && c.rfPower == RfOn
      && c.sweepDelayMs == 100
  {
    ConfigSampleDecodes(GeneratorConfig.Sample());
  }

  // `#C3-A:`

  lemma AmpSweepMessage(c: GeneratorConfigAmpSweep.ConfigAmpSweep)
    requires c == GeneratorConfigAmpSweep.Sample()
    ensures c.Valid() && GeneratorConfigAmpSweep.Format(c, [CR, LF]) == AMP_SWEEP_MESSAGE
  {
    RfDelayText(c.rfPower, c.sweepDelayMs, [CR, LF]);
    var x5 := EnumField(c.rfPower.Code(), [COMMA] + (Padded(c.sweepDelayMs, 5) + [CR, LF]));
    SweepLevelsText(c.Levels(), x5);
    CwField(c.cw);
  }

  lemma AmpSweepParsesFormatted(b: seq<Byte>, c: GeneratorConfigAmpSweep.ConfigAmpSweep)
    requires c.Valid() && b == GeneratorConfigAmpSweep.Format(c, [CR, LF])
    ensures GeneratorConfigAmpSweep.FromBytes(b) == Ok(c)
  {
    GeneratorConfigAmpSweep.RoundTrip(c, [CR, LF]);
  }

  /** The unit test's bytes decode to CW 186.525 MHz, no power steps from
      (on, lowest) to (off, highest), RF on and a 100 ms delay. */
  lemma AmpSweepSampleDecodes(c: GeneratorConfigAmpSweep.ConfigAmpSweep)
    requires c == GeneratorConfigAmpSweep.Sample()
    ensures GeneratorConfigAmpSweep.FromBytes(AMP_SWEEP_MESSAGE) == Ok(c)
  {
    AmpSweepMessage(c);
    AmpSweepParsesFormatted(AMP_SWEEP_MESSAGE, c);
  }

  /** The fields the unit test asserts. */
  lemma AmpSweepSampleFields()
    ensures GeneratorConfigAmpSweep.FromBytes(AMP_SWEEP_MESSAGE).Ok?
    ensures var c := GeneratorConfigAmpSweep.FromBytes(AMP_SWEEP_MESSAGE).value;
      c.cw.AsKhz() == 186_525 && c.sweepPowerSteps == 0 && c.startAttenuation == On
      && c.startPowerLevel == Lowest && c.stopAttenuation == Off && c.stopPowerLevel == Highest
      && c.rfPower == RfOn && c.sweepDelayMs == 100
  {
    AmpSweepSampleDecodes(GeneratorConfigAmpSweep.Sample());
  }

  // `#C3-G:`

  lemma CwMessage(c: GeneratorConfigCw.ConfigCw)
    requires c == GeneratorConfigCw.Sample()
    ensures c.Valid() && KhzField(c.cw)
    ensures GeneratorConfigCw.Format(c, c.cw, [CR, LF]) == CW_MESSAGE
  {
    var x4 := EnumField(c.rfPower.Code(), [CR, LF]);
    assert x4 == [COMMA] + ([48] + [CR, LF]);
    LevelText(c.attenuation, c.powerLevel, x4);
    StepsText(c.totalSteps, c.stepFreq, GeneratorFields.FormatLevel(c.attenuation, c.powerLevel, x4));
    CwField(c.cw);
  }

  lemma CwParsesFormatted(b: seq<Byte>, c: GeneratorConfigCw.ConfigCw)
    requires c.Valid() && KhzField(c.cw) && b == GeneratorConfigCw.Format(c, c.cw, [CR, LF])
    ensures GeneratorConfigCw.FromBytes(b) == Ok(c)
  {
    GeneratorConfigCw.RoundTrip(c, c.cw, [CR, LF]);
  }

  /** The unit test's bytes decode to CW 186.525 MHz, five steps of 1 MHz,
      attenuation on at the highest level and RF on. */
  lemma CwSampleDecodes(c: GeneratorConfigCw.ConfigCw)
    requires c == GeneratorConfigCw.Sample()
    ensures GeneratorConfigCw.FromBytes(CW_MESSAGE) == Ok(c)
  {
    CwMessage(c);
    CwParsesFormatted(CW_MESSAGE, c);
  }

  /** The fields the unit test asserts. */
  lemma CwSampleFields()
    ensures GeneratorConfigCw.FromBytes(CW_MESSAGE).Ok?
    ensures var c := GeneratorConfigCw.FromBytes(CW_MESSAGE).value;
      c.cw.AsKhz() == 186_525 && c.totalSteps == 5 && c.stepFreq.AsKhz() == 1_000
      && c.attenuation == On && c.powerLevel == Highest && c.rfPower == RfOn
  {
    CwSampleDecodes(GeneratorConfigCw.Sample());
  }

  // `#C3-F:`

  lemma FreqSweepMessage(c: GeneratorConfigFreqSweep.ConfigFreqSweep)
    requires c == GeneratorConfigFreqSweep.Sample()
    ensures c.Valid() && GeneratorConfigFreqSweep.Format(c, []) == FREQ_SWEEP_MESSAGE
  {
    RfDelayText(c.rfPower, c.sweepDelayMs, []);
    var x4 := EnumField(c.rfPower.Code(), [COMMA] + (Padded(c.sweepDelayMs, 5) + []));
    LevelText(c.attenuation, c.powerLevel, x4);
    StepsText(c.totalSteps, c.step, GeneratorFields.FormatLevel(c.attenuation, c.powerLevel, x4));
    CwField(c.start);
  }

  lemma FreqSweepParsesFormatted(b: seq<Byte>, c: GeneratorConfigFreqSweep.ConfigFreqSweep)
    requires c.Valid() && b == GeneratorConfigFreqSweep.Format(c, [])
    ensures GeneratorConfigFreqSweep.Parse(b) == Ok(Parsed(c, []))
    ensures GeneratorConfigFreqSweep.FromBytes(b) == Ok(c)
  {
    GeneratorConfigFreqSweep.RoundTrip(c, []);
  }

  /** The unit test's bytes decode to start 186.525 MHz, five steps of
      1 MHz, attenuation on at the highest level, RF on and a 100 ms delay,
      with nothing left over. */
  lemma FreqSweepSampleDecodes(c: GeneratorConfigFreqSweep.ConfigFreqSweep)
    requires c == GeneratorConfigFreqSweep.Sample()
    ensures GeneratorConfigFreqSweep.Parse(FREQ_SWEEP_MESSAGE) == Ok(Parsed(c, []))
    ensures GeneratorConfigFreqSweep.FromBytes(FREQ_SWEEP_MESSAGE) == Ok(c)
  {
    FreqSweepMessage(c);
    FreqSweepParsesFormatted(FREQ_SWEEP_MESSAGE, c);
  }

  /** The fields the unit test asserts of what `parse` returns. */
  lemma FreqSweepSampleFields()
    ensures GeneratorConfigFreqSweep.Parse(FREQ_SWEEP_MESSAGE).Ok?
    ensures var c := GeneratorConfigFreqSweep.Parse(FREQ_SWEEP_MESSAGE).value.value;
      c.start.AsKhz() == 186_525 && c.totalSteps == 5 && c.step.AsKhz() == 1_000
      && c.attenuation == On && c.powerLevel == Highest && c.rfPower == RfOn && c.sweepDelayMs == 100
  {
    FreqSweepSampleDecodes(GeneratorConfigFreqSweep.Sample());
  }
}
