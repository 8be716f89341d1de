# RF Explorer client protocol core, modelled in Dafny

This project models the sequential protocol logic of the Rust client for
RF Explorer spectrum analyzers and signal generators. It covers:

- the per-model capability table of the spectrum analyzer and of the signal
  generator, and the `RadioModule` wrapper that says whether a model sits in
  the main or the expansion slot;
- the `Frequency` newtype: a count of hertz with unit constructors, unit
  accessors and checked arithmetic;
- the nom field parsers (`parse_num`, `parse_frequency`, `parse_comma`,
  `parse_opt_line_ending`) and the conversion of nom failures into
  `MessageParseError`;
- every message decoder of the core, each paired with a formatter and proved
  to round-trip:
  - the analyzer configuration `#C2-F:`;
  - the setup messages `#C2-M:` and `#C3-M:`;
  - the serial number `#Sn`, the DSP mode `DSP:`, the input stage `#a`, the
    tracking status `#K` and the temperature `#T:`;
  - the generator configurations `#C3-*:`, `#C3-A:`, `#C3-G:` and `#C3-F:`;
  - the three sweep encodings `$S`, `$s` and `$z`, and the 128×64 screen dump
    `$D`;
- the two prefix dispatchers, one for the analyzer and one for the generator;
- the read loop:
  - the retry on a `Truncated` remainder;
  - the rule that decides whether the buffer is kept or cleared;
  - the stop on a read error;
  - the handshake outcome;
  - the early-end-of-transmission (EEOT) drain and re-parse of the older
    generation;
- the command encoders (common, spectrum-analyzer, generator) and the
  `write_command` framing;
- the device state of both devices as a record of `Option` slots updated by
  a pure `CacheMessage`, together with the operations on it:
  - the validators and `set_config` with the calls built on it;
  - `set_sweep_len`;
  - radio-module selection and switching;
  - `fill_buf_with_sweep`;
  - the callback slots;
  - the serial-number query;
  - `set_dsp_mode` and `request_tracking`.

Bytes are integers `0..255`. Sweep amplitudes are integer counts of half a
dBm, so the source's `-byte / 2.0` becomes `-byte`. Decoders return the
crate's own error values through a `Result` datatype. Mutexes and condition
variables become one immutable record per device. Threads, timeouts and the
serial port are not modelled. What the port would deliver or time out on
becomes a parameter: a sequence of read outcomes, the replies observed while
waiting, or whether the device info arrived.

The repository holds several generations of the crate (`src/`, `lib/`,
`rfe/`). Each concern is modelled once, from the file cited in the table.
Where generations disagree, the model follows the cited one:

- Setup parsing follows `src/common/setup_info.rs` and the `rfe` tests: a
  main model code that is not a known model, including 255, is rejected. The
  `lib` generation's setup parser accepts 255 as no main model, which the
  `rfe` tests contradict.
- The generator's `StartAmpSweep` frame announces 30 bytes but formats 28.
  The size test for it is marked ignored in the source, so the model states
  the mismatch (`GeneratorCommands.AmpSweepLengthMismatch`) rather than the
  length invariant.
- The analyzer command encoder sends the `SetSweepPointsExt` byte as
  written, including its wrap-around below 16 points. The byte the code
  evidently intends is modelled beside it and listed under Findings.

## Model

| member | source | states |
|---|---|---|
| Frequencies.FromKhz | src/rf_explorer/frequency.rs:21-25 | A frequency built from k kilohertz reads back as exactly k whole kilohertz; u64 overflow is excluded |
| Frequencies.FromMhz | src/rf_explorer/frequency.rs:51-55 | A frequency built from m megahertz reads back as exactly m whole megahertz |
| Frequencies.FromGhz | src/rf_explorer/frequency.rs:81-85 | A frequency built from g gigahertz reads back as exactly g whole gigahertz |
| Frequencies.UnitConstructorsScale | src/rf_explorer/frequency.rs:211-241 | from_khz, from_mhz and from_ghz of n hold 10^3·n, 10^6·n and 10^9·n hertz |
| Frequencies.AccessorsRoundDown | src/rf_explorer/frequency.rs:111-141 | as_khz, as_mhz and as_ghz round down, and invert the matching constructor on exact multiples |
| Frequencies.ConversionExamples | src/rf_explorer/frequency.rs:244-400 | 10^9 Hz is 10^6 kHz, 1000 MHz and 1 GHz; 1 kHz is 1000 Hz; 999 Hz is 0 whole kHz |
| Frequencies.AddThenSub | src/rf_explorer/frequency.rs:152-174 | Subtracting what was added gives back the original frequency |
| Frequencies.SubThenAdd | src/rf_explorer/frequency.rs:152-174 | Adding back what was subtracted gives back the original; subtracting a larger frequency is excluded, as the source panics on it |
| Frequencies.MulThenDiv | src/rf_explorer/frequency.rs:176-198 | Dividing by a non-zero factor undoes multiplying by it |
| Frequencies.DivThenMul | src/rf_explorer/frequency.rs:186-198 | Division rounds down: multiplying the quotient back never exceeds the original and falls short by less than the divisor |
| Frequencies.AbsDiffSymmetric | lib/src/spectrum_analyzer/config.rs:111-112 | abs_diff is symmetric, zero exactly on equal frequencies, and adding it to the smaller frequency gives the larger |
| Frequencies.ArithmeticExamples | src/rf_explorer/frequency.rs:403-467 | 1 Hz + 1 Hz is 2 Hz, 1000 Hz + 1 kHz is 2 kHz, 3 GHz − 1 GHz is 2 GHz, 1 MHz · 2 is 2 MHz and 4 GHz / 2 is 2 GHz |
| Frequencies.OrderIsHzOrder | src/rf_explorer/frequency.rs:9 | Equality and ordering of frequencies are those of their hertz counts, and the order is total |
| Parsers.ParseNum | lib/src/rf_explorer/parsers.rs:18-25 | parse_num(d) succeeds iff at least d bytes are present and they parse as a value of the target type; it consumes exactly d bytes and fails with Error, never Incomplete |
| Parsers.ParseNumShortIsError | lib/src/rf_explorer/parsers.rs:18-25 | Fewer than d bytes is an Error, because the take is the complete one |
| Parsers.ParseNumPadded | lib/src/rf_explorer/parsers.rs:18-25 | A zero-padded d-digit rendering of a value of the target type parses back to that value and leaves the rest untouched |
| Parsers.ParseNumSignedPadded | lib/src/rf_explorer/parsers.rs:18-25 | The same for a signed field with a leading minus sign |
| Parsers.ParseFrequency | lib/src/rf_explorer/parsers.rs:27-31 | parse_frequency(d) is parse_num(d) at u64 |
| Parsers.ParseComma | lib/src/rf_explorer/parsers.rs:10-12 | Succeeds iff the input starts with a comma, and consumes exactly that comma |
| Parsers.ParseOptLineEnding | lib/src/rf_explorer/parsers.rs:14-16 | Succeeds iff what remains is empty, LF or CRLF, and leaves nothing behind |
| MessageError.FromNom | rfe/src/common/message.rs:19-26 | A nom Incomplete becomes Incomplete; every other nom failure becomes Invalid |
| SpectrumAnalyzerModel.FromCode | lib/src/spectrum_analyzer/model.rs:7-28 | Codes 7, 8, 9, 15 and 255 fail to decode; codes 19 to 254 decode to Unknown |
| SpectrumAnalyzerModel.CodeRoundTrip | lib/src/spectrum_analyzer/model.rs:7-28 | Every model's code decodes to that model, and a code decoding to a named model is its code |
| SpectrumAnalyzerModel.PlusModelsByCode | lib/src/spectrum_analyzer/model.rs:31-43 | is_plus_model holds exactly for the models with codes 10 to 18 |
| SpectrumAnalyzerModel.WifiModelsCoverAWifiBand | lib/src/spectrum_analyzer/model.rs:45-57 | Every Wi-Fi-capable model other than Unknown covers a whole 2.4 GHz or 5 GHz band; ProAudio, the MW5G models and Unknown have no Wi-Fi analyzer |
| SpectrumAnalyzerModel.LimitsConsistent | lib/src/spectrum_analyzer/model.rs:59-134 | For every model min_freq ≤ max_freq and min_span ≤ max_span, both within u64, and max_span fits in the frequency range |
| SpectrumAnalyzerModel.UnknownAcceptsEverything | lib/src/spectrum_analyzer/model.rs:74-131 | Unknown's bounds are 0..u64::MAX, so it admits every frequency and span; Unknown is the default |
| GeneratorModel.FromCode | rfe/src/signal_generator/model.rs:7-12 | Exactly codes 60 and 61 decode |
| GeneratorModel.CodeRoundTrip | rfe/src/signal_generator/model.rs:7-29 | Codes and models correspond one to one, and each model's frequency range is non-empty |
| RadioModules.Default | lib/src/rf_explorer/radio_module.rs:29-35 | The default radio module is the main slot holding the model's default |
| SpectrumAnalyzerConfig.ModeFromCode | lib/src/spectrum_analyzer/config.rs:17-31 | The mode codes are exactly 0, 1, 2, 5, 6, 60 to 63 and 255 |
| SpectrumAnalyzerConfig.CalcModeFromCode | lib/src/spectrum_analyzer/config.rs:51-62 | The calculator-mode codes are exactly 0 to 5 and 255 |
| SpectrumAnalyzerConfig.ParseExpansionFlag | lib/src/spectrum_analyzer/config.rs:153-157 | The expansion field must be the digit 0 or 1 and means active iff it is 1 |
| SpectrumAnalyzerConfig.ParseSweepLen | lib/src/spectrum_analyzer/config.rs:148 | A decoded sweep length fits a u16, and every failure is a nom Error |
| SpectrumAnalyzerConfig.ParseTail | lib/src/spectrum_analyzer/config.rs:179-195 | The trailing fields are optional; an RBW present is below 10^5 kHz and an offset present fits an i8 |
| SpectrumAnalyzerConfig.Build | lib/src/spectrum_analyzer/config.rs:200-207 | stop = start + step·(sweep_len − 1), span = stop − start, and center is the rounded-down midpoint; a sweep length of 0 is rejected |
| SpectrumAnalyzerConfig.Parse | lib/src/spectrum_analyzer/config.rs:121-221 | Only input that starts with #C2-F: can decode, and every failure is a nom Error |
| SpectrumAnalyzerConfigFormat.HeadRoundTrip | lib/src/spectrum_analyzer/config.rs:123-148 | Start in kHz, step in Hz, max and min amplitude, and sweep length are read back from their fixed-width rendering |
| SpectrumAnalyzerConfigFormat.MiddleRoundTrip | lib/src/spectrum_analyzer/config.rs:150-177 | Expansion flag, mode, and min/max frequency and max span in kHz are read back from their rendering |
| SpectrumAnalyzerConfigFormat.AbsentTail | lib/src/spectrum_analyzer/config.rs:179-195 | Without trailing fields, RBW, offset and calculator mode are all None |
| SpectrumAnalyzerConfigFormat.PresentTail | lib/src/spectrum_analyzer/config.rs:179-195 | When the RBW is present, the trailing RBW, offset and calculator mode are read back |
| SpectrumAnalyzerConfigFormat.RoundTrip | lib/src/spectrum_analyzer/config.rs:121-221 | A formatted configuration with any line ending decodes to the configuration the field values define |
| SpectrumAnalyzerConfigFormat.OnlyLineEndingMayFollow | lib/src/spectrum_analyzer/config.rs:198 | When RBW, offset and calculator mode are all present, a configuration decodes iff what follows its last field is empty, LF or CRLF |
| SpectrumAnalyzerConfigFormat.LoneCommaAccepted | lib/src/spectrum_analyzer/config.rs:178-198 | Without the optional fields, a comma before the line ending is still accepted, because each comma and field is optional on its own |
| SpectrumAnalyzerConfigFormat.WrongPrefixRejected | lib/src/spectrum_analyzer/config.rs:123 | Input that does not start with #C2-F: is an invalid message |
| SpectrumAnalyzerConfigFormat.ContainsOwnValues | lib/src/spectrum_analyzer/config.rs:104-115 | A configuration contains its own start, stop and amplitudes |
| SpectrumAnalyzerConfigFormat.ContainsAsIntervals | lib/src/spectrum_analyzer/config.rs:104-115 | contains_start_stop_amp_range holds iff start is within one step, stop within two steps, and both amplitudes are equal |
| SpectrumAnalyzerConfigSamples.SampleMessage | lib/src/spectrum_analyzer/config.rs:229-231 | The test's literal bytes are the rendering of start 5249000 kHz, step 196428 Hz, amplitudes −30 and −118, 112 points, mode 0, 4.85 to 6.1 GHz, max span 600 MHz, RBW 200 kHz, offset 0 and calculator mode 0 |
| SpectrumAnalyzerConfigSamples.SampleParses | lib/src/spectrum_analyzer/config.rs:229-232 | parse of the test's literal bytes builds the configuration from exactly those field values |
| SpectrumAnalyzerConfigSamples.SampleBuild | lib/src/spectrum_analyzer/config.rs:233-249 | Those field values build start 5.249 GHz, step 196428 Hz, stop 5270803508 Hz, center 5259901754 Hz and span 21803508 Hz, as the test asserts |
| SpectrumAnalyzerConfigSamples.SampleDecodes | lib/src/spectrum_analyzer/config.rs:229-249 | from_bytes of the test's literal bytes succeeds with that configuration |
| Sweeps.AmplitudesFromBytes | src/spectrum_analyzer/sweep.rs:25-28 | One amplitude per byte, each between −255 and 0 half-dBm |
| Sweeps.AmplitudesRoundTrip | src/spectrum_analyzer/sweep.rs:25-28 | The bytes can be recovered from the amplitudes, so no information is lost |
| Sweeps.StandardLen | src/spectrum_analyzer/sweep.rs:30-36 | The $S length is byte 2, and a missing byte is InvalidFormat |
| Sweeps.ExtLen | src/spectrum_analyzer/sweep.rs:38-45 | The $s length is (byte 2 + 1)·16, a multiple of 16 between 16 and 4096 |
| Sweeps.LargeLen | src/spectrum_analyzer/sweep.rs:47-56 | The $z length is the big-endian u16 in bytes 2 and 3 |
| Sweeps.New | src/spectrum_analyzer/sweep.rs:59-75 | A sweep is made iff the amplitude bytes have exactly the expected length; fewer is TooFewAmplitudes, more is TooManyAmplitudes, none is InvalidFormat |
| Sweeps.FromBytes | src/spectrum_analyzer/sweep.rs:85-92 | An unknown prefix or a short header is InvalidFormat; otherwise the amplitudes start after the header and are checked against its length |
| Sweeps.RoundTrip | src/spectrum_analyzer/sweep.rs:85-92 | Each encoding of an encodable amplitude list decodes to that list |
| Sweeps.SameSweepInEveryEncoding | src/spectrum_analyzer/sweep.rs:99-187 | The three encodings of the same 112 bytes decode to equal sweeps |
| Sweeps.ExtraByteIsTooMany | src/spectrum_analyzer/sweep.rs:189-204 | One byte more than announced gives TooManyAmplitudes |
| Sweeps.MissingByteIsTooFew | src/spectrum_analyzer/sweep.rs:205-219 | One byte fewer than announced gives TooFewAmplitudes |
| ScreenDatas.ToMatrix | src/common/screen_data.rs:65-72 | matrix[r][c] is data[128·r + c] for all 8 rows and 128 columns |
| ScreenDatas.MatrixRoundTrip | src/common/screen_data.rs:65-72 | Chunking into rows loses nothing: flattening the matrix and chunking again gives it back |
| ScreenDatas.Parse | src/common/screen_data.rs:53-81 | Decodes iff $D is followed by 1024 bytes and then only a line ending; fewer bytes give Incomplete |
| ScreenDatas.RoundTrip | src/common/screen_data.rs:53-81 | A formatted dump with any line ending decodes to the same screen |
| ScreenDatas.ShortDumpIsIncomplete | src/common/screen_data.rs:58-59 | Every cut-off dump is Incomplete, because the take is the streaming one |
| ScreenDatas.GetPixel | src/common/screen_data.rs:29-34 | Pixel (x, y) is bit y mod 8 of byte 128·(y/8) + x of the dump; coordinates outside the screen are excluded |
| ScreenDatas.GetPixelChecked | src/common/screen_data.rs:41-46 | None iff x ≥ 128 or y ≥ 64, and otherwise get_pixel |
| SerialNumbers.Parse | rfe/src/common/serial_number.rs:28-41 | Decodes iff #Sn is followed by exactly 16 ASCII alphanumerics and only a line ending, and as_str is those 16 bytes |
| SerialNumbers.RoundTrip | rfe/src/common/serial_number.rs:28-41 | A valid serial number with any line ending decodes to itself |
| SerialNumbers.RejectWrongPrefix | rfe/src/common/serial_number.rs:60-63 | Input not starting with # is invalid |
| SerialNumbers.RejectShort | rfe/src/common/serial_number.rs:29-35 | Fifteen characters and a CRLF are not a serial number |
| SerialNumbers.RejectLong | rfe/src/common/serial_number.rs:37-38 | A seventeenth alphanumeric is not a line ending, so the message is invalid |
| SetupInfos.ParseMainModel | src/common/setup_info.rs:29 | The main field is three digits that must decode to a known model |
| SetupInfos.ParseExpansionModel | src/common/setup_info.rs:34-42 | The expansion field is a known model, or 255 for none; anything else fails |
| SetupInfos.ParseFirmware | src/common/setup_info.rs:47-51 | The firmware version is the valid UTF-8 rest of the line, and only a line ending may follow it |
| SetupInfos.ParseWithPrefix | src/common/setup_info.rs:21-61 | Needs the prefix; the main model is wrapped as Main, the expansion as Expansion, and the firmware is the rest after the two model fields |
| SetupInfos.RoundTrip | src/common/setup_info.rs:21-61 | A formatted setup line with a known main code, a known or absent expansion and any line ending decodes to those values |
| SetupInfos.MainMustDecode | src/common/setup_info.rs:29 | An unknown main code makes the whole message fail |
| SetupInfoInstances.AcceptWSub1G | rfe/src/spectrum_analyzer/setup_info.rs:23-33 | #C2-M:003,255,… is main WSub1G with no expansion and the given firmware |
| SetupInfoInstances.AcceptWSub1GPlusWith6GPlus | rfe/src/spectrum_analyzer/setup_info.rs:151-167 | #C2-M:010,014,… is main WSub1GPlus with expansion 6GPlus |
| SetupInfoInstances.RejectMissingMainModel | rfe/src/spectrum_analyzer/setup_info.rs:170-172 | Main code 255 is rejected |
| SetupInfoInstances.RejectMissingFirmware | rfe/src/spectrum_analyzer/setup_info.rs:180-182 | A setup line without a firmware field is rejected |
| SetupInfoInstances.AcceptGenerator | src/signal_generator/setup_info.rs:37 | #C3-M:060,255,… is main 6Gen with no expansion |
| CodeMessages.ParseCode | lib/src/spectrum_analyzer/input_stage.rs:30-42 | A one-code message decodes iff the prefix is followed by a valid code and only a line ending |
| DspModes.FromCode | lib/src/spectrum_analyzer/dsp_mode.rs:11-17 | DSP codes are exactly 0 to 3 |
| DspModes.CodeRoundTrip | lib/src/spectrum_analyzer/dsp_mode.rs:11-17 | DSP modes and codes correspond one to one |
| DspModes.Parse | lib/src/spectrum_analyzer/dsp_mode.rs:26-37 | Decodes iff DSP: is followed by a digit 0 to 3 and only a line ending |
| DspModes.RoundTrip | lib/src/spectrum_analyzer/dsp_mode.rs:26-37 | Every DSP mode with any line ending decodes to itself |
| DspModes.AcceptAuto | lib/src/spectrum_analyzer/dsp_mode.rs:56-61 | DSP:0 is Auto, the default |
| DspModes.RejectUnknownDigit | lib/src/spectrum_analyzer/dsp_mode.rs:31 | Digits 4 to 9 are rejected |
| InputStages.FromCode | lib/src/spectrum_analyzer/input_stage.rs:15-21 | Input-stage codes are exactly ASCII 0 to 4 |
| InputStages.CodeRoundTrip | lib/src/spectrum_analyzer/input_stage.rs:15-21 | Stages and codes correspond one to one |
| InputStages.FromBytes | lib/src/spectrum_analyzer/input_stage.rs:30-42 | Decodes iff #a is followed by an ASCII digit 0 to 4 and only a line ending |
| InputStages.RoundTrip | lib/src/spectrum_analyzer/input_stage.rs:30-42 | Every input stage with any line ending decodes to itself |
| TrackingStatuses.FromCode | lib/src/spectrum_analyzer/tracking_status.rs:11-15 | Tracking codes are exactly the raw bytes 0 and 1 |
| TrackingStatuses.FromBytes | lib/src/spectrum_analyzer/tracking_status.rs:24-35 | Decodes iff #K is followed by raw 0 or 1 and only a line ending |
| TrackingStatuses.RoundTrip | lib/src/spectrum_analyzer/tracking_status.rs:24-35 | Every tracking status with any line ending decodes to itself |
| TrackingStatuses.AcceptRawZero | lib/src/spectrum_analyzer/tracking_status.rs:43-47 | [#, K, 0] is Disabled, the default, and ASCII 0 is rejected |
| Temperatures.FromCode | lib/src/signal_generator/temperature.rs:12-20 | Temperature codes are exactly ASCII 0 to 6 |
| Temperatures.CodeRoundTrip | lib/src/signal_generator/temperature.rs:12-20 | Temperatures and codes correspond one to one |
| Temperatures.BandsAreContiguous | lib/src/signal_generator/temperature.rs:25-35 | Each band ends where the next begins |
| Temperatures.BandOf | lib/src/signal_generator/temperature.rs:25-35 | Every reading from −10 to 60 °C lies in some band |
| Temperatures.FromBytes | lib/src/signal_generator/temperature.rs:41-52 | Decodes iff #T: is followed by an ASCII digit 0 to 6 and only a line ending |
| Temperatures.RoundTrip | lib/src/signal_generator/temperature.rs:41-52 | Every temperature with any line ending decodes to itself |
| GeneratorFields.AttenuationFromCode | rfe/src/signal_generator/config.rs:14-18 | Attenuation codes are exactly 0 and 1 |
| GeneratorFields.PowerLevelFromCode | rfe/src/signal_generator/config.rs:22-28 | Power-level codes are exactly 0 to 3 |
| GeneratorFields.RfPowerFromCode | rfe/src/signal_generator/config.rs:32-36 | RF-power codes are exactly 0 and 1 |
| GeneratorFields.CodesRoundTrip | rfe/src/signal_generator/config.rs:12-36 | A code that decodes is the code of the value it decodes to |
| GeneratorFields.FieldFrequency | rfe/src/signal_generator/config.rs:133-146 | A seven-digit kHz field becomes 1000 times as many hertz |
| GeneratorFields.KhzFieldRoundTrip | rfe/src/signal_generator/config.rs:133-146 | A whole number of kHz below 10^7 is recovered from its kHz count |
| GeneratorFields.CommaDelay | rfe/src/signal_generator/config.rs:120-128 | The delay is a comma and five digits that fit a u16 millisecond count |
| GeneratorFields.DelayRoundTrip | rfe/src/signal_generator/config.rs:120-128 | Every u16 delay is read back from its five-digit rendering |
| GeneratorFields.LevelRoundTrip | rfe/src/signal_generator/config.rs:98-108 | An attenuation and power-level pair is read back from its two digits |
| GeneratorFields.SweepLevelsRoundTrip | lib/src/signal_generator/config_amp_sweep.rs:43-66 | Sweep power steps and the start and stop levels are read back from their rendering |
| GeneratorFields.StepsRoundTrip | rfe/src/signal_generator/config.rs:78-93 | Total steps and step size are read back from their rendering |
| GeneratorFields.FrequencyRoundTrip | rfe/src/signal_generator/config.rs:68-76 | A kHz frequency field is read back, with or without a leading comma |
| GeneratorConfig.Parse | rfe/src/signal_generator/config.rs:63-149 | Only input starting with #C3-*: can decode, and the result's fields fit their widths |
| GeneratorConfig.RoundTrip | rfe/src/signal_generator/config.rs:63-149 | A formatted generator configuration with any line ending decodes to itself |
| GeneratorConfig.WrongPrefixRejected | rfe/src/signal_generator/config.rs:65 | Any other prefix is an invalid message |
| GeneratorConfigSamples.ConfigMessage | rfe/src/signal_generator/config.rs:250-252 | The test's literal #C3-*: bytes are the CRLF-terminated rendering of the sample configuration |
| GeneratorConfigSamples.ConfigSampleDecodes | rfe/src/signal_generator/config.rs:250-266 | The test's literal bytes decode to the sample configuration |
| GeneratorConfigSamples.ConfigSampleFields | rfe/src/signal_generator/config.rs:253-266 | Decoding the literal gives start 510 MHz, cw 186.525 MHz, 5 steps of 1 MHz, attenuation on at the highest level, no power steps from (on, lowest) to (off, highest), RF on and a 100 ms delay |
| GeneratorConfigAmpSweep.Parse | lib/src/signal_generator/config_amp_sweep.rs:32-88 | Only input starting with #C3-A: can decode |
| GeneratorConfigAmpSweep.RoundTrip | lib/src/signal_generator/config_amp_sweep.rs:32-88 | A formatted amplitude-sweep configuration with any line ending decodes to itself |
| GeneratorConfigSamples.AmpSweepMessage | lib/src/signal_generator/config_amp_sweep.rs:153-155 | The test's literal #C3-A: bytes are the CRLF-terminated rendering of the sample amplitude sweep |
| GeneratorConfigSamples.AmpSweepSampleDecodes | lib/src/signal_generator/config_amp_sweep.rs:153-165 | The test's literal bytes decode to the sample amplitude sweep |
| GeneratorConfigSamples.AmpSweepSampleFields | lib/src/signal_generator/config_amp_sweep.rs:156-165 | Decoding the literal gives cw 186525 kHz, no power steps from (on, lowest) to (off, highest), RF on and a 100 ms delay |
| GeneratorConfigCw.Parse | lib/src/signal_generator/config_cw.rs:28-77 | Only input starting with #C3-G: can decode |
| GeneratorConfigCw.RoundTrip | lib/src/signal_generator/config_cw.rs:28-77 | A formatted CW configuration decodes to itself whatever the discarded second cw copy holds |
| GeneratorConfigSamples.CwMessage | lib/src/signal_generator/config_cw.rs:128-130 | The test's literal #C3-G: bytes are the CRLF-terminated rendering of the sample CW configuration, with its cw repeated |
| GeneratorConfigSamples.CwSampleDecodes | lib/src/signal_generator/config_cw.rs:128-138 | The test's literal bytes decode to the sample CW configuration |
| GeneratorConfigSamples.CwSampleFields | lib/src/signal_generator/config_cw.rs:131-138 | Decoding the literal gives cw 186525 kHz, 5 steps of 1000 kHz, attenuation on at the highest level and RF on |
| GeneratorConfigFreqSweep.Parse | src/signal_generator/config_freq_sweep.rs:22-74 | Only input starting with #C3-F: can decode, and a decoded message leaves nothing behind |
| GeneratorConfigFreqSweep.RoundTrip | src/signal_generator/config_freq_sweep.rs:22-74 | A formatted frequency-sweep configuration decodes to itself |
| GeneratorConfigSamples.FreqSweepMessage | src/signal_generator/config_freq_sweep.rs:81-83 | The test's literal #C3-F: bytes, without a line ending, are the rendering of the sample frequency sweep |
| GeneratorConfigSamples.FreqSweepSampleDecodes | src/signal_generator/config_freq_sweep.rs:81-92 | parse of the literal returns the sample frequency sweep with nothing left over, and from_bytes returns it too |
| GeneratorConfigSamples.FreqSweepSampleFields | src/signal_generator/config_freq_sweep.rs:84-92 | The parsed literal has start 186525 kHz, 5 steps of 1000 kHz, attenuation on at the highest level, RF on and a 100 ms delay |
| Dispatch.Tagged | lib/src/spectrum_analyzer/message.rs:23 | A decoder's success is wrapped in the message variant, and its error passes through unchanged |
| SpectrumAnalyzerMessages.FromBytes | lib/src/spectrum_analyzer/message.rs:21-44 | UnknownMessageType iff no analyzer prefix matches; other errors are Incomplete or Invalid |
| SpectrumAnalyzerMessages.Routing | lib/src/spectrum_analyzer/message.rs:21-44 | Each prefix, including all three sweep prefixes, hands the bytes to its own decoder, with no fall-through on error |
| SpectrumAnalyzerMessages.SweepMessage | lib/src/spectrum_analyzer/message.rs:34-38 | Every sweep encoding arrives as a Sweep message |
| SpectrumAnalyzerMessages.SetupMessage | lib/src/spectrum_analyzer/message.rs:32-33 | A decodable setup line arrives as a SetupInfo message |
| SpectrumAnalyzerMessages.SerialNumberMessage | lib/src/spectrum_analyzer/message.rs:30-31 | A serial-number line arrives as a SerialNumber message |
| GeneratorMessages.FromBytes | src/signal_generator/message.rs:23-43 | UnknownMessageType iff no generator prefix matches |
| GeneratorMessages.Routing | src/signal_generator/message.rs:23-43 | Each generator prefix hands the bytes to its own decoder, and its success or error is passed on unchanged |
| GeneratorMessages.ConfigMessages | src/signal_generator/message.rs:24-27 | Formatted #C3-*: and #C3-A: lines arrive as their configuration messages |
| GeneratorMessages.SweepConfigMessages | src/signal_generator/message.rs:28-31 | Formatted #C3-G: and #C3-F: lines arrive as their configuration messages |
| GeneratorMessages.TemperatureMessage | src/signal_generator/message.rs:38-39 | A temperature line arrives as a Temperature message |
| Devices.FindMessageInBuf | rfe/src/common/device.rs:179-189 | Retries on the remainder of a Truncated error and returns any other outcome unchanged; the result is never a Truncated with a remainder |
| Devices.NoRemainderNoRetry | rfe/src/common/device.rs:179-189 | With a decoder that never reports a remainder, the search is the decoder itself |
| Devices.AfterParse | rfe/src/common/device.rs:121-128 | A parsed message is cached and the buffer cleared; only Incomplete keeps the buffer |
| Devices.ReadIteration | rfe/src/common/device.rs:107-131 | A read time-out keeps the bytes read before it in the buffer, unparsed, and caches nothing; another read error stops the reader; a complete read parses the whole buffer, caches at most one message and leaves no unparsed bytes |
| Devices.TimedOutJoinsNextLine | rfe/src/common/device.rs:110-115 | Because nothing is parsed after a time-out, the bytes of a cut-off line followed by the next read act exactly as one read of both |
| Devices.RunReadsKeepsPending | rfe/src/common/device.rs:104-133 | Over any run the buffer is an incomplete message (or nothing) kept by the last parse, followed only by bytes that time-outs appended since; cached messages are only ever appended |
| Devices.FailureStops | rfe/src/common/device.rs:116-118 | After a read error nothing further is read |
| Devices.ReadMessages | rfe/src/common/device.rs:104-133 | The loop stops at the first read error and ends in the state the step-by-step definition gives |
| Devices.ConnectInternal | rfe/src/common/device.rs:46-59 | The connection succeeds iff the command was sent and device info arrived, and then the line limit is 131072; otherwise reading stops with Io or TimedOut |
| EarlyEndOfTransmission.FindFrom | src/common/device.rs:60-62 | Finds the first EEOT marker [255, 254, 255, 254, 0] at or after a position, or none |
| EarlyEndOfTransmission.Drain | src/common/device.rs:60-82 | Drops through each EEOT and re-parses; it ends with an empty buffer or with an incomplete, marker-free suffix |
| EarlyEndOfTransmission.ProcessBuffer | src/common/device.rs:53-85 | A parsed buffer is processed and cleared; a non-Incomplete error clears it; Incomplete goes through the drain |
| EarlyEndOfTransmission.DrainLoop | src/common/device.rs:60-82 | The while-let loop computes the same outcome as the recursive drain |
| EarlyEndOfTransmission.RecoverAfterMarker | src/common/device.rs:64-73 | A complete message after an aborted one and a marker is recovered and the buffer cleared |
| EarlyEndOfTransmission.IncompleteWithoutMarkerIsKept | src/common/device.rs:58-63 | Without a marker an incomplete message stays in the buffer |
| BaudRates.BpsToCode | lib/src/common/serial_port.rs:258-271 | Exactly the nine supported rates have a code, an ASCII digit; others are InvalidInput |
| BaudRates.TryFrom | lib/src/common/serial_port.rs:289-298 | Keeps the rate and pairs it with its code; unsupported rates fail |
| BaudRates.DefaultIsFastRate | lib/src/common/serial_port.rs:300-307 | The default is 500000 bps with code 0 |
| BaudRates.CodesIdentifyRates | lib/src/common/serial_port.rs:258-271 | No two rates share a code |
| BaudRates.GenerationsAgree | src/rf_explorer/rf_explorer.rs:108-136 | The older enum's rates and codes are exactly the supported ones |
| BaudRates.SameBridgeInBothGenerations | lib/src/common/serial_port.rs:154-165 | is_silabs_cp210x holds iff the port is USB with vid 4292 and pid 60000 |
| Frames.WriteCommand | src/rf_explorer/rf_explorer.rs:41-50 | Emits #, the total length and the payload iff the total fits a u8; otherwise InvalidInput and nothing written |
| Frames.FrameRoundTrip | src/rf_explorer/rf_explorer.rs:41-50 | Every frame whose second byte is its length is what write_command makes of its payload |
| CommonCommands.Encode | rfe/src/rf_explorer/command.rs:19-34 | Every common command is a frame whose second byte is its length |
| CommonCommands.RoundTrip | rfe/src/rf_explorer/command.rs:19-34 | Each common command, SetBaudRate included, is told apart from every other |
| CommonCommands.GenerationsAgree | src/rf_explorer/rf_explorer.rs:52-105 | The older generation's write_command payloads give the same frames as the command table |
| SpectrumAnalyzerCommands.Encode | src/spectrum_analyzer/command.rs:31-95 | Every analyzer command is a frame that starts with # |
| SpectrumAnalyzerCommands.SizeFieldIsLength | src/spectrum_analyzer/command.rs:31-95 | Every analyzer command whose arguments fit their fields carries its own length |
| SpectrumAnalyzerCommands.ConfigRoundTrip | src/spectrum_analyzer/command.rs:34-51 | SetConfig reads back start and stop in whole kHz, then max before min amplitude |
| SpectrumAnalyzerCommands.TrackingRoundTrip | src/spectrum_analyzer/command.rs:55-60 | StartTracking reads back its start and step in whole kHz, with nothing left over |
| SpectrumAnalyzerCommands.SweepPointsExtByteAsWritten | src/spectrum_analyzer/command.rs:79-81 | The byte is (n/16) − 1 for n ≥ 16, and wraps to 255 below 16 |
| SpectrumAnalyzerCommands.SweepPointsExtAsWrittenRoundTrip | src/spectrum_analyzer/command.rs:79-81 | For multiples of 16 from 16 to 4096, the $s length rule reads the byte back as n |
| SpectrumAnalyzerCommands.SweepPointsExtAsWrittenWraps | src/spectrum_analyzer/command.rs:79-81 | A request for 0 points is sent as 255, which reads back as 4096 points |
| SpectrumAnalyzerCommands.SweepPointsExtRoundTrip | src/spectrum_analyzer/command.rs:79-81 | With a saturating subtraction, every request up to 4096 reads back as the nearest whole block below it, and at least 16 |
| SpectrumAnalyzerCommands.BigEndianArguments | src/spectrum_analyzer/command.rs:68-91 | TrackingStep and SetSweepPointsLarge send the u16 high byte first |
| SpectrumAnalyzerCommands.OffsetIsTwosComplement | src/spectrum_analyzer/command.rs:73-75 | SetOffsetDB sends its i8 as a two's-complement byte |
| SpectrumAnalyzerCommands.StagesAndModesRoundTrip | src/spectrum_analyzer/command.rs:72-78 | SetInputStage and SetDsp use the codes the decoders read back |
| GeneratorCommands.Encode | rfe/src/signal_generator/command.rs:64-225 | Every generator command is a frame that starts with # |
| GeneratorCommands.SizeFieldIsLength | rfe/src/signal_generator/command.rs:64-225 | Every generator command but StartAmpSweep carries its own length when its fields fit |
| GeneratorCommands.AmpSweepLengthMismatch | rfe/src/signal_generator/command.rs:77-90 | StartAmpSweep announces 30 bytes but its frame is 28 bytes long |
| GeneratorCommands.TrackingStepBigEndian | rfe/src/signal_generator/command.rs:219-222 | TrackingStep sends the u16 high byte first |
| GeneratorCommands.LevelsDelayRoundTrip | rfe/src/signal_generator/command.rs:77-90 | Two attenuation and power-level pairs and a u16 delay read back from their rendering |
| GeneratorCommands.AmpSweepRoundTrip | rfe/src/signal_generator/command.rs:69-91 | StartAmpSweep reads back its cw in whole kHz, the start and stop levels and the delay, whatever its length byte says |
| GeneratorCommands.TrackingRoundTrip | rfe/src/signal_generator/command.rs:179-199 | StartTracking reads back its start in whole kHz, the level, the step count and the step |
| GeneratorCommands.CwRoundTrip | rfe/src/signal_generator/command.rs:113-129 | StartCw reads back as the cw in whole kHz, the attenuation and the power level |
| GeneratorCommands.FreqSweepRoundTrip | rfe/src/signal_generator/command.rs:135-157 | StartFreqSweep reads back as start, levels, steps, step and delay |
| SpectrumAnalyzerDevice.CacheMessage | lib/src/spectrum_analyzer/rf_explorer.rs:809-852 | Only the slot of the message's kind changes, its waiters are notified, and the registered config or sweep callback runs |
| SpectrumAnalyzerDevice.CacheIdempotent | lib/src/spectrum_analyzer/rf_explorer.rs:809-852 | Caching the same message twice leaves the state of caching it once |
| SpectrumAnalyzerDevice.LatestWins | lib/src/spectrum_analyzer/rf_explorer.rs:809-852 | Of two messages of one kind, only the later one is kept |
| SpectrumAnalyzerDevice.DifferentKindsCommute | lib/src/spectrum_analyzer/rf_explorer.rs:809-852 | Messages of different kinds can be cached in either order |
| SpectrumAnalyzerDevice.CacheAllKeepsLatest | lib/src/spectrum_analyzer/rf_explorer.rs:809-852 | After a stream of messages each slot holds the last message of its kind, or its earlier value if none came |
| SpectrumAnalyzerDevice.AccessorsFollowLatestConfig | lib/src/spectrum_analyzer/rf_explorer.rs:76-184 | Without a configuration the accessors give defaults; after one they give its values |
| SpectrumAnalyzerDevice.ActiveRadioModule | lib/src/spectrum_analyzer/rf_explorer.rs:370-376 | The active module is the expansion module iff the configuration says so, falling back to the default; otherwise the main module |
| SpectrumAnalyzerDevice.InactiveRadioModule | lib/src/spectrum_analyzer/rf_explorer.rs:379-390 | None iff there is no expansion module; otherwise the module that is not active |
| SpectrumAnalyzerDevice.DecodedSetupIsWellFormed | lib/src/spectrum_analyzer/rf_explorer.rs:345-366 | A decoded setup has its main model in the main slot and any expansion in the expansion slot |
| SpectrumAnalyzerDevice.ActiveAndInactiveComplement | lib/src/spectrum_analyzer/rf_explorer.rs:370-390 | With an expansion module, active and inactive are the two modules, one of each kind |
| SpectrumAnalyzerDevice.ActivateMainRadioModule | lib/src/spectrum_analyzer/rf_explorer.rs:441-463 | Sends SwitchModuleMain iff the main module is not active; otherwise InvalidOperation |
| SpectrumAnalyzerDevice.ActivateExpansionRadioModule | lib/src/spectrum_analyzer/rf_explorer.rs:466-494 | Sends SwitchModuleExp iff an expansion module exists and is not active; otherwise InvalidOperation naming which |
| SpectrumAnalyzerDevice.ExactlyOneSwitch | lib/src/spectrum_analyzer/rf_explorer.rs:441-494 | With an expansion module exactly one of the two switches is allowed; without one, neither |
| SpectrumAnalyzerDevice.ValidateStartStop | lib/src/spectrum_analyzer/rf_explorer.rs:722-759 | Ok iff start < stop, both lie in the active model's frequency range, and the span lies in its span range; each failure is InvalidInput |
| SpectrumAnalyzerDevice.UnknownModelAcceptsOrderedPairs | lib/src/spectrum_analyzer/rf_explorer.rs:722-759 | With an Unknown model every ordered pair passes |
| SpectrumAnalyzerDevice.ValidateMinMaxAmps | lib/src/spectrum_analyzer/rf_explorer.rs:762-789 | Ok iff min < max and both lie in −120..=35, with the first failing check reported |
| SpectrumAnalyzerDevice.SetConfig | lib/src/spectrum_analyzer/rf_explorer.rs:555-597 | The SetConfig command is sent iff both validators pass; otherwise the first validator's error and nothing sent |
| SpectrumAnalyzerDevice.SetConfigFrameIsWellFormed | lib/src/spectrum_analyzer/rf_explorer.rs:555-597 | For a known model a validated request always fits its frame |
| SpectrumAnalyzerDevice.SetStartStop | lib/src/spectrum_analyzer/rf_explorer.rs:497-508 | Keeps the current amplitudes and requests the new start and stop |
| SpectrumAnalyzerDevice.SetMinMaxAmps | lib/src/spectrum_analyzer/rf_explorer.rs:544-551 | Keeps the current start and stop and requests the new amplitudes |
| SpectrumAnalyzerDevice.CenterSpanBounds | lib/src/spectrum_analyzer/rf_explorer.rs:522-529 | start and stop are symmetric about center and their span is span rounded down to even |
| SpectrumAnalyzerDevice.SetCenterSpan | lib/src/spectrum_analyzer/rf_explorer.rs:522-529 | The requested start and stop are centred on center with span rounded down to even; a span below 2 fails |
| SpectrumAnalyzerDevice.ExpectedSweepLen | lib/src/spectrum_analyzer/rf_explorer.rs:621-663 | 112 below the minimum, otherwise n rounded down to a multiple of 16 |
| SpectrumAnalyzerDevice.SetSweepLen | lib/src/spectrum_analyzer/rf_explorer.rs:621-663 | Non-Plus models get InvalidOperation; up to 4096 sends SetSweepPointsExt, above it SetSweepPointsLarge; the wait is skipped iff the length already matches |
| SpectrumAnalyzerDevice.SweepLenRequestIsEchoed | lib/src/spectrum_analyzer/rf_explorer.rs:621-663 | From 112 to 4096 points, and above, the device's sweep header reads back the expected length |
| SpectrumAnalyzerDevice.SweepLenAsWrittenMisses | lib/src/spectrum_analyzer/rf_explorer.rs:621-663 | On a Plus model a request for 0 points expects 112 but sends a byte that means 4096 |
| SpectrumAnalyzerDevice.FillBufWithSweep | lib/src/spectrum_analyzer/rf_explorer.rs:215-231 | No sweep is InvalidOperation and a short buffer InvalidInput; otherwise the sweep is copied into the front, the rest is left alone, and its length is returned |
| SpectrumAnalyzerDevice.HandshakeAfterDeviceInfo | lib/src/spectrum_analyzer/rf_explorer.rs:854-887 | Once a configuration and a setup have arrived, in any order among other messages, the handshake succeeds |
| SpectrumAnalyzerDevice.BufferSearchIsDispatch | rfe/src/common/device.rs:179-189 | The analyzer dispatcher never reports a remainder, so the buffer search is the dispatcher itself |
| SpectrumAnalyzerDevice.LargestSweepFits | rfe/src/common/device.rs:52-54 | Every sweep line with its line ending fits in 131072 bytes |
| Devices.QuerySerialNumber | lib/src/spectrum_analyzer/rf_explorer.rs:33-56 | On either device a cached serial number is answered without a command; otherwise RequestSerialNumber is sent |
| SpectrumAnalyzerDevice.SerialNumberIsCached | lib/src/spectrum_analyzer/rf_explorer.rs:33-56 | After a serial number arrives, the query answers it |
| SpectrumAnalyzerDevice.SetDspMode | lib/src/spectrum_analyzer/rf_explorer.rs:685-709 | Nothing is sent iff the mode is already set; otherwise SetDsp with that mode |
| SpectrumAnalyzerDevice.DspModeRequestIsIdempotent | lib/src/spectrum_analyzer/rf_explorer.rs:685-709 | Once the device reports the mode, asking for it again sends nothing |
| SpectrumAnalyzerDevice.RequestTrackingAsWritten | lib/src/spectrum_analyzer/rf_explorer.rs:406-432 | The source's wait ends at once on the cleared slot, so the result is always the default Disabled |
| SpectrumAnalyzerDevice.RequestTracking | lib/src/spectrum_analyzer/rf_explorer.rs:406-432 | With the wait corrected, the result is the first reported status, or TimedOut iff none arrives |
| SpectrumAnalyzerDevice.RequestTrackingIgnoresReply | lib/src/spectrum_analyzer/rf_explorer.rs:406-432 | When the device reports Enabled, the source returns Disabled and the corrected model returns Enabled |
| SpectrumAnalyzerDevice.CallbacksFollowRegistration | lib/src/spectrum_analyzer/rf_explorer.rs:600-617 | A registered callback runs on its message; once removed it never runs again |
| GeneratorDevice.CacheMessage | lib/src/signal_generator/rf_explorer.rs:454-529 | Only the slot of the message's kind changes, the registered callback of that kind runs, and an amplitude-sweep Exp message notifies the amplitude-sweep waiters |
| GeneratorDevice.CacheIdempotent | lib/src/signal_generator/rf_explorer.rs:454-529 | Caching the same message twice leaves the state of caching it once |
| GeneratorDevice.LatestWins | lib/src/signal_generator/rf_explorer.rs:454-529 | Of two messages of one kind, only the later one is kept |
| GeneratorDevice.DifferentKindsCommute | lib/src/signal_generator/rf_explorer.rs:454-529 | Messages of different kinds can be cached in either order |
| GeneratorDevice.SetCallback | lib/src/signal_generator/rf_explorer.rs:315-317 | Registering a callback fills its slot and keeps every other slot |
| GeneratorDevice.RemoveCallback | lib/src/signal_generator/rf_explorer.rs:320-322 | Removing a callback empties its slot and keeps every other slot |
| GeneratorDevice.CallbacksFollowRegistration | lib/src/signal_generator/rf_explorer.rs:315-414 | A registered callback runs on its message with that message; a removed one does not run |
| GeneratorDevice.OtherMessagesRunNoCallback | lib/src/signal_generator/rf_explorer.rs:512-527 | Screen data, serial number, setup and temperature run no callback |
| GeneratorDevice.ActiveRadioModel | lib/src/signal_generator/rf_explorer.rs:152-162 | Main without an expansion module; otherwise the expansion model iff an Exp configuration has been received |
| GeneratorDevice.InactiveRadioModel | lib/src/signal_generator/rf_explorer.rs:165-175 | None iff there is no expansion module; otherwise the model that is not active |
| GeneratorDevice.ActiveAndInactiveComplement | lib/src/signal_generator/rf_explorer.rs:152-175 | With an expansion module, active and inactive are the main and the expansion model |
| GeneratorDevice.ExpansionStaysActive | lib/src/signal_generator/rf_explorer.rs:152-162 | Once the expansion is active, no message other than a new setup deactivates it |
| GeneratorDevice.HandshakeAfterDeviceInfo | lib/src/signal_generator/rf_explorer.rs:531-564 | After a configuration and a setup arrive, in either order, the handshake succeeds |
| GeneratorDevice.BufferSearchIsDispatch | rfe/src/common/device.rs:179-189 | The generator dispatcher never reports a remainder, so the buffer search is the dispatcher itself |
| GeneratorDevice.SerialNumberIsCached | lib/src/signal_generator/rf_explorer.rs:27-31 | After a serial number arrives, the query answers it |

## Left out

- Serial I/O: opening ports, port enumeration, `read_line` and `send_bytes` are outside the model. The read loop takes the sequence of read outcomes as a parameter.
- Threads, mutexes, condition variables and every `wait_for_*` time-out are left out. Device state is a sequential record. A wait is modelled by its outcome, such as the observed replies in `request_tracking` or a flag saying whether device info arrived.
- Floating point is left out:
  - the `_f32`/`_f64` frequency constructors and accessors;
  - the `f32` sweep amplitudes, which are integer half-dBm here;
  - every `Exp` command and the float fields of the `Exp` generator configurations. Only their arrival is modelled, through the `Exp` slots of the generator state.
- `chrono` timestamps are nondeterministic and are left out.
- Several analyzer operations only send a fixed command. The model proves the encoding of that command and does not model the operation itself: `start_wifi_analyzer`, `stop_wifi_analyzer`, `tracking_step`, `set_calc_mode`, `set_input_stage` and `set_offset_db`. Likewise the generator operations `start_*` and `rf_power_on`/`rf_power_off`.
- `set_start_stop_sweep_len` and `set_center_span_sweep_len` only run two modelled operations one after the other with a wait in between, so they are left out.
- SpectrumAnalyzerDevice.SetConfig: the early return when the cached configuration already contains the requested range is not modelled. Its condition is modelled and proved separately (`SpectrumAnalyzerConfigFormat.ContainsAsIntervals`).
- The accessors that only read a slot are modelled as plain reads without contracts of their own. Examples are `sweep`, `dsp_mode` and the generator `config_*` getters. Their behaviour is stated through `CacheMessage` and `CacheAllKeepsLatest`.
- FFI layers, the GUI, the examples and the older duplicate generations of each concern are left out. Each concern is modelled once.
- Frequencies.FromKhz, FromMhz, FromGhz: overflow of `u64` in the unit constructors is excluded by a precondition instead of being modelled as a panic.
- Frequencies.Add, Frequencies.Mul (and so AddThenSub, MulThenDiv): a result past `u64::MAX` is excluded by a precondition. The source panics on it in a debug build and wraps in a release build; neither is modelled.
- SpectrumAnalyzerConfig.Build: a configuration with a sweep length of 0 is rejected as an invalid message. The source computes `sweep_len - 1` in `u16`, which panics in a debug build and wraps to 65535 in a release build.
- Sweeps.ToMessageError: the conversion of a sweep error into `MessageParseError` is not in the modelled files, so the mapping is chosen here. `TooFewAmplitudes` becomes `Incomplete`, so that a sweep still arriving keeps the buffer, as the older analyzer read loop does. `TooManyAmplitudes` and `InvalidFormat` become `Invalid`.
- SpectrumAnalyzerDevice.ActiveRadioModule, GeneratorDevice.ActiveRadioModel: both require a setup to have arrived. In both generations the source reads the setup with `.as_ref().unwrap()` (lib/src/spectrum_analyzer/rf_explorer.rs:345-354, lib/src/signal_generator/rf_explorer.rs:128-137), so it panics before a setup arrives; that panic is not modelled. Both apply `unwrap_or_default` only to the main model of a present setup (lib/src/spectrum_analyzer/rf_explorer.rs:370-376, lib/src/signal_generator/rf_explorer.rs:153-161), and that default never fires, because setup parsing accepts only known main models.
- Devices.FindMessageInBuf: the retry loop is proved to end only for a decoder whose `Truncated` remainders are shorter than its input (`RemaindersShrink`). Both dispatchers meet this, because they never report a remainder (`SpectrumAnalyzerDevice.BufferSearchIsDispatch`, `GeneratorDevice.BufferSearchIsDispatch`).
- SpectrumAnalyzerConfigFormat.RoundTrip, OnlyLineEndingMayFollow: the reference formatter writes the three optional fields all or none, so only those two shapes are covered. The parser takes each comma and each optional field on its own, and so also accepts partial tails (an RBW without an offset, for example) and stray commas before the line ending. Of these, only the lone comma is proved (`LoneCommaAccepted`).
- SpectrumAnalyzerCommands.SizeFieldIsLength, GeneratorCommands.SizeFieldIsLength: proved only when the arguments fit their fixed-width fields. `{:07.0}` widens for frequencies of 10 GHz and above, and the length byte is then wrong.

## Findings

| source | as written | input that shows it | evidently intended | confidence | as-written member | corrected member |
|---|---|---|---|---|---|---|
| src/spectrum_analyzer/command.rs:79-81 | `SetSweepPointsExt` (modelled as written by `SpectrumAnalyzerCommands.Encode`) sends `((n / 16) - 1) as u8`. `set_sweep_len` sends it for any n up to 4096 and expects a sweep of 112 points for n below 112 | `set_sweep_len(0)` on a Plus model: 0/16 − 1 wraps to byte 255, which the `$s` rule reads as 4096 points, while the client waits for 112 | The byte should never go below 0, so a small request selects the smallest block size | not executed | SpectrumAnalyzerCommands.SweepPointsExtAsWrittenWraps | SpectrumAnalyzerCommands.SweepPointsExtRoundTrip |
| lib/src/spectrum_analyzer/rf_explorer.rs:406-432 | `request_tracking` clears the tracking-status slot and then waits while the slot `is_some()`, a condition that is already false | The device answers `Enabled`; the wait ends before the reply, and the call returns the default `Disabled` | Wait while the slot is empty, then return the reported status, or time out | not executed | SpectrumAnalyzerDevice.RequestTrackingAsWritten | SpectrumAnalyzerDevice.RequestTracking |
