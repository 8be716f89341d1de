/** Prefix dispatch shared by the two message enums: a decoder is chosen by
    the prefix the bytes start with, and bytes that start with no known
    prefix are an unknown message type. */
module Dispatch {
  import opened Wrappers
  import opened Bytes
  import opened MessageError

  /** `Ok(Message::Variant(T::try_from(bytes)?))`. */
  function Tagged<T, M>(r: Result<T, MessageParseError>, variant: T -> M): (o: Result<M, MessageParseError>)
    ensures o.Ok? <==> r.Ok?
    ensures o.Ok? ==> o.value == variant(r.value)
    ensures o.Err? ==> o.error == r.error
  {
    var v :- r;
    Ok(variant(v))
  }

  /** Two prefixes that differ at a position both have cannot both start
      the same bytes. */
  lemma Exclusive(bytes: seq<Byte>, a: seq<Byte>, b: seq<Byte>, i: nat)
    requires i < |a| && i < |b| && a[i] != b[i]
    ensures !(StartsWith(bytes, a) && StartsWith(bytes, b))
  {
  }
}

/** `spectrum_analyzer::Message::try_from`. */
module SpectrumAnalyzerMessages {
  import opened Wrappers
  import opened Bytes
  import opened MessageError
  import opened Dispatch
  import SpectrumAnalyzerConfig
  import SpectrumAnalyzerModel
  import DspModes
  import InputStages
  import ScreenDatas
  import SerialNumbers
  import SetupInfos
  import SetupInfoInstances
  import Sweeps
  import TrackingStatuses
  import Parsers

  datatype Message =
    | Config(config: SpectrumAnalyzerConfig.Config)
    | DspMode(dspMode: DspModes.DspMode)
    | InputStage(inputStage: InputStages.InputStage)
    | ScreenData(screenData: ScreenDatas.ScreenData)
    | SerialNumber(serialNumber: SerialNumbers.SerialNumber)
    | SetupInfo(setupInfo: SetupInfos.SetupInfo<SpectrumAnalyzerModel.Model>)
    | Sweep(sweep: Sweeps.Sweep)
    | TrackingStatus(trackingStatus: TrackingStatuses.TrackingStatus)

  const CONFIG: seq<Byte> := [35, 67, 50, 45, 70, 58]        // "#C2-F:"
  const SWEEP_STANDARD: seq<Byte> := [36, 83]                // "$S"
  const SWEEP_EXT: seq<Byte> := [36, 115]                    // "$s"
  const SWEEP_LARGE: seq<Byte> := [36, 122]                  // "$z"

  /** The constants above are the prefixes the decoders match. */
  lemma PrefixesAgree()
    ensures SpectrumAnalyzerConfig.PREFIX == CONFIG
  {
    var p := SpectrumAnalyzerConfig.PREFIX;
    assert |p| == 6;
    assert p[0] == 35 && p[1] == 67 && p[2] == 50 && p[3] == 45 && p[4] == 70 && p[5] == 58;
  }

  predicate IsSweep(bytes: seq<Byte>) {
    StartsWith(bytes, SWEEP_STANDARD) || StartsWith(bytes, SWEEP_EXT) || StartsWith(bytes, SWEEP_LARGE)
  }

  /** Whether the bytes start with any prefix the analyzer knows. */
  predicate Known(bytes: seq<Byte>) {
    StartsWith(bytes, CONFIG) || StartsWith(bytes, DspModes.PREFIX) || StartsWith(bytes, InputStages.PREFIX)
    || StartsWith(bytes, ScreenDatas.PREFIX) || StartsWith(bytes, SerialNumbers.PREFIX)
    || StartsWith(bytes, SetupInfoInstances.ANALYZER_PREFIX) || IsSweep(bytes)
    || StartsWith(bytes, TrackingStatuses.PREFIX)
  }

  /** The prefixes are tried in the source's order; no decoder reports an
      unknown message type itself, so that error means exactly that no
      prefix matched. */
  function FromBytes(bytes: seq<Byte>): (r: Result<Message, MessageParseError>)
    ensures r == Err(UnknownMessageType) <==> !Known(bytes)
    ensures r.Err? ==> r.error in {Incomplete, Invalid, UnknownMessageType}
  {
    PrefixesAgree();
    if StartsWith(bytes, CONFIG) then
      Tagged(SpectrumAnalyzerConfig.FromBytes(bytes), c => Config(c))
    else if StartsWith(bytes, DspModes.PREFIX) then
      Tagged(DspModes.FromBytes(bytes), d => DspMode(d))
    else if StartsWith(bytes, InputStages.PREFIX) then
      Tagged(InputStages.FromBytes(bytes), s => InputStage(s))
    else if StartsWith(bytes, ScreenDatas.PREFIX) then
      Tagged(ScreenDatas.FromBytes(bytes), s => ScreenData(s))
    else if StartsWith(bytes, SerialNumbers.PREFIX) then
      Tagged(SerialNumbers.FromBytes(bytes), s => SerialNumber(s))
    else if StartsWith(bytes, SetupInfoInstances.ANALYZER_PREFIX) then
      Tagged(SetupInfoInstances.AnalyzerFromBytes(bytes), s => SetupInfo(s))
    else if IsSweep(bytes) then
      Tagged(Sweeps.Decode(bytes), s => Sweep(s))
    else if StartsWith(bytes, TrackingStatuses.PREFIX) then
      Tagged(TrackingStatuses.FromBytes(bytes), t => TrackingStatus(t))
    else Err(UnknownMessageType)
  }

  /** The order of the tests does not matter: no prefix is a prefix of
      another, so bytes are always handed to the decoder their prefix
      names. */
  lemma {:induction false} Routing(bytes: seq<Byte>)
    ensures StartsWith(bytes, CONFIG) ==> FromBytes(bytes) == Tagged(SpectrumAnalyzerConfig.FromBytes(bytes), c => Config(c))
    ensures StartsWith(bytes, DspModes.PREFIX) ==> FromBytes(bytes) == Tagged(DspModes.FromBytes(bytes), d => DspMode(d))
    ensures StartsWith(bytes, InputStages.PREFIX) ==> FromBytes(bytes) == Tagged(InputStages.FromBytes(bytes), s => InputStage(s))
    ensures StartsWith(bytes, ScreenDatas.PREFIX) ==> FromBytes(bytes) == Tagged(ScreenDatas.FromBytes(bytes), s => ScreenData(s))
    ensures StartsWith(bytes, SerialNumbers.PREFIX) ==> FromBytes(bytes) == Tagged(SerialNumbers.FromBytes(bytes), s => SerialNumber(s))
    ensures StartsWith(bytes, SetupInfoInstances.ANALYZER_PREFIX) ==> FromBytes(bytes) == Tagged(SetupInfoInstances.AnalyzerFromBytes(bytes), s => SetupInfo(s))
    ensures IsSweep(bytes) ==> FromBytes(bytes) == Tagged(Sweeps.Decode(bytes), s => Sweep(s))
    ensures StartsWith(bytes, TrackingStatuses.PREFIX) ==> FromBytes(bytes) == Tagged(TrackingStatuses.FromBytes(bytes), t => TrackingStatus(t))
  {
    var dsp := DspModes.PREFIX;
    var input := InputStages.PREFIX;
    var screen := ScreenDatas.PREFIX;
    var serial := SerialNumbers.PREFIX;
    var setup := SetupInfoInstances.ANALYZER_PREFIX;
    var tracking := TrackingStatuses.PREFIX;
    // '#' against 'D' and '$' at the first byte
    Exclusive(bytes, CONFIG, dsp, 0);
    Exclusive(bytes, CONFIG, screen, 0);
    Exclusive(bytes, CONFIG, SWEEP_STANDARD, 0);
    Exclusive(bytes, CONFIG, SWEEP_EXT, 0);
    Exclusive(bytes, CONFIG, SWEEP_LARGE, 0);
    Exclusive(bytes, input, dsp, 0);
    Exclusive(bytes, input, screen, 0);
    Exclusive(bytes, input, SWEEP_STANDARD, 0);
    Exclusive(bytes, input, SWEEP_EXT, 0);
    Exclusive(bytes, input, SWEEP_LARGE, 0);
    Exclusive(bytes, serial, dsp, 0);
    Exclusive(bytes, serial, screen, 0);
    Exclusive(bytes, setup, dsp, 0);
    Exclusive(bytes, setup, screen, 0);
    Exclusive(bytes, tracking, dsp, 0);
    Exclusive(bytes, tracking, screen, 0);
    Exclusive(bytes, dsp, screen, 0);
    Exclusive(bytes, dsp, SWEEP_STANDARD, 0);
    Exclusive(bytes, dsp, SWEEP_EXT, 0);
    Exclusive(bytes, dsp, SWEEP_LARGE, 0);
    Exclusive(bytes, serial, SWEEP_STANDARD, 0);
    Exclusive(bytes, serial, SWEEP_EXT, 0);
    Exclusive(bytes, serial, SWEEP_LARGE, 0);
    Exclusive(bytes, setup, SWEEP_STANDARD, 0);
    Exclusive(bytes, setup, SWEEP_EXT, 0);
    Exclusive(bytes, setup, SWEEP_LARGE, 0);
    Exclusive(bytes, tracking, SWEEP_STANDARD, 0);
    Exclusive(bytes, tracking, SWEEP_EXT, 0);
    Exclusive(bytes, tracking, SWEEP_LARGE, 0);
    // the second byte among the '#' prefixes and the '$' prefixes
    Exclusive(bytes, CONFIG, input, 1);
    Exclusive(bytes, CONFIG, serial, 1);
    Exclusive(bytes, CONFIG, tracking, 1);
    Exclusive(bytes, input, serial, 1);
    Exclusive(bytes, input, setup, 1);
    Exclusive(bytes, input, tracking, 1);
    Exclusive(bytes, serial, setup, 1);
    Exclusive(bytes, serial, tracking, 1);
    Exclusive(bytes, setup, tracking, 1);
    Exclusive(bytes, screen, SWEEP_STANDARD, 1);
    Exclusive(bytes, screen, SWEEP_EXT, 1);
    Exclusive(bytes, screen, SWEEP_LARGE, 1);
    // "#C2-F:" against "#C2-M:"
    Exclusive(bytes, CONFIG, setup, 4);
    PrefixesAgree();
  }

  /** A spectrum-analyzer setup message reaches the setup decoder. */
  lemma SetupMessage(bytes: seq<Byte>)
    requires SetupInfoInstances.AnalyzerFromBytes(bytes).Ok?
    ensures FromBytes(bytes) == Ok(SetupInfo(SetupInfoInstances.AnalyzerFromBytes(bytes).value))
  {
    Routing(bytes);
  }

  /** Every sweep encoding reaches the sweep decoder. */
  lemma SweepMessage(e: Sweeps.Encoding, data: seq<Byte>)
    requires Sweeps.Encodable(e, |data|)
    ensures FromBytes(Sweeps.Encode(e, data)) == Ok(Sweep(Sweeps.Sweep(Sweeps.AmplitudesFromBytes(data))))
  {
    var b := Sweeps.Encode(e, data);
    Sweeps.RoundTrip(e, data);
    Sweeps.EncodeAnnounces(e, data);
    assert b[..2] == [36, e.Letter()];
    Routing(b);
  }

  /** A serial-number message reaches the serial-number decoder. */
  lemma SerialNumberMessage(s: SerialNumbers.SerialNumber, lineEnding: seq<Byte>)
    requires s.Valid() && Parsers.IsLineEnding(lineEnding)
    ensures FromBytes(SerialNumbers.PREFIX + s.AsStr() + lineEnding) == Ok(SerialNumber(s))
  {
    var b := SerialNumbers.PREFIX + s.AsStr() + lineEnding;
    SerialNumbers.RoundTrip(s, lineEnding);
    assert b[..3] == SerialNumbers.PREFIX;
    Routing(b);
  }
}

/** `signal_generator::Message::try_from`. */
module GeneratorMessages {
  import opened Wrappers
  import opened Bytes
  import opened MessageError
  import opened Dispatch
  import GeneratorModel
  import Frequencies
  import GeneratorFields
  import Parsers
  import GeneratorConfig
  import GeneratorConfigAmpSweep
  import GeneratorConfigCw
  import GeneratorConfigFreqSweep
  import ScreenDatas
  import SerialNumbers
  import SetupInfos
  import SetupInfoInstances
  import Temperatures

  datatype Message =
    | Config(config: GeneratorConfig.Config)
    | ConfigAmpSweep(configAmpSweep: GeneratorConfigAmpSweep.ConfigAmpSweep)
    | ConfigCw(configCw: GeneratorConfigCw.ConfigCw)
    | ConfigFreqSweep(configFreqSweep: GeneratorConfigFreqSweep.ConfigFreqSweep)
    | ScreenData(screenData: ScreenDatas.ScreenData)
    | SerialNumber(serialNumber: SerialNumbers.SerialNumber)
    | SetupInfo(setupInfo: SetupInfos.SetupInfo<GeneratorModel.Model>)
    | Temperature(temperature: Temperatures.Temperature)

  predicate Known(bytes: seq<Byte>) {
    StartsWith(bytes, GeneratorConfig.PREFIX) || StartsWith(bytes, GeneratorConfigAmpSweep.PREFIX)
    || StartsWith(bytes, GeneratorConfigCw.PREFIX) || StartsWith(bytes, GeneratorConfigFreqSweep.PREFIX)
    || StartsWith(bytes, ScreenDatas.PREFIX) || StartsWith(bytes, SerialNumbers.PREFIX)
    || StartsWith(bytes, SetupInfoInstances.GENERATOR_PREFIX) || StartsWith(bytes, Temperatures.PREFIX)
  }

  function FromBytes(bytes: seq<Byte>): (r: Result<Message, MessageParseError>)
    ensures r == Err(UnknownMessageType) <==> !Known(bytes)
    ensures r.Err? ==> r.error in {Incomplete, Invalid, UnknownMessageType}
  {
    if StartsWith(bytes, GeneratorConfig.PREFIX) then
      Tagged(GeneratorConfig.FromBytes(bytes), c => Config(c))
    else if StartsWith(bytes, GeneratorConfigAmpSweep.PREFIX) then
      Tagged(GeneratorConfigAmpSweep.FromBytes(bytes), c => ConfigAmpSweep(c))
    else if StartsWith(bytes, GeneratorConfigCw.PREFIX) then
      Tagged(GeneratorConfigCw.FromBytes(bytes), c => ConfigCw(c))
    else if StartsWith(bytes, GeneratorConfigFreqSweep.PREFIX) then
      Tagged(GeneratorConfigFreqSweep.FromBytes(bytes), c => ConfigFreqSweep(c))
    else if StartsWith(bytes, ScreenDatas.PREFIX) then
      Tagged(ScreenDatas.FromBytes(bytes), s => ScreenData(s))
    else if StartsWith(bytes, SerialNumbers.PREFIX) then
      Tagged(SerialNumbers.FromBytes(bytes), s => SerialNumber(s))
    else if StartsWith(bytes, SetupInfoInstances.GENERATOR_PREFIX) then
      Tagged(SetupInfoInstances.GeneratorFromBytes(bytes), s => SetupInfo(s))
    else if StartsWith(bytes, Temperatures.PREFIX) then
      Tagged(Temperatures.FromBytes(bytes), t => Temperature(t))
    else Err(UnknownMessageType)
  }

  /** As for the analyzer, the generator's prefixes are prefix-free, so the
      order of the tests does not matter. */
  lemma {:induction false} Routing(bytes: seq<Byte>)
    ensures StartsWith(bytes, GeneratorConfig.PREFIX) ==> FromBytes(bytes) == Tagged(GeneratorConfig.FromBytes(bytes), c => Config(c))
    ensures StartsWith(bytes, GeneratorConfigAmpSweep.PREFIX) ==> FromBytes(bytes) == Tagged(GeneratorConfigAmpSweep.FromBytes(bytes), c => ConfigAmpSweep(c))
    ensures StartsWith(bytes, GeneratorConfigCw.PREFIX) ==> FromBytes(bytes) == Tagged(GeneratorConfigCw.FromBytes(bytes), c => ConfigCw(c))
    ensures StartsWith(bytes, GeneratorConfigFreqSweep.PREFIX) ==> FromBytes(bytes) == Tagged(GeneratorConfigFreqSweep.FromBytes(bytes), c => ConfigFreqSweep(c))
    ensures StartsWith(bytes, ScreenDatas.PREFIX) ==> FromBytes(bytes) == Tagged(ScreenDatas.FromBytes(bytes), s => ScreenData(s))
    ensures StartsWith(bytes, SerialNumbers.PREFIX) ==> FromBytes(bytes) == Tagged(SerialNumbers.FromBytes(bytes), s => SerialNumber(s))
    ensures StartsWith(bytes, SetupInfoInstances.GENERATOR_PREFIX) ==> FromBytes(bytes) == Tagged(SetupInfoInstances.GeneratorFromBytes(bytes), s => SetupInfo(s))
    ensures StartsWith(bytes, Temperatures.PREFIX) ==> FromBytes(bytes) == Tagged(Temperatures.FromBytes(bytes), t => Temperature(t))
  {
    var cfg := GeneratorConfig.PREFIX;
    var amp := GeneratorConfigAmpSweep.PREFIX;
    var cw := GeneratorConfigCw.PREFIX;
    var freq := GeneratorConfigFreqSweep.PREFIX;
    var screen := ScreenDatas.PREFIX;
    var serial := SerialNumbers.PREFIX;
    var setup := SetupInfoInstances.GENERATOR_PREFIX;
    var temp := Temperatures.PREFIX;
    // the "#C3-" family differs at its fifth byte
    Exclusive(bytes, cfg, amp, 4);
    Exclusive(bytes, cfg, cw, 4);
    Exclusive(bytes, cfg, freq, 4);
    Exclusive(bytes, cfg, setup, 4);
    Exclusive(bytes, amp, cw, 4);
    Exclusive(bytes, amp, freq, 4);
    Exclusive(bytes, amp, setup, 4);
    Exclusive(bytes, cw, freq, 4);
    Exclusive(bytes, cw, setup, 4);
    Exclusive(bytes, freq, setup, 4);
    // '$' against '#'
    Exclusive(bytes, cfg, screen, 0);
    Exclusive(bytes, amp, screen, 0);
    Exclusive(bytes, cw, screen, 0);
    Exclusive(bytes, freq, screen, 0);
    Exclusive(bytes, screen, serial, 0);
    Exclusive(bytes, screen, setup, 0);
    Exclusive(bytes, screen, temp, 0);
    // 'C', 'S' and 'T' at the second byte
    Exclusive(bytes, cfg, serial, 1);
    Exclusive(bytes, amp, serial, 1);
    Exclusive(bytes, cw, serial, 1);
    Exclusive(bytes, freq, serial, 1);
    Exclusive(bytes, serial, setup, 1);
    Exclusive(bytes, cfg, temp, 1);
    Exclusive(bytes, amp, temp, 1);
    Exclusive(bytes, cw, temp, 1);
    Exclusive(bytes, freq, temp, 1);
    Exclusive(bytes, serial, temp, 1);
    Exclusive(bytes, setup, temp, 1);
  }

  /** Each of the four configuration messages, formatted by the device,
      decodes to itself through the dispatcher. */
  lemma ConfigMessages(c: GeneratorConfig.Config, a: GeneratorConfigAmpSweep.ConfigAmpSweep,
                       lineEnding: seq<Byte>)
    requires c.Valid() && a.Valid() && Parsers.IsLineEnding(lineEnding)
    ensures FromBytes(GeneratorConfig.Format(c, lineEnding)) == Ok(Config(c))
    ensures FromBytes(GeneratorConfigAmpSweep.Format(a, lineEnding)) == Ok(ConfigAmpSweep(a))
  {
    GeneratorConfig.RoundTrip(c, lineEnding);
    GeneratorConfigAmpSweep.RoundTrip(a, lineEnding);
    var b1 := GeneratorConfig.Format(c, lineEnding);
    var b2 := GeneratorConfigAmpSweep.Format(a, lineEnding);
    assert b1[..6] == GeneratorConfig.PREFIX;
    assert b2[..6] == GeneratorConfigAmpSweep.PREFIX;
    Routing(b1);
    Routing(b2);
  }

  lemma SweepConfigMessages(w: GeneratorConfigCw.ConfigCw, secondCw: Frequencies.Frequency,
                            f: GeneratorConfigFreqSweep.ConfigFreqSweep, lineEnding: seq<Byte>)
    requires w.Valid() && GeneratorFields.KhzField(secondCw) && f.Valid() && Parsers.IsLineEnding(lineEnding)
    ensures FromBytes(GeneratorConfigCw.Format(w, secondCw, lineEnding)) == Ok(ConfigCw(w))
    ensures FromBytes(GeneratorConfigFreqSweep.Format(f, lineEnding)) == Ok(ConfigFreqSweep(f))
  {
    GeneratorConfigCw.RoundTrip(w, secondCw, lineEnding);
    GeneratorConfigFreqSweep.RoundTrip(f, lineEnding);
    var b1 := GeneratorConfigCw.Format(w, secondCw, lineEnding);
    var b2 := GeneratorConfigFreqSweep.Format(f, lineEnding);
    assert b1[..6] == GeneratorConfigCw.PREFIX;
    assert b2[..6] == GeneratorConfigFreqSweep.PREFIX;
    Routing(b1);
    Routing(b2);
  }

  /** A temperature report reaches the temperature decoder. */
  lemma TemperatureMessage(t: Temperatures.Temperature, lineEnding: seq<Byte>)
    requires Parsers.IsLineEnding(lineEnding)
    ensures FromBytes(Temperatures.PREFIX + [t.Code()] + lineEnding) == Ok(Temperature(t))
  {
    var b := Temperatures.PREFIX + [t.Code()] + lineEnding;
    Temperatures.RoundTrip(t, lineEnding);
    assert b[..3] == Temperatures.PREFIX;
    Routing(b);
  }
}
