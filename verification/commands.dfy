/** Serial-port settings: the baud rates the device supports and the code
    that selects each, and the USB identity of the device's serial bridge. */
module BaudRates {
  import opened Wrappers
  import opened Bytes
  import opened Errors

  const SLOW_BAUD_RATE: nat := 2_400
  const FAST_BAUD_RATE: nat := 500_000

  /** `bps_to_code`: the ASCII digit that selects a baud rate. */
  function BpsToCode(bps: int): (r: Result<Byte, Error>)
    ensures r.Ok? <==> bps in {1_200, 2_400, 4_800, 9_600, 19_200, 38_400, 57_600, 115_200, 500_000}
    ensures r.Ok? ==> 48 <= r.value <= 56
    ensures r.Err? ==> r.error == InvalidInput(UnsupportedBaudRate)
  {
    match bps
    case 1_200 => Ok(49)
    case 2_400 => Ok(50)
    case 4_800 => Ok(51)
    case 9_600 => Ok(52)
    case 19_200 => Ok(53)
    case 38_400 => Ok(54)
    case 57_600 => Ok(55)
    case 115_200 => Ok(56)
    case 500_000 => Ok(48)
    case _ => Err(InvalidInput(UnsupportedBaudRate))
  }

  /** The current generation's `BaudRate`: a rate and its code. */
  datatype BaudRate = BaudRate(bps: int, code: Byte) {
    predicate Valid() { BpsToCode(bps) == Ok(code) }
  }

  /** `BaudRate::try_from(u32)` */
  function TryFrom(bps: int): (r: Result<BaudRate, Error>)
    ensures r.Ok? <==> BpsToCode(bps).Ok?
    ensures r.Ok? ==> r.value.bps == bps && r.value.Valid()
    ensures r.Err? ==> r.error == InvalidInput(UnsupportedBaudRate)
  {
    var code :- BpsToCode(bps);
    Ok(BaudRate(bps, code))
  }

  const DEFAULT: BaudRate := BaudRate(500_000, 48)

  /** The default is the fast rate the device starts with. */
  lemma DefaultIsFastRate()
    ensures TryFrom(FAST_BAUD_RATE) == Ok(DEFAULT) && DEFAULT.Valid()
  {
  }

  /** No two rates share a code, so the code identifies the rate. */
  lemma CodesIdentifyRates(a: int, b: int)
    requires BpsToCode(a).Ok? && BpsToCode(a) == BpsToCode(b)
    ensures a == b
  {
  }

  /** The previous generation's `BaudRate` enum, whose discriminant is the
      code. */
  datatype Rate =
    | Bps500000 | Bps1200 | Bps2400 | Bps4800 | Bps9600 | Bps19200 | Bps38400 | Bps57600 | Bps115200
  {
    function Code(): Byte {
      match this
      case Bps500000 => 48
      case Bps1200 => 49
      case Bps2400 => 50
      case Bps4800 => 51
      case Bps9600 => 52
      case Bps19200 => 53
      case Bps38400 => 54
      case Bps57600 => 55
      case Bps115200 => 56
    }

    /** `BaudRate::bps` */
    function Bps(): (bps: nat)
      ensures BpsToCode(bps) == Ok(Code())
    {
      match this
      case Bps500000 => 500_000
      case Bps1200 => 1_200
      case Bps2400 => 2_400
      case Bps4800 => 4_800
      case Bps9600 => 9_600
      case Bps19200 => 19_200
      case Bps38400 => 38_400
      case Bps57600 => 57_600
      case Bps115200 => 115_200
    }
  }

  /** Every supported rate is one of the enum's, with the same code: the two
      generations agree. */
  lemma GenerationsAgree(bps: int)
    requires BpsToCode(bps).Ok?
    ensures exists r: Rate :: r.Bps() == bps && r.Code() == BpsToCode(bps).value
  {
    var r: Rate :=
      match bps
      case 1_200 => Bps1200
      case 2_400 => Bps2400
      case 4_800 => Bps4800
      case 9_600 => Bps9600
      case 19_200 => Bps19200
      case 38_400 => Bps38400
      case 57_600 => Bps57600
      case 115_200 => Bps115200
      case _ => Bps500000;
    assert r.Bps() == bps;
  }

  /** Where a serial port sits; only USB ports carry a vendor and product
      id. */
  datatype PortType = UsbPort(vid: int, pid: int) | PciPort | BluetoothPort | UnknownPort

  const SILABS_VID: int := 4_292
  const CP210X_PID: int := 60_000

  /** `is_silabs_cp210x` */
  predicate IsSilabsCp210x(port: PortType) {
    port.UsbPort? && port.vid == SILABS_VID && port.pid == CP210X_PID
  }

  /** The previous generation's port constants identify the same bridge. */
  lemma SameBridgeInBothGenerations(port: PortType)
    ensures IsSilabsCp210x(port) <==> port == UsbPort(4292, 60000)
  {
  }
}

/** `write_command`: a command goes out as `#`, the total frame length as
    one byte, and the payload. */
module Frames {
  import opened Wrappers
  import opened Bytes
  import opened Errors

  /** A frame whose second byte is its own length. */
  predicate Framed(f: seq<Byte>) {
    |f| >= 2 && f[0] == HASH && f[1] == |f|
  }

  function WriteCommand(command: seq<Byte>): (r: Result<seq<Byte>, Error>)
    ensures r.Ok? <==> |command| + 2 <= U8_MAX
    ensures r.Ok? ==> Framed(r.value) && r.value[2..] == command
    ensures r.Err? ==> r.error == InvalidInput(CommandTooLong)
  {
    if |command| + 2 > U8_MAX then Err(InvalidInput(CommandTooLong))
    else Ok([HASH, |command| + 2] + command)
  }

  /** Every frame is what `write_command` makes of its payload. */
  lemma FrameRoundTrip(f: seq<Byte>)
    requires Framed(f)
    ensures WriteCommand(f[2..]) == Ok(f)
  {
    assert f == [f[0], f[1]] + f[2..];
  }
}

/** The commands every RF Explorer understands. */
module CommonCommands {
  import opened Wrappers
  import opened Bytes
  import opened Frames
  import BaudRates

  datatype Command =
    | RequestConfig
    | RequestSerialNumber
    | EnableLcd
    | DisableLcd
    | EnableDumpScreen
    | DisableDumpScreen
    | Hold
    | SetBaudRate(baudRate: BaudRates.BaudRate)
    | Reboot
    | PowerOff

  /** `From<Command> for Cow<[u8]>` */
  function Encode(c: Command): (f: seq<Byte>)
    ensures Framed(f)
  {
    match c
    case RequestConfig => [35, 4, 67, 48]          // "#\x04C0"
    case RequestSerialNumber => [35, 4, 67, 110]   // "#\x04Cn"
    case EnableLcd => [35, 4, 76, 49]              // "#\x04L1"
    case DisableLcd => [35, 4, 76, 48]             // "#\x04L0"
    case EnableDumpScreen => [35, 4, 68, 49]       // "#\x04D1"
    case DisableDumpScreen => [35, 4, 68, 48]      // "#\x04D0"
    case Hold => [35, 4, 67, 72]                   // "#\x04CH"
    case SetBaudRate(b) => [35, 4, 99, b.code]     // "#\x04c" and the code
    case Reboot => [35, 3, 114]                    // "#\x03r"
    case PowerOff => [35, 3, 83]                   // "#\x03S"
  }

  /** The device side: which command a frame is. */
  function Decode(f: seq<Byte>): (r: Option<Command>)
    ensures r.Some? ==> Framed(f)
  {
    if f == [35, 4, 67, 48] then Some(RequestConfig)
    else if f == [35, 4, 67, 110] then Some(RequestSerialNumber)
    else if f == [35, 4, 76, 49] then Some(EnableLcd)
    else if f == [35, 4, 76, 48] then Some(DisableLcd)
    else if f == [35, 4, 68, 49] then Some(EnableDumpScreen)
    else if f == [35, 4, 68, 48] then Some(DisableDumpScreen)
    else if f == [35, 4, 67, 72] then Some(Hold)
    else if f == [35, 3, 114] then Some(Reboot)
    else if f == [35, 3, 83] then Some(PowerOff)
    else if |f| == 4 && f[..3] == [35, 4, 99] && BaudRates.BpsToCode(CodeToBps(f[3])).Ok? then
      Some(SetBaudRate(BaudRates.BaudRate(CodeToBps(f[3]), f[3])))
    else None
  }

  /** The rate a baud-rate code selects (0 for no rate). */
  function CodeToBps(code: Byte): (bps: nat)
    ensures bps != 0 ==> BaudRates.BpsToCode(bps) == Ok(code)
  {
    match code
    case 48 => 500_000
    case 49 => 1_200
    case 50 => 2_400
    case 51 => 4_800
    case 52 => 9_600
    case 53 => 19_200
    case 54 => 38_400
    case 55 => 57_600
    case 56 => 115_200
    case _ => 0
  }

  /** Each command is told apart from every other, including
      `RequestSerialNumber` from `RequestConfig`. */
  lemma RoundTrip(c: Command)
    requires c.SetBaudRate? ==> c.baudRate.Valid()
    ensures Decode(Encode(c)) == Some(c)
  {
    if c.SetBaudRate? {
      var b := c.baudRate;
      assert CodeToBps(b.code) == b.bps;
    }
  }

  /** The previous generation built the same frames through
      `write_command`: the payloads of its request methods. */
  function LegacyPayload(c: Command): seq<Byte> {
    match c
    case RequestConfig => [67, 48]          // "C0"
    case RequestSerialNumber => [67, 110]   // "Cn"
    case EnableLcd => [76, 49]              // "L1"
    case DisableLcd => [76, 48]             // "L0"
    case EnableDumpScreen => [68, 49]       // "D1"
    case DisableDumpScreen => [68, 48]      // "D0"
    case Hold => [67, 72]                   // "CH"
    case SetBaudRate(b) => [99, b.code]     // 'c' and the code
    case Reboot => [114]                    // "r"
    case PowerOff => [83]                   // "S"
  }

  lemma GenerationsAgree(c: Command)
    ensures WriteCommand(LegacyPayload(c)) == Ok(Encode(c))
  {
    var p := LegacyPayload(c);
    assert [HASH, |p| + 2] + p == Encode(c);
  }
}

/** Commands to the spectrum analyzer. */
module SpectrumAnalyzerCommands {
  import opened Wrappers
  import opened Bytes
  import opened Numbers
  import opened Frequencies
  import opened Frames
  import SpectrumAnalyzerConfig
  import SpectrumAnalyzerConfigFormat
  import DspModes
  import InputStages
  import Sweeps
  import opened Parsers

  datatype WifiBand = TwoPointFourGhz | FiveGhz {
    function Code(): Byte {
      match this
      case TwoPointFourGhz => 1
      case FiveGhz => 2
    }
  }

  datatype Command =
    | SetConfig(start: Frequency, stop: Frequency, minAmpDbm: Int16, maxAmpDbm: Int16)
    | SwitchModuleMain
    | SwitchModuleExp
    | StartTracking(trackingStart: Frequency, step: Frequency)
    | StartWifiAnalyzer(band: WifiBand)
    | StopWifiAnalyzer
    | SetCalcMode(calcMode: SpectrumAnalyzerConfig.CalcMode)
    | TrackingStep(steps: Uint16)
    | SetDsp(dspMode: DspModes.DspMode)
    | SetOffsetDb(offsetDb: Int8)
    | SetInputStage(inputStage: InputStages.InputStage)
    | SetSweepPointsExt(points: Uint16)
    | SetSweepPointsLarge(largePoints: Uint16)

  const SET_CONFIG: seq<Byte> := [67, 50, 45, 70, 58]       // "C2-F:"
  const START_TRACKING: seq<Byte> := [67, 51, 45, 75, 58]   // "C3-K:"

  /** The payload of `SetConfig`: start and stop in seven-digit kHz, then
      the top amplitude before the bottom one, each as four characters. */
  function ConfigBody(start: Frequency, stop: Frequency, minAmp: int, maxAmp: int): seq<Byte> {
    SET_CONFIG + (Padded(start.AsKhz(), 7) + ([COMMA] + (Padded(stop.AsKhz(), 7)
      + ([COMMA] + (SignedPadded(maxAmp, 4) + ([COMMA] + SignedPadded(minAmp, 4)))))))
  }

  /** The payload of `StartTracking`: the start and the step in
      seven-digit kHz. */
  function TrackingBody(start: Frequency, step: Frequency): seq<Byte> {
    START_TRACKING + (Padded(start.AsKhz(), 7) + ([COMMA] + Padded(step.AsKhz(), 7)))
  }

  /** The `SetSweepPointsExt` byte as written: `((n / 16) - 1) as u8` with
      the `u16` subtraction wrapping (a debug build panics instead). */
  function SweepPointsExtByteAsWritten(n: Uint16): (b: Byte)
    ensures n >= 16 && n / 16 - 1 <= U8_MAX ==> b == n / 16 - 1
    ensures n < 16 ==> b == U8_MAX
  {
    AsU8((n / 16 - 1) % (U16_MAX + 1))
  }

  /** The `SetSweepPointsExt` byte with a saturating subtraction: a request
      below one block asks for one block. */
  function SweepPointsExtByte(n: Uint16): (b: Byte)
    requires n <= 4096
    ensures n >= 16 ==> (b + 1) * 16 == n / 16 * 16
    ensures n < 16 ==> b == 0
  {
    if n < 16 then 0 else n / 16 - 1
  }

  /** `From<Command> for Cow<[u8]>`, with the sweep-points byte as
      written (see `SweepPointsExtByteAsWritten`). */
  function Encode(c: Command): (f: seq<Byte>)
    ensures |f| >= 2 && f[0] == HASH
  {
    match c
    case SetConfig(start, stop, minAmp, maxAmp) => [HASH, 32] + ConfigBody(start, stop, minAmp, maxAmp)
    case SwitchModuleMain => [35, 5, 67, 77, 0]
    case SwitchModuleExp => [35, 5, 67, 77, 1]
    case StartTracking(start, step) => [HASH, 22] + TrackingBody(start, step)
    case StartWifiAnalyzer(band) => [35, 5, 67, 87, band.Code()]
    case StopWifiAnalyzer => [35, 5, 67, 87, 0]
    case SetCalcMode(m) => [35, 5, 67, 43, m.Code()]
    case TrackingStep(steps) => [35, 5, 107] + BigEndian16(steps)
    case SetDsp(m) => [35, 5, 67, 112, m.Code()]
    case SetOffsetDb(o) => [35, 5, 67, 79, AsU8(o)]
    case SetInputStage(s) => [35, 4, 97, s.Code()]
    case SetSweepPointsExt(n) => [35, 5, 67, 74, SweepPointsExtByteAsWritten(n)]
    case SetSweepPointsLarge(n) => [35, 6, 67, 106] + BigEndian16(n)
  }

  /** The arguments fit the fixed field widths: frequencies below 10 GHz
      and amplitudes of at most four characters. */
  predicate Fits(c: Command) {
    match c
    case SetConfig(start, stop, minAmp, maxAmp) =>
      start.AsKhz() < Pow10(7) && stop.AsKhz() < Pow10(7)
      && SpectrumAnalyzerConfigFormat.FitsSigned4(minAmp) && SpectrumAnalyzerConfigFormat.FitsSigned4(maxAmp)
    case StartTracking(start, step) => start.AsKhz() < Pow10(7) && step.AsKhz() < Pow10(7)
    case _ => true
  }

  lemma SignedPaddedFour(v: int)
    requires SpectrumAnalyzerConfigFormat.FitsSigned4(v)
    ensures |SignedPadded(v, 4)| == 4
  {
    assert Pow10(3) == 1000 && Pow10(4) == 10000;
  }

  /** The length byte of every command equals the length of its frame. */
  lemma SizeFieldIsLength(c: Command)
    requires Fits(c)
    ensures Framed(Encode(c))
  {
    match c
    case SetConfig(start, stop, minAmp, maxAmp) => ConfigBodyLength(start, stop, minAmp, maxAmp);
    case StartTracking(start, step) => TrackingBodyLength(start, step);
    case _ =>
  }

  lemma ConfigBodyLength(start: Frequency, stop: Frequency, minAmp: int, maxAmp: int)
    requires start.AsKhz() < Pow10(7) && stop.AsKhz() < Pow10(7)
    requires SpectrumAnalyzerConfigFormat.FitsSigned4(minAmp) && SpectrumAnalyzerConfigFormat.FitsSigned4(maxAmp)
    ensures |ConfigBody(start, stop, minAmp, maxAmp)| == 30
  {
    assert Pow10(7) == 10_000_000;
    SignedPaddedFour(minAmp);
    SignedPaddedFour(maxAmp);
  }

  lemma TrackingBodyLength(start: Frequency, step: Frequency)
    requires start.AsKhz() < Pow10(7) && step.AsKhz() < Pow10(7)
    ensures |TrackingBody(start, step)| == 20
  {
    assert Pow10(7) == 10_000_000;
  }

  /** The `$s` sweep header reads the corrected byte back as the requested
      point count rounded down to whole 16-point blocks (one block at
      least). */
  lemma SweepPointsExtRoundTrip(n: Uint16)
    requires n <= 4096
    ensures Sweeps.ExtLen([36, 115, SweepPointsExtByte(n)]) == Ok(if n < 16 then 16 else n / 16 * 16)
  {
  }

  /** For whole blocks of 16 up to 4096 points the as-written byte reads
      back exactly. */
  lemma SweepPointsExtAsWrittenRoundTrip(n: Uint16)
    requires 16 <= n <= 4096 && n % 16 == 0
    ensures Sweeps.ExtLen([36, 115, SweepPointsExtByteAsWritten(n)]) == Ok(n as nat)
  {
  }

  /** ... but a request below one block wraps to 255, which reads back as
      the largest `$s` sweep instead of the smallest. */
  lemma SweepPointsExtAsWrittenWraps()
    ensures SweepPointsExtByteAsWritten(0) == 255
    ensures Sweeps.ExtLen([36, 115, SweepPointsExtByteAsWritten(0)]) == Ok(4096)
    ensures Sweeps.ExtLen([36, 115, SweepPointsExtByte(0)]) == Ok(16)
  {
  }

  /** The 16-bit arguments are sent high byte first. */
  lemma BigEndianArguments(n: Uint16)
    ensures var f := Encode(TrackingStep(n)); FromBigEndian16(f[3], f[4]) == n
    ensures var f := Encode(SetSweepPointsLarge(n)); FromBigEndian16(f[4], f[5]) == n
  {
  }

  /** The offset is sent as a two's-complement byte. */
  lemma OffsetIsTwosComplement(o: Int8)
    ensures var b: int := Encode(SetOffsetDb(o))[4]; (if b >= 128 then b - 256 else b) == o
  {
  }

  /** The input stage and DSP mode travel in the same encoding the device
      reports them in. */
  lemma StagesAndModesRoundTrip(s: InputStages.InputStage, m: DspModes.DspMode)
    ensures InputStages.FromCode(Encode(SetInputStage(s))[3]) == Some(s)
    ensures DspModes.FromCode(Encode(SetDsp(m))[4]) == Some(m)
  {
  }

  /** The device side of `SetConfig`: the four fields read back from the
      payload, in the field parsers' terms. */
  function DecodeConfig(f: seq<Byte>): (r: PResult<(int, int, int, int)>)
    ensures r.Ok? ==> StartsWith(f, [HASH, 32] + SET_CONFIG)
  {
    var t :- Tag(f, [HASH, 32] + SET_CONFIG);
    DecodeConfigFields(t.rest)
  }

  /** Start and stop in kHz, then the maximum and the minimum amplitude. */
  function DecodeConfigFields(b: seq<Byte>): (r: PResult<(int, int, int, int)>)
    ensures r.Ok? ==> |r.value.rest| <= |b|
  {
    var start :- ParseFrequency(b, 7);
    var stop :- CommaNum(start.rest, 7, U64);
    var maxAmp :- CommaNum(stop.rest, 4, I16);
    var minAmp :- CommaNum(maxAmp.rest, 4, I16);
    Ok(Parsed((start.value, stop.value, minAmp.value, maxAmp.value), minAmp.rest))
  }

  /** The field parsers read every field of a formatted body back. */
  lemma {:induction false} ConfigFieldsRoundTrip(startKhz: nat, stopKhz: nat, minAmp: Int16, maxAmp: Int16)
    requires startKhz < Pow10(7) && stopKhz < Pow10(7)
    requires -1000 < minAmp < 10_000 && -1000 < maxAmp < 10_000
    ensures DecodeConfigFields(Padded(startKhz, 7) + ([COMMA] + (Padded(stopKhz, 7)
      + ([COMMA] + (SignedPadded(maxAmp, 4) + ([COMMA] + SignedPadded(minAmp, 4)))))))
      == Ok(Parsed((startKhz as int, stopKhz as int, minAmp as int, maxAmp as int), []))
  {
    assert Pow10(3) == 1_000 && Pow10(4) == 10_000;
    var x3 := [COMMA] + SignedPadded(minAmp, 4);
    var x2 := [COMMA] + (SignedPadded(maxAmp, 4) + x3);
    var x1 := [COMMA] + (Padded(stopKhz, 7) + x2);
    ParseNumPadded(startKhz, 7, U64, x1);
    CommaNumPadded(stopKhz, 7, U64, x2);
    CommaNumSignedPadded(maxAmp, 4, I16, x3);
    assert x3 == [COMMA] + (SignedPadded(minAmp, 4) + []);
    CommaNumSignedPadded(minAmp, 4, I16, []);
  }

  /** The frequencies read back in whole kHz and the amplitudes exactly,
      with nothing left over. */
  lemma {:induction false} ConfigRoundTrip(start: Frequency, stop: Frequency, minAmp: Int16, maxAmp: Int16)
    requires Fits(SetConfig(start, stop, minAmp, maxAmp))
    ensures DecodeConfig(Encode(SetConfig(start, stop, minAmp, maxAmp)))
      == Ok(Parsed((start.AsKhz() as int, stop.AsKhz() as int, minAmp as int, maxAmp as int), []))
  {
    assert Pow10(4) == 10_000;
    var body := Padded(start.AsKhz(), 7) + ([COMMA] + (Padded(stop.AsKhz(), 7)
      + ([COMMA] + (SignedPadded(maxAmp, 4) + ([COMMA] + SignedPadded(minAmp, 4))))));
    assert Encode(SetConfig(start, stop, minAmp, maxAmp)) == ([HASH, 32] + SET_CONFIG) + body;
    TagThen([HASH, 32] + SET_CONFIG, body);
    ConfigFieldsRoundTrip(start.AsKhz(), stop.AsKhz(), minAmp, maxAmp);
  }

  /** The device side of `StartTracking`: start and step in kHz. */
  function DecodeTracking(f: seq<Byte>): (r: PResult<(int, int)>)
    ensures r.Ok? ==> StartsWith(f, [HASH, 22] + START_TRACKING)
    ensures r.Ok? ==> 0 <= r.value.value.0 < Pow10(7) && 0 <= r.value.value.1 < Pow10(7)
  {
    var t :- Tag(f, [HASH, 22] + START_TRACKING);
    var start :- ParseFrequency(t.rest, 7);
    var step :- CommaNum(start.rest, 7, U64);
    Ok(Parsed((start.value, step.value), step.rest))
  }

  /** Start and step read back in whole kHz, with nothing left over. */
  lemma {:induction false} TrackingRoundTrip(start: Frequency, step: Frequency)
    requires Fits(StartTracking(start, step))
    ensures DecodeTracking(Encode(StartTracking(start, step)))
      == Ok(Parsed((start.AsKhz() as int, step.AsKhz() as int), []))
  {
    assert Pow10(7) == 10_000_000;
    var x1 := [COMMA] + Padded(step.AsKhz(), 7);
    var body := Padded(start.AsKhz(), 7) + x1;
    assert Encode(StartTracking(start, step)) == ([HASH, 22] + START_TRACKING) + body;
    TagThen([HASH, 22] + START_TRACKING, body);
    ParseNumPadded(start.AsKhz(), 7, U64, x1);
    assert x1 == [COMMA] + (Padded(step.AsKhz(), 7) + []);
    CommaNumPadded(step.AsKhz(), 7, U64, []);
  }
}

/** Commands to the signal generator (the expansion-module variants, whose
    arguments are floating-point dBm, are not modelled). */
module GeneratorCommands {
  import opened Wrappers
  import opened Bytes
  import opened Numbers
  import opened Frequencies
  import opened Frames
  import opened Parsers
  import opened GeneratorFields

  datatype Command =
    | RfPowerOn
    | RfPowerOff
    | StartAmpSweep(cw: Frequency, startAttenuation: Attenuation, startPowerLevel: PowerLevel,
                    stopAttenuation: Attenuation, stopPowerLevel: PowerLevel, stepDelayMs: nat)
    | StartCw(cwFreq: Frequency, attenuation: Attenuation, powerLevel: PowerLevel)
    | StartFreqSweep(start: Frequency, sweepAttenuation: Attenuation, sweepPowerLevel: PowerLevel,
                     sweepSteps: Uint16, step: Frequency, sweepDelayMs: nat)
    | StartTracking(trackingStart: Frequency, trackingAttenuation: Attenuation, trackingPowerLevel: PowerLevel,
                    trackingSteps: Uint16, trackingStep: Frequency)
    | TrackingStep(steps: Uint16)

  const AMP_SWEEP: seq<Byte> := [67, 51, 45, 65, 58]   // "C3-A:"
  const CW: seq<Byte> := [67, 51, 45, 70, 58]          // "C3-F:"
  const TRACKING: seq<Byte> := [67, 51, 45, 84, 58]    // "C3-T:"

  /** `,ddddd`: a delay in milliseconds. */
  function DelayField(ms: nat): seq<Byte> {
    [COMMA] + Padded(ms, 5)
  }

  /** The part after the prefix: the same field renderings the generator
      uses in its configuration reports. */
  function Body(c: Command): seq<Byte> {
    match c
    case RfPowerOn => []
    case RfPowerOff => []
    case StartAmpSweep(cw, a1, p1, a2, p2, ms) =>
      Padded(cw.AsKhz(), 7) + FormatLevel(a1, p1, FormatLevel(a2, p2, DelayField(ms)))
    case StartCw(cw, a, p) => Padded(cw.AsKhz(), 7) + FormatLevel(a, p, [])
    case StartFreqSweep(start, a, p, steps, step, ms) =>
      Padded(start.AsKhz(), 7)
        + FormatLevel(a, p, [COMMA] + (Padded(steps, 4) + ([COMMA] + (Padded(step.AsKhz(), 7) + DelayField(ms)))))
    case StartTracking(start, a, p, steps, step) =>
      Padded(start.AsKhz(), 7) + FormatLevel(a, p, [COMMA] + (Padded(steps, 4) + ([COMMA] + Padded(step.AsKhz(), 7))))
    case TrackingStep(_) => []
  }

  /** `From<Command> for Cow<[u8]>` */
  function Encode(c: Command): (f: seq<Byte>)
    ensures |f| >= 2 && f[0] == HASH
  {
    match c
    case RfPowerOn => [35, 5, 67, 80, 49]
    case RfPowerOff => [35, 5, 67, 80, 48]
    case StartAmpSweep(_, _, _, _, _, _) => [HASH, 30] + AMP_SWEEP + Body(c)
    case StartCw(_, _, _) => [HASH, 18] + CW + Body(c)
    case StartFreqSweep(_, _, _, _, _, _) => [HASH, 37] + CW + Body(c)
    case StartTracking(_, _, _, _, _) => [HASH, 31] + TRACKING + Body(c)
    case TrackingStep(steps) => [35, 5, 107] + BigEndian16(steps)
  }

  /** The arguments fit their field widths: frequencies of at most seven
      kHz digits, step counts of four digits and delays of five. */
  predicate Fits(c: Command) {
    match c
    case StartAmpSweep(cw, _, _, _, _, ms) => cw.AsKhz() < Pow10(7) && ms < Pow10(5)
    case StartCw(cw, _, _) => cw.AsKhz() < Pow10(7)
    case StartFreqSweep(start, _, _, steps, step, ms) =>
      start.AsKhz() < Pow10(7) && steps < Pow10(4) && step.AsKhz() < Pow10(7) && ms < Pow10(5)
    case StartTracking(start, _, _, steps, step) =>
      start.AsKhz() < Pow10(7) && steps < Pow10(4) && step.AsKhz() < Pow10(7)
    case _ => true
  }

  /** Every command but the amplitude sweep carries its own length. */
  lemma SizeFieldIsLength(c: Command)
    requires Fits(c) && !c.StartAmpSweep?
    ensures Framed(Encode(c))
  {
    assert Pow10(4) == 10_000 && Pow10(5) == 100_000 && Pow10(7) == 10_000_000;
  }

  /** The amplitude sweep announces 30 bytes but is 28 long. */
  lemma AmpSweepLengthMismatch(c: Command)
    requires c.StartAmpSweep? && Fits(c)
    ensures Encode(c)[1] == 30 && |Encode(c)| == 28
  {
    assert Pow10(5) == 100_000 && Pow10(7) == 10_000_000;
  }

  /** The tracking step is sent high byte first. */
  lemma TrackingStepBigEndian(n: Uint16)
    ensures var f := Encode(TrackingStep(n)); FromBigEndian16(f[3], f[4]) == n
  {
  }

  /** A frequency rendered as seven kHz digits reads back rounded down to
      whole kHz. */
  lemma KhzRoundTrip(f: Frequency, rest: seq<Byte>)
    requires f.AsKhz() < Pow10(7)
    ensures LeadingFrequency(Padded(f.AsKhz(), 7) + rest) == Ok(Parsed(FieldFrequency(f.AsKhz()), rest))
  {
    assert Pow10(7) == 10_000_000;
    ParseNumPadded(f.AsKhz(), 7, U64, rest);
  }

  /** The device side of `StartCw`, read with the configuration field
      parsers. */
  function DecodeCw(f: seq<Byte>): (r: PResult<(Frequency, Attenuation, PowerLevel)>)
  {
    var t :- Tag(f, [HASH, 18] + CW);
    var cw :- LeadingFrequency(t.rest);
    var level :- CommaLevel(cw.rest);
    Ok(Parsed((cw.value, level.value.0, level.value.1), level.rest))
  }

  lemma CwRoundTrip(cw: Frequency, a: Attenuation, p: PowerLevel)
    requires cw.AsKhz() < Pow10(7)
    ensures DecodeCw(Encode(StartCw(cw, a, p))) == Ok(Parsed((FieldFrequency(cw.AsKhz()), a, p), []))
  {
    TagThen([HASH, 18] + CW, Body(StartCw(cw, a, p)));
    KhzRoundTrip(cw, FormatLevel(a, p, []));
    LevelRoundTrip(a, p, []);
  }

  /** The steps and the delay that close a frequency sweep. */
  function CommaStepsDelay(b: seq<Byte>): (r: PResult<(int, Frequency, int)>)
    ensures r.Ok? ==> KhzField(r.value.value.1) && 0 <= r.value.value.2 <= U16_MAX
  {
    var steps :- CommaSteps(b);
    var delay :- CommaDelay(steps.rest);
    Ok(Parsed((steps.value.0, steps.value.1, delay.value), delay.rest))
  }

  lemma StepsDelayRoundTrip(steps: nat, step: Frequency, ms: nat)
    requires steps < Pow10(4) && KhzField(step) && ms <= U16_MAX
    ensures CommaStepsDelay(FormatSteps(steps, step, DelayField(ms))) == Ok(Parsed((steps as int, step, ms as int), []))
  {
    StepsRoundTrip(steps, step, DelayField(ms));
    assert DelayField(ms) == [COMMA] + (Padded(ms, 5) + []);
    DelayRoundTrip(ms, []);
  }

  /** The device side of `StartFreqSweep`. */
  function DecodeFreqSweep(f: seq<Byte>): (r: PResult<(Frequency, Attenuation, PowerLevel, int, Frequency, int)>)
    ensures r.Ok? ==> StartsWith(f, [HASH, 37] + CW) && KhzField(r.value.value.0) && KhzField(r.value.value.4)
  {
    var t :- Tag(f, [HASH, 37] + CW);
    var start :- LeadingFrequency(t.rest);
    var level :- CommaLevel(start.rest);
    var tail :- CommaStepsDelay(level.rest);
    Ok(Parsed((start.value, level.value.0, level.value.1, tail.value.0, tail.value.1, tail.value.2), tail.rest))
  }

  lemma {:induction false} FreqSweepRoundTrip(start: Frequency, a: Attenuation, p: PowerLevel, steps: Uint16,
                                              step: Frequency, ms: nat)
    requires start.AsKhz() < Pow10(7) && steps < Pow10(4) && KhzField(step) && ms <= U16_MAX
    ensures DecodeFreqSweep(Encode(StartFreqSweep(start, a, p, steps, step, ms)))
      == Ok(Parsed((FieldFrequency(start.AsKhz()), a, p, steps as int, step, ms as int), []))
  {
    var c := StartFreqSweep(start, a, p, steps, step, ms);
    var tail := FormatSteps(steps, step, DelayField(ms));
    var level := FormatLevel(a, p, tail);
    assert Body(c) == Padded(start.AsKhz(), 7) + level;
    assert Encode(c) == ([HASH, 37] + CW) + Body(c);
    TagThen([HASH, 37] + CW, Body(c));
    KhzRoundTrip(start, level);
    LevelRoundTrip(a, p, tail);
    StepsDelayRoundTrip(steps, step, ms);
  }

  /** The stop level and the delay that close an amplitude sweep. */
  function CommaLevelDelay(b: seq<Byte>): (r: PResult<(Attenuation, PowerLevel, int)>)
    ensures r.Ok? ==> 0 <= r.value.value.2 <= U16_MAX
  {
    var stop :- CommaLevel(b);
    var delay :- CommaDelay(stop.rest);
    Ok(Parsed((stop.value.0, stop.value.1, delay.value), delay.rest))
  }

  lemma LevelDelayRoundTrip(a: Attenuation, p: PowerLevel, ms: nat)
    requires ms <= U16_MAX
    ensures CommaLevelDelay(FormatLevel(a, p, DelayField(ms))) == Ok(Parsed((a, p, ms as int), []))
  {
    LevelRoundTrip(a, p, DelayField(ms));
    assert DelayField(ms) == [COMMA] + (Padded(ms, 5) + []);
    DelayRoundTrip(ms, []);
  }

  /** The start level, then the stop level and the delay. */
  function CommaLevelsDelay(b: seq<Byte>): (r: PResult<(Attenuation, PowerLevel, Attenuation, PowerLevel, int)>)
    ensures r.Ok? ==> 0 <= r.value.value.4 <= U16_MAX
  {
    var start :- CommaLevel(b);
    var stop :- CommaLevelDelay(start.rest);
    Ok(Parsed((start.value.0, start.value.1, stop.value.0, stop.value.1, stop.value.2), stop.rest))
  }

  lemma LevelsDelayRoundTrip(a1: Attenuation, p1: PowerLevel, a2: Attenuation, p2: PowerLevel, ms: nat)
    requires ms <= U16_MAX
    ensures CommaLevelsDelay(FormatLevel(a1, p1, FormatLevel(a2, p2, DelayField(ms))))
      == Ok(Parsed((a1, p1, a2, p2, ms as int), []))
  {
    LevelRoundTrip(a1, p1, FormatLevel(a2, p2, DelayField(ms)));
    LevelDelayRoundTrip(a2, p2, ms);
  }

  /** The device side of `StartAmpSweep`, read from its 28 bytes. */
  function DecodeAmpSweep(f: seq<Byte>): (r: PResult<(Frequency, Attenuation, PowerLevel, Attenuation, PowerLevel, int)>)
    ensures r.Ok? ==> StartsWith(f, [HASH, 30] + AMP_SWEEP) && KhzField(r.value.value.0)
    ensures r.Ok? ==> 0 <= r.value.value.5 <= U16_MAX
  {
    var t :- Tag(f, [HASH, 30] + AMP_SWEEP);
    var cw :- LeadingFrequency(t.rest);
    var tail :- CommaLevelsDelay(cw.rest);
    var (a1, p1, a2, p2, ms) := tail.value;
    Ok(Parsed((cw.value, a1, p1, a2, p2, ms), tail.rest))
  }

  /** The amplitude sweep reads back, whatever its length byte says. */
  lemma {:induction false} AmpSweepRoundTrip(cw: Frequency, a1: Attenuation, p1: PowerLevel,
                                             a2: Attenuation, p2: PowerLevel, ms: nat)
    requires cw.AsKhz() < Pow10(7) && ms <= U16_MAX
    ensures DecodeAmpSweep(Encode(StartAmpSweep(cw, a1, p1, a2, p2, ms)))
      == Ok(Parsed((FieldFrequency(cw.AsKhz()), a1, p1, a2, p2, ms as int), []))
  {
    var c := StartAmpSweep(cw, a1, p1, a2, p2, ms);
    var levels := FormatLevel(a1, p1, FormatLevel(a2, p2, DelayField(ms)));
    assert Body(c) == Padded(cw.AsKhz(), 7) + levels;
    assert Encode(c) == ([HASH, 30] + AMP_SWEEP) + Body(c);
    TagThen([HASH, 30] + AMP_SWEEP, Body(c));
    KhzRoundTrip(cw, levels);
    LevelsDelayRoundTrip(a1, p1, a2, p2, ms);
  }

  /** The device side of `StartTracking`. */
  function DecodeTracking(f: seq<Byte>): (r: PResult<(Frequency, Attenuation, PowerLevel, int, Frequency)>)
    ensures r.Ok? ==> StartsWith(f, [HASH, 31] + TRACKING) && KhzField(r.value.value.0) && KhzField(r.value.value.4)
  {
    var t :- Tag(f, [HASH, 31] + TRACKING);
    var start :- LeadingFrequency(t.rest);
    var level :- CommaLevel(start.rest);
    var steps :- CommaSteps(level.rest);
    Ok(Parsed((start.value, level.value.0, level.value.1, steps.value.0, steps.value.1), steps.rest))
  }

  lemma {:induction false} TrackingRoundTrip(start: Frequency, a: Attenuation, p: PowerLevel, steps: Uint16,
                                             step: Frequency)
    requires start.AsKhz() < Pow10(7) && steps < Pow10(4) && KhzField(step)
    ensures DecodeTracking(Encode(StartTracking(start, a, p, steps, step)))
      == Ok(Parsed((FieldFrequency(start.AsKhz()), a, p, steps as int, step), []))
  {
    var c := StartTracking(start, a, p, steps, step);
    var tail := FormatSteps(steps, step, []);
    var level := FormatLevel(a, p, tail);
    assert tail == [COMMA] + (Padded(steps, 4) + ([COMMA] + Padded(step.AsKhz(), 7)));
    assert Body(c) == Padded(start.AsKhz(), 7) + level;
    assert Encode(c) == ([HASH, 31] + TRACKING) + Body(c);
    TagThen([HASH, 31] + TRACKING, Body(c));
    KhzRoundTrip(start, level);
    LevelRoundTrip(a, p, tail);
    StepsRoundTrip(steps, step, []);
  }
}
