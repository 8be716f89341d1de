/** The spectrum analyzer's device state: one slot per message kind, filled
    by the reader as messages arrive, and the operations that read it or
    turn a request into a command. Mutexes and condition variables become
    a plain record; waiting for the device to confirm a change is not
    modelled, so an operation ends with the command it sends. */
module SpectrumAnalyzerDevice {
  import opened Wrappers
  import opened Bytes
  import opened Errors
  import opened Frequencies
  import opened RadioModules
  import SpectrumAnalyzerModel
  import SpectrumAnalyzerConfig
  import SpectrumAnalyzerConfigFormat
  import Sweeps
  import ScreenDatas
  import DspModes
  import InputStages
  import TrackingStatuses
  import SerialNumbers
  import SetupInfos
  import Msg = SpectrumAnalyzerMessages
  import Cmd = SpectrumAnalyzerCommands
  import CommonCommands
  import Frames
  import Numbers
  import Devices

  type Model = SpectrumAnalyzerModel.Model

  /** Callbacks are closures supplied by the caller; the model names each by
      a number. */
  type CallbackId = nat

  /** The message kinds, one per slot. */
  datatype Slot =
    | ConfigSlot | SweepSlot | ScreenDataSlot | DspModeSlot
    | InputStageSlot | TrackingStatusSlot | SerialNumberSlot | SetupInfoSlot

  function SlotOf(m: Msg.Message): Slot {
    match m
    case Config(_) => ConfigSlot
    case Sweep(_) => SweepSlot
    case ScreenData(_) => ScreenDataSlot
    case DspMode(_) => DspModeSlot
    case InputStage(_) => InputStageSlot
    case TrackingStatus(_) => TrackingStatusSlot
    case SerialNumber(_) => SerialNumberSlot
    case SetupInfo(_) => SetupInfoSlot
  }

  /** `MessageContainer`: the latest message of each kind and the two
      registered callbacks. */
  datatype State = State(
    config: Option<SpectrumAnalyzerConfig.Config>,
    configCallback: Option<CallbackId>,
    sweep: Option<Sweeps.Sweep>,
    sweepCallback: Option<CallbackId>,
    screenData: Option<ScreenDatas.ScreenData>,
    dspMode: Option<DspModes.DspMode>,
    trackingStatus: Option<TrackingStatuses.TrackingStatus>,
    inputStage: Option<InputStages.InputStage>,
    setupInfo: Option<SetupInfos.SetupInfo<Model>>,
    serialNumber: Option<SerialNumbers.SerialNumber>)

  /** `MessageContainer::default()` */
  const EMPTY: State := State(None, None, None, None, None, None, None, None, None, None)

  /** A slot read back as the message it was filled from. */
  function Get(s: State, k: Slot): Option<Msg.Message> {
    match k
    case ConfigSlot => if s.config.Some? then Some(Msg.Config(s.config.value)) else None
    case SweepSlot => if s.sweep.Some? then Some(Msg.Sweep(s.sweep.value)) else None
    case ScreenDataSlot => if s.screenData.Some? then Some(Msg.ScreenData(s.screenData.value)) else None
    case DspModeSlot => if s.dspMode.Some? then Some(Msg.DspMode(s.dspMode.value)) else None
    case InputStageSlot => if s.inputStage.Some? then Some(Msg.InputStage(s.inputStage.value)) else None
    case TrackingStatusSlot =>
      if s.trackingStatus.Some? then Some(Msg.TrackingStatus(s.trackingStatus.value)) else None
    case SerialNumberSlot => if s.serialNumber.Some? then Some(Msg.SerialNumber(s.serialNumber.value)) else None
    case SetupInfoSlot => if s.setupInfo.Some? then Some(Msg.SetupInfo(s.setupInfo.value)) else None
  }

  /** Two states that agree on every slot and on the callbacks are the same
      state. */
  lemma Extensionality(a: State, b: State)
    requires forall k :: Get(a, k) == Get(b, k)
    requires a.configCallback == b.configCallback && a.sweepCallback == b.sweepCallback
    ensures a == b
  {
    assert Get(a, ConfigSlot) == Get(b, ConfigSlot);
    assert Get(a, SweepSlot) == Get(b, SweepSlot);
    assert Get(a, ScreenDataSlot) == Get(b, ScreenDataSlot);
    assert Get(a, DspModeSlot) == Get(b, DspModeSlot);
    assert Get(a, InputStageSlot) == Get(b, InputStageSlot);
    assert Get(a, TrackingStatusSlot) == Get(b, TrackingStatusSlot);
    assert Get(a, SerialNumberSlot) == Get(b, SerialNumberSlot);
    assert Get(a, SetupInfoSlot) == Get(b, SetupInfoSlot);
  }

  /** A callback run by `cache_message`; the sweep callback receives the
      amplitudes of the sweep just stored. */
  datatype Invocation = ConfigCallbackCalled(id: CallbackId) | SweepCallbackCalled(id: CallbackId, amplitudes: seq<int>)

  /** What `cache_message` does: the new state, the slot whose condition
      variable is notified, and the callback it runs, if any. */
  datatype Cached = Cached(state: State, notified: Slot, invoked: Option<Invocation>)

  /** `MessageContainer::cache_message` */
  function CacheMessage(s: State, m: Msg.Message): (r: Cached)
    ensures Get(r.state, SlotOf(m)) == Some(m)
    ensures forall k :: k != SlotOf(m) ==> Get(r.state, k) == Get(s, k)
    ensures r.state.configCallback == s.configCallback && r.state.sweepCallback == s.sweepCallback
    ensures r.notified == SlotOf(m)
    ensures r.invoked.Some? <==> (m.Config? && s.configCallback.Some?) || (m.Sweep? && s.sweepCallback.Some?)
    ensures m.Config? && s.configCallback.Some? ==> r.invoked == Some(ConfigCallbackCalled(s.configCallback.value))
    ensures m.Sweep? && s.sweepCallback.Some?
      ==> r.invoked == Some(SweepCallbackCalled(s.sweepCallback.value, m.sweep.amplitudesHalfDbm))
  {
    match m
    case Config(c) =>
      var invoked := if s.configCallback.Some? then Some(ConfigCallbackCalled(s.configCallback.value)) else None;
      Cached(s.(config := Some(c)), ConfigSlot, invoked)
    case Sweep(w) =>
      var invoked :=
        if s.sweepCallback.Some? then Some(SweepCallbackCalled(s.sweepCallback.value, w.amplitudesHalfDbm)) else None;
      Cached(s.(sweep := Some(w)), SweepSlot, invoked)
    case ScreenData(d) => Cached(s.(screenData := Some(d)), ScreenDataSlot, None)
    case DspMode(d) => Cached(s.(dspMode := Some(d)), DspModeSlot, None)
    case InputStage(i) => Cached(s.(inputStage := Some(i)), InputStageSlot, None)
    case TrackingStatus(t) => Cached(s.(trackingStatus := Some(t)), TrackingStatusSlot, None)
    case SerialNumber(n) => Cached(s.(serialNumber := Some(n)), SerialNumberSlot, None)
    case SetupInfo(i) => Cached(s.(setupInfo := Some(i)), SetupInfoSlot, None)
  }

  /** Caching the same message twice leaves the state as caching it once. */
  lemma CacheIdempotent(s: State, m: Msg.Message)
    ensures CacheMessage(CacheMessage(s, m).state, m).state == CacheMessage(s, m).state
  {
    var once := CacheMessage(s, m).state;
    Extensionality(CacheMessage(once, m).state, once);
  }

  /** Of two messages of the same kind, only the later one is kept. */
  lemma LatestWins(s: State, m1: Msg.Message, m2: Msg.Message)
    requires SlotOf(m1) == SlotOf(m2)
    ensures CacheMessage(CacheMessage(s, m1).state, m2).state == CacheMessage(s, m2).state
  {
    Extensionality(CacheMessage(CacheMessage(s, m1).state, m2).state, CacheMessage(s, m2).state);
  }

  /** Messages of different kinds can be cached in either order. */
  lemma DifferentKindsCommute(s: State, m1: Msg.Message, m2: Msg.Message)
    requires SlotOf(m1) != SlotOf(m2)
    ensures CacheMessage(CacheMessage(s, m1).state, m2).state == CacheMessage(CacheMessage(s, m2).state, m1).state
  {
    Extensionality(CacheMessage(CacheMessage(s, m1).state, m2).state,
                   CacheMessage(CacheMessage(s, m2).state, m1).state);
  }

  /** The state after the reader has cached a sequence of messages. */
  function CacheAll(s: State, ms: seq<Msg.Message>): State
    decreases |ms|
  {
    if ms == [] then s else CacheAll(CacheMessage(s, ms[0]).state, ms[1..])
  }

  /** The last message of a kind in a sequence. */
  function LastOfKind(ms: seq<Msg.Message>, k: Slot): (r: Option<Msg.Message>)
    ensures r.Some? ==> r.value in ms && SlotOf(r.value) == k
    ensures r.None? <==> forall i :: 0 <= i < |ms| ==> SlotOf(ms[i]) != k
    decreases |ms|
  {
    if ms == [] then None
    else if SlotOf(ms[|ms| - 1]) == k then Some(ms[|ms| - 1])
    else LastOfKind(ms[..|ms| - 1], k)
  }

  lemma {:induction false} CacheAllAppend(s: State, ms: seq<Msg.Message>, m: Msg.Message)
    ensures CacheAll(s, ms + [m]) == CacheMessage(CacheAll(s, ms), m).state
    decreases |ms|
  {
    if ms == [] {
      assert [] + [m] == [m];
    } else {
      assert (ms + [m])[1..] == ms[1..] + [m];
      CacheAllAppend(CacheMessage(s, ms[0]).state, ms[1..], m);
    }
  }

  /** After a run of messages every slot holds the last message of its kind,
      or what it held before when none arrived; the callbacks are
      untouched. */
  lemma {:induction false} CacheAllKeepsLatest(s: State, ms: seq<Msg.Message>, k: Slot)
    ensures Get(CacheAll(s, ms), k) == if LastOfKind(ms, k).Some? then LastOfKind(ms, k) else Get(s, k)
    ensures CacheAll(s, ms).configCallback == s.configCallback
    ensures CacheAll(s, ms).sweepCallback == s.sweepCallback
    decreases |ms|
  {
    if ms != [] {
      var init := ms[..|ms| - 1];
      var last := ms[|ms| - 1];
      assert ms == init + [last];
      CacheAllAppend(s, init, last);
      CacheAllKeepsLatest(s, init, k);
    }
  }

  // Accessors: the configured values, or the type's default before the
  // first configuration arrives.

  function StartFreq(s: State): Frequency {
    if s.config.Some? then s.config.value.startFreq else Frequency(0)
  }

  function StopFreq(s: State): Frequency {
    if s.config.Some? then s.config.value.stopFreq else Frequency(0)
  }

  function MinAmpDbm(s: State): int {
    if s.config.Some? then s.config.value.minAmpDbm else 0
  }

  function MaxAmpDbm(s: State): int {
    if s.config.Some? then s.config.value.maxAmpDbm else 0
  }

  function SweepLen(s: State): nat {
    if s.config.Some? then s.config.value.sweepLen else 0
  }

  function IsExpansionActive(s: State): bool {
    s.config.Some? && s.config.value.isExpansionRadioModuleActive
  }

  function FirmwareVersion(s: State): seq<Byte> {
    if s.setupInfo.Some? then s.setupInfo.value.firmwareVersion else []
  }

  /** Before any configuration the accessors give the defaults; afterwards
      they give the values of the latest configuration. */
  lemma AccessorsFollowLatestConfig(s: State, c: SpectrumAnalyzerConfig.Config)
    ensures StartFreq(EMPTY) == Frequency(0) && SweepLen(EMPTY) == 0 && !IsExpansionActive(EMPTY)
    ensures var t := CacheMessage(s, Msg.Config(c)).state;
      StartFreq(t) == c.startFreq && StopFreq(t) == c.stopFreq
      && MinAmpDbm(t) == c.minAmpDbm && MaxAmpDbm(t) == c.maxAmpDbm
      && SweepLen(t) == c.sweepLen && IsExpansionActive(t) == c.isExpansionRadioModuleActive
  {
  }

  // Radio modules. The source unwraps the setup information here, so each
  // of these needs it to have arrived.

  function ExpansionRadioModule(s: State): Option<RadioModule<Model>>
    requires s.setupInfo.Some?
  {
    s.setupInfo.value.expansionRadioModule
  }

  /** `active_radio_module`: the expansion module when the configuration
      says so, falling back to the default module when there is none. */
  function ActiveRadioModule(s: State): (r: RadioModule<Model>)
    requires s.setupInfo.Some?
    ensures IsExpansionActive(s) && ExpansionRadioModule(s).Some? ==> r == ExpansionRadioModule(s).value
    ensures IsExpansionActive(s) && ExpansionRadioModule(s).None? ==> r == Default(SpectrumAnalyzerModel.DEFAULT)
    ensures !IsExpansionActive(s) ==> r == s.setupInfo.value.mainRadioModule
  {
    if IsExpansionActive(s) then ExpansionRadioModule(s).UnwrapOr(Default(SpectrumAnalyzerModel.DEFAULT))
    else s.setupInfo.value.mainRadioModule
  }

  /** `inactive_radio_module`: none without an expansion module, otherwise
      the module that is not active. */
  function InactiveRadioModule(s: State): (r: Option<RadioModule<Model>>)
    requires s.setupInfo.Some?
    ensures r.None? <==> ExpansionRadioModule(s).None?
    ensures r.Some? && IsExpansionActive(s) ==> r.value == s.setupInfo.value.mainRadioModule
    ensures r.Some? && !IsExpansionActive(s) ==> r == ExpansionRadioModule(s)
  {
    if ExpansionRadioModule(s).Some? then
      if IsExpansionActive(s) then Some(s.setupInfo.value.mainRadioModule) else ExpansionRadioModule(s)
    else None
  }

  /** What the setup decoder guarantees: the main module sits in the main
      slot and the expansion module in the expansion slot. */
  predicate WellFormedSetup(info: SetupInfos.SetupInfo<Model>) {
    info.mainRadioModule.IsMain()
    && (info.expansionRadioModule.Some? ==> info.expansionRadioModule.value.IsExpansion())
  }

  lemma DecodedSetupIsWellFormed(bytes: seq<Byte>)
    requires Msg.FromBytes(bytes).Ok? && Msg.FromBytes(bytes).value.SetupInfo?
    ensures WellFormedSetup(Msg.FromBytes(bytes).value.setupInfo)
  {
  }

  /** With an expansion module present, the active and the inactive module
      are the two modules of the device, and the active one is the
      expansion module exactly when the configuration says so. */
  lemma ActiveAndInactiveComplement(s: State)
    requires s.setupInfo.Some? && WellFormedSetup(s.setupInfo.value) && ExpansionRadioModule(s).Some?
    ensures InactiveRadioModule(s).Some?
    ensures ActiveRadioModule(s).IsExpansion() <==> IsExpansionActive(s)
    ensures InactiveRadioModule(s).value.IsExpansion() <==> !IsExpansionActive(s)
    ensures {ActiveRadioModule(s), InactiveRadioModule(s).value}
      == {s.setupInfo.value.mainRadioModule, ExpansionRadioModule(s).value}
  {
  }

  /** `activate_main_radio_module`, up to the command it sends. */
  function ActivateMainRadioModule(s: State): (r: Result<Cmd.Command, Error>)
    requires s.setupInfo.Some?
    ensures r.Ok? <==> !ActiveRadioModule(s).IsMain()
    ensures r.Ok? ==> r.value == Cmd.SwitchModuleMain
    ensures r.Err? ==> r.error == InvalidOperation(MainAlreadyActive)
  {
    if ActiveRadioModule(s).IsMain() then Err(InvalidOperation(MainAlreadyActive)) else Ok(Cmd.SwitchModuleMain)
  }

  /** `activate_expansion_radio_module`, up to the command it sends. */
  function ActivateExpansionRadioModule(s: State): (r: Result<Cmd.Command, Error>)
    requires s.setupInfo.Some?
    ensures r.Ok? <==> ExpansionRadioModule(s).Some? && !ActiveRadioModule(s).IsExpansion()
    ensures r.Ok? ==> r.value == Cmd.SwitchModuleExp
    ensures ExpansionRadioModule(s).None? ==> r == Err(InvalidOperation(NoExpansionModule))
    ensures ExpansionRadioModule(s).Some? && r.Err? ==> r.error == InvalidOperation(ExpansionAlreadyActive)
  {
    if ExpansionRadioModule(s).None? then Err(InvalidOperation(NoExpansionModule))
    else if ActiveRadioModule(s).IsExpansion() then Err(InvalidOperation(ExpansionAlreadyActive))
    else Ok(Cmd.SwitchModuleExp)
  }

  /** On a device with two modules exactly one of the two switches is
      possible; on a device with one, neither is. */
  lemma ExactlyOneSwitch(s: State)
    requires s.setupInfo.Some? && WellFormedSetup(s.setupInfo.value)
    ensures ExpansionRadioModule(s).Some?
      ==> (ActivateMainRadioModule(s).Ok? <==> !ActivateExpansionRadioModule(s).Ok?)
    ensures ExpansionRadioModule(s).None?
      ==> ActivateMainRadioModule(s).Err? && ActivateExpansionRadioModule(s).Err?
  {
  }

  // Validation of requested settings.

  predicate InFreqRange(m: Model, f: Frequency) {
    m.MinFreq() <= f.hz <= m.MaxFreq()
  }

  predicate InSpanRange(m: Model, span: nat) {
    m.MinSpan() <= span <= m.MaxSpan()
  }

  /** `validate_start_stop`, checked against the active module's model. */
  function ValidateStartStop(s: State, start: Frequency, stop: Frequency): (r: Result<(), Error>)
    requires start.Lt(stop) ==> s.setupInfo.Some?
    ensures r.Ok? <==> start.Lt(stop) && var m := ActiveRadioModule(s).Model();
      InFreqRange(m, start) && InFreqRange(m, stop) && InSpanRange(m, stop.hz - start.hz)
    ensures !start.Lt(stop) ==> r == Err(InvalidInput(StartNotBelowStop))
    ensures r.Err? ==> r.error.InvalidInput?
    ensures start.Lt(stop) && !InFreqRange(ActiveRadioModule(s).Model(), start)
      ==> r == Err(InvalidInput(StartOutOfRange))
  {
    if !start.Lt(stop) then Err(InvalidInput(StartNotBelowStop))
    else
      var m := ActiveRadioModule(s).Model();
      if !InFreqRange(m, start) then Err(InvalidInput(StartOutOfRange))
      else if !InFreqRange(m, stop) then Err(InvalidInput(StopOutOfRange))
      else if !InSpanRange(m, stop.Sub(start).hz) then Err(InvalidInput(SpanOutOfRange))
      else Ok(())
  }

  /** A device whose active model is unknown accepts every ordered pair. */
  lemma UnknownModelAcceptsOrderedPairs(s: State, start: Frequency, stop: Frequency)
    requires s.setupInfo.Some? && ActiveRadioModule(s).Model() == SpectrumAnalyzerModel.Unknown
    ensures ValidateStartStop(s, start, stop).Ok? <==> start.Lt(stop)
  {
  }

  const MIN_AMP_DBM: int := -120
  const MAX_AMP_DBM: int := 35

  /** `validate_min_max_amps` */
  function ValidateMinMaxAmps(minAmp: int, maxAmp: int): (r: Result<(), Error>)
    ensures r.Ok? <==> minAmp < maxAmp && MIN_AMP_DBM <= minAmp && maxAmp <= MAX_AMP_DBM
    ensures minAmp >= maxAmp ==> r == Err(InvalidInput(MinAmpNotBelowMax))
    ensures minAmp < maxAmp && minAmp < MIN_AMP_DBM ==> r == Err(InvalidInput(MinAmpOutOfRange))
    ensures minAmp < maxAmp && MIN_AMP_DBM <= minAmp <= MAX_AMP_DBM && MAX_AMP_DBM < maxAmp
      ==> r == Err(InvalidInput(MaxAmpOutOfRange))
  {
    if minAmp >= maxAmp then Err(InvalidInput(MinAmpNotBelowMax))
    else if !(MIN_AMP_DBM <= minAmp <= MAX_AMP_DBM) then Err(InvalidInput(MinAmpOutOfRange))
    else if !(MIN_AMP_DBM <= maxAmp <= MAX_AMP_DBM) then Err(InvalidInput(MaxAmpOutOfRange))
    else Ok(())
  }

  /** `set_config`: both validations, in this order, then the command. */
  function SetConfig(s: State, start: Frequency, stop: Frequency, minAmp: int, maxAmp: int): (r: Result<Cmd.Command, Error>)
    requires start.Lt(stop) ==> s.setupInfo.Some?
    ensures r.Ok? <==> ValidateStartStop(s, start, stop).Ok? && ValidateMinMaxAmps(minAmp, maxAmp).Ok?
    ensures r.Ok? ==> r.value == Cmd.SetConfig(start, stop, minAmp as Int16, maxAmp as Int16)
    ensures ValidateStartStop(s, start, stop).Err? ==> r == Err(ValidateStartStop(s, start, stop).error)
    ensures ValidateStartStop(s, start, stop).Ok? && ValidateMinMaxAmps(minAmp, maxAmp).Err?
      ==> r == Err(ValidateMinMaxAmps(minAmp, maxAmp).error)
  {
    var _ :- ValidateStartStop(s, start, stop);
    var _ :- ValidateMinMaxAmps(minAmp, maxAmp);
    Ok(Cmd.SetConfig(start, stop, minAmp as Int16, maxAmp as Int16))
  }

  /** For a known model the command a valid request produces fits its
      fixed-width fields, so its length byte is right. */
  lemma SetConfigFrameIsWellFormed(s: State, start: Frequency, stop: Frequency, minAmp: int, maxAmp: int)
    requires start.Lt(stop) ==> s.setupInfo.Some?
    requires SetConfig(s, start, stop, minAmp, maxAmp).Ok?
    requires ActiveRadioModule(s).Model() != SpectrumAnalyzerModel.Unknown
    ensures Frames.Framed(Cmd.Encode(SetConfig(s, start, stop, minAmp, maxAmp).value))
  {
    var m := ActiveRadioModule(s).Model();
    assert Numbers.Pow10(7) == 10_000_000;
    assert m.MaxFreq() <= 6_100_000_000;
    Cmd.SizeFieldIsLength(SetConfig(s, start, stop, minAmp, maxAmp).value);
  }

  /** `set_start_stop`: the current amplitudes are kept. */
  function SetStartStop(s: State, start: Frequency, stop: Frequency): (r: Result<Cmd.Command, Error>)
    requires start.Lt(stop) ==> s.setupInfo.Some?
    ensures r.Ok? ==> r.value.SetConfig? && r.value.start == start && r.value.stop == stop
    ensures r.Ok? ==> r.value.SetConfig? && r.value.minAmpDbm == MinAmpDbm(s) && r.value.maxAmpDbm == MaxAmpDbm(s)
    ensures !start.Lt(stop) ==> r == Err(InvalidInput(StartNotBelowStop))
  {
    SetConfig(s, start, stop, MinAmpDbm(s), MaxAmpDbm(s))
  }

  /** `set_min_max_amps`: the current frequencies are kept. */
  function SetMinMaxAmps(s: State, minAmp: int, maxAmp: int): (r: Result<Cmd.Command, Error>)
    requires StartFreq(s).Lt(StopFreq(s)) ==> s.setupInfo.Some?
    ensures r.Ok? ==> r.value.SetConfig? && r.value.start == StartFreq(s) && r.value.stop == StopFreq(s)
    ensures r.Ok? ==> r.value.SetConfig? && r.value.minAmpDbm == minAmp && r.value.maxAmpDbm == maxAmp
    ensures s.config.None? ==> r == Err(InvalidInput(StartNotBelowStop))
  {
    SetConfig(s, StartFreq(s), StopFreq(s), minAmp, maxAmp)
  }

  /** The bounds `set_center_span` asks for: `center ∓ span / 2`. The
      subtraction panics below zero and the addition past `u64::MAX`. */
  function CenterSpanBounds(center: Frequency, span: Frequency): (r: (Frequency, Frequency))
    requires span.hz / 2 <= center.hz && center.hz + span.hz / 2 <= U64_MAX
    ensures r.0.hz + r.1.hz == 2 * center.hz
    ensures r.1.hz - r.0.hz == span.hz - span.hz % 2
    ensures r.0.Le(center) && center.Le(r.1)
  {
    var half := span.Div(2);
    (center.Sub(half), center.Add(half))
  }

  /** `set_center_span`: an odd span loses one hertz. */
  function SetCenterSpan(s: State, center: Frequency, span: Frequency): (r: Result<Cmd.Command, Error>)
    requires span.hz / 2 <= center.hz && center.hz + span.hz / 2 <= U64_MAX
    requires span.hz >= 2 ==> s.setupInfo.Some?
    ensures r.Ok? ==> r.value.SetConfig? && r.value.start.hz + r.value.stop.hz == 2 * center.hz
    ensures r.Ok? ==> r.value.SetConfig? && r.value.stop.hz - r.value.start.hz == span.hz - span.hz % 2
    ensures span.hz < 2 ==> r == Err(InvalidInput(StartNotBelowStop))
  {
    var bounds := CenterSpanBounds(center, span);
    SetStartStop(s, bounds.0, bounds.1)
  }

  const MIN_SWEEP_LEN: nat := 112
  const MAX_EXT_SWEEP_LEN: nat := 4096

  /** The sweep length the device settles on: whole blocks of 16 points,
      never fewer than 112. */
  function ExpectedSweepLen(n: Uint16): (e: nat)
    ensures n < MIN_SWEEP_LEN ==> e == MIN_SWEEP_LEN
    ensures n >= MIN_SWEEP_LEN ==> e % 16 == 0 && e <= n < e + 16
  {
    if n < MIN_SWEEP_LEN then MIN_SWEEP_LEN else (n / 16) * 16
  }

  /** The command `set_sweep_len` sends, the length it then expects, and
      whether the current configuration already has it (no wait). */
  datatype SweepLenRequest = SweepLenRequest(command: Cmd.Command, expectedLen: nat, alreadyApplied: bool)

  /** `set_sweep_len`, up to the wait for the new configuration. */
  function SetSweepLen(s: State, n: Uint16): (r: Result<SweepLenRequest, Error>)
    requires s.setupInfo.Some?
    ensures r.Ok? <==> ActiveRadioModule(s).Model().IsPlusModel()
    ensures r.Err? ==> r.error == InvalidOperation(NotPlusModel)
    ensures r.Ok? && n <= MAX_EXT_SWEEP_LEN ==> r.value.command == Cmd.SetSweepPointsExt(n)
    ensures r.Ok? && n > MAX_EXT_SWEEP_LEN ==> r.value.command == Cmd.SetSweepPointsLarge(n)
    ensures r.Ok? ==> r.value.expectedLen == ExpectedSweepLen(n)
    ensures r.Ok? ==> (r.value.alreadyApplied <==> SweepLen(s) == ExpectedSweepLen(n))
  {
    if !ActiveRadioModule(s).Model().IsPlusModel() then Err(InvalidOperation(NotPlusModel))
    else
      var command := if n <= MAX_EXT_SWEEP_LEN then Cmd.SetSweepPointsExt(n) else Cmd.SetSweepPointsLarge(n);
      var expected := if n < MIN_SWEEP_LEN then MIN_SWEEP_LEN else (n / 16) * 16;
      Ok(SweepLenRequest(command, expected, SweepLen(s) == expected))
  }

  /** The length the device is asked for is the length `set_sweep_len`
      then waits for: in a `$s` header for up to 4096 points and as a
      big-endian number above. */
  lemma SweepLenRequestIsEchoed(s: State, n: Uint16)
    requires s.setupInfo.Some? && SetSweepLen(s, n).Ok?
    ensures MIN_SWEEP_LEN <= n <= MAX_EXT_SWEEP_LEN
      ==> Sweeps.ExtLen([36, 115, Cmd.Encode(SetSweepLen(s, n).value.command)[4]]) == Ok(ExpectedSweepLen(n))
    ensures n > MAX_EXT_SWEEP_LEN
      ==> var f := Cmd.Encode(SetSweepLen(s, n).value.command);
          FromBigEndian16(f[4], f[5]) / 16 * 16 == ExpectedSweepLen(n)
  {
    if n > MAX_EXT_SWEEP_LEN {
      Cmd.BigEndianArguments(n);
    }
  }

  /** With the byte as written, a Plus model asked for fewer than 16 points
      is told 4096 while the client waits for 112. */
  lemma SweepLenAsWrittenMisses(s: State)
    requires s.setupInfo.Some? && ActiveRadioModule(s).Model().IsPlusModel()
    ensures SetSweepLen(s, 0).Ok? && SetSweepLen(s, 0).value.command == Cmd.SetSweepPointsExt(0)
    ensures SetSweepLen(s, 0).value.expectedLen == 112
    ensures Sweeps.ExtLen([36, 115, Cmd.SweepPointsExtByteAsWritten(0)]) == Ok(4096)
  {
    Cmd.SweepPointsExtAsWrittenWraps();
  }

  /** `fill_buf_with_sweep`: the latest sweep is copied to the front of the
      buffer and the rest of the buffer is left as it was. */
  method FillBufWithSweep(s: State, buf: seq<int>) returns (r: Result<nat, Error>, out: seq<int>)
    ensures r.Ok? <==> s.sweep.Some? && |s.sweep.value.amplitudesHalfDbm| <= |buf|
    ensures s.sweep.None? ==> r == Err(InvalidOperation(NoSweepMeasured))
    ensures s.sweep.Some? && r.Err? ==> r.error == InvalidInput(BufferTooSmall)
    ensures r.Err? ==> out == buf
    ensures r.Ok? ==> r.value == |s.sweep.value.amplitudesHalfDbm| && |out| == |buf|
    ensures r.Ok? ==> out[..r.value] == s.sweep.value.amplitudesHalfDbm && out[r.value..] == buf[r.value..]
  {
    out := buf;
    if s.sweep.None? {
      return Err(InvalidOperation(NoSweepMeasured)), out;
    }
    var amps := s.sweep.value.amplitudesHalfDbm;
    if |buf| < |amps| {
      return Err(InvalidInput(BufferTooSmall)), out;
    }
    var i := 0;
    while i < |amps|
      invariant 0 <= i <= |amps|
      invariant |out| == |buf|
      invariant out[..i] == amps[..i]
      invariant out[i..] == buf[i..]
    {
      out := out[i := amps[i]];
      i := i + 1;
    }
    r := Ok(|amps|);
  }

  /** `wait_for_device_info` returns at once when both a configuration and
      the setup information are cached. */
  predicate HasDeviceInfo(s: State) {
    s.config.Some? && s.setupInfo.Some?
  }

  /** Once a configuration and a setup message have been read, the
      handshake succeeds with the larger message limit. */
  lemma HandshakeAfterDeviceInfo(ms: seq<Msg.Message>)
    requires exists i :: 0 <= i < |ms| && ms[i].Config?
    requires exists j :: 0 <= j < |ms| && ms[j].SetupInfo?
    ensures HasDeviceInfo(CacheAll(EMPTY, ms))
    ensures Devices.ConnectInternal(true, HasDeviceInfo(CacheAll(EMPTY, ms))).result == Ok(Devices.MAX_MESSAGE_LEN)
  {
    var i :| 0 <= i < |ms| && ms[i].Config?;
    var j :| 0 <= j < |ms| && ms[j].SetupInfo?;
    assert SlotOf(ms[i]) == ConfigSlot && SlotOf(ms[j]) == SetupInfoSlot;
    CacheAllKeepsLatest(EMPTY, ms, ConfigSlot);
    CacheAllKeepsLatest(EMPTY, ms, SetupInfoSlot);
  }

  /** No analyzer decoder reports a truncated message, so the reader's
      search for a message in the buffer is one call of the dispatcher. */
  lemma BufferSearchIsDispatch(buf: seq<Byte>)
    ensures Devices.RemaindersShrink(Msg.FromBytes)
    ensures Devices.FindMessageInBuf(buf, Msg.FromBytes) == Msg.FromBytes(buf)
  {
    forall b ensures !Devices.HasRemainder(Msg.FromBytes(b)) {
    }
    Devices.NoRemainderNoRetry(buf, Msg.FromBytes);
  }

  /** The longest sweep message, 65 535 points in `$z` encoding followed by
      a line ending, fits the line limit set after the handshake. */
  lemma LargestSweepFits(e: Sweeps.Encoding, data: seq<Byte>, lineEnding: seq<Byte>)
    requires Sweeps.Encodable(e, |data|) && |lineEnding| <= 2
    ensures |Sweeps.Encode(e, data) + lineEnding| <= Devices.MAX_MESSAGE_LEN
  {
  }

  /** Once a serial number has been read no command is sent for it. */
  lemma SerialNumberIsCached(s: State, n: SerialNumbers.SerialNumber)
    ensures Devices.QuerySerialNumber(CacheMessage(s, Msg.SerialNumber(n)).state.serialNumber) == Devices.Answer(n)
  {
  }

  /** `set_dsp_mode`: nothing is sent when the cached mode is already the
      requested one. */
  function SetDspMode(s: State, d: DspModes.DspMode): (r: Option<Cmd.Command>)
    ensures r.None? <==> s.dspMode == Some(d)
    ensures r.Some? ==> r.value == Cmd.SetDsp(d)
  {
    if s.dspMode == Some(d) then None else Some(Cmd.SetDsp(d))
  }

  /** Once the device has reported a DSP mode, asking for it again sends
      nothing. */
  lemma DspModeRequestIsIdempotent(s: State, d: DspModes.DspMode)
    ensures SetDspMode(CacheMessage(s, Msg.DspMode(d)).state, d).None?
  {
  }

  // `request_tracking` clears the tracking-status slot, sends the command
  // and waits on the slot's condition variable. The wait is modelled over
  // the values the slot is seen to hold while waiting: the cleared value
  // first, then each message the reader caches before the time-out.

  /** `Condvar::wait_timeout_while` over the observed values of an optional
      slot: the first value for which the condition fails, or a time-out. */
  function WaitWhileSome<T>(observed: seq<Option<T>>): (r: Option<Option<T>>)
    ensures r.Some? ==> r.value.None? && r.value in observed
    ensures r.None? <==> forall i :: 0 <= i < |observed| ==> observed[i].Some?
    decreases |observed|
  {
    if observed == [] then None
    else if observed[0].None? then Some(observed[0])
    else WaitWhileSome(observed[1..])
  }

  function WaitWhileNone<T>(observed: seq<Option<T>>): (r: Option<Option<T>>)
    ensures r.Some? ==> r.value.Some? && r.value in observed
    ensures r.None? <==> forall i :: 0 <= i < |observed| ==> observed[i].None?
    decreases |observed|
  {
    if observed == [] then None
    else if observed[0].Some? then Some(observed[0])
    else WaitWhileNone(observed[1..])
  }

  /** The outcome of `request_tracking`: the command and what it returns. */
  datatype TrackingRequest = TrackingRequest(command: Cmd.Command, result: Result<TrackingStatuses.TrackingStatus, Error>)

  function WaitOutcome(waited: Option<Option<TrackingStatuses.TrackingStatus>>): Result<TrackingStatuses.TrackingStatus, Error> {
    if waited.None? then Err(TimedOut) else Ok(waited.value.UnwrapOr(TrackingStatuses.DEFAULT))
  }

  /** `request_tracking` as written: it waits while the slot holds a status,
      so the cleared slot ends the wait at once and the default status is
      returned whatever the device answers. */
  function RequestTrackingAsWritten(start: Frequency, step: Frequency, replies: seq<TrackingStatuses.TrackingStatus>)
    : (r: TrackingRequest)
    ensures r.command == Cmd.StartTracking(start, step)
    ensures r.result == Ok(TrackingStatuses.DEFAULT)
  {
    var observed := [None] + Somes(replies);
    TrackingRequest(Cmd.StartTracking(start, step), WaitOutcome(WaitWhileSome(observed)))
  }

  /** `request_tracking` as intended: wait until a status arrives. */
  function RequestTracking(start: Frequency, step: Frequency, replies: seq<TrackingStatuses.TrackingStatus>)
    : (r: TrackingRequest)
    ensures r.command == Cmd.StartTracking(start, step)
    ensures replies == [] <==> r.result == Err(TimedOut)
    ensures replies != [] ==> r.result == Ok(replies[0])
  {
    var observed := [None] + Somes(replies);
    assert observed[0].None? && observed[1..] == Somes(replies);
    assert WaitWhileNone(observed) == WaitWhileNone(Somes(replies));
    TrackingRequest(Cmd.StartTracking(start, step), WaitOutcome(WaitWhileNone(observed)))
  }

  function Somes<T>(xs: seq<T>): (r: seq<Option<T>>)
    ensures |r| == |xs| && forall i :: 0 <= i < |xs| ==> r[i] == Some(xs[i])
  {
    seq(|xs|, i requires 0 <= i < |xs| => Some(xs[i]))
  }

  /** A device that answers that tracking is enabled: the source reports it
      disabled, the intended wait reports it enabled. */
  lemma RequestTrackingIgnoresReply(start: Frequency, step: Frequency)
    ensures RequestTrackingAsWritten(start, step, [TrackingStatuses.Enabled]).result == Ok(TrackingStatuses.Disabled)
    ensures RequestTracking(start, step, [TrackingStatuses.Enabled]).result == Ok(TrackingStatuses.Enabled)
  {
  }

  // Callback registration.

  function SetConfigCallback(s: State, id: CallbackId): State { s.(configCallback := Some(id)) }
  function RemoveConfigCallback(s: State): State { s.(configCallback := None) }
  function SetSweepCallback(s: State, id: CallbackId): State { s.(sweepCallback := Some(id)) }
  function RemoveSweepCallback(s: State): State { s.(sweepCallback := None) }

  /** A registered callback runs on every message of its kind; a removed
      one never runs again, whatever is cached in between. */
  lemma CallbacksFollowRegistration(s: State, id: CallbackId, m: Msg.Message, ms: seq<Msg.Message>)
    ensures m.Config? ==> CacheMessage(SetConfigCallback(s, id), m).invoked == Some(ConfigCallbackCalled(id))
    ensures m.Sweep?
      ==> CacheMessage(SetSweepCallback(s, id), m).invoked == Some(SweepCallbackCalled(id, m.sweep.amplitudesHalfDbm))
    ensures CacheMessage(CacheAll(RemoveConfigCallback(RemoveSweepCallback(s)), ms), m).invoked == None
  {
    CacheAllKeepsLatest(RemoveConfigCallback(RemoveSweepCallback(s)), ms, ConfigSlot);
  }
}
