/** The signal generator's device state: one slot per message kind,
    including the four expansion-module configurations, and one optional
    callback per configuration kind. As for the analyzer, mutexes and
    condition variables become a plain record. */
module GeneratorDevice {
  import opened Wrappers
  import opened Bytes
  import opened RadioModules
  import GeneratorModel
  import GeneratorConfig
  import GeneratorConfigAmpSweep
  import GeneratorConfigCw
  import GeneratorConfigFreqSweep
  import ScreenDatas
  import SerialNumbers
  import SetupInfos
  import Temperatures
  import CommonCommands
  import Devices
  import Msg = GeneratorMessages

  type Model = GeneratorModel.Model
  type CallbackId = nat

  /** The expansion-module configurations. Their payloads are floating-point
      power levels, which are not modelled; only their arrival is. */
  datatype ExpKind = ConfigExp | ConfigAmpSweepExp | ConfigCwExp | ConfigFreqSweepExp

  /** A message the reader hands to `cache_message`. */
  datatype Incoming = Known(message: Msg.Message) | Exp(kind: ExpKind)

  datatype Slot =
    | ConfigSlot | ConfigAmpSweepSlot | ConfigCwSlot | ConfigFreqSweepSlot
    | ExpSlot(kind: ExpKind)
    | ScreenDataSlot | TemperatureSlot | SetupInfoSlot | SerialNumberSlot

  function SlotOf(m: Incoming): Slot {
    match m
    case Exp(kind) => ExpSlot(kind)
    case Known(k) =>
      match k
      case Config(_) => ConfigSlot
      case ConfigAmpSweep(_) => ConfigAmpSweepSlot
      case ConfigCw(_) => ConfigCwSlot
      case ConfigFreqSweep(_) => ConfigFreqSweepSlot
      case ScreenData(_) => ScreenDataSlot
      case SerialNumber(_) => SerialNumberSlot
      case SetupInfo(_) => SetupInfoSlot
      case Temperature(_) => TemperatureSlot
  }

  /** The eight configuration kinds are the ones a callback can be set
      for. */
  predicate HasCallbackSlot(k: Slot) {
    k.ConfigSlot? || k.ConfigAmpSweepSlot? || k.ConfigCwSlot? || k.ConfigFreqSweepSlot? || k.ExpSlot?
  }

  /** `MessageContainer` of the generator. */
  datatype State = State(
    config: Option<GeneratorConfig.Config>,
    configAmpSweep: Option<GeneratorConfigAmpSweep.ConfigAmpSweep>,
    configCw: Option<GeneratorConfigCw.ConfigCw>,
    configFreqSweep: Option<GeneratorConfigFreqSweep.ConfigFreqSweep>,
    expReceived: set<ExpKind>,
    screenData: Option<ScreenDatas.ScreenData>,
    temperature: Option<Temperatures.Temperature>,
    setupInfo: Option<SetupInfos.SetupInfo<Model>>,
    serialNumber: Option<SerialNumbers.SerialNumber>,
    callbacks: map<Slot, CallbackId>)

  const EMPTY: State := State(None, None, None, None, {}, None, None, None, None, map[])

  /** Only configuration kinds carry callbacks. */
  predicate Valid(s: State) {
    forall k :: k in s.callbacks ==> HasCallbackSlot(k)
  }

  /** A slot read back as the message it was filled from. */
  function Get(s: State, k: Slot): Option<Incoming> {
    match k
    case ConfigSlot => if s.config.Some? then Some(Known(Msg.Config(s.config.value))) else None
    case ConfigAmpSweepSlot =>
      if s.configAmpSweep.Some? then Some(Known(Msg.ConfigAmpSweep(s.configAmpSweep.value))) else None
    case ConfigCwSlot => if s.configCw.Some? then Some(Known(Msg.ConfigCw(s.configCw.value))) else None
    case ConfigFreqSweepSlot =>
      if s.configFreqSweep.Some? then Some(Known(Msg.ConfigFreqSweep(s.configFreqSweep.value))) else None
    case ExpSlot(kind) => if kind in s.expReceived then Some(Exp(kind)) else None
    case ScreenDataSlot => if s.screenData.Some? then Some(Known(Msg.ScreenData(s.screenData.value))) else None
    case TemperatureSlot => if s.temperature.Some? then Some(Known(Msg.Temperature(s.temperature.value))) else None
    case SetupInfoSlot => if s.setupInfo.Some? then Some(Known(Msg.SetupInfo(s.setupInfo.value))) else None
    case SerialNumberSlot =>
      if s.serialNumber.Some? then Some(Known(Msg.SerialNumber(s.serialNumber.value))) else None
  }

  lemma Extensionality(a: State, b: State)
    requires forall k :: Get(a, k) == Get(b, k)
    requires a.callbacks == b.callbacks
    ensures a == b
  {
    assert Get(a, ConfigSlot) == Get(b, ConfigSlot);
    assert Get(a, ConfigAmpSweepSlot) == Get(b, ConfigAmpSweepSlot);
    assert Get(a, ConfigCwSlot) == Get(b, ConfigCwSlot);
    assert Get(a, ConfigFreqSweepSlot) == Get(b, ConfigFreqSweepSlot);
    assert Get(a, ScreenDataSlot) == Get(b, ScreenDataSlot);
    assert Get(a, TemperatureSlot) == Get(b, TemperatureSlot);
    assert Get(a, SetupInfoSlot) == Get(b, SetupInfoSlot);
    assert Get(a, SerialNumberSlot) == Get(b, SerialNumberSlot);
    forall kind: ExpKind ensures kind in a.expReceived <==> kind in b.expReceived {
      assert Get(a, ExpSlot(kind)) == Get(b, ExpSlot(kind));
    }
  }

  /** A callback run by `cache_message`, with the message it receives. */
  datatype Invocation = Invocation(id: CallbackId, message: Incoming)

  datatype Cached = Cached(state: State, notified: Slot, invoked: Option<Invocation>)

  /** The callback registered for the message's kind, run with it. */
  function CallbackFor(s: State, m: Incoming): Option<Invocation> {
    if SlotOf(m) in s.callbacks then Some(Invocation(s.callbacks[SlotOf(m)], m)) else None
  }

  /** `MessageContainer::cache_message`. An amplitude-sweep configuration of
      the expansion module wakes the waiters of the main module's
      amplitude-sweep configuration instead of its own. */
  function CacheMessage(s: State, m: Incoming): (r: Cached)
    ensures Get(r.state, SlotOf(m)) == Some(m)
    ensures forall k :: k != SlotOf(m) ==> Get(r.state, k) == Get(s, k)
    ensures r.state.callbacks == s.callbacks
    ensures m != Exp(ConfigAmpSweepExp) ==> r.notified == SlotOf(m)
    ensures m == Exp(ConfigAmpSweepExp) ==> r.notified == ConfigAmpSweepSlot
    ensures r.invoked.Some? <==> HasCallbackSlot(SlotOf(m)) && SlotOf(m) in s.callbacks
    ensures r.invoked.Some? ==> r.invoked.value == Invocation(s.callbacks[SlotOf(m)], m)
  {
    match m
    case Exp(kind) =>
      var notified := if kind == ConfigAmpSweepExp then ConfigAmpSweepSlot else ExpSlot(kind);
      Cached(s.(expReceived := s.expReceived + {kind}), notified, CallbackFor(s, m))
    case Known(k) =>
      match k
      case Config(c) => Cached(s.(config := Some(c)), ConfigSlot, CallbackFor(s, m))
      case ConfigAmpSweep(c) => Cached(s.(configAmpSweep := Some(c)), ConfigAmpSweepSlot, CallbackFor(s, m))
      case ConfigCw(c) => Cached(s.(configCw := Some(c)), ConfigCwSlot, CallbackFor(s, m))
      case ConfigFreqSweep(c) => Cached(s.(configFreqSweep := Some(c)), ConfigFreqSweepSlot, CallbackFor(s, m))
      case ScreenData(d) => Cached(s.(screenData := Some(d)), ScreenDataSlot, None)
      case SerialNumber(n) => Cached(s.(serialNumber := Some(n)), SerialNumberSlot, None)
      case SetupInfo(i) => Cached(s.(setupInfo := Some(i)), SetupInfoSlot, None)
      case Temperature(t) => Cached(s.(temperature := Some(t)), TemperatureSlot, None)
  }

  lemma CacheIdempotent(s: State, m: Incoming)
    ensures CacheMessage(CacheMessage(s, m).state, m).state == CacheMessage(s, m).state
  {
    var once := CacheMessage(s, m).state;
    Extensionality(CacheMessage(once, m).state, once);
  }

  lemma LatestWins(s: State, m1: Incoming, m2: Incoming)
    requires SlotOf(m1) == SlotOf(m2)
    ensures CacheMessage(CacheMessage(s, m1).state, m2).state == CacheMessage(s, m2).state
  {
    Extensionality(CacheMessage(CacheMessage(s, m1).state, m2).state, CacheMessage(s, m2).state);
  }

  lemma DifferentKindsCommute(s: State, m1: Incoming, m2: Incoming)
    requires SlotOf(m1) != SlotOf(m2)
    ensures CacheMessage(CacheMessage(s, m1).state, m2).state == CacheMessage(CacheMessage(s, m2).state, m1).state
  {
    Extensionality(CacheMessage(CacheMessage(s, m1).state, m2).state,
                   CacheMessage(CacheMessage(s, m2).state, m1).state);
  }

  /** `set_config_callback` and its seven siblings. */
  function SetCallback(s: State, k: Slot, id: CallbackId): (r: State)
    requires HasCallbackSlot(k)
    ensures Valid(s) ==> Valid(r)
    ensures k in r.callbacks && r.callbacks[k] == id
    ensures forall j :: j != k && j in s.callbacks ==> j in r.callbacks && r.callbacks[j] == s.callbacks[j]
  {
    s.(callbacks := s.callbacks[k := id])
  }

  /** `remove_config_callback` and its seven siblings. */
  function RemoveCallback(s: State, k: Slot): (r: State)
    requires HasCallbackSlot(k)
    ensures Valid(s) ==> Valid(r)
    ensures k !in r.callbacks
    ensures forall j :: j != k && j in s.callbacks ==> j in r.callbacks && r.callbacks[j] == s.callbacks[j]
  {
    s.(callbacks := s.callbacks - {k})
  }

  /** A callback runs with each message of its kind and no other, and runs
      no more once removed. */
  lemma CallbacksFollowRegistration(s: State, m: Incoming, id: CallbackId)
    requires HasCallbackSlot(SlotOf(m))
    ensures CacheMessage(SetCallback(s, SlotOf(m), id), m).invoked == Some(Invocation(id, m))
    ensures CacheMessage(RemoveCallback(s, SlotOf(m)), m).invoked == None
  {
  }

  /** Messages without a callback slot never run one. */
  lemma OtherMessagesRunNoCallback(s: State, m: Incoming)
    requires !HasCallbackSlot(SlotOf(m))
    ensures CacheMessage(s, m).invoked == None
  {
  }

  // Radio models. As in the source, these unwrap the setup information.

  function MainRadioModel(s: State): Model
    requires s.setupInfo.Some?
  {
    s.setupInfo.value.mainRadioModule.Model()
  }

  function ExpansionRadioModel(s: State): Option<Model>
    requires s.setupInfo.Some?
  {
    if s.setupInfo.value.expansionRadioModule.Some? then Some(s.setupInfo.value.expansionRadioModule.value.Model())
    else None
  }

  /** `active_radio_model`: the expansion model once an expansion
      configuration has been received, else the main model. */
  function ActiveRadioModel(s: State): (r: Model)
    requires s.setupInfo.Some?
    ensures ExpansionRadioModel(s).None? ==> r == MainRadioModel(s)
    ensures ExpansionRadioModel(s).Some? && ConfigExp in s.expReceived ==> r == ExpansionRadioModel(s).value
    ensures ConfigExp !in s.expReceived ==> r == MainRadioModel(s)
  {
    match ExpansionRadioModel(s)
    case None => MainRadioModel(s)
    case Some(expModel) => if ConfigExp in s.expReceived then expModel else MainRadioModel(s)
  }

  /** `inactive_radio_model` */
  function InactiveRadioModel(s: State): (r: Option<Model>)
    requires s.setupInfo.Some?
    ensures r.None? <==> ExpansionRadioModel(s).None?
    ensures r.Some? && ConfigExp in s.expReceived ==> r.value == MainRadioModel(s)
    ensures r.Some? && ConfigExp !in s.expReceived ==> r == ExpansionRadioModel(s)
  {
    match ExpansionRadioModel(s)
    case None => None
    case Some(expModel) => if ConfigExp in s.expReceived then Some(MainRadioModel(s)) else Some(expModel)
  }

  /** With an expansion module the active and inactive models are the two
      models of the device. */
  lemma ActiveAndInactiveComplement(s: State)
    requires s.setupInfo.Some? && ExpansionRadioModel(s).Some?
    ensures InactiveRadioModel(s).Some?
    ensures {ActiveRadioModel(s), InactiveRadioModel(s).value} == {MainRadioModel(s), ExpansionRadioModel(s).value}
  {
  }

  /** Nothing clears an expansion configuration, so once one has arrived
      the expansion model stays active whatever is cached next. */
  lemma ExpansionStaysActive(s: State, m: Incoming)
    requires s.setupInfo.Some? && ExpansionRadioModel(s).Some? && ConfigExp in s.expReceived
    requires !m.Known? || !m.message.SetupInfo?
    ensures CacheMessage(s, m).state.setupInfo == s.setupInfo
    ensures ActiveRadioModel(CacheMessage(s, m).state) == ExpansionRadioModel(s).value
  {
    assert SlotOf(m) != SetupInfoSlot && SlotOf(m) != ExpSlot(ConfigExp) ==> Get(CacheMessage(s, m).state, ExpSlot(ConfigExp)) == Get(s, ExpSlot(ConfigExp));
    assert Get(CacheMessage(s, m).state, SetupInfoSlot) == Get(s, SetupInfoSlot);
  }

  function FirmwareVersion(s: State): seq<Byte> {
    if s.setupInfo.Some? then s.setupInfo.value.firmwareVersion else []
  }

  /** `wait_for_device_info` returns at once when both a configuration and
      the setup information are cached. */
  predicate HasDeviceInfo(s: State) {
    s.config.Some? && s.setupInfo.Some?
  }

  /** A configuration and a setup message, in either order, complete the
      handshake. */
  lemma HandshakeAfterDeviceInfo(s: State, c: GeneratorConfig.Config, i: SetupInfos.SetupInfo<Model>)
    ensures HasDeviceInfo(CacheMessage(CacheMessage(s, Known(Msg.Config(c))).state, Known(Msg.SetupInfo(i))).state)
    ensures HasDeviceInfo(CacheMessage(CacheMessage(s, Known(Msg.SetupInfo(i))).state, Known(Msg.Config(c))).state)
    ensures Devices.ConnectInternal(true, true).result == Ok(Devices.MAX_MESSAGE_LEN)
  {
  }

  /** No generator decoder reports a truncated message either. */
  lemma BufferSearchIsDispatch(buf: seq<Byte>)
    ensures Devices.RemaindersShrink(Msg.FromBytes)
    ensures Devices.FindMessageInBuf(buf, Msg.FromBytes) == Msg.FromBytes(buf)
  {
    forall b ensures !Devices.HasRemainder(Msg.FromBytes(b)) {
    }
    Devices.NoRemainderNoRetry(buf, Msg.FromBytes);
  }

  /** Once a serial number has been read no command is sent for it. */
  lemma SerialNumberIsCached(s: State, n: SerialNumbers.SerialNumber)
    ensures Devices.QuerySerialNumber(CacheMessage(s, Known(Msg.SerialNumber(n))).state.serialNumber) == Devices.Answer(n)
  {
  }
}
