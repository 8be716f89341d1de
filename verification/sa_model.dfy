/** The spectrum-analyzer `Model` enum: its `u8` codes (with every code from
    20 to 254 read as `Unknown`), its feature flags and its per-model
    frequency and span limits, in hertz. */
module SpectrumAnalyzerModel {
  import opened Wrappers
  import opened Bytes

  datatype Model =
    | Rfe433M | Rfe868M | Rfe915M | RfeWSub1G | Rfe24G | RfeWSub3G | Rfe6G
    | RfeWSub1GPlus | RfeProAudio | Rfe24GPlus | Rfe4GPlus | Rfe6GPlus
    | RfeMW5G3G | RfeMW5G4G | RfeMW5G5G | Unknown
  {
    /** The discriminant of the `#[repr(u8)]` enum. */
    function Code(): (c: Byte)
      ensures FromCode(c) == Some(this)
    {
      match this
      case Rfe433M => 0
      case Rfe868M => 1
      case Rfe915M => 2
      case RfeWSub1G => 3
      case Rfe24G => 4
      case RfeWSub3G => 5
      case Rfe6G => 6
      case RfeWSub1GPlus => 10
      case RfeProAudio => 11
      case Rfe24GPlus => 12
      case Rfe4GPlus => 13
      case Rfe6GPlus => 14
      case RfeMW5G3G => 16
      case RfeMW5G4G => 17
      case RfeMW5G5G => 18
      case Unknown => 19
    }

    predicate IsPlusModel() {
      this in {RfeWSub1GPlus, RfeProAudio, Rfe24GPlus, Rfe4GPlus, Rfe6GPlus,
               RfeMW5G3G, RfeMW5G4G, RfeMW5G5G}
    }

    predicate HasWifiAnalyzer() {
      this in {Rfe24G, RfeWSub3G, Rfe6G, Rfe24GPlus, Rfe4GPlus, Rfe6GPlus}
    }

    function MinFreq(): nat {
      match this
      case Rfe433M => 430_000_000
      case Rfe868M => 860_000_000
      case Rfe915M => 910_000_000
      case RfeWSub1G => 240_000_000
      case RfeWSub1GPlus => 50_000
      case Rfe24G | Rfe24GPlus => 2_350_000_000
      case RfeWSub3G | RfeProAudio | RfeMW5G3G | RfeMW5G4G | RfeMW5G5G => 15_000_000
      case Rfe6G => 4_850_000_000
      case Rfe4GPlus | Rfe6GPlus => 240_000_000
      case Unknown => 0
    }

    function MaxFreq(): nat {
      match this
      case Rfe433M => 440_000_000
      case Rfe868M => 870_000_000
      case Rfe915M => 920_000_000
      case RfeWSub1G | RfeWSub1GPlus => 960_000_000
      case Rfe24G | Rfe24GPlus => 2_550_000_000
      case RfeWSub3G | RfeProAudio => 2_700_000_000
      case Rfe4GPlus => 4_000_000_000
      case Rfe6G | Rfe6GPlus => 6_100_000_000
      case RfeMW5G3G => 3_000_000_000
      case RfeMW5G4G => 4_000_000_000
      case RfeMW5G5G => 5_000_000_000
      case Unknown => U64_MAX
    }

    function MinSpan(): nat {
      match this
      case Rfe433M | Rfe868M | Rfe915M | RfeWSub1G | RfeWSub3G | RfeProAudio
        | RfeMW5G3G | RfeMW5G4G | RfeMW5G5G => 112_000
      case RfeWSub1GPlus => 100_000
      case Rfe24G | Rfe24GPlus | Rfe4GPlus | Rfe6G | Rfe6GPlus => 2_000_000
      case Unknown => 0
    }

    function MaxSpan(): nat {
      match this
      case Rfe433M | Rfe868M | Rfe915M => 10_000_000
      case Rfe24G | Rfe24GPlus => 85_000_000
      case RfeWSub1G | RfeMW5G3G | RfeMW5G4G | RfeMW5G5G => 300_000_000
      case RfeWSub3G | RfeProAudio | Rfe6G => 600_000_000
      case RfeWSub1GPlus => 959_950_000
      case Rfe4GPlus | Rfe6GPlus => 960_000_000
      case Unknown => U64_MAX
    }
  }

  /** `Model::default()` */
  const DEFAULT: Model := Unknown

  /** `Model::try_from(u8)`, derived by `TryFromPrimitive` with `Unknown` as
      the catch-all for 20..=254. */
  function FromCode(code: Byte): (r: Option<Model>)
    ensures r.None? <==> code in {7, 8, 9, 15, 255}
    ensures 19 <= code <= 254 <==> r == Some(Unknown)
  {
    match code
    case 0 => Some(Rfe433M)
    case 1 => Some(Rfe868M)
    case 2 => Some(Rfe915M)
    case 3 => Some(RfeWSub1G)
    case 4 => Some(Rfe24G)
    case 5 => Some(RfeWSub3G)
    case 6 => Some(Rfe6G)
    case 10 => Some(RfeWSub1GPlus)
    case 11 => Some(RfeProAudio)
    case 12 => Some(Rfe24GPlus)
    case 13 => Some(Rfe4GPlus)
    case 14 => Some(Rfe6GPlus)
    case 16 => Some(RfeMW5G3G)
    case 17 => Some(RfeMW5G4G)
    case 18 => Some(RfeMW5G5G)
    case _ => if 19 <= code <= 254 then Some(Unknown) else None
  }

  /** Decoding a model's own code gives the model back, and a code that
      decodes to a named model is that model's code. */
  lemma {:induction false} CodeRoundTrip(m: Model, code: Byte)
    ensures FromCode(m.Code()) == Some(m)
    ensures FromCode(code) == Some(m) && m != Unknown ==> m.Code() == code
  {
  }

  /** The Plus models are exactly those whose code lies in 10..=18. */
  lemma PlusModelsByCode(m: Model)
    ensures m.IsPlusModel() <==> 10 <= m.Code() <= 18
  {
  }

  /** Every model with a Wi-Fi analyzer has a frequency range that covers a
      whole Wi-Fi band: 2400-2483.5 MHz or 5150-5850 MHz. The MW5G and Pro
      Audio models cover 2.4 GHz but are not Wi-Fi analyzers. */
  lemma WifiModelsCoverAWifiBand(m: Model)
    ensures m.HasWifiAnalyzer() && m != Unknown ==>
      (m.MinFreq() <= 2_400_000_000 && 2_483_500_000 <= m.MaxFreq()) ||
      (m.MinFreq() <= 5_150_000_000 && 5_850_000_000 <= m.MaxFreq())
    ensures !RfeProAudio.HasWifiAnalyzer() && !RfeMW5G3G.HasWifiAnalyzer()
    ensures !RfeMW5G4G.HasWifiAnalyzer() && !RfeMW5G5G.HasWifiAnalyzer()
    ensures !Unknown.HasWifiAnalyzer()
  {
  }

  /** The limit table is consistent: every range is non-empty, every span
      range is non-empty, and the widest span fits inside the range. All
      limits fit in a `u64`. */
  lemma LimitsConsistent(m: Model)
    ensures m.MinFreq() <= m.MaxFreq() <= U64_MAX
    ensures m.MinSpan() <= m.MaxSpan() <= U64_MAX
    ensures m.MaxSpan() <= m.MaxFreq() - m.MinFreq()
  {
  }

  /** `Unknown` spans all of `u64`, so a range check against it never fails. */
  lemma UnknownAcceptsEverything(f: nat)
    requires f <= U64_MAX
    ensures Unknown.MinFreq() <= f <= Unknown.MaxFreq()
    ensures Unknown.MinSpan() <= f <= Unknown.MaxSpan()
    ensures DEFAULT == Unknown
  {
  }
}
