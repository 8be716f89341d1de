/** Spectrum-analyzer sweeps. A sweep message is `$` and an encoding letter,
    a length header, then one byte per sweep point. `$S` carries the point
    count in one byte, `$s` carries it as a count of 16-point blocks minus
    one, and `$z` carries it as a big-endian 16-bit number. */
module Sweeps {
  import opened Wrappers
  import opened Bytes
  import opened MessageError

  datatype SweepError =
    | InvalidFormat
    | TooFewAmplitudes(expected: nat, actual: nat)
    | TooManyAmplitudes(expected: nat, actual: nat)

  /** Point i of a sweep is `-byte_i / 2` dBm; the model keeps the exact
      value as an integer count of half-dBm. The capture time is not
      modelled. */
  datatype Sweep = Sweep(amplitudesHalfDbm: seq<int>)

  const DOLLAR: Byte := 36

  datatype Encoding = Standard | Ext | Large {
    /** The second byte of the message. */
    function Letter(): (b: Byte)
      ensures b in {83, 115, 122}
    {
      match this
      case Standard => 83   // 'S'
      case Ext => 115       // 's'
      case Large => 122     // 'z'
    }

    /** Where the amplitude bytes start. */
    function HeaderLen(): (n: nat)
      ensures n == 3 || n == 4
      ensures n == 4 <==> this == Large
    {
      if this == Large then 4 else 3
    }
  }

  function EncodingOf(bytes: seq<Byte>): (r: Option<Encoding>)
    ensures r.Some? <==> |bytes| >= 2 && bytes[0] == DOLLAR && bytes[1] in {83, 115, 122}
    ensures r.Some? ==> bytes[0] == DOLLAR && bytes[1] == r.value.Letter()
  {
    if |bytes| < 2 || bytes[0] != DOLLAR then None
    else if bytes[1] == 83 then Some(Standard)
    else if bytes[1] == 115 then Some(Ext)
    else if bytes[1] == 122 then Some(Large)
    else None
  }

  /** `amplitudes_from_bytes`, in half-dBm. */
  function AmplitudesFromBytes(bytes: seq<Byte>): (r: seq<int>)
    ensures |r| == |bytes|
    ensures forall i :: 0 <= i < |r| ==> -255 <= r[i] <= 0
  {
    seq(|bytes|, i requires 0 <= i < |bytes| => -(bytes[i] as int))
  }

  /** The device side of `AmplitudesFromBytes`: the byte that reports a
      level of `a` half-dBm. */
  function AmplitudeBytes(amps: seq<int>): (r: seq<Byte>)
    requires forall i :: 0 <= i < |amps| ==> -255 <= amps[i] <= 0
    ensures |r| == |amps|
  {
    seq(|amps|, i requires 0 <= i < |amps| => -amps[i])
  }

  lemma AmplitudesRoundTrip(bytes: seq<Byte>)
    ensures AmplitudeBytes(AmplitudesFromBytes(bytes)) == bytes
  {
  }

  /** Two byte strings give the same amplitudes only if they are equal. */
  lemma AmplitudesInjective(a: seq<Byte>, b: seq<Byte>)
    ensures AmplitudesFromBytes(a) == AmplitudesFromBytes(b) ==> a == b
  {
    if AmplitudesFromBytes(a) == AmplitudesFromBytes(b) {
      AmplitudesRoundTrip(a);
      AmplitudesRoundTrip(b);
    }
  }

  /** `parse_sweep_data_len`: the `$S` length is byte 2. */
  function StandardLen(bytes: seq<Byte>): (r: Result<nat, SweepError>)
    ensures r.Ok? <==> |bytes| >= 3
    ensures r.Ok? ==> r.value == bytes[2] as nat && r.value <= 255
    ensures r.Err? ==> r.error == InvalidFormat
  {
    if |bytes| < 3 then Err(InvalidFormat) else Ok(bytes[2] as nat)
  }

  /** `parse_sweep_data_ext_len`: the `$s` length is `(byte 2 + 1) * 16`. */
  function ExtLen(bytes: seq<Byte>): (r: Result<nat, SweepError>)
    ensures r.Ok? <==> |bytes| >= 3
    ensures r.Ok? ==> r.value % 16 == 0 && 16 <= r.value <= 4096 && r.value / 16 - 1 == bytes[2]
    ensures r.Err? ==> r.error == InvalidFormat
  {
    if |bytes| < 3 then Err(InvalidFormat) else Ok(((bytes[2] as nat) + 1) * 16)
  }

  /** `parse_sweep_data_large_len`: the `$z` length is the big-endian u16 in
      bytes 2 and 3. */
  function LargeLen(bytes: seq<Byte>): (r: Result<nat, SweepError>)
    ensures r.Ok? <==> |bytes| >= 4
    ensures r.Ok? ==> r.value <= U16_MAX && BigEndian16(r.value) == bytes[2..4]
    ensures r.Err? ==> r.error == InvalidFormat
  {
    if |bytes| < 4 then Err(InvalidFormat) else Ok(FromBigEndian16(bytes[2], bytes[3]))
  }

  /** `bytes.get(from..)`. */
  function Suffix(bytes: seq<Byte>, from: nat): (r: Option<seq<Byte>>)
    ensures r.Some? <==> from <= |bytes|
    ensures r.Some? ==> bytes == bytes[..from] + r.value
  {
    if from <= |bytes| then Some(bytes[from..]) else None
  }

  /** `Sweep::new`: the amplitude bytes must number exactly `expected`. */
  function New(amp: Option<seq<Byte>>, expected: nat): (r: Result<Sweep, SweepError>)
    ensures amp.None? ==> r == Err(InvalidFormat)
    ensures amp.Some? ==> (r.Ok? <==> |amp.value| == expected)
    ensures r.Ok? ==> r.value.amplitudesHalfDbm == AmplitudesFromBytes(amp.value)
    ensures amp.Some? && |amp.value| < expected ==> r == Err(TooFewAmplitudes(expected, |amp.value|))
    ensures amp.Some? && |amp.value| > expected ==> r == Err(TooManyAmplitudes(expected, |amp.value|))
  {
    match amp
    case None => Err(InvalidFormat)
    case Some(a) =>
      if |a| == expected then Ok(Sweep(AmplitudesFromBytes(a)))
      else if |a| < expected then Err(TooFewAmplitudes(expected, |a|))
      else Err(TooManyAmplitudes(expected, |a|))
  }

  /** The point count the header announces, read independently of the
      per-encoding decoders. */
  function ExpectedLen(e: Encoding, bytes: seq<Byte>): nat
    requires |bytes| >= e.HeaderLen()
  {
    match e
    case Standard => bytes[2] as nat
    case Ext => (bytes[2] as nat) * 16 + 16
    case Large => (bytes[2] as nat) * 256 + bytes[3] as nat
  }

  /** `Sweep::try_from`. */
  function FromBytes(bytes: seq<Byte>): (r: Result<Sweep, SweepError>)
    ensures EncodingOf(bytes).None? ==> r == Err(InvalidFormat)
    ensures EncodingOf(bytes).Some? && |bytes| < EncodingOf(bytes).value.HeaderLen() ==> r == Err(InvalidFormat)
    ensures EncodingOf(bytes).Some? && |bytes| >= EncodingOf(bytes).value.HeaderLen() ==>
      var e := EncodingOf(bytes).value;
      var n := ExpectedLen(e, bytes);
      var body := bytes[e.HeaderLen()..];
      && (r.Ok? <==> |body| == n)
      && (r.Ok? ==> r.value.amplitudesHalfDbm == AmplitudesFromBytes(body))
      && (|body| < n ==> r == Err(TooFewAmplitudes(n, |body|)))
      && (|body| > n ==> r == Err(TooManyAmplitudes(n, |body|)))
  {
    match EncodingOf(bytes)
    case None => Err(InvalidFormat)
    case Some(Standard) =>
      var n :- StandardLen(bytes);
      New(Suffix(bytes, 3), n)
    case Some(Ext) =>
      var n :- ExtLen(bytes);
      New(Suffix(bytes, 3), n)
    case Some(Large) =>
      var n :- LargeLen(bytes);
      New(Suffix(bytes, 4), n)
  }

  /** The sweep error as the message layer reports it: a sweep with too few
      points is a message still arriving, anything else is invalid. */
  function ToMessageError(e: SweepError): (m: MessageParseError)
    ensures m == Incomplete <==> e.TooFewAmplitudes?
    ensures m != Incomplete ==> m == Invalid
  {
    if e.TooFewAmplitudes? then Incomplete else Invalid
  }

  function Decode(bytes: seq<Byte>): (r: Result<Sweep, MessageParseError>)
    ensures r.Ok? <==> FromBytes(bytes).Ok?
    ensures r.Ok? ==> r.value == FromBytes(bytes).value
    ensures r.Err? ==> r.error == ToMessageError(FromBytes(bytes).error)
  {
    match FromBytes(bytes)
    case Ok(s) => Ok(s)
    case Err(e) => Err(ToMessageError(e))
  }

  /** Which point counts each encoding can announce. */
  predicate Encodable(e: Encoding, n: nat) {
    match e
    case Standard => n <= 255
    case Ext => n % 16 == 0 && 16 <= n <= 4096
    case Large => n <= U16_MAX
  }

  /** The device side: a sweep of `data` in encoding `e`. */
  function Encode(e: Encoding, data: seq<Byte>): (r: seq<Byte>)
    requires Encodable(e, |data|)
    ensures |r| == e.HeaderLen() + |data|
    ensures EncodingOf(r) == Some(e) && r[e.HeaderLen()..] == data
  {
    var header := match e
      case Standard => [|data| as Byte]
      case Ext => [(|data| / 16 - 1) as Byte]
      case Large => BigEndian16(|data|);
    [DOLLAR, e.Letter()] + header + data
  }

  lemma {:induction false} EncodeAnnounces(e: Encoding, data: seq<Byte>)
    requires Encodable(e, |data|)
    ensures ExpectedLen(e, Encode(e, data)) == |data|
  {
    var r := Encode(e, data);
    match e
    case Standard =>
    case Ext =>
      assert r[2] == |data| / 16 - 1;
    case Large =>
      assert r[2..4] == BigEndian16(|data|);
  }

  /** Decoding an encoded sweep gives back its amplitudes, in every
      encoding. */
  lemma {:induction false} RoundTrip(e: Encoding, data: seq<Byte>)
    requires Encodable(e, |data|)
    ensures FromBytes(Encode(e, data)) == Ok(Sweep(AmplitudesFromBytes(data)))
  {
    EncodeAnnounces(e, data);
  }

  /** The same 112 points decode to the same sweep whichever encoding
      carries them. */
  lemma SameSweepInEveryEncoding(data: seq<Byte>)
    requires |data| == 112
    ensures FromBytes(Encode(Standard, data)).Ok?
    ensures FromBytes(Encode(Standard, data)) == FromBytes(Encode(Ext, data))
    ensures FromBytes(Encode(Ext, data)) == FromBytes(Encode(Large, data))
  {
    RoundTrip(Standard, data);
    RoundTrip(Ext, data);
    RoundTrip(Large, data);
  }

  /** One byte more than announced is `TooManyAmplitudes`. */
  lemma ExtraByteIsTooMany(e: Encoding, data: seq<Byte>, extra: Byte)
    requires Encodable(e, |data|)
    ensures FromBytes(Encode(e, data) + [extra]) == Err(TooManyAmplitudes(|data|, |data| + 1))
  {
    var b := Encode(e, data) + [extra];
    EncodeAnnounces(e, data);
    assert b[..e.HeaderLen()] == Encode(e, data)[..e.HeaderLen()];
    assert b[e.HeaderLen()..] == data + [extra];
  }

  /** One byte fewer than announced is `TooFewAmplitudes`, which the message
      layer reports as `Incomplete`. */
  lemma MissingByteIsTooFew(e: Encoding, data: seq<Byte>)
    requires Encodable(e, |data|) && |data| >= 1
    ensures var b := Encode(e, data);
      FromBytes(b[..|b| - 1]) == Err(TooFewAmplitudes(|data|, |data| - 1))
      && Decode(b[..|b| - 1]) == Err(Incomplete)
  {
    var b := Encode(e, data);
    EncodeAnnounces(e, data);
    var c := b[..|b| - 1];
    assert c[..e.HeaderLen()] == b[..e.HeaderLen()];
    assert c[e.HeaderLen()..] == data[..|data| - 1];
  }
}
