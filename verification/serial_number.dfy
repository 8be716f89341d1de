/** `SerialNumber`, the `#Sn` message: exactly sixteen ASCII letters and
    digits. */
module SerialNumbers {
  import opened Wrappers
  import opened Bytes
  import opened Parsers
  import opened MessageError

  const PREFIX: seq<Byte> := [35, 83, 110]   // "#Sn"
  const LEN: nat := 16

  predicate AllAlphanumeric(s: seq<Byte>) {
    forall i :: 0 <= i < |s| ==> IsAlphanumeric(s[i])
  }

  /** The serial number is kept as the sixteen bytes it was read from;
      they are ASCII, so the Rust `String` holds the same characters. */
  datatype SerialNumber = SerialNumber(serialNumber: seq<Byte>) {
    predicate Valid() { |serialNumber| == LEN && AllAlphanumeric(serialNumber) }

    /** `as_str` */
    function AsStr(): seq<Byte> { serialNumber }
  }

  /** `take_while_m_n(m, n, is_alphanumeric)`, the complete version: the
      longest alphanumeric run of at most `n` bytes, which must be at least
      `m` long. */
  function TakeWhileAlphanumeric(input: seq<Byte>, m: nat, n: nat): (r: PResult<seq<Byte>>)
    requires m <= n
    ensures r.Ok? ==> m <= |r.value.value| <= n && AllAlphanumeric(r.value.value)
    ensures r.Ok? ==> input == r.value.value + r.value.rest
    ensures r.Ok? && |r.value.value| < n && r.value.rest != [] ==> !IsAlphanumeric(r.value.rest[0])
    ensures r.Ok? <==> |input| >= m && AllAlphanumeric(input[..m])
    ensures r.Err? ==> r.error == NomError
  {
    var k := RunLength(input, n);
    if k < m then Err(NomError)
    else
      assert input == input[..k] + input[k..];
      Ok(Parsed(input[..k], input[k..]))
  }

  /** The length of the alphanumeric run at the start of `input`, capped at
      `n`. */
  function RunLength(input: seq<Byte>, n: nat): (k: nat)
    ensures k <= n && k <= |input| && AllAlphanumeric(input[..k])
    ensures k < n && k < |input| ==> !IsAlphanumeric(input[k])
    ensures forall i :: 0 <= i < k ==> IsAlphanumeric(input[i])
    decreases n
  {
    if n == 0 || |input| == 0 || !IsAlphanumeric(input[0]) then 0
    else
      var j := RunLength(input[1..], n - 1);
      assert forall i :: 1 <= i < j + 1 ==> input[i] == input[1..][i - 1];
      j + 1
  }

  function Parse(bytes: seq<Byte>): (r: PResult<SerialNumber>)
    ensures r.Ok? <==> (StartsWith(bytes, PREFIX) && |bytes| >= 3 + LEN
                        && AllAlphanumeric(bytes[3..3 + LEN]) && IsLineEnding(bytes[3 + LEN..]))
    ensures r.Ok? ==> r.value.value.Valid() && r.value.value.AsStr() == bytes[3..3 + LEN]
    ensures r.Ok? ==> r.value.rest == []
    ensures r.Err? ==> r.error == NomError
  {
    var t :- Tag(bytes, PREFIX);
    assert t.rest == bytes[3..];
    assert |t.rest| >= LEN ==> t.rest[..LEN] == bytes[3..3 + LEN];
    var sn :- TakeWhileAlphanumeric(t.rest, LEN, LEN);
    assert sn.value == bytes[3..3 + LEN] && sn.rest == bytes[3 + LEN..];
    var le :- ParseOptLineEnding(sn.rest);
    Ok(Parsed(SerialNumber(sn.value), le.rest))
  }

  function FromBytes(bytes: seq<Byte>): (r: Result<SerialNumber, MessageParseError>)
    ensures r.Ok? <==> (StartsWith(bytes, PREFIX) && |bytes| >= 3 + LEN
                        && AllAlphanumeric(bytes[3..3 + LEN]) && IsLineEnding(bytes[3 + LEN..]))
    ensures r.Ok? ==> r.value.Valid() && r.value.AsStr() == bytes[3..3 + LEN]
    ensures r.Err? ==> r.error == Invalid
  {
    LiftParsed(Parse(bytes))
  }

  lemma RoundTrip(s: SerialNumber, lineEnding: seq<Byte>)
    requires s.Valid() && IsLineEnding(lineEnding)
    ensures FromBytes(PREFIX + s.AsStr() + lineEnding) == Ok(s)
  {
    var b := PREFIX + s.AsStr() + lineEnding;
    assert b[..3] == PREFIX && b[3..3 + LEN] == s.serialNumber && b[3 + LEN..] == lineEnding;
  }

  /** Any other first byte than `#` is rejected, as `$Sn…` is in the unit
      tests. */
  lemma RejectWrongPrefix(b: seq<Byte>)
    requires |b| >= 1 && b[0] != HASH
    ensures FromBytes(b) == Err(Invalid)
  {
  }

  /** Fifteen characters followed by a line ending is not a serial
      number. */
  lemma RejectShort(s: SerialNumber)
    requires s.Valid()
    ensures FromBytes(PREFIX + s.AsStr()[..LEN - 1] + [CR, LF]) == Err(Invalid)
  {
    var short := PREFIX + s.AsStr()[..LEN - 1] + [CR, LF];
    assert short[3 + LEN - 1] == CR;
    assert !IsAlphanumeric(short[3..3 + LEN][LEN - 1]);
  }

  /** A seventeenth character is not a line ending. */
  lemma RejectLong(s: SerialNumber, extra: Byte)
    requires s.Valid() && IsAlphanumeric(extra)
    ensures FromBytes(PREFIX + s.AsStr() + [extra]) == Err(Invalid)
  {
    var long := PREFIX + s.AsStr() + [extra];
    assert long[3 + LEN..] == [extra];
  }
}
