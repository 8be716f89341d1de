/** The `$D` screen dump: 1024 bytes forming the 128×64 monochrome display
    as 8 rows of 128 column bytes, each byte holding 8 vertical pixels. */
module ScreenDatas {
  import opened Wrappers
  import opened Bytes
  import opened Parsers
  import opened MessageError

  const PREFIX: seq<Byte> := [36, 68]   // "$D"
  const WIDTH_PX: nat := 128
  const HEIGHT_PX: nat := 64
  const ROWS: nat := 8
  const COLUMNS: nat := 128
  const ROW_HEIGHT_PX: nat := 8
  const DATA_LEN: nat := 1024

  /** The pixel matrix; the capture time is not modelled. */
  datatype ScreenData = ScreenData(matrix: seq<seq<Byte>>) {
    predicate Valid() {
      |matrix| == ROWS && forall r :: 0 <= r < |matrix| ==> |matrix[r]| == COLUMNS
    }
  }

  /** Cutting the 1024 data bytes into 8 rows of 128. */
  function ToMatrix(data: seq<Byte>): (m: seq<seq<Byte>>)
    requires |data| == DATA_LEN
    ensures ScreenData(m).Valid()
    ensures forall r, c :: 0 <= r < ROWS && 0 <= c < COLUMNS ==> m[r][c] == data[r * COLUMNS + c]
  {
    seq(ROWS, r requires 0 <= r < ROWS => data[r * COLUMNS .. (r + 1) * COLUMNS])
  }

  /** The device side: the rows laid end to end. */
  function Flatten(s: ScreenData): (data: seq<Byte>)
    requires s.Valid()
    ensures |data| == DATA_LEN
  {
    seq(DATA_LEN, i requires 0 <= i < DATA_LEN => s.matrix[i / COLUMNS][i % COLUMNS])
  }

  lemma {:induction false} MatrixRoundTrip(s: ScreenData)
    requires s.Valid()
    ensures ToMatrix(Flatten(s)) == s.matrix
  {
    var m := ToMatrix(Flatten(s));
    forall r | 0 <= r < ROWS
      ensures m[r] == s.matrix[r]
    {
      forall c | 0 <= c < COLUMNS
        ensures m[r][c] == s.matrix[r][c]
      {
        assert (r * COLUMNS + c) / COLUMNS == r;
        assert (r * COLUMNS + c) % COLUMNS == c;
      }
    }
  }

  /** `ScreenData::parse`: the prefix is matched as a complete tag, but the
      1024 data bytes are taken by a streaming parser, so a message that is
      still arriving is `NomIncomplete` rather than an error. */
  function Parse(bytes: seq<Byte>): (r: PResult<ScreenData>)
    ensures r.Ok? <==> StartsWith(bytes, PREFIX) && |bytes| >= 2 + DATA_LEN && IsLineEnding(bytes[2 + DATA_LEN..])
    ensures r == Err(NomIncomplete) <==> StartsWith(bytes, PREFIX) && |bytes| < 2 + DATA_LEN
    ensures r.Ok? ==> r.value.rest == [] && r.value.value.Valid()
    ensures r.Ok? ==> forall row, c :: 0 <= row < ROWS && 0 <= c < COLUMNS ==>
      r.value.value.matrix[row][c] == bytes[2 + row * COLUMNS + c]
  {
    var t :- Tag(bytes, PREFIX);
    var d :- TakeStreaming(t.rest, DATA_LEN);
    var le :- ParseOptLineEnding(d.rest);
    assert bytes[2 + DATA_LEN..] == d.rest;
    Ok(Parsed(ScreenData(ToMatrix(d.value)), le.rest))
  }

  /** The decoder the message dispatchers call. */
  function FromBytes(bytes: seq<Byte>): (r: Result<ScreenData, MessageParseError>)
    ensures r.Ok? <==> Parse(bytes).Ok?
    ensures r.Ok? ==> r.value == Parse(bytes).value.value
    ensures r.Err? ==> r.error == FromNom(Parse(bytes).error)
  {
    LiftParsed(Parse(bytes))
  }

  /** The device side of `Parse`. */
  function Format(s: ScreenData, lineEnding: seq<Byte>): seq<Byte>
    requires s.Valid()
  {
    PREFIX + Flatten(s) + lineEnding
  }

  lemma RoundTrip(s: ScreenData, lineEnding: seq<Byte>)
    requires s.Valid() && IsLineEnding(lineEnding)
    ensures Parse(Format(s, lineEnding)) == Ok(Parsed(s, []))
    ensures FromBytes(Format(s, lineEnding)) == Ok(s)
  {
    var b := Format(s, lineEnding);
    MatrixRoundTrip(s);
    assert Tag(b, PREFIX) == Ok(Parsed(PREFIX, b[2..]));
    assert b[2..][..DATA_LEN] == Flatten(s);
    assert b[2..][DATA_LEN..] == lineEnding;
    assert TakeStreaming(b[2..], DATA_LEN) == Ok(Parsed(Flatten(s), lineEnding));
  }

  /** Every proper prefix of a screen dump that keeps the tag is a message
      still arriving. */
  lemma ShortDumpIsIncomplete(s: ScreenData, n: nat)
    requires s.Valid() && 2 <= n < 2 + DATA_LEN
    ensures FromBytes(Format(s, [])[..n]) == Err(Incomplete)
  {
    var b := Format(s, [])[..n];
    assert b[..2] == PREFIX;
  }

  /** Bit `k` of a byte: the source's `b & (1 << k) > 0`. */
  predicate BitSet(b: Byte, k: nat)
    requires k < 8
  {
    (b / Pow2(k)) % 2 == 1
  }

  function Pow2(k: nat): (p: nat)
    ensures p >= 1
  {
    if k == 0 then 1 else 2 * Pow2(k - 1)
  }

  /** `get_pixel`: the source panics outside the screen, so the coordinate
      is a precondition. */
  function GetPixel(s: ScreenData, x: nat, y: nat): (on: bool)
    requires s.Valid() && x < WIDTH_PX && y < HEIGHT_PX
    ensures on <==> BitSet(Flatten(s)[(y / ROW_HEIGHT_PX) * COLUMNS + x], y % 8)
  {
    BitSet(s.matrix[y / ROW_HEIGHT_PX][x], y % 8)
  }

  /** `get_pixel_checked`: `x` and `y` are `u8`, and a coordinate off the
      screen is `None`. */
  function GetPixelChecked(s: ScreenData, x: Byte, y: Byte): (r: Option<bool>)
    requires s.Valid()
    ensures r.None? <==> x >= WIDTH_PX || y >= HEIGHT_PX
    ensures r.Some? ==> r.value == GetPixel(s, x, y)
  {
    var row := y / ROW_HEIGHT_PX;
    if row < |s.matrix| && x < |s.matrix[row]| then Some(BitSet(s.matrix[row][x], y % 8))
    else None
  }

  /** A pixel of a decoded dump is the bit of the data byte that holds it. */
  lemma PixelOfDecodedDump(bytes: seq<Byte>, x: nat, y: nat)
    requires Parse(bytes).Ok? && x < WIDTH_PX && y < HEIGHT_PX
    ensures GetPixel(Parse(bytes).value.value, x, y)
      <==> BitSet(bytes[2 + (y / 8) * COLUMNS + x], y % 8)
  {
  }
}
