/** UTF-8 well-formedness, as `str::from_utf8` checks it: the byte
    sequences of section 4 of RFC 3629 (no overlong forms, no surrogates,
    nothing above U+10FFFF). */
module Utf8 {
  import opened Bytes

  predicate IsContinuation(b: Byte) { 0x80 <= b <= 0xBF }

  predicate ValidUtf8(s: seq<Byte>)
    decreases |s|
  {
    if |s| == 0 then true
    else if s[0] < 0x80 then ValidUtf8(s[1..])
    else if 0xC2 <= s[0] <= 0xDF then
      |s| >= 2 && IsContinuation(s[1]) && ValidUtf8(s[2..])
    else if s[0] == 0xE0 then
      |s| >= 3 && 0xA0 <= s[1] <= 0xBF && IsContinuation(s[2]) && ValidUtf8(s[3..])
    else if 0xE1 <= s[0] <= 0xEC || 0xEE <= s[0] <= 0xEF then
      |s| >= 3 && IsContinuation(s[1]) && IsContinuation(s[2]) && ValidUtf8(s[3..])
    else if s[0] == 0xED then
      |s| >= 3 && 0x80 <= s[1] <= 0x9F && IsContinuation(s[2]) && ValidUtf8(s[3..])
    else if s[0] == 0xF0 then
      |s| >= 4 && 0x90 <= s[1] <= 0xBF && IsContinuation(s[2]) && IsContinuation(s[3])
      && ValidUtf8(s[4..])
    else if 0xF1 <= s[0] <= 0xF3 then
      |s| >= 4 && IsContinuation(s[1]) && IsContinuation(s[2]) && IsContinuation(s[3])
      && ValidUtf8(s[4..])
    else if s[0] == 0xF4 then
      |s| >= 4 && 0x80 <= s[1] <= 0x8F && IsContinuation(s[2]) && IsContinuation(s[3])
      && ValidUtf8(s[4..])
    else false
  }

  predicate IsAsciiBytes(s: seq<Byte>) {
    forall i :: 0 <= i < |s| ==> s[i] < 0x80
  }

  /** ASCII is valid UTF-8. */
  lemma {:induction false} AsciiIsUtf8(s: seq<Byte>)
    requires IsAsciiBytes(s)
    ensures ValidUtf8(s)
    decreases |s|
  {
    if |s| > 0 {
      assert IsAsciiBytes(s[1..]);
      AsciiIsUtf8(s[1..]);
    }
  }

  /** A valid string never starts with a continuation byte. */
  lemma NoLeadingContinuation(s: seq<Byte>)
    requires |s| >= 1 && IsContinuation(s[0])
    ensures !ValidUtf8(s)
  {
  }
}

/** `SetupInfo`, the `#C2-M:` / `#C3-M:` message announcing the radio
    modules and the firmware version. The decoder is generic over the model
    type, which enters as its `u8` decoding function. */
module SetupInfos {
  import opened Wrappers
  import opened Bytes
  import opened Numbers
  import opened Parsers
  import opened MessageError
  import opened RadioModules
  import opened Utf8

  datatype SetupInfo<M> = SetupInfo(
    mainRadioModule: RadioModule<M>,
    expansionRadioModule: Option<RadioModule<M>>,
    firmwareVersion: seq<Byte>)

  const EXPANSION_ABSENT: Byte := 255

  predicate IsLineBreak(b: Byte) { b == CR || b == LF }

  predicate NoLineBreak(s: seq<Byte>) {
    forall i :: 0 <= i < |s| ==> !IsLineBreak(s[i])
  }

  /** The index of the first `\r` or `\n`, or the length when there is
      none. */
  function LineBreakIndex(s: seq<Byte>): (i: nat)
    ensures i <= |s| && NoLineBreak(s[..i])
    ensures i < |s| ==> IsLineBreak(s[i])
    decreases |s|
  {
    if |s| == 0 then 0
    else if IsLineBreak(s[0]) then 0
    else
      var j := LineBreakIndex(s[1..]);
      assert s[..j + 1] == [s[0]] + s[1..][..j];
      j + 1
  }

  /** nom's complete `not_line_ending`: everything up to the first line
      break; a `\r` that does not start `\r\n` is an error. */
  function NotLineEnding(input: seq<Byte>): (r: PResult<seq<Byte>>)
    ensures r.Ok? ==> NoLineBreak(r.value.value) && input == r.value.value + r.value.rest
    ensures r.Ok? ==> r.value.rest == [] || r.value.rest[0] == LF || StartsWith(r.value.rest, [CR, LF])
    ensures r.Err? ==> r.error == NomError
    ensures NoLineBreak(input) ==> r == Ok(Parsed(input, []))
  {
    var i := LineBreakIndex(input);
    if i == |input| then
      assert input[..i] == input;
      Ok(Parsed(input, []))
    else if input[i] == LF || StartsWith(input[i..], [CR, LF]) then
      Ok(Parsed(input[..i], input[i..]))
    else Err(NomError)
  }

  /** `map_res(parse_num(3), M::try_from)`: a three-digit `u8` that must
      name a model. */
  function ParseMainModel<M>(input: seq<Byte>, decode: Byte -> Option<M>): (r: PResult<M>)
    ensures r.Ok? <==> ParseNum(input, 3, U8).Ok? && decode(ParseNum(input, 3, U8).value.value as Byte).Some?
    ensures r.Ok? ==> r.value.rest == input[3..]
    ensures r.Ok? ==> Some(r.value.value) == decode(ParseNum(input, 3, U8).value.value as Byte)
    ensures r.Err? ==> r.error == NomError
  {
    var n :- ParseNum(input, 3, U8);
    match decode(n.value as Byte)
    case Some(m) => Ok(Parsed(m, n.rest))
    case None => Err(NomError)
  }

  /** The expansion field: a model, or 255 for "no expansion module"; any
      other code fails. */
  function ParseExpansionModel<M>(input: seq<Byte>, decode: Byte -> Option<M>): (r: PResult<Option<M>>)
    ensures r.Ok? <==> (ParseNum(input, 3, U8).Ok?
                        && (decode(ParseNum(input, 3, U8).value.value as Byte).Some?
                            || ParseNum(input, 3, U8).value.value == EXPANSION_ABSENT as int))
    ensures r.Ok? ==> r.value.rest == input[3..]
    ensures r.Ok? ==> var code := ParseNum(input, 3, U8).value.value as Byte;
      r.value.value == if decode(code).Some? then decode(code) else None
    ensures r.Err? ==> r.error == NomError
  {
    var n :- ParseNum(input, 3, U8);
    match decode(n.value as Byte)
    case Some(m) => Ok(Parsed(Some(m), n.rest))
    case None => if n.value == EXPANSION_ABSENT as int then Ok(Parsed(None, n.rest)) else Err(NomError)
  }

  /** The two model fields and their commas. */
  function ParseModels<M>(input: seq<Byte>, decode: Byte -> Option<M>): (r: PResult<(M, Option<M>)>)
    ensures r.Ok? ==> |input| >= 8 && r.value.rest == input[8..] && input[3] == COMMA && input[7] == COMMA
    ensures r.Ok? ==> ParseMainModel(input, decode) == Ok(Parsed(r.value.value.0, input[3..]))
    ensures r.Ok? ==> ParseExpansionModel(input[4..], decode) == Ok(Parsed(r.value.value.1, input[7..]))
    ensures r.Err? ==> r.error == NomError
  {
    var main :- ParseMainModel(input, decode);
    var c1 :- ParseComma(main.rest);
    var exp :- ParseExpansionModel(c1.rest, decode);
    var c2 :- ParseComma(exp.rest);
    assert c1.rest == input[4..];
    Ok(Parsed((main.value, exp.value), c2.rest))
  }

  /** The firmware version: the rest of the line, valid UTF-8, followed by
      nothing but a line ending. */
  function ParseFirmware(input: seq<Byte>): (r: PResult<seq<Byte>>)
    ensures r.Ok? ==> ValidUtf8(r.value.value) && NoLineBreak(r.value.value) && r.value.rest == []
    ensures r.Ok? ==> |input| >= |r.value.value| && input[..|r.value.value|] == r.value.value
    ensures r.Ok? ==> IsLineEnding(input[|r.value.value|..])
    ensures r.Err? ==> r.error == NomError
  {
    var fw :- NotLineEnding(input);
    if !ValidUtf8(fw.value) then Err(NomError)
    else
      var le :- ParseOptLineEnding(fw.rest);
      assert input[..|fw.value|] == fw.value && input[|fw.value|..] == fw.rest;
      Ok(Parsed(fw.value, le.rest))
  }

  /** `SetupInfo::parse_with_prefix`. */
  function ParseWithPrefix<M>(bytes: seq<Byte>, prefix: seq<Byte>, decode: Byte -> Option<M>): (r: PResult<SetupInfo<M>>)
    ensures r.Ok? ==> StartsWith(bytes, prefix) && r.value.rest == []
    ensures r.Ok? ==> r.value.value.mainRadioModule.IsMain()
    ensures r.Ok? && r.value.value.expansionRadioModule.Some? ==> r.value.value.expansionRadioModule.value.IsExpansion()
    ensures r.Ok? ==> |bytes| >= |prefix| + 8 && ParseFirmware(bytes[|prefix| + 8..]) == Ok(Parsed(r.value.value.firmwareVersion, []))
    ensures !StartsWith(bytes, prefix) ==> r == Err(NomError)
    ensures r.Err? ==> r.error == NomError
  {
    var t :- Tag(bytes, prefix);
    var models :- ParseModels(t.rest, decode);
    var fw :- ParseFirmware(models.rest);
    assert bytes[|prefix| + 8..] == models.rest;
    Ok(Parsed(
      SetupInfo(Main(models.value.0),
                if models.value.1.Some? then Some(Expansion(models.value.1.value)) else None,
                fw.value),
      fw.rest))
  }

  function FromBytesWithPrefix<M>(bytes: seq<Byte>, prefix: seq<Byte>, decode: Byte -> Option<M>)
    : (r: Result<SetupInfo<M>, MessageParseError>)
    ensures r.Ok? <==> ParseWithPrefix(bytes, prefix, decode).Ok?
    ensures r.Ok? ==> r.value == ParseWithPrefix(bytes, prefix, decode).value.value
    ensures r.Err? ==> r.error == Invalid
  {
    LiftParsed(ParseWithPrefix(bytes, prefix, decode))
  }

  /** The device side: the codes zero-padded to three digits. */
  function Format(prefix: seq<Byte>, mainCode: Byte, expansionCode: Byte, fw: seq<Byte>, lineEnding: seq<Byte>): seq<Byte>
  {
    prefix + (Padded(mainCode, 3) + ([COMMA] + (Padded(expansionCode, 3) + ([COMMA] + (fw + lineEnding)))))
  }

  lemma ByteField(v: Byte)
    ensures v < Pow10(3) && |Padded(v, 3)| == 3
  {
    assert Pow10(3) == 1000;
  }

  lemma {:induction false} NotLineEndingOfFormat(fw: seq<Byte>, lineEnding: seq<Byte>)
    requires NoLineBreak(fw) && IsLineEnding(lineEnding)
    ensures NotLineEnding(fw + lineEnding) == Ok(Parsed(fw, lineEnding))
  {
    LineBreakIndexOfLine(fw, lineEnding);
    var s := fw + lineEnding;
    assert s[..|fw|] == fw && s[|fw|..] == lineEnding;
  }

  /** The first line break of a line and its ending is where the line
      ends. */
  lemma {:induction false} LineBreakIndexOfLine(fw: seq<Byte>, lineEnding: seq<Byte>)
    requires NoLineBreak(fw) && (lineEnding == [] || IsLineBreak(lineEnding[0]))
    ensures LineBreakIndex(fw + lineEnding) == |fw|
    decreases |fw|
  {
    if |fw| > 0 {
      assert (fw + lineEnding)[1..] == fw[1..] + lineEnding;
      LineBreakIndexOfLine(fw[1..], lineEnding);
    }
  }

  /** Decoding a formatted setup message: the main code must decode to a
      model and the expansion code must decode or be 255. */
  lemma {:induction false} RoundTrip<M>(prefix: seq<Byte>, decode: Byte -> Option<M>, mainCode: Byte,
                                        expansionCode: Byte, fw: seq<Byte>, lineEnding: seq<Byte>)
    requires decode(mainCode).Some?
    requires decode(expansionCode).Some? || expansionCode == EXPANSION_ABSENT
    requires ValidUtf8(fw) && NoLineBreak(fw) && IsLineEnding(lineEnding)
    ensures ParseWithPrefix(Format(prefix, mainCode, expansionCode, fw, lineEnding), prefix, decode)
      == Ok(Parsed(SetupInfo(Main(decode(mainCode).value),
                             if decode(expansionCode).Some? then Some(Expansion(decode(expansionCode).value)) else None,
                             fw), []))
  {
    ByteField(mainCode);
    ByteField(expansionCode);
    var tail := [COMMA] + (fw + lineEnding);
    var afterMain := [COMMA] + (Padded(expansionCode, 3) + tail);
    var body := Padded(mainCode, 3) + afterMain;
    var b := prefix + body;
    assert Tag(b, prefix) == Ok(Parsed(prefix, body));
    ParseNumPadded(mainCode, 3, U8, afterMain);
    ParseNumPadded(expansionCode, 3, U8, tail);
    assert afterMain[1..] == Padded(expansionCode, 3) + tail;
    assert body[3..] == afterMain;
    assert ParseModels(body, decode).Ok?;
    assert ParseModels(body, decode).value.rest == fw + lineEnding;
    NotLineEndingOfFormat(fw, lineEnding);
    assert ParseFirmware(fw + lineEnding) == Ok(Parsed(fw, []));
  }

  /** A main code that names no model is rejected, whatever follows. */
  lemma MainMustDecode<M>(prefix: seq<Byte>, decode: Byte -> Option<M>, mainCode: Byte,
                          expansionCode: Byte, fw: seq<Byte>, lineEnding: seq<Byte>)
    requires decode(mainCode).None?
    ensures ParseWithPrefix(Format(prefix, mainCode, expansionCode, fw, lineEnding), prefix, decode).Err?
  {
    ByteField(mainCode);
    var rest := [COMMA] + (Padded(expansionCode, 3) + ([COMMA] + (fw + lineEnding)));
    var b := Format(prefix, mainCode, expansionCode, fw, lineEnding);
    assert Tag(b, prefix) == Ok(Parsed(prefix, Padded(mainCode, 3) + rest));
    ParseNumPadded(mainCode, 3, U8, rest);
  }

  /** Without the comma and firmware field the message is rejected. */
  lemma FirmwareRequired<M>(prefix: seq<Byte>, decode: Byte -> Option<M>, mainCode: Byte, expansionCode: Byte)
    ensures ParseWithPrefix(prefix + (Padded(mainCode, 3) + ([COMMA] + Padded(expansionCode, 3))), prefix, decode).Err?
  {
    ByteField(mainCode);
    ByteField(expansionCode);
    var b := prefix + (Padded(mainCode, 3) + ([COMMA] + Padded(expansionCode, 3)));
    assert |b| == |prefix| + 7;
  }
}

/** The spectrum-analyzer and signal-generator instances of the setup
    message, and the cases the unit tests exercise. */
module SetupInfoInstances {
  import opened Wrappers
  import opened Bytes
  import opened Parsers
  import opened RadioModules
  import opened Utf8
  import opened SetupInfos
  import SpectrumAnalyzerModel
  import GeneratorModel

  const ANALYZER_PREFIX: seq<Byte> := [35, 67, 50, 45, 77, 58]    // "#C2-M:"
  const GENERATOR_PREFIX: seq<Byte> := [35, 67, 51, 45, 77, 58]   // "#C3-M:"

  function AnalyzerFromBytes(bytes: seq<Byte>)
    : (r: Result<SetupInfo<SpectrumAnalyzerModel.Model>, MessageError.MessageParseError>)
    ensures !StartsWith(bytes, ANALYZER_PREFIX) ==> r == Err(MessageError.Invalid)
  {
    FromBytesWithPrefix(bytes, ANALYZER_PREFIX, SpectrumAnalyzerModel.FromCode)
  }

  function GeneratorFromBytes(bytes: seq<Byte>)
    : (r: Result<SetupInfo<GeneratorModel.Model>, MessageError.MessageParseError>)
    ensures !StartsWith(bytes, GENERATOR_PREFIX) ==> r == Err(MessageError.Invalid)
  {
    FromBytesWithPrefix(bytes, GENERATOR_PREFIX, GeneratorModel.FromCode)
  }

  /** `#C2-M:003,255,<fw>`: a WSub1G with no expansion module. */
  lemma AcceptWSub1G(fw: seq<Byte>, lineEnding: seq<Byte>)
    requires ValidUtf8(fw) && NoLineBreak(fw) && IsLineEnding(lineEnding)
    ensures AnalyzerFromBytes(Format(ANALYZER_PREFIX, 3, 255, fw, lineEnding))
      == Ok(SetupInfo(Main(SpectrumAnalyzerModel.RfeWSub1G), None, fw))
  {
    RoundTrip(ANALYZER_PREFIX, SpectrumAnalyzerModel.FromCode, 3, 255, fw, lineEnding);
  }

  /** `#C2-M:010,014,<fw>`: a WSub1G+ with a 6G+ expansion module. */
  lemma AcceptWSub1GPlusWith6GPlus(fw: seq<Byte>, lineEnding: seq<Byte>)
    requires ValidUtf8(fw) && NoLineBreak(fw) && IsLineEnding(lineEnding)
    ensures AnalyzerFromBytes(Format(ANALYZER_PREFIX, 10, 14, fw, lineEnding))
      == Ok(SetupInfo(Main(SpectrumAnalyzerModel.RfeWSub1GPlus), Some(Expansion(SpectrumAnalyzerModel.Rfe6GPlus)), fw))
  {
    assert SpectrumAnalyzerModel.FromCode(10) == Some(SpectrumAnalyzerModel.RfeWSub1GPlus);
    assert SpectrumAnalyzerModel.FromCode(14) == Some(SpectrumAnalyzerModel.Rfe6GPlus);
    RoundTrip(ANALYZER_PREFIX, SpectrumAnalyzerModel.FromCode, 10, 14, fw, lineEnding);
  }

  /** `#C2-M:255,005,<fw>` is rejected: 255 names no model. */
  lemma RejectMissingMainModel(fw: seq<Byte>, lineEnding: seq<Byte>)
    ensures AnalyzerFromBytes(Format(ANALYZER_PREFIX, 255, 5, fw, lineEnding)).Err?
  {
    MainMustDecode(ANALYZER_PREFIX, SpectrumAnalyzerModel.FromCode, 255, 5, fw, lineEnding);
  }

  /** `#C2-M:006,005` is rejected. */
  lemma RejectMissingFirmware()
    ensures AnalyzerFromBytes(ANALYZER_PREFIX + (Numbers.Padded(6, 3) + ([COMMA] + Numbers.Padded(5, 3)))).Err?
  {
    FirmwareRequired(ANALYZER_PREFIX, SpectrumAnalyzerModel.FromCode, 6, 5);
  }

  /** `#C3-M:060,255,<fw>`: an RFE6GEN with no expansion module. */
  lemma AcceptGenerator(fw: seq<Byte>, lineEnding: seq<Byte>)
    requires ValidUtf8(fw) && NoLineBreak(fw) && IsLineEnding(lineEnding)
    ensures GeneratorFromBytes(Format(GENERATOR_PREFIX, 60, 255, fw, lineEnding))
      == Ok(SetupInfo(Main(GeneratorModel.Rfe6Gen), None, fw))
  {
    RoundTrip(GENERATOR_PREFIX, GeneratorModel.FromCode, 60, 255, fw, lineEnding);
  }

  /** The firmware field of the unit tests, `XX.XXXX`, is acceptable. */
  lemma TestFirmwareAcceptable()
    ensures ValidUtf8([88, 88, 46, 88, 88, 88, 88]) && NoLineBreak([88, 88, 46, 88, 88, 88, 88])
  {
    AsciiIsUtf8([88, 88, 46, 88, 88, 88, 88]);
  }
}
