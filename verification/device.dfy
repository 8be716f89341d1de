/** The device read loop of the current generation: how a line read from
    the serial port is decoded, what happens to the message buffer
    afterwards, and the outcome of the connection handshake. The serial
    port, the reader thread and the condition variables are replaced by the
    sequence of read outcomes the loop sees. */
module Devices {
  import opened Wrappers
  import opened Bytes
  import opened MessageError
  import SerialNumbers
  import CommonCommands

  /** A `Truncated` error whose remainder is worth another attempt. */
  predicate HasRemainder<M>(r: Result<M, MessageParseError>) {
    r.Err? && r.error.Truncated? && r.error.remainder.Some?
  }

  /** A decoder whose `Truncated` remainders are strictly shorter than the
      input: the remainder is a sub-slice of the buffer, and a decoder that
      handed back the whole buffer would make `find_message_in_buf` recurse
      forever. */
  ghost predicate RemaindersShrink<M>(decode: seq<Byte> -> Result<M, MessageParseError>) {
    forall b :: HasRemainder(decode(b)) ==> |decode(b).error.remainder.value| < |b|
  }

  /** `find_message_in_buf`: decode the buffer; when the decoder reports a
      truncated message with a remainder, look for a message in the
      remainder instead. */
  function FindMessageInBuf<M>(buf: seq<Byte>, decode: seq<Byte> -> Result<M, MessageParseError>): (r: Result<M, MessageParseError>)
    requires RemaindersShrink(decode)
    ensures !HasRemainder(r)
    ensures !HasRemainder(decode(buf)) ==> r == decode(buf)
    ensures HasRemainder(decode(buf)) ==> r == FindMessageInBuf(decode(buf).error.remainder.value, decode)
    decreases |buf|
  {
    match decode(buf)
    case Err(Truncated(Some(remaining))) => FindMessageInBuf(remaining, decode)
    case other => other
  }

  /** With a decoder that never reports a remainder, which is every
      decoder of this model, the search is a single decode. */
  lemma NoRemainderNoRetry<M>(buf: seq<Byte>, decode: seq<Byte> -> Result<M, MessageParseError>)
    requires forall b :: !HasRemainder(decode(b))
    ensures FindMessageInBuf(buf, decode) == decode(buf)
  {
  }

  /** What one parse attempt leaves behind: the message to cache, if any,
      and the buffer the next line is appended to. */
  datatype Step<M> = Step(cached: Option<M>, buf: seq<Byte>)

  /** The buffer rule after a parse attempt: a message is cached and the
      buffer cleared; an incomplete message keeps the buffer; any other
      error discards it. */
  function AfterParse<M>(r: Result<M, MessageParseError>, buf: seq<Byte>): (s: Step<M>)
    ensures s.cached.Some? <==> r.Ok?
    ensures r.Ok? ==> s.cached.value == r.value
    ensures s.buf == [] || s.buf == buf
    ensures s.buf != [] <==> r == Err(Incomplete) && buf != []
  {
    match r
    case Ok(m) => Step(Some(m), [])
    case Err(Incomplete) => Step(None, buf)
    case Err(_) => Step(None, [])
  }

  /** The outcome of one `read_line` call. `read_until` keeps what it
      appended before an error, so a time-out carries the bytes of the cut-off
      line; they stay in the buffer unparsed until the next complete read.
      After any other error the loop ends and the buffer is dropped. */
  datatype ReadEvent = Line(bytes: seq<Byte>) | ReadTimedOut(partial: seq<Byte>) | ReadFailed

  /** The reader's state: the message buffer, split into the part the last
      parse attempt kept and the bytes time-outs have appended since; the
      messages handed to `cache_message` so far; and whether the loop is
      still running. */
  datatype Reader<M> = Reader(kept: seq<Byte>, unparsed: seq<Byte>, cached: seq<M>, reading: bool) {
    /** `message_buf` of the source. */
    function Buf(): (b: seq<Byte>)
      ensures |b| == |kept| + |unparsed| && b[..|kept|] == kept && b[|kept|..] == unparsed
    {
      kept + unparsed
    }
  }

  /** One iteration of `read_messages`. */
  function ReadIteration<M>(s: Reader<M>, e: ReadEvent, decode: seq<Byte> -> Result<M, MessageParseError>): (t: Reader<M>)
    requires RemaindersShrink(decode)
    ensures !s.reading ==> t == s
    ensures s.reading && e.ReadTimedOut? ==> t.Buf() == s.Buf() + e.partial && t.kept == s.kept
    ensures s.reading && e.ReadTimedOut? ==> t.cached == s.cached && t.reading
    ensures s.reading && e == ReadFailed ==> t == s.(reading := false)
    ensures s.reading && e.Line? ==> t.reading && t.unparsed == []
    ensures s.reading && e.Line? ==> |t.cached| == |s.cached| || |t.cached| == |s.cached| + 1
    ensures s.reading && e.Line? ==> t.kept == [] || t.kept == s.Buf() + e.bytes
  {
    if !s.reading then s
    else
      match e
      case ReadTimedOut(partial) => s.(unparsed := s.unparsed + partial)
      case ReadFailed => s.(reading := false)
      case Line(bytes) =>
        var buf := s.Buf() + bytes;
        var step := AfterParse(FindMessageInBuf(buf, decode), buf);
        var cached := if step.cached.Some? then s.cached + [step.cached.value] else s.cached;
        Reader(step.buf, [], cached, true)
  }

  /** Nothing is parsed between a time-out and the next read, so the bytes
      of a cut-off line count as the start of the next line. */
  lemma TimedOutJoinsNextLine<M>(s: Reader<M>, partial: seq<Byte>, bytes: seq<Byte>,
                                 decode: seq<Byte> -> Result<M, MessageParseError>)
    requires RemaindersShrink(decode)
    ensures ReadIteration(ReadIteration(s, ReadTimedOut(partial), decode), Line(bytes), decode)
      == ReadIteration(s, Line(partial + bytes), decode)
  {
    if s.reading {
      assert (s.kept + (s.unparsed + partial)) + bytes == (s.kept + s.unparsed) + (partial + bytes);
    }
  }

  /** The reader after a sequence of read outcomes. */
  function RunReads<M>(s: Reader<M>, events: seq<ReadEvent>, decode: seq<Byte> -> Result<M, MessageParseError>): (t: Reader<M>)
    requires RemaindersShrink(decode)
    decreases |events|
  {
    if events == [] then s else RunReads(ReadIteration(s, events[0], decode), events[1..], decode)
  }

  /** The part of the buffer a parse attempt kept is only ever the
      beginning of a message: it is empty, or the decoder calls it
      incomplete. */
  predicate Pending<M>(buf: seq<Byte>, decode: seq<Byte> -> Result<M, MessageParseError>)
    requires RemaindersShrink(decode)
  {
    buf == [] || FindMessageInBuf(buf, decode) == Err(Incomplete)
  }

  /** Over any run, the buffer is an incomplete message followed by the
      bytes of time-outs since the last parse, and cached messages are only
      ever appended. */
  lemma {:induction false} RunReadsKeepsPending<M>(s: Reader<M>, events: seq<ReadEvent>, decode: seq<Byte> -> Result<M, MessageParseError>)
    requires RemaindersShrink(decode) && Pending(s.kept, decode)
    ensures Pending(RunReads(s, events, decode).kept, decode)
    ensures |RunReads(s, events, decode).cached| >= |s.cached|
    ensures RunReads(s, events, decode).cached[..|s.cached|] == s.cached
    decreases |events|
  {
    if events != [] {
      var t := ReadIteration(s, events[0], decode);
      assert Pending(t.kept, decode);
      assert t.cached[..|s.cached|] == s.cached;
      RunReadsKeepsPending(t, events[1..], decode);
    }
  }

  /** A read error other than a time-out ends the loop: nothing read
      afterwards reaches the buffer or the cache. */
  lemma {:induction false} FailureStops<M>(s: Reader<M>, before: seq<ReadEvent>, after: seq<ReadEvent>,
                                           decode: seq<Byte> -> Result<M, MessageParseError>)
    requires RemaindersShrink(decode)
    ensures RunReads(s, before + [ReadFailed] + after, decode) == RunReads(s, before + [ReadFailed], decode)
    ensures !RunReads(s, before + [ReadFailed], decode).reading
    decreases |before|
  {
    if before == [] {
      assert ([] + [ReadFailed] + after)[1..] == after;
      var t := ReadIteration(s, ReadFailed, decode);
      StoppedStays(t, after, decode);
    } else {
      assert (before + [ReadFailed] + after)[1..] == before[1..] + [ReadFailed] + after;
      assert (before + [ReadFailed])[1..] == before[1..] + [ReadFailed];
      FailureStops(ReadIteration(s, before[0], decode), before[1..], after, decode);
    }
  }

  lemma {:induction false} StoppedStays<M>(s: Reader<M>, events: seq<ReadEvent>, decode: seq<Byte> -> Result<M, MessageParseError>)
    requires RemaindersShrink(decode) && !s.reading
    ensures RunReads(s, events, decode) == s
    decreases |events|
  {
    if events != [] {
      StoppedStays(ReadIteration(s, events[0], decode), events[1..], decode);
    }
  }

  /** `read_messages` as a loop over the read outcomes; it stops at the
      first unrecoverable read error. `kept + unparsed` is `message_buf`. */
  method ReadMessages<M>(events: seq<ReadEvent>, decode: seq<Byte> -> Result<M, MessageParseError>)
    returns (kept: seq<Byte>, unparsed: seq<Byte>, cached: seq<M>, stoppedAt: nat)
    requires RemaindersShrink(decode)
    ensures stoppedAt <= |events|
    ensures stoppedAt < |events| ==> events[stoppedAt] == ReadFailed
    ensures forall j :: 0 <= j < stoppedAt ==> events[j] != ReadFailed
    ensures Reader(kept, unparsed, cached, true) == RunReads(Reader([], [], [], true), events[..stoppedAt], decode)
    ensures stoppedAt < |events| ==> RunReads(Reader([], [], [], true), events, decode) == Reader(kept, unparsed, cached, false)
    ensures Pending(kept, decode)
  {
    kept, unparsed, cached := [], [], [];
    var i := 0;
    while i < |events| && events[i] != ReadFailed
      invariant 0 <= i <= |events|
      invariant forall j :: 0 <= j < i ==> events[j] != ReadFailed
      invariant RunReads(Reader([], [], [], true), events[..i], decode) == Reader(kept, unparsed, cached, true)
      invariant Pending(kept, decode)
      decreases |events| - i
    {
      match events[i] {
        case ReadTimedOut(partial) =>
          unparsed := unparsed + partial;
        case Line(bytes) =>
          var buf := kept + unparsed + bytes;
          unparsed := [];
          var r := FindMessageInBuf(buf, decode);
          match r {
            case Ok(m) =>
              cached := cached + [m];
              kept := [];
            case Err(Incomplete) =>
              kept := buf;
            case Err(_) =>
              kept := [];
          }
      }
      RunAppend(Reader([], [], [], true), events[..i], events[i], decode);
      assert events[..i + 1] == events[..i] + [events[i]];
      i := i + 1;
    }
    stoppedAt := i;
    if i < |events| {
      assert events == events[..i] + [ReadFailed] + events[i + 1..];
      FailureStops(Reader([], [], [], true), events[..i], events[i + 1..], decode);
      RunAppend(Reader([], [], [], true), events[..i], ReadFailed, decode);
    }
  }

  /** Running one more event after a prefix. */
  lemma {:induction false} RunAppend<M>(s: Reader<M>, events: seq<ReadEvent>, e: ReadEvent,
                                        decode: seq<Byte> -> Result<M, MessageParseError>)
    requires RemaindersShrink(decode)
    ensures RunReads(s, events + [e], decode) == ReadIteration(RunReads(s, events, decode), e, decode)
    decreases |events|
  {
    if events == [] {
      assert [] + [e] == [e];
    } else {
      assert (events + [e])[1..] == events[1..] + [e];
      RunAppend(ReadIteration(s, events[0], decode), events[1..], e, decode);
    }
  }

  /** The line limit of a freshly opened port, and the limit set once the
      device has identified itself: twice the largest sweep, which has
      65 535 points. */
  const INITIAL_LINE_LIMIT: nat := 128
  const MAX_MESSAGE_LEN: nat := 131_072

  datatype ConnectionError = Io | TimedOut

  /** The state `connect_internal` leaves behind. */
  datatype Connection = Connection(result: Result<nat, ConnectionError>, reading: bool)

  /** `connect_internal`, given whether the initialisation command was
      written and whether the device information arrived in time. On
      success the result carries the new maximum message length. */
  function ConnectInternal(sendOk: bool, deviceInfoReceived: bool): (c: Connection)
    ensures c.result.Ok? <==> sendOk && deviceInfoReceived
    ensures c.result.Ok? ==> c.result.value == MAX_MESSAGE_LEN && c.reading
    ensures c.result.Err? ==> !c.reading
    ensures !sendOk ==> c.result == Err(Io)
    ensures sendOk && !deviceInfoReceived ==> c.result == Err(TimedOut)
  {
    if !sendOk then Connection(Err(Io), false)
    else if deviceInfoReceived then Connection(Ok(MAX_MESSAGE_LEN), true)
    else Connection(Err(TimedOut), false)
  }

  /** What `serial_number` does on either device: answer from the cached
      serial number, or send the request for it. */
  datatype SerialNumberQuery = Answer(serialNumber: SerialNumbers.SerialNumber) | Ask(command: CommonCommands.Command)

  function QuerySerialNumber(cached: Option<SerialNumbers.SerialNumber>): (q: SerialNumberQuery)
    ensures q.Answer? <==> cached.Some?
    ensures q.Answer? ==> q.serialNumber == cached.value
    ensures q.Ask? ==> q.command == CommonCommands.RequestSerialNumber
  {
    if cached.Some? then Answer(cached.value) else Ask(CommonCommands.RequestSerialNumber)
  }
}

/** The early-end-of-transmission rule of the previous generation's reader:
    a device that aborts a message sends a five-byte marker; everything up
    to and including the first marker is dropped and the rest is decoded
    again. */
module EarlyEndOfTransmission {
  import opened Wrappers
  import opened Bytes
  import opened MessageError

  const EEOT: seq<Byte> := [255, 254, 255, 254, 0]

  predicate MarkerAt(buf: seq<Byte>, i: nat) {
    i + |EEOT| <= |buf| && buf[i..i + |EEOT|] == EEOT
  }

  /** `windows(5).position(|w| w == EEOT)`, searching from `from`. */
  function FindFrom(buf: seq<Byte>, from: nat): (r: Option<nat>)
    ensures r.Some? ==> from <= r.value && MarkerAt(buf, r.value)
    ensures r.Some? ==> forall j :: from <= j < r.value ==> !MarkerAt(buf, j)
    ensures r.None? ==> forall j :: from <= j ==> !MarkerAt(buf, j)
    decreases |buf| - from
  {
    if from + |EEOT| > |buf| then None
    else if buf[from..from + |EEOT|] == EEOT then Some(from)
    else FindFrom(buf, from + 1)
  }

  /** The first marker in the buffer. */
  function Position(buf: seq<Byte>): (r: Option<nat>)
    ensures r.Some? ==> MarkerAt(buf, r.value) && forall j :: 0 <= j < r.value ==> !MarkerAt(buf, j)
    ensures r.None? ==> forall j :: 0 <= j ==> !MarkerAt(buf, j)
  {
    FindFrom(buf, 0)
  }

  /** The message processed, if any, and the buffer left for the next
      line. */
  datatype Outcome<M> = Outcome(processed: Option<M>, buf: seq<Byte>)

  predicate IsSuffix(s: seq<Byte>, of: seq<Byte>) {
    |s| <= |of| && s == of[|of| - |s|..]
  }

  /** The drain loop as a recursive definition: drop through the first
      marker and decode what is left; a message ends the loop with an empty
      buffer, an incomplete message looks for the next marker, and any
      other error empties the buffer. */
  function Drain<M>(buf: seq<Byte>, decode: seq<Byte> -> Result<M, MessageParseError>): (o: Outcome<M>)
    ensures o.processed.Some? ==> o.buf == []
    ensures o.buf == [] || (o.processed.None? && Position(o.buf).None? && IsSuffix(o.buf, buf))
    ensures Position(buf).None? ==> o == Outcome(None, buf)
    decreases |buf|
  {
    match Position(buf)
    case None => Outcome(None, buf)
    case Some(i) =>
      var rest := buf[i + |EEOT|..];
      match decode(rest)
      case Ok(m) => Outcome(Some(m), [])
      case Err(Incomplete) =>
        var o := Drain(rest, decode);
        assert o.buf == [] || IsSuffix(o.buf, buf) by {
          if o.buf != [] { assert buf[|buf| - |o.buf|..] == rest[|rest| - |o.buf|..]; }
        }
        o
      case Err(_) => Outcome(None, [])
  }

  /** The parse step of `spawn_read_thread` after a successful read. */
  function ProcessBuffer<M>(buf: seq<Byte>, decode: seq<Byte> -> Result<M, MessageParseError>): (o: Outcome<M>)
    ensures decode(buf).Ok? ==> o == Outcome(Some(decode(buf).value), [])
    ensures decode(buf).Err? && decode(buf).error != Incomplete ==> o == Outcome(None, [])
    ensures o.buf == [] || (o.processed.None? && Position(o.buf).None? && IsSuffix(o.buf, buf))
  {
    match decode(buf)
    case Ok(m) => Outcome(Some(m), [])
    case Err(Incomplete) => Drain(buf, decode)
    case Err(_) => Outcome(None, [])
  }

  /** The `while let Some(eeot_index) = …` loop as written, with its
      `break` and `continue`; it computes the recursive definition. Every
      pass drops at least the five marker bytes, which bounds the loop. */
  method DrainLoop<M>(buf: seq<Byte>, decode: seq<Byte> -> Result<M, MessageParseError>)
    returns (processed: Option<M>, rest: seq<Byte>)
    ensures Outcome(processed, rest) == Drain(buf, decode)
  {
    rest := buf;
    processed := None;
    var position := Position(rest);
    while position.Some?
      invariant position == Position(rest)
      invariant processed.None?
      invariant Drain(buf, decode) == Drain(rest, decode)
      decreases |rest|
    {
      rest := rest[position.value + |EEOT|..];
      match decode(rest) {
        case Ok(m) =>
          processed := Some(m);
          rest := [];
          return;
        case Err(Incomplete) =>
          position := Position(rest);
        case Err(_) =>
          rest := [];
          return;
      }
    }
  }

  /** A message that follows an aborted one is recovered: when the only
      marker before it is the one that ends the aborted message, the
      reader processes it and empties the buffer. */
  lemma RecoverAfterMarker<M>(aborted: seq<Byte>, message: seq<Byte>, decode: seq<Byte> -> Result<M, MessageParseError>)
    requires Position(aborted + EEOT + message) == Some(|aborted|)
    requires decode(aborted + EEOT + message) == Err(Incomplete)
    requires decode(message).Ok?
    ensures ProcessBuffer(aborted + EEOT + message, decode) == Outcome(Some(decode(message).value), [])
  {
    var b := aborted + EEOT + message;
    assert b[|aborted| + |EEOT|..] == message;
  }

  /** Without a marker, an incomplete message stays in the buffer. */
  lemma IncompleteWithoutMarkerIsKept<M>(buf: seq<Byte>, decode: seq<Byte> -> Result<M, MessageParseError>)
    requires decode(buf) == Err(Incomplete) && Position(buf).None?
    ensures ProcessBuffer(buf, decode) == Outcome(None, buf)
  {
  }
}
