/** `MessageParseError`, the error every message decoder reports, and its
    conversion from a nom failure. */
module MessageError {
  import opened Wrappers
  import opened Bytes
  import opened Parsers

  datatype MessageParseError =
    | Incomplete
    | Truncated(remainder: Option<seq<Byte>>)
    | Invalid
    | UnknownMessageType

  /** `From<nom::Err>`: nom's `Incomplete` stays `Incomplete`; every other
      nom failure is `Invalid`. */
  function FromNom(f: Failure): (e: MessageParseError)
    ensures e == Incomplete <==> f == NomIncomplete
    ensures e != Incomplete ==> e == Invalid
  {
    match f
    case NomIncomplete => Incomplete
    case NomError => Invalid
  }

  /** The `?` operator on a nom result inside a decoder returning
      `MessageParseError`. */
  function Lift<T>(r: Result<T, Failure>): (o: Result<T, MessageParseError>)
    ensures r.Ok? <==> o.Ok?
    ensures r.Ok? ==> o.value == r.value
    ensures r.Err? ==> o.error == FromNom(r.error)
  {
    match r
    case Ok(v) => Ok(v)
    case Err(f) => Err(FromNom(f))
  }

  /** A decoder that hands back the parsed value and drops what nom left
      unconsumed: `parse(bytes).map(|(_, v)| v)?`. */
  function LiftParsed<T>(r: PResult<T>): (o: Result<T, MessageParseError>)
    ensures r.Ok? <==> o.Ok?
    ensures r.Ok? ==> o.value == r.value.value
    ensures r.Err? ==> o.error == FromNom(r.error)
  {
    var p :- Lift(r);
    Ok(p.value)
  }
}
