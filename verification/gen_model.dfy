/** The signal-generator `Model` enum and its frequency limits. Unlike the
    spectrum-analyzer enum it has no catch-all: only codes 60 and 61 decode. */
module GeneratorModel {
  import opened Wrappers
  import opened Bytes

  datatype Model = Rfe6Gen | Rfe6GenExpansion {
    function Code(): (c: Byte)
      ensures FromCode(c) == Some(this)
    {
      match this
      case Rfe6Gen => 60
      case Rfe6GenExpansion => 61
    }

    function MinFreq(): nat {
      match this
      case Rfe6Gen => 23_400_000
      case Rfe6GenExpansion => 100_000
    }

    function MaxFreq(): nat {
      match this
      case Rfe6Gen | Rfe6GenExpansion => 6_000_000_000
    }
  }

  function FromCode(code: Byte): (r: Option<Model>)
    ensures r.Some? <==> code == 60 || code == 61
  {
    if code == 60 then Some(Rfe6Gen)
    else if code == 61 then Some(Rfe6GenExpansion)
    else None
  }

  lemma {:induction false} CodeRoundTrip(m: Model, code: Byte)
    ensures FromCode(m.Code()) == Some(m)
    ensures FromCode(code) == Some(m) ==> m.Code() == code
    ensures m.MinFreq() < m.MaxFreq() <= U64_MAX
  {
  }
}
