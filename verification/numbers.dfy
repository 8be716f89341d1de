/** Decimal digit strings: the value a digit string denotes, the zero-padded
    rendering Rust's `{:0w}` format specifier produces, and the integer
    `FromStr` rule of the Rust standard library that `parse_num` relies on. */
module Numbers {
  import opened Wrappers
  import opened Bytes

  function Pow10(n: nat): (r: nat)
    ensures r >= 1
  {
    if n == 0 then 1 else 10 * Pow10(n - 1)
  }

  predicate AllDigits(s: seq<Byte>) {
    forall i | 0 <= i < |s| :: IsDigit(s[i])
  }

  /** The value of a decimal digit string, most significant digit first
      (leading zeros allowed). */
  function DecValue(s: seq<Byte>): (v: nat)
    requires AllDigits(s)
    ensures v < Pow10(|s|)
  {
    if |s| == 0 then 0 else 10 * DecValue(s[..|s| - 1]) + (s[|s| - 1] - 48)
  }

  lemma DivModUnique(v: int, m: int, q: int, b: int)
    requires m > 0 && 0 <= b < m && v == m * q + b
    ensures v / m == q && v % m == b
  {
    var k := v / m - q;
    assert m * k == b - v % m;
    MulAwayFromZero(m, k);
    assert k == 0;
  }

  lemma {:induction false} MulAwayFromZero(m: int, k: int)
    requires m > 0
    ensures k >= 1 ==> m * k >= m
    ensures k <= -1 ==> m * k <= -m
    decreases if k < 0 then -k else k
  {
    if k > 1 {
      MulAwayFromZero(m, k - 1);
      assert m * k == m * (k - 1) + m;
    } else if k < -1 {
      MulAwayFromZero(m, k + 1);
      assert m * k == m * (k + 1) - m;
    }
  }

  lemma ModSplit(v: nat, p: nat)
    requires p > 0
    ensures 10 * ((v / 10) % p) + v % 10 == v % (10 * p)
  {
    var a, b, c := (v / 10) / p, (v / 10) % p, v % 10;
    assert v / 10 == p * a + b;
    assert v == 10 * (v / 10) + c;
    assert v == (10 * p) * a + (10 * b + c) by {
      calc {
        v;
        10 * (p * a + b) + c;
        (10 * p) * a + (10 * b + c);
      }
    }
    DivModUnique(v, 10 * p, a, 10 * b + c);
  }

  /** The `w` least significant decimal digits of `v`, zero-padded: what
      `{:0w}` prints for `v < 10^w`. */
  function Digits(v: nat, w: nat): (s: seq<Byte>)
    ensures |s| == w && AllDigits(s)
    ensures DecValue(s) == v % Pow10(w)
  {
    if w == 0 then []
    else
      var s := Digits(v / 10, w - 1) + [48 + v % 10];
      assert s[..|s| - 1] == Digits(v / 10, w - 1);
      ModSplit(v, Pow10(w - 1));
      s
  }

  /** The number of decimal digits Rust prints for `v` without padding. */
  function NumDigits(v: nat): (n: nat)
    ensures 1 <= n && v < Pow10(n)
    ensures n > 1 ==> Pow10(n - 1) <= v
  {
    if v < 10 then 1 else 1 + NumDigits(v / 10)
  }

  function Max(a: nat, b: nat): nat { if a < b then b else a }

  /** Rust's `{:0w}` on an unsigned integer: zero-padded to at least `w`
      characters; a wider value is printed in full. */
  function Padded(v: nat, w: nat): (s: seq<Byte>)
    ensures AllDigits(s) && DecValue(s) == v
    ensures |s| == Max(w, NumDigits(v)) >= w
    ensures w >= 1 && v < Pow10(w) ==> |s| == w
  {
    var n := Max(w, NumDigits(v));
    PowMonotone(NumDigits(v), n);
    DivModUnique(v, Pow10(n), 0, v);
    NumDigitsFits(v, w);
    Digits(v, n)
  }

  lemma {:induction false} NumDigitsFits(v: nat, w: nat)
    ensures w >= 1 && v < Pow10(w) ==> NumDigits(v) <= w
  {
    if w >= 1 && v < Pow10(w) && v >= 10 {
      assert w >= 2;
      assert v / 10 < Pow10(w - 1);
      NumDigitsFits(v / 10, w - 1);
    }
  }

  /** When the value fits the width, `{:0w}` prints exactly `w` digits. */
  lemma PaddedFits(v: nat, w: nat)
    requires w >= 1 && v < Pow10(w)
    ensures Padded(v, w) == Digits(v, w)
  {
    NumDigitsFits(v, w);
  }

  lemma {:induction false} PowMonotone(a: nat, b: nat)
    requires a <= b
    ensures Pow10(a) <= Pow10(b)
  {
    if a < b {
      PowMonotone(a, b - 1);
    }
  }

  /** Rust's `{:0w}` on a signed integer: the sign counts towards the width,
      so `-40` at width 4 is `-040`. */
  function SignedPadded(v: int, w: nat): (s: seq<Byte>)
    ensures |s| >= w
    ensures v >= 0 ==> s == Padded(v, w)
    ensures v < 0 ==> |s| >= 2 && s[0] == MINUS && AllDigits(s[1..]) && DecValue(s[1..]) == -v
  {
    if v >= 0 then Padded(v, w)
    else
      var digits := Padded(-v, if w == 0 then 0 else w - 1);
      assert ([MINUS] + digits)[1..] == digits;
      [MINUS] + digits
  }

  /** A negative value is a minus sign before its magnitude, printed one
      column narrower. */
  lemma SignedPaddedNegative(v: int, w: nat)
    requires v < 0 && w >= 1
    ensures SignedPadded(v, w) == [MINUS] + Padded(-v, w - 1)
  {
  }

  /** `Digits` without its proof annotations, so that the rendering of one
      concrete value can be evaluated by itself. */
  function Spelled(v: nat, w: nat): seq<Byte> {
    if w == 0 then [] else Spelled(v / 10, w - 1) + [48 + v % 10]
  }

  lemma {:induction false} SpelledIsDigits(v: nat, w: nat)
    ensures Spelled(v, w) == Digits(v, w)
  {
    if w > 0 {
      SpelledIsDigits(v / 10, w - 1);
    }
  }

  /** A value that fits its field is printed as its spelled digits. */
  lemma PaddedSpelled(v: nat, w: nat)
    requires 1 <= w && v < Pow10(w)
    ensures Padded(v, w) == Spelled(v, w)
  {
    PaddedFits(v, w);
    SpelledIsDigits(v, w);
  }

  /** The target integer type of a `FromStr` call. */
  datatype IntType = U8 | U16 | U32 | U64 | I8 | I16 | I32 {
    function Min(): int {
      match this
      case U8 | U16 | U32 | U64 => 0
      case I8 => I8_MIN
      case I16 => I16_MIN
      case I32 => -0x8000_0000
    }

    function Max(): int {
      match this
      case U8 => U8_MAX
      case U16 => U16_MAX
      case U32 => U32_MAX
      case U64 => U64_MAX
      case I8 => I8_MAX
      case I16 => I16_MAX
      case I32 => 0x7FFF_FFFF
    }

    predicate Signed() { Min() < 0 }

    predicate Contains(v: int) { Min() <= v <= Max() }
  }

  function InRange(v: int, t: IntType): Option<int> {
    if t.Contains(v) then Some(v) else None
  }

  /** Rust's `<integer>::from_str`: an optional `+` (or, for a signed type,
      `-`) followed by at least one decimal digit, and a value the target
      type can hold. Bytes that are not ASCII are never digits, so whether
      the bytes are valid UTF-8 makes no difference to the outcome. */
  function FromStr(s: seq<Byte>, t: IntType): (r: Option<int>)
    ensures r.Some? ==> t.Contains(r.value)
    ensures r.Some? ==> |s| >= 1 && -(Pow10(|s| - 1) as int) < r.value < Pow10(|s|)
    ensures r.Some? && r.value < 0 ==> s[0] == MINUS
  {
    if |s| == 0 then None
    else if (s[0] == PLUS || s[0] == MINUS) && |s| == 1 then None
    else if s[0] == PLUS then
      if AllDigits(s[1..]) then InRange(DecValue(s[1..]), t) else None
    else if s[0] == MINUS && t.Signed() then
      if AllDigits(s[1..]) then InRange(-(DecValue(s[1..]) as int), t) else None
    else if AllDigits(s) then InRange(DecValue(s), t)
    else None
  }

  /** A rendering by `{:0w}` reads back as the same number. */
  lemma FromStrPadded(v: nat, w: nat, t: IntType)
    requires t.Contains(v)
    ensures FromStr(Padded(v, w), t) == Some(v)
  {
    var s := Padded(v, w);
    assert IsDigit(s[0]);
  }

  lemma FromStrSignedPadded(v: int, w: nat, t: IntType)
    requires t.Contains(v)
    ensures FromStr(SignedPadded(v, w), t) == Some(v)
  {
    var s := SignedPadded(v, w);
    if v >= 0 {
      FromStrPadded(v, w, t);
    } else {
      assert |s| >= 2 && s[0] == MINUS && t.Signed();
      assert AllDigits(s[1..]) && DecValue(s[1..]) == -v;
      assert FromStr(s, t) == InRange(-(DecValue(s[1..]) as int), t);
    }
  }

  /** An unsigned type rejects a leading minus sign, even on zero. */
  lemma FromStrUnsignedRejectsMinus(s: seq<Byte>, t: IntType)
    requires !t.Signed() && |s| >= 1 && s[0] == MINUS
    ensures FromStr(s, t) == None
  {
  }
}
