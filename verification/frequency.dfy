/** `Frequency`: a whole number of hertz held in a `u64`, with integer unit
    constructors and accessors and checked arithmetic. The unit constructors
    multiply in `u64`, so a value that would not fit is excluded by a
    precondition, as is every operation the source panics on. */
module Frequencies {
  import opened Bytes
  import Numbers

  type U64 = x: int | 0 <= x <= U64_MAX

  const KHZ: nat := 1_000
  const MHZ: nat := 1_000_000
  const GHZ: nat := 1_000_000_000

  /** Equality and ordering are derived from the single `hz` field. */
  datatype Frequency = Frequency(hz: U64) {

    function AsHz(): (r: U64)
      ensures FromHz(r) == this
    {
      hz
    }

    /** Whole kilohertz, rounded down. */
    function AsKhz(): (r: U64)
      ensures KHZ * r <= hz < KHZ * (r + 1)
    {
      hz / KHZ
    }

    /** Whole megahertz, rounded down. */
    function AsMhz(): (r: U64)
      ensures MHZ * r <= hz < MHZ * (r + 1)
    {
      hz / MHZ
    }

    /** Whole gigahertz, rounded down. */
    function AsGhz(): (r: U64)
      ensures GHZ * r <= hz < GHZ * (r + 1)
    {
      hz / GHZ
    }

    predicate Lt(other: Frequency) { hz < other.hz }

    predicate Le(other: Frequency) { hz <= other.hz }

    /** `Add`; a sum past `u64::MAX` overflows and is excluded. */
    function Add(rhs: Frequency): (r: Frequency)
      requires hz + rhs.hz <= U64_MAX
      ensures Le(r) && rhs.Le(r)
    {
      Frequency(hz + rhs.hz)
    }

    /** `Sub` panics when `self < rhs`. */
    function Sub(rhs: Frequency): (r: Frequency)
      requires !Lt(rhs)
      ensures rhs.hz + r.hz == hz
      ensures r.Le(this)
    {
      Frequency(hz - rhs.hz)
    }

    /** `Mul<u64>`; a product past `u64::MAX` overflows and is excluded. */
    function Mul(k: U64): (r: Frequency)
      requires hz * k <= U64_MAX
      ensures k >= 1 ==> Le(r)
      ensures k == 0 ==> r.hz == 0
    {
      Frequency(hz * k)
    }

    /** `Div<u64>`: floor division, panicking on a zero divisor. */
    function Div(d: U64): (r: Frequency)
      requires d != 0
      ensures r.hz * d <= hz < (r.hz + 1) * d
    {
      Frequency(hz / d)
    }

    /** `abs_diff`, used when a configuration is compared to a request. */
    function AbsDiff(other: Frequency): (r: Frequency)
      ensures Le(other) ==> hz + r.hz == other.hz
      ensures other.Le(this) ==> other.hz + r.hz == hz
    {
      if hz < other.hz then Frequency(other.hz - hz) else Frequency(hz - other.hz)
    }
  }

  /** Subtracting what was added gives back the original frequency. */
  lemma AddThenSub(a: Frequency, b: Frequency)
    requires a.hz + b.hz <= U64_MAX
    ensures a.Add(b).Sub(b) == a
  {
  }

  /** Dividing by a non-zero factor undoes multiplying by it. */
  lemma MulThenDiv(a: Frequency, k: U64)
    requires a.hz * k <= U64_MAX && k != 0
    ensures a.Mul(k).Div(k) == a
  {
    MulDivCancel(a.hz, k);
  }

  /** Adding back what was subtracted gives back the original frequency. */
  lemma SubThenAdd(a: Frequency, b: Frequency)
    requires !a.Lt(b)
    ensures a.Sub(b).Add(b) == a
  {
  }

  /** Floor division loses less than one divisor's worth of hertz. */
  lemma DivThenMul(a: Frequency, k: U64)
    requires k != 0
    ensures a.Div(k).hz * k <= U64_MAX
    ensures a.Div(k).Mul(k).Le(a) && a.hz - a.Div(k).Mul(k).hz < k
  {
  }

  /** `abs_diff` is symmetric, zero exactly on equal frequencies, and is
      what the smaller frequency lacks to reach the larger one. */
  lemma AbsDiffSymmetric(a: Frequency, b: Frequency)
    ensures a.AbsDiff(b) == b.AbsDiff(a)
    ensures a.AbsDiff(b).hz == 0 <==> a == b
    ensures a.Le(b) ==> a.Add(a.AbsDiff(b)) == b
  {
  }

  /** The sums, differences, products and quotients of the unit tests. */
  lemma ArithmeticExamples()
    ensures FromHz(1).Add(FromHz(1)).AsHz() == 2
    ensures FromHz(1_000).Add(FromKhz(1)).AsKhz() == 2
    ensures FromHz(3_000_000_000).Sub(FromGhz(1)).AsGhz() == 2
    ensures FromMhz(1).Mul(2).AsMhz() == 2
    ensures FromGhz(4).Div(2).AsGhz() == 2
  {
  }

  lemma MulDivCancel(a: nat, k: nat)
    ensures k != 0 ==> (a * k) / k == a
  {
    if k != 0 {
      Numbers.DivModUnique(a * k, k, a, 0);
    }
  }

  function FromHz(hz: U64): (f: Frequency)
    ensures f.hz == hz
  {
    Frequency(hz)
  }

  function FromKhz(khz: U64): (f: Frequency)
    requires khz * KHZ <= U64_MAX
    ensures f.AsKhz() == khz
  {
    MulDivCancel(khz, KHZ);
    Frequency(khz * KHZ)
  }

  function FromMhz(mhz: U64): (f: Frequency)
    requires mhz * MHZ <= U64_MAX
    ensures f.AsMhz() == mhz
  {
    MulDivCancel(mhz, MHZ);
    Frequency(mhz * MHZ)
  }

  function FromGhz(ghz: U64): (f: Frequency)
    requires ghz * GHZ <= U64_MAX
    ensures f.AsGhz() == ghz
  {
    MulDivCancel(ghz, GHZ);
    Frequency(ghz * GHZ)
  }

  /** Each unit constructor scales its argument to hertz. */
  lemma UnitConstructorsScale(n: U64)
    ensures n * KHZ <= U64_MAX ==> FromKhz(n).AsHz() == 1_000 * n
    ensures n * MHZ <= U64_MAX ==> FromMhz(n).AsHz() == 1_000_000 * n
    ensures n * GHZ <= U64_MAX ==> FromGhz(n).AsHz() == 1_000_000_000 * n
  {
  }

  /** Accessors round down: a frequency that is not a whole number of the
      unit loses its remainder, and converting back cannot exceed it. */
  lemma AccessorsRoundDown(f: Frequency)
    ensures FromKhz(f.AsKhz()).Le(f) && FromMhz(f.AsMhz()).Le(f) && FromGhz(f.AsGhz()).Le(f)
    ensures f.hz % KHZ == 0 ==> FromKhz(f.AsKhz()) == f
    ensures f.hz % MHZ == 0 ==> FromMhz(f.AsMhz()) == f
    ensures f.hz % GHZ == 0 ==> FromGhz(f.AsGhz()) == f
  {
  }

  /** A few of the conversions the unit tests exercise. */
  lemma ConversionExamples()
    ensures FromHz(1_000_000_000).AsKhz() == 1_000_000
    ensures FromHz(1_000_000_000).AsMhz() == 1_000
    ensures FromHz(1_000_000_000).AsGhz() == 1
    ensures FromKhz(1).AsHz() == 1_000 && FromMhz(1).AsKhz() == 1_000
    ensures FromHz(999).AsKhz() == 0
  {
  }

  /** Ordering and equality of frequencies are those of the hertz count. */
  lemma OrderIsHzOrder(a: Frequency, b: Frequency)
    ensures a == b <==> a.hz == b.hz
    ensures a.Lt(b) <==> a.hz < b.hz
    ensures a.Lt(b) || a == b || b.Lt(a)
  {
  }
}
