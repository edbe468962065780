/** Go's fixed-width scalar types, written out over Dafny's unbounded integers. */
module GoTypes {

  const TwoTo63: int := 0x8000_0000_0000_0000
  const TwoTo64: int := 0x1_0000_0000_0000_0000

  /** Go's `int64` (and `time.Duration`, which is an `int64` count of nanoseconds). */
  newtype int64 = x: int | -0x8000_0000_0000_0000 <= x < 0x8000_0000_0000_0000

  const MaxInt64: int64 := 0x7FFF_FFFF_FFFF_FFFF
  const MinInt64: int64 := -0x8000_0000_0000_0000

  /** Two's-complement truncation: the int64 Go's arithmetic silently produces for the
      mathematical value `x`. */
  function Wrap(x: int): (r: int64)
    ensures (r as int - x) % TwoTo64 == 0
    ensures -TwoTo63 <= x < TwoTo63 ==> r as int == x
  {
    var m := (x + TwoTo63) % TwoTo64;
    assert -TwoTo63 <= m - TwoTo63 < TwoTo63;
    (m - TwoTo63) as int64
  }

  /** Wrap picks THE int64 congruent to `x`: no other int64 is. */
  lemma WrapUnique(x: int, y: int64)
    requires (y as int - x) % TwoTo64 == 0
    ensures Wrap(x) == y
  {
    var w := Wrap(x);
    var d := w as int - y as int;
    assert d % TwoTo64 == 0 by {
      assert d == (w as int - x) - (y as int - x);
    }
    assert -TwoTo64 < d < TwoTo64;
  }

  /** Go's `a + b` on int64: wraps silently on overflow. */
  function AddWrap(a: int64, b: int64): (r: int64)
    ensures (r as int - (a as int + b as int)) % TwoTo64 == 0
    ensures MinInt64 as int <= a as int + b as int <= MaxInt64 as int ==> r as int == a as int + b as int
  {
    Wrap(a as int + b as int)
  }

  /** Go's `a * b` on int64: wraps silently on overflow. */
  function MulWrap(a: int64, b: int64): (r: int64)
    ensures (r as int - a as int * b as int) % TwoTo64 == 0
    ensures MinInt64 as int <= a as int * b as int <= MaxInt64 as int ==> r as int == a as int * b as int
  {
    Wrap(a as int * b as int)
  }

  /** Go's `float64`, kept as its IEEE 754 binary64 bit pattern. Float arithmetic,
      parsing and printing are not modelled; only identity and comparison with zero are. */
  datatype Float64 = Float64(bits: bv64)

  const PositiveZero: Float64 := Float64(0)
  const NegativeZero: Float64 := Float64(0x8000_0000_0000_0000)

  /** Go's `f == 0` on a float64: true for +0 and -0 only (a NaN compares unequal to everything). */
  predicate IsZero(f: Float64) {
    f == PositiveZero || f == NegativeZero
  }
}
