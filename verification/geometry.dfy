/** Value types standing in for the Compose geometry classes the position
    provider reads and produces (`Size`, `IntSize`, `IntOffset`, `Offset`,
    `LayoutDirection`), and the two Kotlin number conversions it relies on.

    Kotlin `Float` is modelled as an exact `real`; Kotlin `Int` as an `int`
    kept inside the 32-bit range by the conversions that produce it. */
module Geometry {

  datatype LayoutDirection = Ltr | Rtl

  /** A floating-point width and height (the viewport size). */
  datatype Size = Size(width: real, height: real)

  /** An integer width and height, as handed to an alignment. */
  datatype IntSize = IntSize(width: int, height: int)

  /** An integer offset, as returned by an alignment. */
  datatype IntOffset = IntOffset(x: int, y: int)

  /** A floating-point offset, the provider's result. */
  datatype Offset = Offset(x: real, y: real)

  /** `Offset.Zero`. */
  const Zero: Offset := Offset(0.0, 0.0)

  /** The bounds of a Kotlin `Int`. */
  const IntMin: int := -0x8000_0000
  const IntMax: int := 0x7FFF_FFFF

  predicate InIntRange(n: int) {
    IntMin <= n <= IntMax
  }

  /** Clamps a mathematical integer to the `Int` range, as Kotlin's
      float-to-int conversions do. */
  function Saturate(n: int): int {
    if n < IntMin then IntMin else if n > IntMax then IntMax else n
  }

  /** Kotlin `Float.toInt()`: rounds toward zero, saturating at the bounds
      of `Int`. */
  function ToInt(r: real): (n: int)
    ensures InIntRange(n)
    ensures 0.0 <= r < IntMax as real + 1.0 ==> n as real <= r < n as real + 1.0
    ensures IntMin as real - 1.0 < r <= 0.0 ==> n as real - 1.0 < r <= n as real
    ensures r >= IntMax as real ==> n == IntMax
    ensures r <= IntMin as real ==> n == IntMin
  {
    Saturate(if r >= 0.0 then r.Floor else -((-r).Floor))
  }

  /** Kotlin `Float.roundToInt()`: rounds to the nearest integer, halves
      toward positive infinity, saturating at the bounds of `Int`. */
  function RoundToInt(r: real): (n: int)
    ensures InIntRange(n)
    ensures IntMin as real - 0.5 <= r < IntMax as real + 0.5 ==> r - 0.5 < n as real <= r + 0.5
    ensures r >= IntMax as real ==> n == IntMax
    ensures r <= IntMin as real ==> n == IntMin
  {
    Saturate((r + 0.5).Floor)
  }

  /** A whole number inside the `Int` range survives `toInt()` unchanged. */
  lemma ToIntOfWhole(k: int)
    requires InIntRange(k)
    ensures ToInt(k as real) == k
  {
  }

  /** `toInt()` is the unique in-range integer that truncates `r` toward
      zero: any such integer is its result. */
  lemma ToIntUnique(r: real, n: int)
    requires InIntRange(n)
    requires 0.0 <= r ==> n as real <= r < n as real + 1.0
    requires r < 0.0 ==> n as real - 1.0 < r <= n as real
    ensures ToInt(r) == n
  {
  }

  /** `toInt()` never decreases when its argument grows. */
  lemma ToIntMonotone(a: real, b: real)
    requires a <= b
    ensures ToInt(a) <= ToInt(b)
  {
  }

  /** Rounding a whole number inside the `Int` range leaves it unchanged. */
  lemma RoundToIntOfWhole(k: int)
    requires InIntRange(k)
    ensures RoundToInt(k as real) == k
  {
  }
}
