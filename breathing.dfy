// The breathing-circle animation state of the firmware's main loop: a radius
// that doubles while the circle grows and halves while it shrinks, and the
// direction that flips at the two turning thresholds.

module Breathing {

  /** Rust's `u32`, the type the radius is inferred to have (it is passed on
      as the circle's diameter, a `u32`). */
  newtype u32 = x: int | 0 <= x < 0x1_0000_0000

  const U32_MAX: int := 0xFFFF_FFFF

  /** The outcome of a computation with checked arithmetic: an overflow of
      `u32` multiplication panics in a build with overflow checks. */
  datatype Result<T> = Ok(value: T) | Overflow

  /** Direction of the animation: `Way::Out` grows, `Way::In` shrinks. */
  datatype Way = Out | In

  /** The two mutable locals of the loop, `radius` and `way`. */
  datatype Anim = Anim(radius: u32, way: Way)

  /** Once the new radius reaches this, the circle starts shrinking. */
  const GrowLimit: u32 := 120

  /** Once the new radius is at most this, the circle starts growing. */
  const ShrinkLimit: u32 := 2

  /** The state before the first iteration: `radius = 1`, `way = Way::Out`. */
  const Initial: Anim := Anim(1, Out)

  /** `x * 2` on `u32` with overflow checking. It is both the growing update
      of the radius and the diameter handed to the circle primitive. */
  function CheckedDouble(x: u32): (r: Result<u32>)
    ensures r.Ok? <==> 2 * x as int <= U32_MAX
    ensures r.Ok? ==> r.value as int == 2 * x as int
  {
    if x as int <= U32_MAX / 2 then Ok(x * 2) else Overflow
  }

  /** The radius update: doubled when growing, integer-halved when shrinking. */
  function NextRadius(s: Anim): Result<u32>
  {
    match s.way
    case Out => CheckedDouble(s.radius)
    case In => Ok(s.radius / 2)
  }

  /** The two direction tests, in the order the loop performs them. */
  function NextWay(radius: u32, way: Way): Way
  {
    var w := if radius >= GrowLimit then In else way;
    if radius <= ShrinkLimit then Out else w
  }

  /** The same two tests performed in the opposite order. */
  function NextWaySwapped(radius: u32, way: Way): Way
  {
    var w := if radius <= ShrinkLimit then Out else way;
    if radius >= GrowLimit then In else w
  }

  /** One iteration of the loop, before drawing. */
  function Step(s: Anim): Result<Anim>
  {
    match NextRadius(s)
    case Overflow => Overflow
    case Ok(r) => Ok(Anim(r, NextWay(r, s.way)))
  }

  /** What one iteration does to the radius. */
  lemma StepRadius(s: Anim)
    ensures s.way == In ==> Step(s).Ok? && Step(s).value.radius as int == s.radius as int / 2
    ensures s.way == Out ==> (Step(s).Ok? <==> 2 * s.radius as int <= U32_MAX)
    ensures s.way == Out && Step(s).Ok? ==> Step(s).value.radius as int == 2 * s.radius as int
  {
  }

  /** What one iteration does to the direction: set to `In` at or above the
      grow limit, to `Out` at or below the shrink limit, kept otherwise. */
  lemma StepWay(s: Anim)
    ensures Step(s).Ok? ==>
      var t := Step(s).value;
      (t.radius >= GrowLimit ==> t.way == In) &&
      (t.radius <= ShrinkLimit ==> t.way == Out) &&
      (ShrinkLimit < t.radius < GrowLimit ==> t.way == s.way)
  {
  }

  /** The two tests never both succeed, so their order is irrelevant. */
  lemma NextWayOrderIrrelevant(radius: u32, way: Way)
    ensures !(radius >= GrowLimit && radius <= ShrinkLimit)
    ensures NextWay(radius, way) == NextWaySwapped(radius, way)
  {
  }

  /** `n` is a power of two (1, 2, 4, ...). */
  predicate IsPow2(n: int)
    decreases n
  {
    if n <= 0 then false
    else if n == 1 then true
    else n % 2 == 0 && IsPow2(n / 2)
  }

  lemma Pow2Double(n: int)
    requires IsPow2(n)
    ensures IsPow2(2 * n)
  {
  }

  lemma Pow2Half(n: int)
    requires IsPow2(n) && n >= 2
    ensures IsPow2(n / 2) && n / 2 * 2 == n
  {
  }

  /** The invariant of the loop from the initial state: the radius is a
      power of two, in 4..128 while shrinking and in 1..64 while growing
      (1 only before the first iteration). */
  predicate Inv(s: Anim)
  {
    IsPow2(s.radius as int) &&
    (s.way == In ==> 4 <= s.radius <= 128) &&
    (s.way == Out ==> 1 <= s.radius <= 64)
  }

  lemma InitialInv()
    ensures Inv(Initial)
  {
  }

  /** One iteration keeps the invariant, never overflows, keeps the radius
      in 2..128 and, once it has run, never leaves the radius at 1. */
  lemma StepPreservesInv(s: Anim)
    requires Inv(s)
    ensures Step(s).Ok?
    ensures Inv(Step(s).value)
    ensures 2 <= Step(s).value.radius <= 128
    ensures CheckedDouble(Step(s).value.radius).Ok?
  {
    var r := s.radius as int;
    if s.way == Out {
      Pow2Double(r);
    } else {
      Pow2Half(r);
      // a power of two in 4..128 halves to a power of two in 2..64
      assert r / 2 != 3 && r / 2 != 65;
    }
  }

  /** A bound that holds from any start state with a radius in 1..119 whose
      direction is `Out`, or in 3..239 whose direction is `In`: the radius
      never reaches 0 and never exceeds twice the grow limit. */
  predicate Bounded(s: Anim)
  {
    (s.way == Out ==> 1 <= s.radius < GrowLimit) &&
    (s.way == In ==> ShrinkLimit < s.radius < 2 * GrowLimit)
  }

  lemma StepPreservesBounded(s: Anim)
    requires Bounded(s)
    ensures Step(s).Ok?
    ensures Bounded(Step(s).value)
    ensures 1 <= Step(s).value.radius < 2 * GrowLimit
  {
  }
}
