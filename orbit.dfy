// The sequence of states the loop goes through from its initial state:
// bounds, powers of two, and the exact periodic orbit of twelve states.

module Orbit {
  import opened Breathing

  /** The state after `n` iterations from `s`; `Overflow` if any of them
      overflows. */
  function Iterate(s: Anim, n: nat): Result<Anim>
    decreases n
  {
    if n == 0 then Ok(s)
    else match Iterate(s, n - 1)
      case Overflow => Overflow
      case Ok(t) => Step(t)
  }

  /** Every state the loop reaches from `radius = 1, way = Out` exists (no
      iteration overflows) and satisfies the loop invariant. */
  lemma {:induction false} ReachableInv(n: nat)
    ensures Iterate(Initial, n).Ok?
    ensures Inv(Iterate(Initial, n).value)
  {
    if n == 0 {
      InitialInv();
    } else {
      ReachableInv(n - 1);
      StepPreservesInv(Iterate(Initial, n - 1).value);
    }
  }

  /** Every radius computed by the loop is a power of two in 2..128, so it is
      never 0, and the diameter `radius * 2` is at most 256 and never
      overflows. */
  lemma ReachableBounds(n: nat)
    requires n >= 1
    ensures Iterate(Initial, n).Ok?
    ensures var s := Iterate(Initial, n).value;
      2 <= s.radius <= 128 && IsPow2(s.radius as int) &&
      CheckedDouble(s.radius).Ok? && 4 <= CheckedDouble(s.radius).value <= 256
  {
    ReachableInv(n - 1);
    StepPreservesInv(Iterate(Initial, n - 1).value);
  }

  /** The radii of one period, starting with the first iteration. */
  const Cycle: seq<u32> := [2, 4, 8, 16, 32, 64, 128, 64, 32, 16, 8, 4]

  /** The `j`-th state of the period: growing in its first half, shrinking
      in its second. */
  function CycleState(j: nat): Anim
    requires j < 12
  {
    Anim(Cycle[j], if j < 6 then Out else In)
  }

  /** The position within the period advances by one each iteration and
      wraps from 11 to 0; it is unchanged by a whole period. */
  lemma PhaseShift(m: nat)
    ensures (m + 1) % 12 == if m % 12 == 11 then 0 else m % 12 + 1
    ensures (m + 12) % 12 == m % 12
  {
  }

  /** Each state of the period steps to the next one, the last to the first. */
  lemma CycleStep(j: nat)
    requires j < 12
    ensures Step(CycleState(j)) == Ok(CycleState((j + 1) % 12))
  {
  }

  /** After `n >= 1` iterations the state is the `(n - 1) % 12`-th state of
      the period: 2, 4, 8, 16, 32, 64, 128, 64, 32, 16, 8, 4, 2, 4, ... */
  lemma {:induction false} OrbitFromInitial(n: nat)
    requires n >= 1
    ensures Iterate(Initial, n) == Ok(CycleState((n - 1) % 12))
  {
    if n == 1 {
      assert Iterate(Initial, 0) == Ok(Initial);
    } else {
      OrbitFromInitial(n - 1);
      var j := (n - 2) % 12;
      CycleStep(j);
      PhaseShift(n - 2);
      assert (j + 1) % 12 == (n - 1) % 12;
      assert Iterate(Initial, n) == Step(Iterate(Initial, n - 1).value);
    }
  }

  /** From the first iteration on the states repeat with period 12. */
  lemma Periodic(n: nat)
    requires n >= 1
    ensures Iterate(Initial, n + 12) == Iterate(Initial, n)
  {
    OrbitFromInitial(n);
    OrbitFromInitial(n + 12);
    PhaseShift(n - 1);
  }

  /** 12 is the least period: no shorter shift maps the orbit onto itself. */
  lemma MinimalPeriod(p: nat)
    requires 1 <= p < 12
    ensures Iterate(Initial, 1 + p) != Iterate(Initial, 1)
  {
    OrbitFromInitial(1);
    OrbitFromInitial(1 + p);
  }

  /** The turning points: the direction changes exactly when the new radius
      is 128 (from growing to shrinking) or 2 (from shrinking to growing); the
      radius is 128 once per period and 2 once per period. */
  lemma TurningPoints(n: nat)
    requires n >= 2
    ensures Iterate(Initial, n).Ok? && Iterate(Initial, n - 1).Ok?
    ensures var s, prev := Iterate(Initial, n).value, Iterate(Initial, n - 1).value;
      (s.way != prev.way <==> s.radius == 128 || s.radius == 2) &&
      (s.radius == 128 <==> (n - 1) % 12 == 6) &&
      (s.radius == 2 <==> (n - 1) % 12 == 0) &&
      (s.radius == 128 ==> s.way == In) &&
      (s.radius == 2 ==> s.way == Out)
  {
    OrbitFromInitial(n);
    OrbitFromInitial(n - 1);
    PhaseShift(n - 2);
  }

  /** Running `a` iterations and then `b` more is running `a + b`. */
  lemma {:induction false} IterateCompose(s: Anim, a: nat, b: nat)
    ensures Iterate(s, a + b) ==
      match Iterate(s, a)
      case Overflow => Overflow
      case Ok(t) => Iterate(t, b)
  {
    if b != 0 {
      IterateCompose(s, a, b - 1);
    }
  }

  /** `Bounded` holds all along the run from any `Bounded` start state, and no
      iteration overflows. */
  lemma {:induction false} IterateBounded(s: Anim, n: nat)
    requires Bounded(s)
    ensures Iterate(s, n).Ok? && Bounded(Iterate(s, n).value)
  {
    if n != 0 {
      IterateBounded(s, n - 1);
      StepPreservesBounded(Iterate(s, n - 1).value);
    }
  }

  /** `2` to the power `m`. */
  function Pow2(m: nat): (p: int)
    ensures p >= 1
  {
    if m == 0 then 1 else 2 * Pow2(m - 1)
  }

  /** A growing state whose radius reaches the grow limit after `m` doublings
      does so, within `m` iterations. */
  lemma {:induction false} GrowWithin(s: Anim, m: nat)
    requires s.way == Out && 1 <= s.radius < GrowLimit
    requires s.radius as int * Pow2(m) >= GrowLimit as int
    decreases m
    ensures exists k :: 1 <= k <= m && Iterate(s, k).Ok? && Iterate(s, k).value.radius >= GrowLimit
  {
    assert m >= 1;
    assert Iterate(s, 1) == Step(s);
    var t := Step(s).value;
    if t.radius >= GrowLimit {
      assert Iterate(s, 1).value.radius >= GrowLimit;
    } else {
      assert t.radius as int * Pow2(m - 1) == s.radius as int * Pow2(m);
      GrowWithin(t, m - 1);
      var k :| 1 <= k <= m - 1 && Iterate(t, k).Ok? && Iterate(t, k).value.radius >= GrowLimit;
      IterateCompose(s, 1, k);
      assert Iterate(s, 1 + k) == Iterate(t, k);
    }
  }

  /** A shrinking state whose radius halves to at most the shrink limit after
      `m` halvings does so, within `m` iterations. */
  lemma {:induction false} ShrinkWithin(s: Anim, m: nat)
    requires s.way == In && ShrinkLimit < s.radius < 2 * GrowLimit
    requires (s.radius as int) < 3 * Pow2(m)
    decreases m
    ensures exists k :: 1 <= k <= m && Iterate(s, k).Ok? && Iterate(s, k).value.radius <= ShrinkLimit
  {
    assert m >= 1;
    assert Iterate(s, 1) == Step(s);
    var t := Step(s).value;
    if t.radius <= ShrinkLimit {
      assert Iterate(s, 1).value.radius <= ShrinkLimit;
    } else {
      assert (s.radius as int) < 2 * (3 * Pow2(m - 1));
      ShrinkWithin(t, m - 1);
      var k :| 1 <= k <= m - 1 && Iterate(t, k).Ok? && Iterate(t, k).value.radius <= ShrinkLimit;
      IterateCompose(s, 1, k);
      assert Iterate(s, 1 + k) == Iterate(t, k);
    }
  }

  /** A growing `Bounded` state first reaches the grow limit, then turns
      and halves down to the shrink limit. */
  lemma RevisitsFromGrowing(s: Anim)
    requires Bounded(s) && s.way == Out
    ensures exists k :: 1 <= k <= 7 && Iterate(s, k).Ok? && Iterate(s, k).value.radius >= GrowLimit
    ensures exists k :: 1 <= k <= 14 && Iterate(s, k).Ok? && Iterate(s, k).value.radius <= ShrinkLimit
  {
    assert Pow2(7) == 128;
    GrowWithin(s, 7);
    var k1 :| 1 <= k1 <= 7 && Iterate(s, k1).Ok? && Iterate(s, k1).value.radius >= GrowLimit;
    var u := Iterate(s, k1).value;
    IterateBounded(s, k1);
    ShrinkWithin(u, 7);
    var k2 :| 1 <= k2 <= 7 && Iterate(u, k2).Ok? && Iterate(u, k2).value.radius <= ShrinkLimit;
    IterateCompose(s, k1, k2);
    assert Iterate(s, k1 + k2) == Iterate(u, k2);
  }

  /** A shrinking `Bounded` state first reaches the shrink limit, then turns
      and doubles up to the grow limit. */
  lemma RevisitsFromShrinking(s: Anim)
    requires Bounded(s) && s.way == In
    ensures exists k :: 1 <= k <= 7 && Iterate(s, k).Ok? && Iterate(s, k).value.radius <= ShrinkLimit
    ensures exists k :: 1 <= k <= 14 && Iterate(s, k).Ok? && Iterate(s, k).value.radius >= GrowLimit
  {
    assert Pow2(7) == 128;
    ShrinkWithin(s, 7);
    var k1 :| 1 <= k1 <= 7 && Iterate(s, k1).Ok? && Iterate(s, k1).value.radius <= ShrinkLimit;
    var u := Iterate(s, k1).value;
    IterateBounded(s, k1);
    GrowWithin(u, 7);
    var k2 :| 1 <= k2 <= 7 && Iterate(u, k2).Ok? && Iterate(u, k2).value.radius >= GrowLimit;
    IterateCompose(s, k1, k2);
    assert Iterate(s, k1 + k2) == Iterate(u, k2);
  }

  /** From every `Bounded` state, in particular from every radius strictly
      between the two limits in either direction, the run comes back to the
      grow limit and to the shrink limit, each within 14 iterations: the
      radius oscillates instead of drifting. */
  lemma RevisitsBothLimits(s: Anim)
    requires Bounded(s)
    ensures exists k :: 1 <= k <= 14 && Iterate(s, k).Ok? && Iterate(s, k).value.radius <= ShrinkLimit
    ensures exists k :: 1 <= k <= 14 && Iterate(s, k).Ok? && Iterate(s, k).value.radius >= GrowLimit
  {
    if s.way == Out {
      RevisitsFromGrowing(s);
    } else {
      RevisitsFromShrinking(s);
    }
  }

  /** Away from the initial state the radius can fall below the shrink limit:
      a shrinking radius of 3 halves to 1. */
  lemma UndershootFromThree()
    ensures Bounded(Anim(3, In))
    ensures Step(Anim(3, In)) == Ok(Anim(1, Out))
  {
  }
}
