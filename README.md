# Breathing-circle animation of the GC9A01 skeleton firmware

The firmware brings up a 240×240 round GC9A01 panel over SPI. It then loops
forever. Each iteration draws a yellow filled circle in the middle of the
cleared screen, flushes, and waits 4 ms. The circle "breathes": its radius
doubles while the direction is `Way::Out` and is halved (integer division)
while it is `Way::In`. The direction becomes `In` once the new radius is at
least 120. It becomes `Out` once the new radius is at most 2. The radius
starts at 1 with direction `Out`. It is a `u32`, because it is passed on as
the circle's `u32` diameter `radius * 2`.

This project models that state machine and proves how it behaves.

- `breathing.dfy` (module `Breathing`) holds the state `Anim(radius, way)`, the
  checked `u32` doubling, and the pure one-iteration function `Step`. It also
  holds the loop invariant `Inv` and a start-independent bound `Bounded`.
- `orbit.dfy` (module `Orbit`) holds `Iterate`, the state after `n`
  iterations. It proves that no iteration overflows, that every radius is a
  power of two in 2..128, and that the diameter stays within 4..256. It also
  proves the exact orbit 2, 4, 8, 16, 32, 64, 128, 64, 32, 16, 8, 4, 2, …,
  with least period 12 and turning points exactly at 128 and 2.
- `main_loop.dfy` (module `MainLoop`) holds `Animate`, the loop itself as an
  imperative method. It keeps `radius` and `way` in mutable variables and runs
  a given number of frames instead of forever. It records each frame's radius
  and diameter, and is proved equal, frame by frame, to `Iterate`.

Overflow of `u32` multiplication is modelled as checked arithmetic. A build
with overflow checks panics there, and the model returns `Overflow`. The
proofs show that this case is never reached from the initial state. So a
build that wraps instead behaves the same way.

The limits 120 and 2 are only thresholds, not bounds on the radius. Both
tests run after the update, so from `(1, Out)` the radius reaches 128
(`Orbit.ReachableBounds`, `Orbit.TurningPoints`). From other start states it
can also fall below 2: a shrinking radius of 3 halves to 1
(`Orbit.UndershootFromThree`). From every state with a radius strictly
between the thresholds, in either direction, the radius stays in 1..239. It
returns to both thresholds within 14 iterations (`Orbit.RevisitsBothLimits`).

## Model

| member | source | states |
|---|---|---|
| `Breathing.CheckedDouble` | src/main.rs:111 | `x * 2` on `u32`: it succeeds exactly when `2x` fits in 32 bits, and then its value is `2x` |
| `Breathing.NextRadius` | src/main.rs:110-113 | the radius update (doubling when `Out`, integer halving when `In`); no contract of its own, `Breathing.StepRadius` states it |
| `Breathing.NextWay` | src/main.rs:114-119 | the two direction tests in the loop's order; no contract of its own, `Breathing.StepWay` and `Breathing.NextWayOrderIrrelevant` state it |
| `Breathing.Step` | src/main.rs:110-119 | one iteration of the loop before drawing; no contract of its own, `Breathing.StepRadius`, `Breathing.StepWay` and `Breathing.StepPreservesInv` state it |
| `Breathing.StepRadius` | src/main.rs:110-113 | while `In` an iteration always succeeds and the radius becomes `radius / 2`; while `Out` it succeeds exactly when `2 * radius` fits in `u32`, and the radius becomes `2 * radius` |
| `Breathing.StepWay` | src/main.rs:114-119 | after an iteration the direction is `In` if the new radius is ≥ 120, `Out` if it is ≤ 2, and unchanged strictly between |
| `Breathing.NextWayOrderIrrelevant` | src/main.rs:114-119 | the two direction tests can never both succeed, so performing them in the opposite order gives the same direction |
| `Breathing.InitialInv` | src/main.rs:103-108 | the start state `radius = 1, way = Out` satisfies the loop invariant |
| `Breathing.StepPreservesInv` | src/main.rs:110-121 | from a state in the invariant (power of two; 4..128 when `In`, 1..64 when `Out`) an iteration does not overflow, keeps the invariant, gives a radius in 2..128, and leaves a diameter that fits in `u32` |
| `Breathing.StepPreservesBounded` | src/main.rs:110-119 | from any state with radius 1..119 and `Out`, or 3..239 and `In`, an iteration does not overflow, stays in that set, and keeps the radius in 1..239 (never 0) |
| `Orbit.Iterate` | src/main.rs:109-119 | the state after `n` repetitions of the `loop` body; no contract of its own, `Orbit.ReachableInv`, `Orbit.OrbitFromInitial` and `Orbit.IterateCompose` state it |
| `Orbit.IterateCompose` | src/main.rs:109-119 | running `a` iterations and then `b` more gives the same state as running `a + b` |
| `Orbit.ReachableInv` | src/main.rs:103-119 | every state reached after any number of iterations from `(1, Out)` exists (no overflow) and satisfies the invariant |
| `Orbit.ReachableBounds` | src/main.rs:103-121 | every radius computed in the loop is a power of two in 2..128, and the diameter `radius * 2` does not overflow and lies in 4..256 |
| `Orbit.CycleStep` | src/main.rs:110-119 | each of the twelve orbit states steps to the next, and the last (4, `In`) steps to the first (2, `Out`) |
| `Orbit.OrbitFromInitial` | src/main.rs:103-119 | after `n ≥ 1` iterations the state is entry `(n - 1) mod 12` of 2, 4, 8, 16, 32, 64 (all `Out`) then 128, 64, 32, 16, 8, 4 (all `In`) |
| `Orbit.Periodic` | src/main.rs:109-119 | from the first iteration on, the state after `n + 12` iterations equals the state after `n` |
| `Orbit.MinimalPeriod` | src/main.rs:109-119 | no shift of 1 to 11 iterations repeats the first state, so 12 is the least period |
| `Orbit.TurningPoints` | src/main.rs:114-119 | from the second iteration on, the direction changes exactly when the new radius is 128 (turning `In`) or 2 (turning `Out`), and these occur exactly at positions 6 and 0 of the period |
| `Orbit.IterateBounded` | src/main.rs:110-119 | from any `Bounded` start state every later state exists (no overflow) and is `Bounded` |
| `Orbit.GrowWithin` | src/main.rs:110-116 | a growing state with radius 1..119 whose radius times `2^m` reaches 120 reaches the grow limit within `m` iterations |
| `Orbit.ShrinkWithin` | src/main.rs:110-119 | a shrinking state with radius 3..239 below `3 * 2^m` reaches the shrink limit within `m` iterations |
| `Orbit.RevisitsFromGrowing` | src/main.rs:110-119 | a growing `Bounded` state reaches the grow limit within 7 iterations and the shrink limit within 14 |
| `Orbit.RevisitsFromShrinking` | src/main.rs:110-119 | a shrinking `Bounded` state reaches the shrink limit within 7 iterations and the grow limit within 14 |
| `Orbit.RevisitsBothLimits` | src/main.rs:110-119 | from every `Bounded` state (any radius strictly between the limits, either direction) the radius comes back to at most 2 and to at least 120, each within 14 iterations |
| `Orbit.UndershootFromThree` | src/main.rs:110-119 | the `Bounded` state radius 3 shrinking steps to radius 1 growing, below the shrink limit |
| `MainLoop.Animate` | src/main.rs:102-127 | running the loop for `frames` iterations records in frame `i` the radius of `Iterate` after `i + 1` iterations, and the diameter `2 * radius`, which lies in 4..256; the final `radius` and `way` are the state after `frames` iterations |

## Left out

- Heap set-up with the static arena (src/main.rs:33-44): platform bring-up with no logic.
- Pin, peripheral and SPI configuration (src/main.rs:48-68): hardware I/O.
- Display driver calls `Gc9a01::new`, `reset`, `init`, `set_brightness`, `set_screen_state`, `set_display_rotation`, `fill` and `flush` (src/main.rs:72-87, 100, 120, 125). These are calls into the gc9a01 driver crate, which is not part of this model. In `Animate` they are no-ops, and their `unwrap` failures are not modelled.
- Circle rendering (src/main.rs:121-124) and the text style and `Text` value (src/main.rs:90-98). These are calls into the embedded-graphics crate, which is not part of this model. The model keeps only the diameter handed to `Circle::with_center`. The `Text` value is built but never drawn.
- The 4 ms `Timer::after` pacing and the async executor (src/main.rs:36, 126): timing and scheduling. The infinite `loop` becomes a run of a given number of frames.
- `defmt` logging (src/main.rs:46, 70): it has no effect on behaviour.
- The centre point `(120, 120)` (src/main.rs:102): it is only passed on to the circle primitive.
- Breathing.CheckedDouble: states `radius * 2` (src/main.rs:111, 121) for a build with overflow checks, where an overflow panics. A build without them wraps modulo 2^32 instead. That difference is not modelled, because `Orbit.ReachableBounds` shows the doubling never overflows from `(1, Out)`.
- Breathing.StepRadius: states the growing update for the same overflow-checked build, for the same reason.
