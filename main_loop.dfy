// The animation loop of `main`, run for a given number of frames instead of
// forever: it updates `radius` and `way` in place each iteration and records
// the radius and the diameter that the frame's filled circle is drawn with.

module MainLoop {
  import opened Breathing
  import opened Orbit

  /** Runs `frames` iterations of the loop from `radius = 1, way = Out`.
      `radii[i]` and `diameters[i]` are the radius and the circle diameter of
      frame `i`; `radius` and `way` are the final values of the two locals. */
  method Animate(frames: nat) returns (radii: seq<u32>, diameters: seq<u32>, radius: u32, way: Way)
    ensures |radii| == frames && |diameters| == frames
    ensures Iterate(Initial, frames) == Ok(Anim(radius, way))
    ensures forall n :: 1 <= n <= frames ==>
      Iterate(Initial, n).Ok? && Iterate(Initial, n).value.radius == radii[n - 1]
    ensures forall i :: 0 <= i < frames ==>
      diameters[i] as int == 2 * radii[i] as int && 4 <= diameters[i] <= 256
  {
    radius, way := 1, Out;
    radii, diameters := [], [];
    var i := 0;
    while i < frames
      invariant 0 <= i <= frames
      invariant |radii| == i && |diameters| == i
      invariant Iterate(Initial, i) == Ok(Anim(radius, way))
      invariant Inv(Anim(radius, way))
      invariant forall n :: 1 <= n <= i ==>
        Iterate(Initial, n).Ok? && Iterate(Initial, n).value.radius == radii[n - 1]
      invariant forall k :: 0 <= k < i ==>
        diameters[k] as int == 2 * radii[k] as int && 4 <= diameters[k] <= 256
    {
      StepPreservesInv(Anim(radius, way));
      radius := match way
        case Out => radius * 2
        case In => radius / 2;
      if radius >= GrowLimit {
        way := In;
      }
      if radius <= ShrinkLimit {
        way := Out;
      }
      // the frame: clear, draw a filled circle of this diameter, flush
      var diameter := radius * 2;
      radii := radii + [radius];
      diameters := diameters + [diameter];
      assert Iterate(Initial, i + 1) == Ok(Anim(radius, way));
      i := i + 1;
    }
  }
}
