/** The driver written in `initold` of main.js: it seeds the field, builds
    the rendering state, runs one frame per animation tick and reseeds the
    field when reset is pressed. main.js itself calls `initnew`, not
    `initold`. Channel values are opaque, so the seeding colours are
    parameters. */
module Driver {
  import opened PixelBuffer
  import opened PingPong

  /** Canvas and field size in pixels, and channels per pixel (RGBA). */
  const Width: nat := 512
  const Height: nat := 512
  const PixSize: nat := 4
  /** Side of the square spot painted at the centre of the seed. */
  const SpotSize: nat := 5
  /** Simulation steps per animation tick. */
  const StepsPerTick: nat := 100

  /** The seed: every element `zero`, then the whole grid painted
      `background`, then a spot with its corner at the centre painted `spot`. */
  function SeedImage<P>(zero: P, background: seq<P>, spot: seq<P>): (r: seq<P>)
    requires |background| >= PixSize && |spot| >= PixSize
    ensures |r| == Width * Height * PixSize
  {
    var blank := seq(Width * Height * PixSize, _ => zero);
    var filled := RectImage(blank, Width, PixSize, 0, 0, Width, Height, background);
    RectImage(filled, Width, PixSize, Width / 2, Height / 2, SpotSize, SpotSize, spot)
  }

  /** Flat position `n` belongs to a pixel of the centre spot. */
  predicate InSpot(n: nat)
  {
    Width / 2 <= Col(n, Width, PixSize) < Width / 2 + SpotSize &&
    Height / 2 <= Row(n, Width, PixSize) < Height / 2 + SpotSize
  }

  /** The seed covers the whole grid: each pixel of the centre spot is
      `spot`, and every other pixel is `background`; the initial `zero` is
      nowhere left. */
  lemma SeedImagePattern<P>(zero: P, background: seq<P>, spot: seq<P>)
    requires |background| >= PixSize && |spot| >= PixSize
    ensures |SeedImage(zero, background, spot)| == Width * Height * PixSize
    ensures forall n :: 0 <= n < Width * Height * PixSize ==>
              SeedImage(zero, background, spot)[n] ==
                if InSpot(n) then spot[Chan(n, PixSize)] else background[Chan(n, PixSize)]
  {
    var blank := seq(Width * Height * PixSize, _ => zero);
    var filled := RectImage(blank, Width, PixSize, 0, 0, Width, Height, background);
    forall n | 0 <= n < Width * Height * PixSize
      ensures filled[n] == background[Chan(n, PixSize)]
    {
      RowBound(n, Width, Height, PixSize);
    }
  }

  /** Builds the seed in a fresh pixel array, as `initold` does before setup
      and on reset. */
  method Seed<P(0)>(zero: P, background: seq<P>, spot: seq<P>) returns (pix: PixelArray<P>)
    requires |background| >= PixSize && |spot| >= PixSize
    ensures fresh(pix) && fresh(pix.data) && pix.Valid()
    ensures pix.width == Width && pix.height == Height && pix.pixSize == PixSize
    ensures pix.data[..] == SeedImage(zero, background, spot)
  {
    pix := new PixelArray(zero, Width, Height, PixSize);
    assert pix.data[..] == seq(Width * Height * PixSize, _ => zero);
    pix.Rect(0, 0, Width, Height, background);
    pix.Rect(Width / 2, Height / 2, SpotSize, SpotSize, spot);
  }

  /** Setup: `tex1` receives the seed, `tex2` starts empty, and both
      programs sample unit 0. */
  method Init<P(0)>(f: seq<P> -> seq<P>, view: seq<P> -> seq<P>, zero: P, background: seq<P>, spot: seq<P>,
                    blank: seq<P>, cleared: seq<P>) returns (gl: GlState<seq<P>>)
    requires |background| >= PixSize && |spot| >= PixSize
    ensures fresh(gl) && gl.f == f && gl.view == view
    ensures gl.Textures() == Buffers(SeedImage(zero, background, spot), blank) && gl.canvas == cleared
    ensures gl.program == MainProgram && gl.target == Offscreen(Fb1)
    ensures gl.mainTexUnit == Unit0 && gl.renderTexUnit == Unit0
  {
    var pix := Seed(zero, background, spot);
    gl := new GlState(f, view, pix.data[..], blank, cleared);
  }

  /** One animation tick: a frame of `StepsPerTick` simulation steps. */
  method AnimationFrame<F>(gl: GlState<F>)
    requires gl.renderTexUnit == Unit0
    modifies gl
    ensures gl.Textures() == Frames(gl.f, old(gl.Textures()), StepsPerTick)
    ensures gl.tex1 == Iter(gl.f, 2 * StepsPerTick, old(gl.tex1))
    ensures gl.canvas == gl.view(gl.tex1)
    ensures gl.program == MainProgram && gl.target == Canvas
    ensures gl.mainTexUnit == Unit1 && gl.renderTexUnit == Unit0
  {
    gl.Frame(StepsPerTick);
  }

  /** The reset button as written: the seed is uploaded to unit 0 with the
      unsized internal format RGBA and FLOAT pixels, which WebGL2 rejects, so
      no texture changes. */
  method ResetAsWritten<P(0)>(gl: GlState<seq<P>>, zero: P, background: seq<P>, spot: seq<P>)
    requires |background| >= PixSize && |spot| >= PixSize
    modifies gl
    ensures gl.Textures() == old(gl.Textures())
    ensures gl.canvas == old(gl.canvas) && gl.program == old(gl.program) && gl.target == old(gl.target)
    ensures gl.mainTexUnit == old(gl.mainTexUnit) && gl.renderTexUnit == old(gl.renderTexUnit)
  {
    var pix := Seed(zero, background, spot);
    gl.SetTexData(Unit0, Rgba, pix.data[..]);
  }

  /** With the upload as written, the tick after a reset presents generation
      `2 * StepsPerTick` of the old `tex1`: the seed never reaches the field. */
  lemma ResetAsWrittenIgnored<F>(f: F -> F, b: Buffers<F>, seed: F)
    ensures Frames(f, Upload(b, Unit0, Rgba, seed), StepsPerTick) == Frames(f, b, StepsPerTick)
    ensures Frames(f, Upload(b, Unit0, Rgba, seed), StepsPerTick).tex1 == Iter(f, 2 * StepsPerTick, b.tex1)
  {
    FramesGenerations(f, b, StepsPerTick);
  }

  /** The identity transition, used by the witness below. */
  function Id(x: int): int { x }

  /** Iterating the identity leaves a value as it was. */
  lemma {:induction false} IterId(n: nat, x: int)
    ensures Iter(Id, n, x) == x
  {
    if n > 0 {
      IterId(n - 1, x);
    }
  }

  /** A concrete witness: with the identity transition, a field of 0 and a
      seed of 1, the tick after the reset as written still presents 0, while
      the reset with RGBA32F presents 1. */
  lemma ResetAsWrittenWitness()
    ensures Frames(Id, Upload(Buffers(0, 0), Unit0, Rgba, 1), StepsPerTick).tex1 == 0
    ensures Frames(Id, Upload(Buffers(0, 0), Unit0, Rgba32f, 1), StepsPerTick).tex1 == 1
  {
    ResetAsWrittenIgnored(Id, Buffers(0, 0), 1);
    IterId(2 * StepsPerTick, 0);
    ResetTakesEffect(Id, Buffers(0, 0), 1);
    IterId(2 * StepsPerTick, 1);
  }

  /** The reset button with the upload in the sized format RGBA32F that
      `tex1` was created with: it reseeds the texture on unit 0, which is
      `tex1`, the texture the next simulation step samples first; `tex2` is
      left as it was. */
  method Reset<P(0)>(gl: GlState<seq<P>>, zero: P, background: seq<P>, spot: seq<P>)
    requires |background| >= PixSize && |spot| >= PixSize
    modifies gl
    ensures gl.Textures() == Buffers(SeedImage(zero, background, spot), old(gl.tex2))
    ensures gl.canvas == old(gl.canvas) && gl.program == old(gl.program) && gl.target == old(gl.target)
    ensures gl.mainTexUnit == old(gl.mainTexUnit) && gl.renderTexUnit == old(gl.renderTexUnit)
  {
    var pix := Seed(zero, background, spot);
    gl.SetTexData(Unit0, Rgba32f, pix.data[..]);
  }

  /** A reset is visible in full at the next tick: whatever `tex2` held, the
      frame after a reset presents generation `2 * StepsPerTick` of the seed,
      and both textures are what they would be after reseeding both. */
  lemma ResetTakesEffect<F>(f: F -> F, b: Buffers<F>, seed: F)
    ensures Frames(f, Upload(b, Unit0, Rgba32f, seed), StepsPerTick).tex1 == Iter(f, 2 * StepsPerTick, seed)
    ensures Frames(f, Upload(b, Unit0, Rgba32f, seed), StepsPerTick) == Frames(f, Buffers(seed, seed), StepsPerTick)
  {
    FramesGenerations(f, Upload(b, Unit0, Rgba32f, seed), StepsPerTick);
    StaleBufferIgnored(f, Upload(b, Unit0, Rgba32f, seed), Buffers(seed, seed), StepsPerTick);
  }
}
