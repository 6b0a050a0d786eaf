/** The double-buffered update schedule. The simulation field lives in two
    textures, `tex1` and `tex2`. Each is bound to a texture unit for reading
    and attached to a framebuffer for writing. One `runSim` draws twice: first
    from `tex1` into `tex2`, then from `tex2` back into `tex1`. `frame(n)`
    runs `runSim` n times and then presents `tex1` on the canvas. The per-pixel
    update program is an uninterpreted transition `f` on whole field contents,
    and the presentation program an uninterpreted `view`. */
module PingPong {

  datatype Tex = Tex1 | Tex2
  datatype TexUnit = Unit0 | Unit1
  datatype Framebuffer = Fb0 | Fb1
  /** The draw target: an off-screen framebuffer, or the canvas itself. */
  datatype Target = Offscreen(fb: Framebuffer) | Canvas
  datatype Program = MainProgram | RenderTex

  /** The texture each unit holds after setup: `tex1` was created on unit 0
      and `tex2` on unit 1, and attaching them to framebuffers rebinds each to
      the same unit. */
  function UnitTexture(u: TexUnit): (t: Tex)
    ensures t == Tex1 <==> u == Unit0
  {
    match u
    case Unit0 => Tex1
    case Unit1 => Tex2
  }

  /** The texture unit each framebuffer was created with. */
  function FramebufferUnit(fb: Framebuffer): TexUnit
  {
    match fb
    case Fb0 => Unit0
    case Fb1 => Unit1
  }

  /** The texture attached to each framebuffer as its colour target: `tex1`
      to `fb0` and `tex2` to `fb1`, in each case the texture on the unit the
      framebuffer was created with. */
  function Attachment(fb: Framebuffer): (t: Tex)
    ensures t == UnitTexture(FramebufferUnit(fb))
  {
    match fb
    case Fb0 => Tex1
    case Fb1 => Tex2
  }

  /** Each texture is on exactly one unit and attached to exactly one
      framebuffer. */
  lemma BindingsOneToOne()
    ensures forall u, u' :: UnitTexture(u) == UnitTexture(u') ==> u == u'
    ensures forall fb, fb' :: Attachment(fb) == Attachment(fb') ==> fb == fb'
  {
  }

  /** The contents of the two textures. */
  datatype Buffers<F> = Buffers(tex1: F, tex2: F)

  function Read<F>(b: Buffers<F>, t: Tex): F
  {
    match t
    case Tex1 => b.tex1
    case Tex2 => b.tex2
  }

  /** Replaces the contents of texture `t` and only of `t`. */
  function Write<F>(b: Buffers<F>, t: Tex, v: F): (r: Buffers<F>)
    ensures Read(r, t) == v
    ensures forall t' :: t' != t ==> Read(r, t') == Read(b, t')
  {
    match t
    case Tex1 => b.(tex1 := v)
    case Tex2 => b.(tex2 := v)
  }

  /** The internal format a texture upload names. With pixel type FLOAT, a
      WebGL2 context accepts the sized format RGBA32F; the unsized RGBA goes
      only with byte and packed-short pixel types, so a FLOAT upload naming it
      is rejected with INVALID_OPERATION and the texture keeps its contents. */
  datatype InternalFormat = Rgba | Rgba32f

  predicate FloatUploadAccepted(fmt: InternalFormat)
  {
    fmt == Rgba32f
  }

  /** The textures after a FLOAT upload of `data` to the texture on unit `u`:
      an accepted upload replaces that texture and keeps the other, a rejected
      one changes nothing. */
  function Upload<F>(b: Buffers<F>, u: TexUnit, fmt: InternalFormat, data: F): (r: Buffers<F>)
    ensures FloatUploadAccepted(fmt) ==> Read(r, UnitTexture(u)) == data
    ensures forall t :: t != UnitTexture(u) ==> Read(r, t) == Read(b, t)
    ensures !FloatUploadAccepted(fmt) ==> r == b
  {
    if FloatUploadAccepted(fmt) then Write(b, UnitTexture(u), data) else b
  }

  /** One off-screen draw of the update program: it samples the texture on
      unit `src` and renders into framebuffer `dst`. */
  datatype Draw = Draw(src: TexUnit, dst: Framebuffer)

  /** A draw is legal only when the texture it renders into is not the
      texture it samples (otherwise the read and the write would race). */
  predicate NoFeedback(d: Draw)
  {
    Attachment(d.dst) != UnitTexture(d.src)
  }

  /** The textures after the draw `d` of the update program: the texture
      attached to `d.dst` receives `f` of the texture on unit `d.src`, and the
      other texture keeps its contents. */
  function ApplyDraw<F>(f: F -> F, b: Buffers<F>, d: Draw): (r: Buffers<F>)
    ensures Read(r, Attachment(d.dst)) == f(Read(b, UnitTexture(d.src)))
    ensures forall t :: t != Attachment(d.dst) ==> Read(r, t) == Read(b, t)
  {
    Write(b, Attachment(d.dst), f(Read(b, UnitTexture(d.src))))
  }

  /** The two draws of one `runSim`, in order: unit 0 into `fb1`, then unit 1
      into `fb0`. Each draw samples the texture the other renders into. */
  function SimDraws(): (r: seq<Draw>)
    ensures |r| == 2
    ensures Attachment(r[0].dst) == UnitTexture(r[1].src)
    ensures Attachment(r[1].dst) == UnitTexture(r[0].src)
  {
    [Draw(Unit0, Fb1), Draw(Unit1, Fb0)]
  }

  /** One `runSim` advances `tex2` one generation past the old `tex1`, and
      `tex1` two; the old `tex2` is never read. */
  function SimStep<F>(f: F -> F, b: Buffers<F>): (r: Buffers<F>)
    ensures r.tex2 == f(b.tex1)
    ensures r.tex1 == f(f(b.tex1))
  {
    ApplyDraw(f, ApplyDraw(f, b, SimDraws()[0]), SimDraws()[1])
  }

  /** The textures after `n` calls of `runSim`. After at least one call,
      `tex1`, the texture that unit 0 presents, is the newest generation: one
      step ahead of `tex2`. */
  function Frames<F>(f: F -> F, b: Buffers<F>, n: nat): (r: Buffers<F>)
    ensures n >= 1 ==> r.tex1 == f(r.tex2)
  {
    if n == 0 then b else SimStep(f, Frames(f, b, n - 1))
  }

  /** `f` applied `n` times: generation `n` of the field that starts at `x`. */
  function Iter<F>(f: F -> F, n: nat, x: F): F
  {
    if n == 0 then x else f(Iter(f, n - 1, x))
  }

  // ---------------------------------------------------------------------------
  // Properties of the schedule

  /** Neither draw of `runSim` samples the texture it renders into, the first
      draw reads `tex1` and writes `tex2`, and the second reads `tex2` and
      writes `tex1`. */
  lemma SimDrawsNoFeedback()
    ensures forall i :: 0 <= i < |SimDraws()| ==> NoFeedback(SimDraws()[i])
    ensures UnitTexture(SimDraws()[0].src) == Tex1 && Attachment(SimDraws()[0].dst) == Tex2
    ensures UnitTexture(SimDraws()[1].src) == Tex2 && Attachment(SimDraws()[1].dst) == Tex1
  {
  }

  /** After `n` calls of `runSim`, `tex1` holds generation `2n` of the old
      `tex1` and, once at least one call has run, `tex2` holds generation
      `2n - 1`. */
  lemma {:induction false} FramesGenerations<F>(f: F -> F, b: Buffers<F>, n: nat)
    ensures Frames(f, b, n).tex1 == Iter(f, 2 * n, b.tex1)
    ensures n >= 1 ==> Frames(f, b, n).tex2 == Iter(f, 2 * n - 1, b.tex1)
  {
    if n > 0 {
      FramesGenerations(f, b, n - 1);
      assert Iter(f, 2 * n - 1, b.tex1) == f(Iter(f, 2 * (n - 1), b.tex1));
    }
  }

  /** Running `m` and then `n` calls of `runSim` is running `m + n`. */
  lemma {:induction false} FramesAdd<F>(f: F -> F, b: Buffers<F>, m: nat, n: nat)
    ensures Frames(f, b, m + n) == Frames(f, Frames(f, b, m), n)
  {
    if n > 0 {
      FramesAdd(f, b, m, n - 1);
    }
  }

  /** Between frames, what `tex2` holds never reaches the result: two states
      that agree on `tex1` agree on both textures after one `runSim` or more.
      So a reset that writes `tex1` takes effect on the very next draw. */
  lemma {:induction false} StaleBufferIgnored<F>(f: F -> F, b: Buffers<F>, c: Buffers<F>, n: nat)
    requires b.tex1 == c.tex1 && n >= 1
    ensures Frames(f, b, n) == Frames(f, c, n)
  {
    if n > 1 {
      StaleBufferIgnored(f, b, c, n - 1);
    }
  }

  // ---------------------------------------------------------------------------
  // The rendering context: the bound program, framebuffer and uniforms, and
  // the contents of the two textures and of the canvas.

  class GlState<F> {
    /** The update program's transition and the presentation program's
        mapping; neither shader's formula is modelled. */
    const f: F -> F
    const view: F -> F

    var tex1: F
    var tex2: F
    var canvas: F
    var program: Program
    var target: Target
    /** The value of the `tex` sampler uniform of each program. */
    var mainTexUnit: TexUnit
    var renderTexUnit: TexUnit

    function Textures(): Buffers<F>
      reads this
    {
      Buffers(tex1, tex2)
    }

    /** The unit the program in use samples. */
    function SourceUnit(): TexUnit
      reads this
    {
      if program == MainProgram then mainTexUnit else renderTexUnit
    }

    /** The state left by setup: `tex1` holds the seeded field, `tex2` was
        created empty, the last framebuffer created (`fb1`) is bound, both
        `tex` uniforms are 0 and the update program is in use. */
    constructor (f: F -> F, view: F -> F, seed: F, blank: F, cleared: F)
      ensures this.f == f && this.view == view
      ensures Textures() == Buffers(seed, blank) && canvas == cleared
      ensures program == MainProgram && target == Offscreen(Fb1)
      ensures mainTexUnit == Unit0 && renderTexUnit == Unit0
    {
      this.f := f;
      this.view := view;
      tex1, tex2, canvas := seed, blank, cleared;
      target := Offscreen(Fb1);
      program := MainProgram;
      mainTexUnit, renderTexUnit := Unit0, Unit0;
    }

    method UseProgram(p: Program)
      modifies this
      ensures program == p
      ensures target == old(target) && Textures() == old(Textures()) && canvas == old(canvas)
      ensures mainTexUnit == old(mainTexUnit) && renderTexUnit == old(renderTexUnit)
    {
      program := p;
    }

    method BindFramebuffer(t: Target)
      modifies this
      ensures target == t
      ensures program == old(program) && Textures() == old(Textures()) && canvas == old(canvas)
      ensures mainTexUnit == old(mainTexUnit) && renderTexUnit == old(renderTexUnit)
    {
      target := t;
    }

    /** Sets the `tex` uniform of the program in use. */
    method SetTexUniform(u: TexUnit)
      modifies this
      ensures SourceUnit() == u
      ensures program == MainProgram ==> mainTexUnit == u && renderTexUnit == old(renderTexUnit)
      ensures program == RenderTex ==> renderTexUnit == u && mainTexUnit == old(mainTexUnit)
      ensures program == old(program) && target == old(target)
      ensures Textures() == old(Textures()) && canvas == old(canvas)
    {
      if program == MainProgram {
        mainTexUnit := u;
      } else {
        renderTexUnit := u;
      }
    }

    /** Draws the full-surface quad with the program in use: the program's
        output for the sampled texture replaces the contents of the bound
        target. Rendering into the texture being sampled is not allowed. */
    method DrawArrays()
      requires target.Offscreen? ==> Attachment(target.fb) != UnitTexture(SourceUnit())
      modifies this
      ensures var src := Read(old(Textures()), UnitTexture(SourceUnit()));
              var out := if program == MainProgram then f(src) else view(src);
              if target.Offscreen?
              then Textures() == Write(old(Textures()), Attachment(target.fb), out) && canvas == old(canvas)
              else Textures() == old(Textures()) && canvas == out
      ensures program == old(program) && target == old(target)
      ensures mainTexUnit == old(mainTexUnit) && renderTexUnit == old(renderTexUnit)
    {
      var src := Read(Textures(), UnitTexture(SourceUnit()));
      var out := if program == MainProgram then f(src) else view(src);
      if target.Offscreen? {
        if Attachment(target.fb) == Tex1 {
          tex1 := out;
        } else {
          tex2 := out;
        }
      } else {
        canvas := out;
      }
    }

    /** Uploads `data`, as FLOAT pixels in internal format `fmt`, to the
        texture on unit `u`. A rejected upload leaves every texture as it was. */
    method SetTexData(u: TexUnit, fmt: InternalFormat, data: F)
      modifies this
      ensures Textures() == Upload(old(Textures()), u, fmt, data)
      ensures FloatUploadAccepted(fmt) ==> Read(Textures(), UnitTexture(u)) == data
      ensures !FloatUploadAccepted(fmt) ==> Textures() == old(Textures())
      ensures canvas == old(canvas) && program == old(program) && target == old(target)
      ensures mainTexUnit == old(mainTexUnit) && renderTexUnit == old(renderTexUnit)
    {
      if !FloatUploadAccepted(fmt) {
        return;
      }
      if u == Unit0 {
        tex1 := data;
      } else {
        tex2 := data;
      }
    }

    /** One simulation step: two draws of the update program, first sampling
        unit 0 into `fb1`, then sampling unit 1 into `fb0`. */
    method RunSim()
      modifies this
      ensures Textures() == SimStep(f, old(Textures()))
      ensures tex2 == f(old(tex1)) && tex1 == f(f(old(tex1)))
      ensures program == MainProgram && target == Offscreen(Fb0) && mainTexUnit == Unit1
      ensures canvas == old(canvas) && renderTexUnit == old(renderTexUnit)
    {
      UseProgram(MainProgram);

      BindFramebuffer(Offscreen(SimDraws()[0].dst));
      SetTexUniform(SimDraws()[0].src);
      DrawArrays();

      BindFramebuffer(Offscreen(SimDraws()[1].dst));
      SetTexUniform(SimDraws()[1].src);
      DrawArrays();
    }

    /** Runs `iterations` simulation steps, then presents unit 0 on the
        canvas with the presentation program and switches back to the update
        program. */
    method Frame(iterations: nat)
      requires renderTexUnit == Unit0
      modifies this
      ensures Textures() == Frames(f, old(Textures()), iterations)
      ensures tex1 == Iter(f, 2 * iterations, old(tex1))
      ensures canvas == view(tex1)
      ensures program == MainProgram && target == Canvas && renderTexUnit == Unit0
      ensures iterations > 0 ==> mainTexUnit == Unit1
      ensures iterations == 0 ==> mainTexUnit == old(mainTexUnit)
    {
      var i := 0;
      while i < iterations
        invariant 0 <= i <= iterations
        invariant Textures() == Frames(f, old(Textures()), i)
        invariant renderTexUnit == Unit0
        invariant i > 0 ==> mainTexUnit == Unit1
        invariant i == 0 ==> mainTexUnit == old(mainTexUnit)
      {
        RunSim();
        i := i + 1;
      }
      FramesGenerations(f, old(Textures()), iterations);

      BindFramebuffer(Canvas);
      UseProgram(RenderTex);
      DrawArrays();
      UseProgram(MainProgram);
    }
  }
}
