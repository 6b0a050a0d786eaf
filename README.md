# Reaction-diffusion on the GPU: seeding buffer and ping-pong schedule

This project models the parts of `main.js` that have real logic, and proves properties of them. The schedule, tick and reset handler modelled here are those of `initold` (main.js:22-199). main.js itself calls `initnew` (main.js:296), whose ticks run the `WebGLSimulation` engine (main.js:257-260); nothing in main.js calls `initold`.

- **`PixelBuffer`** (`pixel_array.dfy`) models `pixelArray`. It is a flat, row-major array of `width * height` pixels with `pixSize` channels each.
  - The constructor fills every element with one value in a counting loop.
  - `rect` overwrites an axis-aligned block of pixels in place. It writes channel `k` of pixel `(px, py)` at position `(py * width + px) * pixSize + k`.
  - `PixelArray` is a class over an `array`. `Rect` keeps the source's triple loop and is proved against `RectImage`, a pointwise description of the painted buffer.
  - Channel values have an opaque type. The zero-initialised typed array becomes Dafny's default value `P(0)`.
- **`PingPong`** (`ping_pong.dfy`) models the double-buffered update loop of `initold`. `tex1` is created on texture unit 0 and attached to `fb0`; `tex2` is on unit 1 and attached to `fb1`. One `runSim` draws twice. The first draw samples unit 0 into `fb1`, and the second samples unit 1 into `fb0`. `frame(n)` runs `runSim` `n` times and then presents unit 0 on the canvas.
  - `GlState` is the part of the rendering context that these steps touch: the program in use, the bound framebuffer, each program's `tex` sampler uniform, and the contents of the two textures and of the canvas.
  - The update shader is an uninterpreted transition `f` on whole field contents. The presentation shader is an uninterpreted `view`.
  - `DrawArrays` forbids rendering into the texture being sampled. Every draw of `RunSim` meets this requirement, and the verifier checks it.
  - The pure functions `SimStep` and `Frames` describe the same schedule on values.
  - A texture upload names an internal format. A FLOAT upload in the unsized format RGBA is rejected and leaves the textures unchanged.
- **`Driver`** (`driver.dfy`) models the rest of `initold`: the seed (fill, background rectangle, centre spot), setup, one animation tick (`frame(100)`), and the reset button's handler, which uploads a new seed to unit 0.

`runSim` does two draws with fixed roles. Between frames, the newest generation is therefore always `tex1`, which is both the reset target and the presented texture. `rect` never checks its bounds; `Rect` takes them as a precondition (see "Left out").

## Model

| member | source | states |
|---|---|---|
| `PixelBuffer.PixelArray.constructor` | main.js:272-280 | width, height and pixSize are the arguments; the array has `sizeX * sizeY * pixSize` elements, and every element equals `val` |
| `PixelBuffer.PixelArray.Rect` | main.js:282-292 | the new contents are `RectImage` of the old ones. Channel `k` of every pixel in the rectangle holds `val[k]` at the index the source computes, and that index is inside the array. The array and the dimensions are unchanged |
| `PixelBuffer.PixelArray.WriteStep` | main.js:285-287 | each write of the inner loop lands inside the array, on the channel, column and row being painted, and it is the only position with those coordinates |
| `PixelBuffer.Index` | main.js:285-287 | the source's index formula; for a channel below `pixSize`, dividing the index by `pixSize` gives back the pixel number `py * width + px`, and the remainder is the channel |
| `PixelBuffer.RectImage` | main.js:282-292 | the painted buffer: same length as before; a position takes `val` at its channel when its pixel lies in the rectangle, and keeps its old value otherwise |
| `PixelBuffer.DecomposeIndex` | main.js:285 | the index formula is one-to-one: it can be decoded back into channel `k`, column `px` and row `py` when `px < width` and `k < pixSize` |
| `PixelBuffer.RecomposeIndex` | main.js:285 | every flat position is the index formula applied to its own column, row and channel |
| `PixelBuffer.IndexBound` | main.js:276 | a pixel inside the `width` by `height` grid has all its channels below `width * height * pixSize`, the length of the allocated array |
| `PixelBuffer.RowBound` | main.js:276 | every position of the allocated array lies in a row below `height` |
| `PixelBuffer.RectWritten` | main.js:283-288 | when the rectangle fits in the grid, painting writes `val[k]` at the index of channel `k` of each of its pixels, and that index is inside the buffer |
| `PixelBuffer.RectCovers` | main.js:283-288 | a position is painted if and only if it is the index of some channel of some pixel of the rectangle (both directions) |
| `PixelBuffer.RectUnchangedOutside` | main.js:282-292 | every position that no loop iteration writes keeps its old value |
| `PixelBuffer.RectEmpty` | main.js:283-284 | a rectangle of width 0 or height 0 changes nothing |
| `PixelBuffer.RectIdempotent` | main.js:282-292 | painting the same rectangle twice gives the same buffer as painting it once |
| `PingPong.UnitTexture` | main.js:62-69 | the unit bindings that setup leaves: unit 0 holds `tex1` and unit 1 holds `tex2` |
| `PingPong.Attachment` | main.js:67-70 | the framebuffer attachments: `fb0` has `tex1` and `fb1` has `tex2`, in each case the texture on the unit the framebuffer was created with |
| `PingPong.BindingsOneToOne` | main.js:61-70 | each texture is on exactly one unit and attached to exactly one framebuffer |
| `PingPong.Write` | gpuSim/webGLSetup.js:152-161 | replacing one texture's contents sets that texture and leaves the other as it was |
| `PingPong.Upload` | gpuSim/webGLSetup.js:152-161 | a FLOAT upload to a unit: when the internal format is accepted (`FloatUploadAccepted`, RGBA32F only), the texture on that unit holds the new data; the other texture always keeps its contents; a rejected upload (RGBA) changes nothing |
| `PingPong.ApplyDraw` | main.js:140-158 | one `drawArrays` of the update program: the texture attached to the bound framebuffer receives `f` of the texture on the sampled unit, and the other texture keeps its contents |
| `PingPong.SimDraws` | main.js:142-156 | the two draws of `runSim` (unit 0 into `fb1`, then unit 1 into `fb0`): each samples the texture the other renders into |
| `PingPong.SimDrawsNoFeedback` | main.js:138-160 | neither draw of `runSim` samples the texture it renders into: the first reads `tex1` (unit 0) and writes `tex2` (`fb1`), and the second reads `tex2` (unit 1) and writes `tex1` (`fb0`) |
| `PingPong.SimStep` | main.js:138-160 | one `runSim` as the two draws applied in order: `tex2` becomes `f(old tex1)` and `tex1` becomes `f(f(old tex1))`, so the old `tex2` is never read |
| `PingPong.FramesGenerations` | main.js:162-165 | after `n` calls of `runSim`, `tex1` holds generation `2n` of the old `tex1`, and for `n >= 1` `tex2` holds generation `2n - 1` |
| `PingPong.Frames` | main.js:162-170 | the textures after `n` calls of `runSim`; once `n >= 1`, `tex1` (the texture that unit 0 presents) is one generation ahead of `tex2` |
| `PingPong.FramesAdd` | main.js:162-165 | `m` calls of `runSim` followed by `n` more give the same state as `m + n` calls |
| `PingPong.StaleBufferIgnored` | main.js:138-160 | two states that agree on `tex1` agree on both textures after one or more `runSim` calls, so the contents of `tex2` never reach the result |
| `PingPong.GlState.constructor` | main.js:41-121 | after setup, `tex1` holds the seed, `tex2` holds the empty initial contents, `fb1` is bound, both programs' `tex` uniforms are 0, and the update program is in use |
| `PingPong.GlState.UseProgram` | main.js:140 | only the program in use changes |
| `PingPong.GlState.BindFramebuffer` | main.js:142 | only the draw target changes |
| `PingPong.GlState.SetTexUniform` | main.js:145 | the `tex` uniform of the program in use is set, and nothing else changes |
| `PingPong.GlState.DrawArrays` | main.js:148 | requires that the bound framebuffer's texture is not the sampled one. The active program's output for the sampled texture replaces the bound framebuffer's texture, or the canvas when no framebuffer is bound. Everything else is unchanged |
| `PingPong.GlState.SetTexData` | gpuSim/webGLSetup.js:152-161 | a FLOAT upload in the sized format RGBA32F replaces the contents of the texture on the given unit; one in the unsized format RGBA is rejected and leaves both textures as they were. The other texture and all bindings are unchanged |
| `PingPong.GlState.RunSim` | main.js:138-161 | both draws pass the no-feedback check; the textures become `SimStep` of the old ones (`tex2 == f(old tex1)`, `tex1 == f(f(old tex1))`); the canvas is untouched |
| `PingPong.GlState.Frame` | main.js:162-172 | the textures become `Frames(f, old, n)` (loop invariant), `tex1` is generation `2n` of the old `tex1`, and the canvas shows `view(tex1)`. The update program is back in use and the canvas is the draw target. The main program's `tex` uniform is 1 after one or more steps and unchanged after none |
| `Driver.SeedImage` | main.js:57-59 | the seed that `initold` builds: a zero-filled 512 by 512 by 4 array, painted `background` over the whole grid and then `spot` over the 5 by 5 centre block; it has `512 * 512 * 4` elements |
| `Driver.SeedImagePattern` | main.js:57-59 | the seed has `512 * 512 * 4` elements; each pixel of the 5 by 5 spot with its corner at (256, 256) is `spot`, and every other pixel is `background` |
| `Driver.Seed` | main.js:57-59 | the freshly built pixel array is 512 by 512 with 4 channels per pixel and holds exactly `SeedImage` |
| `Driver.Init` | main.js:57-121 | after setup, `tex1` holds the seed and `tex2` the empty contents, `fb1` is bound, the update program is in use, and both programs sample unit 0 |
| `Driver.AnimationFrame` | main.js:178-181 | one tick runs 100 `runSim` calls, leaves `tex1` at generation 200 of the old `tex1`, and presents `view(tex1)`. Afterwards the update program is in use, the canvas is the target, and the main `tex` uniform is 1 |
| `Driver.ResetAsWritten` | main.js:183-189 | the reset handler as written: its RGBA/FLOAT upload is rejected, so the textures, the canvas and all bindings are unchanged |
| `Driver.ResetAsWrittenIgnored` | gpuSim/webGLSetup.js:155-160 | after the reset as written, the next tick gives the same state as no reset at all and presents generation 200 of the old `tex1` |
| `Driver.ResetAsWrittenWitness` | gpuSim/webGLSetup.js:155-160 | with the identity transition, field 0 and seed 1, the tick after the reset as written presents 0, and the tick after the corrected reset presents 1 |
| `Driver.Reset` | main.js:183-189 | the reset with the upload in RGBA32F writes the seed into `tex1` (unit 0) and leaves `tex2`, the canvas and all bindings unchanged |
| `Driver.ResetTakesEffect` | main.js:183-188 | whatever `tex2` held, the tick after a reset presents generation 200 of the seed, and the state is the one that reseeding both textures would give |

## Left out

- `PixelBuffer.PixelArray.constructor` takes `sizeX`, `sizeY` and `pixSize` as natural numbers. In JavaScript, a length `size.x * size.y * pixSize` that truncates below 0 makes the typed-array constructor throw a RangeError, and a fractional length is truncated. Neither is modelled. All callers (main.js:57, 184, 251) pass 512, 512 and 4.
- `PixelBuffer.PixelArray.Rect` requires the rectangle to lie inside the grid (`x + w <= width`, `y + h <= height`) and `val` to have at least `pixSize` entries, and it takes `x`, `y`, `w` and `h` as natural numbers. In JavaScript, a column past the row end wraps into the next row, and a write past the end of the typed array is dropped. A missing channel is written as NaN. A negative coordinate moves the write into an earlier row, or below index 0, where the typed array ignores it. A fractional `x` or `y` gives a fractional index, which the typed array ignores, unless multiplying by `width` or `pixSize` makes it whole. A fractional `w` or `h` paints ⌈w⌉ columns or ⌈h⌉ rows. None of this is modelled, and no caller in `main.js` relies on it: the callers pass 0 and `width / 2 == 256`.
- Channel values are opaque. Float32 conversion of the stored numbers is not modelled.
- `setParameters` (main.js:193-198) and the parameter sliders are not modelled. The uniforms are floats, and `f` stands for the update shader under fixed parameters.
- The shader sources are not part of this model. Both programs are uninterpreted functions on whole field contents (`f` and `view`). Per-pixel evaluation, neighbourhood sampling, texture wrap mode and filtering are not modelled.
- The texture-unit and framebuffer bindings are the fixed functions `UnitTexture` and `Attachment`, because nothing after setup rebinds them. The `activeTexture`/`bindTexture` state is not modelled step by step.
- `PingPong.GlState.SetTexData` distinguishes only the two internal formats this code uses with FLOAT pixels, RGBA (rejected) and RGBA32F (accepted). Other format and type combinations, and the size arguments, are not modelled.
- Shader compilation and linking, attribute and uniform location lookup, vertex buffer setup and the slider UI in gpuSim/webGLSetup.js are not modelled. They are thin wrappers over WebGL.
- `initnew` and the `WebGLSimulation` class it constructs (main.js:201-264, gpu Sim/WebGLSimulation.js) are not modelled. This is the engine that main.js actually starts (main.js:296). Its tick is `sim.runSim(10); sim.render()`, and it installs no reset listener.
- GIF export (`createGIF`, main.js:299-337) is not modelled. It relies on an external worker library, `readPixels` and timers.
- Browser I/O is not modelled: canvas and context acquisition, the extension check, `alert`, clearing the canvas, `requestAnimationFrame` scheduling (`AnimationFrame` models one tick) and event-listener registration (`Reset` models the handler body).

## Findings

| source | as written | input that shows it | evidently intended | confidence | as-written member | corrected member |
|---|---|---|---|---|---|---|
| gpuSim/webGLSetup.js:155 | the reset upload passes the unsized internal format RGBA with type FLOAT; a WebGL2 context rejects that combination with INVALID_OPERATION, so `tex1` keeps its contents and the reset has no effect | the identity transition, field 0 and seed 1: the tick after the reset still presents 0 | upload in RGBA32F, the format `tex1` was created with (gpuSim/webGLSetup.js:113) and the one the later engine's `setTexData` uses (gpu Sim/WebGLSimulation.js:310); the next tick then presents generation 200 of the seed | medium, not executed | `Driver.ResetAsWritten`, `Driver.ResetAsWrittenIgnored`, `Driver.ResetAsWrittenWitness` | `Driver.Reset`, `Driver.ResetTakesEffect` |
