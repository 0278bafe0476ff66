# Render engine of the MotionBlur present hook, in Dafny

The program replaces `eglSwapBuffers` with `hook`. For each surface wider than 100
pixels, `hook` runs a post-processing frame (`render`) and then calls the original
present function. `render` keeps a small state machine in module-level statics:
- the stored surface size `sW x sH`;
- the internal resolution `iW x iH`;
- the ping-pong index `ping`;
- the GL names of a raw target, two history targets, a vertex array and two programs.

When the size changes, or nothing is allocated yet, `render` calls `initGL`. `initGL`:
1. releases the raw and history targets and the vertex array, once they exist;
2. computes `(int)(w * 0.5f)` and `(int)(h * 0.5f)`;
3. builds the shaders, the programs and the fullscreen quad;
4. allocates the three targets;
5. clears both history slots;
6. records the size.

Each frame then runs in this order:
1. disables scissor, depth and blending;
2. blits the screen into the raw target;
3. blurs into history slot `ping`, reading the other slot;
4. draws slot `ping` to the screen;
5. flips `ping`.

The model has four modules:

- `GlTrace`: the vocabulary.
  - The C `int` range, GL names, and the `Op` events. An `Op` stands for one GL/EGL call or for a short group of calls that serve one purpose (compiling a shader, allocating a target, a blur pass).
  - Functions that pick calls of one kind out of a trace (`Filter`) or collect the names handed to the delete calls (`ReleasedNames`).
- `Scale`: `(int)(x * 0.5f)` as IEEE-754 single precision computes it.
  - The `int` is rounded to a 24-bit significand, ties to even.
  - The product with 0.5 is exact.
  - The cast back truncates toward zero.
- `EngineSpec`: the statics as a `State` value.
  - `initGL`, `render` and `hook` are functions from a state and the inputs to the next state and the calls issued (`Step`).
  - `RunFrames` is a run of consecutive frames.
  - The invariant `Valid` holds for every reachable state.
- `EngineProps`: lemmas stating what the three functions promise, for every valid state.
- `Engine`: the class `RenderEngine`.
  - Its fields are the statics; `histTex` and `histFBO` are two-element arrays.
  - A ghost `trace` holds the calls issued so far.
  - Its methods `InitGL`, `Render` and `Hook` follow the source statement by statement. `InitGL` is split at the source's own comment boundaries and lambdas.
  - Each method is proved to move the fields (read through `Abs()`) and the trace exactly as the matching `EngineSpec` function says.

GL object names come from the GL driver, which the class models with one extra field, `nextName`; the source has no such variable. It starts at 1. Each `glGen*` or `glCreate*` call hands out the current value and advances the counter. So the names `initGL` returns are fixed by the order in which it creates objects:
- shaders `n`, `n+1`, `n+2`;
- programs `n+3`, `n+4`;
- the quad `n+5`, `n+6`, `n+7`;
- the targets `n+8` to `n+13`.

This is what lets the model state which names the delete calls release.

What the code does not do, the model does not do either:
- the code does not reset `ping` on a resize;
- it does not clamp the internal resolution to at least 1 x 1;
- it does not check compile, link or framebuffer status, and has no fallback path;
- `initGL` never deletes the shaders, programs or quad buffers it created earlier. It releases only the raw and history textures and framebuffers and the vertex array (`InitLeaksPrograms`).

`(int)(w * 0.5f)` equals `w / 2` below 2^24 in magnitude, which the model proves. Above 2^24 it does not: `LargeWidthRounds` gives a width where the result differs.

## Model

| member | source | states |
|---|---|---|
| Scale.RoundBitsBounds | src/main.cpp:134 | the `int -> float` conversion lands within half an ulp of the value, and is exact below 2^24 when there is no guard bit |
| Scale.UlpBounds | src/main.cpp:134 | the float spacing is 1 below 2^24 and at most `m / 2^23` above |
| Scale.ScaleHalfSpec | src/main.cpp:134 | `(int)(x * 0.5f)` is `x / 2` truncated toward zero for `|x| < 2^24`, lies between 0 and `x`, and is at least 50 for `x > 100`; no clamping |
| Scale.LargeWidthRounds | src/main.cpp:134 | at width 16777219 the float conversion rounds, so the result is 8388610, not `w / 2` |
| EngineSpec.Initial | src/main.cpp:125-127 | the static initialisers give a valid state with no resources and `ping == 0` |
| EngineSpec.InitStep | src/main.cpp:129-166 | `initGL` keeps the engine invariant: buffers sized by the stored size, distinct live names |
| EngineSpec.RenderStep | src/main.cpp:168-194 | `render` keeps the engine invariant |
| EngineSpec.FlipKeepsValid | src/main.cpp:193 | flipping `ping` keeps the invariant |
| EngineSpec.HookStep | src/main.cpp:200-204 | `hook` keeps the engine invariant |
| EngineProps.InitRecordsSize | src/main.cpp:129-166 | `initGL` stores `w x h`, sets the internal resolution from it, allocates the raw target, and leaves `ping` alone |
| EngineProps.ReleaseOpsNames | src/main.cpp:131 | the cleanup deletes exactly the raw, history and vertex-array names when `rawTex != 0`, and nothing otherwise |
| EngineProps.InitAllocs | src/main.cpp:153-160 | the allocations of `initGL` are the raw target, then history slots 0 and 1, at `iW x iH` |
| EngineProps.InitNoDrawNoForward | src/main.cpp:129-166 | `initGL` issues no blur pass and no present call |
| EngineProps.InitReleasedNames | src/main.cpp:129-166 | the names `initGL` deletes are the raw, history and vertex-array names, or none on the first call |
| EngineProps.InitOpsGroups | src/main.cpp:129-166 | the allocation, blur, present and delete calls of `initGL` together |
| EngineProps.InitOpsPositions | src/main.cpp:129-166 | the deletes come first (exactly 5 or 0), the three allocations lie at fixed positions, and the two clears end the call list |
| EngineProps.InitReleasesFirst | src/main.cpp:131-160 | `initGL` deletes iff `rawTex != 0`, deletes exactly the raw, history and vertex-array names, and every delete precedes every allocation |
| EngineProps.InitAllocatesThenClears | src/main.cpp:160-164 | the raw, history-0 and history-1 targets are allocated at the internal resolution, and history slots 0 and 1 are cleared afterwards |
| EngineProps.InitReleasesOldNames | src/main.cpp:131 | every deleted name was handed out before the call |
| EngineProps.InitLeaksPrograms | src/main.cpp:131-150 | every `initGL` creates three shaders, two programs and the quad with its two buffers, but deletes only the raw, history and vertex-array names, so a re-initialisation replaces the old programs without deleting them |
| EngineProps.RenderRecordsSize | src/main.cpp:168-194 | after `render(w, h)`: `sW == w`, `sH == h`, `iW x iH` matches, resources allocated, `ping` flipped and still 0 or 1 |
| EngineProps.RenderOrder | src/main.cpp:169-191 | the calls of a frame are the optional `initGL`, then the three disables, the blit `w x h -> iW x iH`, the blur into `ping` reading `1 - ping` at `iW x iH`, and the draw to the screen at `w x h` reading slot `ping` |
| EngineProps.InitIfNeededGroups | src/main.cpp:169 | the optional re-initialisation allocates and deletes only when it runs, and never touches `ping` |
| EngineProps.FrameGroups | src/main.cpp:173-191 | the fixed part of a frame has one blur pass and no deletes, allocations or present call |
| EngineProps.RenderBlursOnce | src/main.cpp:180-185 | each frame blurs exactly once, writing slot `ping` and reading the other slot |
| EngineProps.RenderReinitIff | src/main.cpp:169 | a frame allocates iff `w != sW \|\| h != sH \|\| rawTex == 0`; then it allocates the three targets and deletes the previous raw, history and vertex-array names; otherwise it neither deletes nor allocates |
| EngineProps.SecondRenderNoRealloc | src/main.cpp:169 | a second `render` at the same size deletes and allocates nothing |
| EngineProps.BlurRun | src/main.cpp:180-193 | the reference list of blur passes of a frame run: one per frame, slots alternating from the start slot |
| EngineProps.FramesBlurs | src/main.cpp:168-194 | the blur passes of any run of frames are exactly `BlurRun` from the current `ping` |
| EngineProps.BlurRunAlternates | src/main.cpp:180-193 | in `BlurRun` the first pass writes the start slot, each pass writes the slot the previous one did not, and no pass reads the slot it writes |
| EngineProps.FramesAlternate | src/main.cpp:180-193 | over any run of frames, resizes included, the written history slot alternates strictly from `ping`, one blur per frame, never reading the written slot |
| EngineProps.FramesPing | src/main.cpp:193 | after `k` frames `ping` is `(ping + k) % 2`; a resize does not reset it |
| EngineProps.StableFramesNoRealloc | src/main.cpp:169 | frames at the size already allocated never delete or allocate |
| EngineProps.OnlyFirstFrameReallocates | src/main.cpp:169 | `n` frames at one size allocate and delete exactly what the first frame does |
| EngineProps.RenderNoForward | src/main.cpp:168-194 | a frame never calls the original present function |
| EngineProps.HookGateAndForward | src/main.cpp:200-204 | `hook` runs a frame iff `w > 100`, otherwise leaves the state untouched, and forwards once, last, with its arguments unchanged |
| EngineProps.HookInternalResolution | src/main.cpp:134 | under the width gate the internal width is at least 50; a surface of height 1 gets internal height 0 |
| EngineProps.FullHdHalfResolution | src/main.cpp:134 | a 1920 x 1080 surface gets 960 x 540 buffers |
| Engine.RenderEngine.constructor | src/main.cpp:125-127 | the statics start as `EngineSpec.Initial()` with an empty trace |
| Engine.RenderEngine.InitGL | src/main.cpp:129-166 | the fields become `InitStep(old state).post`, the trace is extended by exactly its calls, `sW, sH, iW, iH` are set, and `ping` is unchanged |
| Engine.RenderEngine.Release | src/main.cpp:131 | the delete calls appended are `ReleaseOps` of the current state |
| Engine.RenderEngine.Compile | src/main.cpp:137-138 | one shader is created under the next driver name and compiled |
| Engine.RenderEngine.BuildPrograms | src/main.cpp:136-150 | the shaders, the two programs with the sampler units `c = 0` and `h = 1`, and the quad are created in source order, and their names are recorded |
| Engine.RenderEngine.MakeTarget | src/main.cpp:153-159 | one `iW x iH` texture and its framebuffer, under two consecutive new names |
| Engine.RenderEngine.AllocTargets | src/main.cpp:160 | raw, history-0 and history-1 targets, storing their names in `rawTex`/`rawFBO` and the history arrays |
| Engine.RenderEngine.Render | src/main.cpp:168-194 | the fields become `RenderStep(old state).post`, the trace is extended by exactly its calls, and `ping` flips |
| Engine.RenderEngine.Frame | src/main.cpp:173-193 | a frame's calls are `FrameOps(cur = ping)`, and `ping := 1 - ping` |
| Engine.RenderEngine.Hook | src/main.cpp:199-204 | the state and trace follow `HookStep`, and the result is `orig(d, surf)` unchanged |

## Left out

- The GLSL shader sources (`vert`, `frag_blur`, `frag_draw`) and their floating-point colour arithmetic: they run on the GPU and appear only as the stage of a `CompileShader` event.
- The semantics of the GL driver calls: compiling, linking, texture storage, filtering, blitting and drawing. Each call or group of calls is an opaque trace event, and names are plain numbers.
- Binding, viewport, `glUseProgram`, `glActiveTexture`, texture-parameter and vertex-attribute calls: they are folded into the event they serve. For example, `DrawBlur` records the target slot, the read slot and the viewport.
- GL name reuse: the driver counter never hands out a deleted name again, and names are unbounded. It captures creation order, not a real driver's allocation policy.
- The 32-bit width of `GLuint`: names are unbounded.
- `eglQuerySurface`: `w` and `h` are inputs to `Hook`, with any C `int` value.
- The original `eglSwapBuffers`: it is the function parameter `orig`. The case where `orig` is still null is not modelled.
- Hook installation and the bootstrap thread (`mainthread`, the Gloss calls, `sleep`, `pthread_create`): foreign library and OS plumbing, run once before any frame.
- Concurrency: the engine is confined to the rendering thread.
- The second and third copies of the program in src/main.cpp (lines 214-427 and 427-640): they repeat lines 1-214, which are the ones modelled and cited.
- `EGLBoolean` is an `unsigned int`: `orig` and `Hook` return a `bool` instead, passed through unchanged.
