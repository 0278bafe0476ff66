/** The render engine of the present hook as values: the module-level statics as a
    `State`, and each of `initGL`, `render` and `hook` as a function from the state and
    its inputs to the next state and the GL/EGL calls issued, in order (`Step`). The
    class in module Engine is proved to follow these functions; the lemmas here state
    what the engine promises. */
module EngineSpec {
  import opened GlTrace
  import opened Scale

  /** The statics `rawTex, rawFBO, histTex[2], histFBO[2], vao, progBlur, progDraw,
      ping, iW, iH, sW, sH`, plus `nextName`, the GL driver's name allocator: each
      glGen* / glCreate* call hands out `nextName` and advances it. */
  datatype State = State(
    rawTex: Name, rawFBO: Name, histTex: seq<Name>, histFBO: seq<Name>, vao: Name,
    progBlur: Name, progDraw: Name,
    ping: int, iW: Int32, iH: Int32, sW: Int32, sH: Int32,
    nextName: nat)

  /** The new state after a call, and the calls it issued in order. */
  datatype Step = Step(post: State, ops: seq<Op>)

  /** The names `initGL` releases when it runs again: the raw and history textures and
      framebuffers and the vertex array. The shaders, programs and quad buffers are not
      among them; `initGL` never deletes those. */
  function ReleasedTargets(s: State): seq<Name> {
    [s.rawTex, s.rawFBO] + s.histTex + s.histFBO + [s.vao]
  }

  /** Once allocated (`rawTex != 0`), the buffers are sized for the stored surface
      and their names are distinct GL names the driver has already handed out. */
  predicate Live(s: State)
    requires |s.histTex| == 2 && |s.histFBO| == 2
  {
    && s.iW == ScaleHalf(s.sW) && s.iH == ScaleHalf(s.sH)
    && 0 < s.rawTex < s.nextName && 0 < s.rawFBO < s.nextName && 0 < s.vao < s.nextName
    && 0 < s.histTex[0] < s.nextName && 0 < s.histTex[1] < s.nextName
    && 0 < s.histFBO[0] < s.nextName && 0 < s.histFBO[1] < s.nextName
    && 0 < s.progBlur < s.nextName && 0 < s.progDraw < s.nextName
    && s.rawTex != s.histTex[0] && s.rawTex != s.histTex[1] && s.histTex[0] != s.histTex[1]
    && s.rawFBO != s.histFBO[0] && s.rawFBO != s.histFBO[1] && s.histFBO[0] != s.histFBO[1]
  }

  /** The invariant of every reachable engine state. */
  predicate Valid(s: State) {
    && |s.histTex| == 2 && |s.histFBO| == 2
    && 0 <= s.ping <= 1
    && s.nextName >= 1
    && (s.rawTex != 0 ==> Live(s))
  }

  /** The statics' static initialisers: every handle 0, `ping` 0, no stored size. */
  function Initial(): (s: State)
    ensures Valid(s) && s.rawTex == 0 && s.ping == 0
  {
    State(0, 0, [0, 0], [0, 0], 0, 0, 0, 0, 0, 0, 0, 0, 1)
  }

  /** `render` re-initialises exactly under this condition. */
  predicate NeedsInit(s: State, w: Int32, h: Int32) {
    w != s.sW || h != s.sH || s.rawTex == 0
  }

  /** Release of the five resource groups, issued only when `rawTex != 0`. */
  function ReleaseOps(s: State): seq<Op> {
    if s.rawTex != 0 then
      [DeleteTextures([s.rawTex]), DeleteFramebuffers([s.rawFBO]),
       DeleteTextures(s.histTex), DeleteFramebuffers(s.histFBO),
       DeleteVertexArrays([s.vao])]
    else []
  }

  /** Shaders, programs and the quad; names n .. n+7 in creation order. */
  function BuildOps(n: nat): seq<Op> {
    [CompileShader(n, VertexStage), CompileShader(n + 1, BlurStage),
     CompileShader(n + 2, DrawStage),
     LinkProgram(n + 3, n, n + 1), SetSampler(n + 3, "c", 0), SetSampler(n + 3, "h", 1),
     LinkProgram(n + 4, n, n + 2),
     CreateQuad(n + 5, n + 6, n + 7)]
  }

  /** The raw target and the two history targets; names n+8 .. n+13. */
  function AllocOps(n: nat, iW: Int32, iH: Int32): seq<Op> {
    [Alloc(RawTarget, n + 8, n + 9, iW, iH),
     Alloc(HistoryTarget(0), n + 10, n + 11, iW, iH),
     Alloc(HistoryTarget(1), n + 12, n + 13, iW, iH)]
  }

  const ClearOps: seq<Op> := [ClearHistory(0), ClearHistory(1)]

  /** `initGL(w, h)`. */
  function InitStep(s: State, w: Int32, h: Int32): (r: Step)
    requires Valid(s)
    ensures Valid(r.post)
  {
    var n := s.nextName;
    var iW, iH := ScaleHalf(w), ScaleHalf(h);
    Step(
      s.(rawTex := n + 8, rawFBO := n + 9, histTex := [n + 10, n + 12],
         histFBO := [n + 11, n + 13], vao := n + 5, progBlur := n + 3, progDraw := n + 4,
         iW := iW, iH := iH, sW := w, sH := h, nextName := n + 14),
      ReleaseOps(s) + BuildOps(n) + AllocOps(n, iW, iH) + ClearOps)
  }

  /** The calls of one frame after the optional re-initialisation, with `cur` the
      value of `ping` and `iW x iH` the internal resolution. */
  function FrameOps(cur: Slot, w: Int32, h: Int32, iW: Int32, iH: Int32): seq<Op> {
    [Disable(ScissorTest), Disable(DepthTest), Disable(Blend),
     Blit(w, h, iW, iH),
     DrawBlur(cur, 1 - cur, iW, iH),
     DrawOut(cur, w, h)]
  }

  /** The first line of `render`: `initGL` when `NeedsInit`, nothing otherwise. */
  function InitIfNeeded(s: State, w: Int32, h: Int32): (r: Step)
    requires Valid(s)
    ensures Valid(r.post)
  {
    if NeedsInit(s, w, h) then InitStep(s, w, h) else Step(s, [])
  }

  /** `render(w, h)`. */
  function RenderStep(s: State, w: Int32, h: Int32): (r: Step)
    requires Valid(s)
    ensures Valid(r.post)
  {
    var init := InitIfNeeded(s, w, h);
    var t := init.post;
    FlipKeepsValid(t);
    Step(t.(ping := 1 - t.ping), init.ops + FrameOps(t.ping, w, h, t.iW, t.iH))
  }

  /** The ping flip touches nothing the invariant ties together. */
  lemma FlipKeepsValid(t: State)
    requires Valid(t)
    ensures Valid(t.(ping := 1 - t.ping))
  {
  }

  /** `hook(d, surf)` with the queried surface size `w x h`. */
  function HookStep(s: State, w: Int32, h: Int32, d: Handle, surf: Handle): (r: Step)
    requires Valid(s)
    ensures Valid(r.post)
  {
    var frame := RenderIfWide(s, w, h);
    Step(frame.post, frame.ops + [Forward(d, surf)])
  }

  /** The gate of `hook`: a frame only for surfaces wider than 100 pixels. */
  function RenderIfWide(s: State, w: Int32, h: Int32): (r: Step)
    requires Valid(s)
    ensures Valid(r.post)
  {
    if w > 100 then RenderStep(s, w, h) else Step(s, [])
  }

  /** Consecutive `render` calls, one per element of `sizes`. */
  function RunFrames(s: State, sizes: seq<(Int32, Int32)>): (r: Step)
    requires Valid(s)
    ensures Valid(r.post)
    decreases |sizes|
  {
    if sizes == [] then Step(s, [])
    else
      var first := RenderStep(s, sizes[0].0, sizes[0].1);
      var rest := RunFrames(first.post, sizes[1..]);
      Step(rest.post, first.ops + rest.ops)
  }

  /** `n` frames at the one surface size `z`. */
  function Repeat(z: (Int32, Int32), n: nat): (r: seq<(Int32, Int32)>)
    ensures |r| == n && forall k | 0 <= k < n :: r[k] == z
  {
    if n == 0 then [] else [z] + Repeat(z, n - 1)
  }
}
