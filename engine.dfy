/** The render engine as the program runs it: the module-level statics are the fields
    of one `RenderEngine` object, `initGL`, `render` and `hook` are methods that update
    them in place, and every GL/EGL call is appended to the ghost `trace`. Each method
    is proved to move the fields (read through `Abs()`) and the trace exactly as the
    matching function of module EngineSpec says. */
module Engine {
  import opened GlTrace
  import opened Scale
  import S = EngineSpec
  import P = EngineProps

  class RenderEngine {
    var rawTex: Name
    var rawFBO: Name
    /** `histTex[2]` and `histFBO[2]`: the arrays are fixed, their elements are rewritten. */
    const histTex: array<Name>
    const histFBO: array<Name>
    var vao: Name
    var progBlur: Name
    var progDraw: Name
    var ping: int
    var iW: Int32
    var iH: Int32
    var sW: Int32
    var sH: Int32
    /** The GL driver's next free object name. */
    var nextName: nat
    /** Every GL/EGL call issued so far, in order. */
    ghost var trace: seq<Op>

    ghost function Abs(): S.State
      requires histTex.Length == 2 && histFBO.Length == 2
      reads this, histTex, histFBO
    {
      S.State(rawTex, rawFBO, [histTex[0], histTex[1]], [histFBO[0], histFBO[1]], vao,
              progBlur, progDraw, ping, iW, iH, sW, sH, nextName)
    }

    ghost predicate Valid()
      reads this, histTex, histFBO
    {
      && histTex.Length == 2 && histFBO.Length == 2 && histTex != histFBO
      && S.Valid(Abs())
    }

    /** The statics before the first frame. */
    constructor ()
      ensures Valid() && Abs() == S.Initial() && trace == []
      ensures fresh(histTex) && fresh(histFBO)
    {
      rawTex, rawFBO, vao, progBlur, progDraw := 0, 0, 0, 0, 0;
      histTex := new Name[2](_ => 0);
      histFBO := new Name[2](_ => 0);
      ping, iW, iH, sW, sH := 0, 0, 0, 0, 0;
      nextName := 1;
      trace := [];
    }

    /** `initGL(w, h)`: release the targets and the vertex array, compute the internal
        resolution, build the three shaders, the two programs and the fullscreen quad,
        allocate the raw target and the two history targets at that resolution, clear
        the history and store the size. */
    method InitGL(w: Int32, h: Int32)
      requires Valid()
      modifies this, histTex, histFBO
      ensures Abs() == S.InitStep(old(Abs()), w, h).post
      ensures Valid()
      ensures trace == old(trace) + S.InitStep(old(Abs()), w, h).ops
      ensures sW == w && sH == h && iW == ScaleHalf(w) && iH == ScaleHalf(h)
      ensures ping == old(ping) && rawTex != 0
    {
      ghost var s := Abs();
      Release();
      iW, iH := ScaleHalf(w), ScaleHalf(h);
      BuildPrograms();
      AllocTargets(s.nextName);
      trace := trace + S.ClearOps;
      sW, sH := w, h;
      P.InitOpsSplit(s, w, h);
      AppendGroups(old(trace), S.ReleaseOps(s), S.BuildOps(s.nextName),
                   S.AllocOps(s.nextName, iW, iH), S.ClearOps);
    }

    /** The resource cleanup of `initGL`: once anything is allocated, delete the raw
        target, both history targets and the vertex array. */
    method Release()
      requires histTex.Length == 2 && histFBO.Length == 2
      modifies this`trace
      ensures trace == old(trace) + S.ReleaseOps(Abs())
    {
      if rawTex != 0 {
        trace := trace + [DeleteTextures([rawTex]), DeleteFramebuffers([rawFBO]),
                          DeleteTextures([histTex[0], histTex[1]]),
                          DeleteFramebuffers([histFBO[0], histFBO[1]]),
                          DeleteVertexArrays([vao])];
      }
    }

    /** The next `glGen*` / `glCreate*` name of the driver. */
    method GenName() returns (x: Name)
      modifies this`nextName
      ensures x == old(nextName) && nextName == x + 1
    {
      x := nextName;
      nextName := nextName + 1;
    }

    /** The shader-compiling lambda of `initGL`: create, source and compile one shader. */
    method Compile(stage: Stage) returns (x: Name)
      modifies this`nextName, this`trace
      ensures x == old(nextName) && nextName == x + 1
      ensures trace == old(trace) + [CompileShader(x, stage)]
    {
      x := GenName();
      trace := trace + [CompileShader(x, stage)];
    }

    /** Shader compilation, the two programs with the blur program's sampler units, and
        the quad's vertex array with its two buffers, in the order `initGL` creates them. */
    method BuildPrograms()
      modifies this`progBlur, this`progDraw, this`vao, this`nextName, this`trace
      ensures progBlur == old(nextName) + 3 && progDraw == old(nextName) + 4
      ensures vao == old(nextName) + 5 && nextName == old(nextName) + 8
      ensures trace == old(trace) + S.BuildOps(old(nextName))
    {
      var vs := Compile(VertexStage);
      var fs1 := Compile(BlurStage);
      var fs2 := Compile(DrawStage);
      progBlur := GenName();
      trace := trace + [LinkProgram(progBlur, vs, fs1), SetSampler(progBlur, "c", 0),
                        SetSampler(progBlur, "h", 1)];
      progDraw := GenName();
      trace := trace + [LinkProgram(progDraw, vs, fs2)];
      vao := GenName();
      var vb := GenName();
      var ib := GenName();
      trace := trace + [CreateQuad(vao, vb, ib)];
    }

    /** The texture-setup lambda of `initGL`: an `iW x iH` texture and the framebuffer
        it is attached to. */
    method MakeTarget(target: Target) returns (tx: Name, fb: Name)
      modifies this`nextName, this`trace
      ensures tx == old(nextName) && fb == tx + 1 && nextName == tx + 2
      ensures trace == old(trace) + [Alloc(target, tx, fb, iW, iH)]
    {
      tx := GenName();
      fb := GenName();
      trace := trace + [Alloc(target, tx, fb, iW, iH)];
    }

    /** The texture setup of `initGL`: the raw target, then history slots 0 and 1;
        `n` is the counter `initGL` began at. */
    method AllocTargets(ghost n: nat)
      requires nextName == n + 8
      requires histTex.Length == 2 && histFBO.Length == 2 && histTex != histFBO
      modifies this`rawTex, this`rawFBO, histTex, histFBO, this`nextName, this`trace
      ensures rawTex == n + 8 && rawFBO == n + 9 && nextName == n + 14
      ensures histTex[0] == n + 10 && histTex[1] == n + 12
      ensures histFBO[0] == n + 11 && histFBO[1] == n + 13
      ensures trace == old(trace) + S.AllocOps(n, iW, iH)
    {
      ghost var t := trace;
      rawTex, rawFBO := MakeTarget(RawTarget);
      var t0, f0 := MakeTarget(HistoryTarget(0));
      histTex[0], histFBO[0] := t0, f0;
      var t1, f1 := MakeTarget(HistoryTarget(1));
      histTex[1], histFBO[1] := t1, f1;
      AppendThree(t, Alloc(RawTarget, n + 8, n + 9, iW, iH),
                  Alloc(HistoryTarget(0), t0, f0, iW, iH), Alloc(HistoryTarget(1), t1, f1, iW, iH));
    }

    /** `render(w, h)`: re-initialise when needed, then one frame: blit the screen into
        the raw target, blur into history slot `ping` reading the other slot, draw the
        slot just written to the screen, and flip `ping`. */
    method Render(w: Int32, h: Int32)
      requires Valid()
      modifies this, histTex, histFBO
      ensures Abs() == S.RenderStep(old(Abs()), w, h).post
      ensures Valid()
      ensures trace == old(trace) + S.RenderStep(old(Abs()), w, h).ops
      ensures sW == w && sH == h && iW == ScaleHalf(w) && iH == ScaleHalf(h)
      ensures ping == 1 - old(ping) && rawTex != 0
    {
      ghost var s := Abs();
      ghost var t0 := trace;
      if w != sW || h != sH || rawTex == 0 {
        InitGL(w, h);
      }
      ghost var init := S.InitIfNeeded(s, w, h);
      assert Abs() == init.post && trace == t0 + init.ops;

      Frame(w, h);
      AppendAssoc(t0, init.ops, S.FrameOps(init.post.ping, w, h, init.post.iW, init.post.iH));
      P.RenderRecordsSize(s, w, h);
    }

    /** The frame proper: disable the three tests, blit the screen into the raw target,
        blur into history slot `cur = ping` reading slot `pre = 1 - ping`, draw slot
        `cur` to the screen, and flip `ping` to `pre`. */
    method Frame(w: Int32, h: Int32)
      requires 0 <= ping <= 1
      modifies this`ping, this`trace
      ensures ping == 1 - old(ping)
      ensures trace == old(trace) + S.FrameOps(old(ping), w, h, iW, iH)
    {
      trace := trace + [Disable(ScissorTest), Disable(DepthTest), Disable(Blend)];
      trace := trace + [Blit(w, h, iW, iH)];
      var cur, pre := ping, 1 - ping;
      trace := trace + [DrawBlur(cur, pre, iW, iH)];
      trace := trace + [DrawOut(cur, w, h)];
      ping := pre;
    }

    /** `hook(d, surf)`, the replacement of `eglSwapBuffers`, with `w x h` the size
        queried from the surface and `orig` the original present function: a frame
        only for surfaces wider than 100 pixels, then the original call, whose result
        is returned unchanged. */
    method Hook(d: Handle, surf: Handle, w: Int32, h: Int32, orig: (Handle, Handle) -> bool)
      returns (r: bool)
      requires Valid()
      modifies this, histTex, histFBO
      ensures Abs() == S.HookStep(old(Abs()), w, h, d, surf).post
      ensures Valid()
      ensures trace == old(trace) + S.HookStep(old(Abs()), w, h, d, surf).ops
      ensures r == orig(d, surf)
    {
      ghost var s := Abs();
      ghost var t0 := trace;
      if w > 100 {
        Render(w, h);
      }
      assert Abs() == S.RenderIfWide(s, w, h).post && trace == t0 + S.RenderIfWide(s, w, h).ops;
      trace := trace + [Forward(d, surf)];
      r := orig(d, surf);
    }
  }
}
