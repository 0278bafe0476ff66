/** The vocabulary shared by the render-engine model: the C integer width of the
    surface sizes, GL object names, and the abstract GL/EGL calls the engine issues,
    recorded in order as a trace of `Op` events. */
module GlTrace {

  /** A C `int` / `EGLint`: the range of the stored sizes and the internal resolution. */
  type Int32 = x: int | -0x8000_0000 <= x < 0x8000_0000

  /** A GL object name (`GLuint`); 0 stands for "no object". */
  type Name = nat

  /** An opaque `EGLDisplay` or `EGLSurface`. */
  type Handle = nat

  /** An index into the two-element history arrays. */
  type Slot = x: int | 0 <= x < 2

  /** The three capabilities the frame disables before drawing. */
  datatype Cap = ScissorTest | DepthTest | Blend

  /** The three shader sources: the fullscreen vertex stage and the two fragment stages. */
  datatype Stage = VertexStage | BlurStage | DrawStage

  /** An offscreen colour target: the downscaled copy, or one of the two history slots. */
  datatype Target = RawTarget | HistoryTarget(slot: Slot)

  /** One GL or EGL call as the engine issues it. */
  datatype Op =
    | DeleteTextures(textures: seq<Name>)
    | DeleteFramebuffers(framebuffers: seq<Name>)
    | DeleteVertexArrays(arrays: seq<Name>)
      // glCreateShader + glShaderSource + glCompileShader
    | CompileShader(shader: Name, stage: Stage)
      // glCreateProgram + two glAttachShader + glLinkProgram
    | LinkProgram(program: Name, vs: Name, fs: Name)
      // glUniform1i on the program's sampler uniform
    | SetSampler(program: Name, uniform: string, unit: nat)
      // the vertex array, vertex buffer and index buffer of the fullscreen quad
    | CreateQuad(vao: Name, vbo: Name, ibo: Name)
      // an RGBA8 texture of w x h with linear filtering, attached to a new framebuffer
    | Alloc(target: Target, tex: Name, fbo: Name, w: int, h: int)
      // bind histFBO[slot] and clear it to opaque black
    | ClearHistory(slot: Slot)
    | Disable(cap: Cap)
      // glBlitFramebuffer from framebuffer 0 (srcW x srcH) to rawFBO (dstW x dstH)
    | Blit(srcW: int, srcH: int, dstW: int, dstH: int)
      // blur program into histFBO[write], viewport vw x vh, sampling rawTex and histTex[read]
    | DrawBlur(write: Slot, read: Slot, vw: int, vh: int)
      // draw program into framebuffer 0, viewport vw x vh, sampling histTex[read]
    | DrawOut(read: Slot, vw: int, vh: int)
      // the call into the original present function
    | Forward(display: Handle, surface: Handle)

  predicate IsRelease(op: Op) {
    op.DeleteTextures? || op.DeleteFramebuffers? || op.DeleteVertexArrays?
  }

  predicate IsAlloc(op: Op) { op.Alloc? }

  predicate IsBlur(op: Op) { op.DrawBlur? }

  predicate IsForward(op: Op) { op.Forward? }

  /** The kinds of event the lemmas pick out of a trace. */
  datatype Kind = AllocKind | BlurKind | ForwardKind

  predicate OfKind(op: Op, k: Kind) {
    match k
    case AllocKind => IsAlloc(op)
    case BlurKind => IsBlur(op)
    case ForwardKind => IsForward(op)
  }

  /** The events of `ops` of kind `keep`, in their original order. */
  function Filter(ops: seq<Op>, keep: Kind): (r: seq<Op>)
    ensures |r| <= |ops|
    ensures forall i | 0 <= i < |r| :: OfKind(r[i], keep)
  {
    if ops == [] then []
    else (if OfKind(ops[0], keep) then [ops[0]] else []) + Filter(ops[1..], keep)
  }

  lemma {:induction false} FilterAppend(a: seq<Op>, b: seq<Op>, keep: Kind)
    ensures Filter(a + b, keep) == Filter(a, keep) + Filter(b, keep)
  {
    if a == [] {
      assert a + b == b;
    } else {
      assert (a + b)[0] == a[0];
      assert (a + b)[1..] == a[1..] + b;
      FilterAppend(a[1..], b, keep);
    }
  }

  lemma {:induction false} FilterNone(ops: seq<Op>, keep: Kind)
    requires forall i | 0 <= i < |ops| :: !OfKind(ops[i], keep)
    ensures Filter(ops, keep) == []
  {
    if ops != [] {
      FilterNone(ops[1..], keep);
    }
  }

  lemma {:induction false} FilterAll(ops: seq<Op>, keep: Kind)
    requires forall i | 0 <= i < |ops| :: OfKind(ops[i], keep)
    ensures Filter(ops, keep) == ops
  {
    if ops != [] {
      FilterAll(ops[1..], keep);
    }
  }

  /** The names handed to the glDelete* calls of `ops`, in call order. */
  function ReleasedNames(ops: seq<Op>): seq<Name> {
    if ops == [] then []
    else
      var here := match ops[0]
        case DeleteTextures(ns) => ns
        case DeleteFramebuffers(ns) => ns
        case DeleteVertexArrays(ns) => ns
        case _ => [];
      here + ReleasedNames(ops[1..])
  }

  lemma {:induction false} ReleasedNamesAppend(a: seq<Op>, b: seq<Op>)
    ensures ReleasedNames(a + b) == ReleasedNames(a) + ReleasedNames(b)
  {
    if a == [] {
      assert a + b == b;
    } else {
      assert (a + b)[0] == a[0];
      assert (a + b)[1..] == a[1..] + b;
      ReleasedNamesAppend(a[1..], b);
    }
  }

  lemma {:induction false} ReleasedNamesNone(ops: seq<Op>)
    requires forall i | 0 <= i < |ops| :: !IsRelease(ops[i])
    ensures ReleasedNames(ops) == []
  {
    if ops != [] {
      ReleasedNamesNone(ops[1..]);
    }
  }

  /** Appending calls to a trace in two steps or in one. */
  lemma AppendAssoc(a: seq<Op>, b: seq<Op>, c: seq<Op>)
    ensures a + b + c == a + (b + c)
  {
  }

  /** Appending three calls to a trace one by one or together. */
  lemma AppendThree(t: seq<Op>, a: Op, b: Op, c: Op)
    ensures t + [a] + [b] + [c] == t + [a, b, c]
  {
  }

  /** Appending four groups of calls to a trace one by one or all at once. */
  lemma AppendGroups(t: seq<Op>, a: seq<Op>, b: seq<Op>, c: seq<Op>, d: seq<Op>)
    ensures t + a + b + c + d == t + (a + b + c + d)
  {
  }

  /** No event of `ops` releases or allocates a resource. */
  predicate NoRealloc(ops: seq<Op>) {
    forall i | 0 <= i < |ops| :: !IsRelease(ops[i]) && !IsAlloc(ops[i])
  }
}
