/** What `initGL`, `render` and `hook` promise, stated over the functions of
    EngineSpec and proved for every state satisfying the engine invariant. */
module EngineProps {
  import opened GlTrace
  import opened Scale
  import opened EngineSpec

  // ---------------------------------------------------------------------------
  // initGL

  /** `initGL` records the requested size, derives the internal resolution from it,
      and leaves `ping` alone: a re-initialisation does not reset the history slot. */
  lemma InitRecordsSize(s: State, w: Int32, h: Int32)
    requires Valid(s)
    ensures var t := InitStep(s, w, h).post;
      && t.sW == w && t.sH == h
      && t.iW == ScaleHalf(w) && t.iH == ScaleHalf(h)
      && t.ping == s.ping
      && t.rawTex != 0
  {
  }

  /** The delete calls of `initGL` name exactly the raw, history and vertex-array names. */
  lemma ReleaseOpsNames(s: State)
    ensures ReleasedNames(ReleaseOps(s)) == (if s.rawTex != 0 then ReleasedTargets(s) else [])
  {
    if s.rawTex != 0 {
      var r := ReleaseOps(s);
      assert r == [r[0]] + ([r[1]] + ([r[2]] + ([r[3]] + [r[4]])));
      ReleasedNamesAppend([r[0]], [r[1]] + ([r[2]] + ([r[3]] + [r[4]])));
      ReleasedNamesAppend([r[1]], [r[2]] + ([r[3]] + [r[4]]));
      ReleasedNamesAppend([r[2]], [r[3]] + [r[4]]);
      ReleasedNamesAppend([r[3]], [r[4]]);
    }
  }

  /** Filtering the calls of `initGL` group by group. */
  lemma InitFilter(s: State, n: nat, iW: Int32, iH: Int32, keep: Kind)
    requires forall i | 0 <= i < |ReleaseOps(s)| :: !OfKind(ReleaseOps(s)[i], keep)
    requires forall i | 0 <= i < |BuildOps(n)| :: !OfKind(BuildOps(n)[i], keep)
    requires forall i | 0 <= i < |ClearOps| :: !OfKind(ClearOps[i], keep)
    ensures Filter(ReleaseOps(s) + BuildOps(n) + AllocOps(n, iW, iH) + ClearOps, keep)
         == Filter(AllocOps(n, iW, iH), keep)
  {
    var rel, build, alloc := ReleaseOps(s), BuildOps(n), AllocOps(n, iW, iH);
    FilterAppend(rel + build + alloc, ClearOps, keep);
    FilterAppend(rel + build, alloc, keep);
    FilterAppend(rel, build, keep);
    FilterNone(rel, keep);
    FilterNone(build, keep);
    FilterNone(ClearOps, keep);
  }

  /** The calls of `initGL` as its four groups. */
  lemma InitOpsSplit(s: State, w: Int32, h: Int32)
    requires Valid(s)
    ensures InitStep(s, w, h).ops
         == ReleaseOps(s) + BuildOps(s.nextName) + AllocOps(s.nextName, ScaleHalf(w), ScaleHalf(h)) + ClearOps
  {
  }

  /** The allocation calls among those of `initGL`. */
  lemma InitAllocs(s: State, w: Int32, h: Int32)
    requires Valid(s)
    ensures Filter(InitStep(s, w, h).ops, AllocKind) == AllocOps(s.nextName, ScaleHalf(w), ScaleHalf(h))
  {
    InitOpsSplit(s, w, h);
    InitFilter(s, s.nextName, ScaleHalf(w), ScaleHalf(h), AllocKind);
    FilterAll(AllocOps(s.nextName, ScaleHalf(w), ScaleHalf(h)), AllocKind);
  }

  /** `initGL` neither draws nor presents. */
  lemma InitNoDrawNoForward(s: State, w: Int32, h: Int32)
    requires Valid(s)
    ensures Filter(InitStep(s, w, h).ops, BlurKind) == []
    ensures Filter(InitStep(s, w, h).ops, ForwardKind) == []
  {
    var n, iW, iH := s.nextName, ScaleHalf(w), ScaleHalf(h);
    InitOpsSplit(s, w, h);
    InitFilter(s, n, iW, iH, BlurKind);
    FilterNone(AllocOps(n, iW, iH), BlurKind);
    InitFilter(s, n, iW, iH, ForwardKind);
    FilterNone(AllocOps(n, iW, iH), ForwardKind);
  }

  /** Building, allocating and clearing delete nothing. */
  lemma NonReleaseGroups(n: nat, iW: Int32, iH: Int32)
    ensures ReleasedNames(BuildOps(n)) == []
    ensures ReleasedNames(AllocOps(n, iW, iH)) == []
    ensures ReleasedNames(ClearOps) == []
  {
    ReleasedNamesNone(BuildOps(n));
    ReleasedNamesNone(AllocOps(n, iW, iH));
    ReleasedNamesNone(ClearOps);
  }

  /** The names `initGL` deletes: the raw, history and vertex-array names, or nothing
      on the first call. */
  lemma InitReleasedNames(s: State, w: Int32, h: Int32)
    requires Valid(s)
    ensures ReleasedNames(InitStep(s, w, h).ops) == (if s.rawTex != 0 then ReleasedTargets(s) else [])
  {
    var n, iW, iH := s.nextName, ScaleHalf(w), ScaleHalf(h);
    var rel, build, alloc := ReleaseOps(s), BuildOps(n), AllocOps(n, iW, iH);
    InitOpsSplit(s, w, h);
    NonReleaseGroups(n, iW, iH);
    calc {
      ReleasedNames(rel + build + alloc + ClearOps);
      { ReleasedNamesAppend(rel + build + alloc, ClearOps); }
      ReleasedNames(rel + build + alloc) + [];
      { ReleasedNamesAppend(rel + build, alloc); }
      ReleasedNames(rel + build) + [] + [];
      { ReleasedNamesAppend(rel, build); }
      ReleasedNames(rel) + [] + [] + [];
      { ReleaseOpsNames(s); }
      (if s.rawTex != 0 then ReleasedTargets(s) else []) + [] + [] + [];
    }
  }

  /** The release, allocation, blur and forward calls of `initGL`, each on its own. */
  lemma InitOpsGroups(s: State, w: Int32, h: Int32)
    requires Valid(s)
    ensures var ops := InitStep(s, w, h).ops;
      && Filter(ops, AllocKind) == AllocOps(s.nextName, ScaleHalf(w), ScaleHalf(h))
      && Filter(ops, BlurKind) == []
      && Filter(ops, ForwardKind) == []
      && ReleasedNames(ops) == (if s.rawTex != 0 then ReleasedTargets(s) else [])
  {
    InitAllocs(s, w, h);
    InitNoDrawNoForward(s, w, h);
    InitReleasedNames(s, w, h);
  }

  /** Where each kind of call sits in the calls of `initGL`. */
  lemma InitOpsPositions(s: State, w: Int32, h: Int32)
    requires Valid(s)
    ensures var ops := InitStep(s, w, h).ops;
      var k := |ReleaseOps(s)|;
      && k == (if s.rawTex != 0 then 5 else 0)
      && |ops| == k + 13
      && (forall i | 0 <= i < |ops| :: IsRelease(ops[i]) <==> i < k)
      && (forall i | 0 <= i < |ops| :: IsAlloc(ops[i]) <==> k + 8 <= i < k + 11)
      && ops[k + 11..] == ClearOps
  {
    var n, iW, iH := s.nextName, ScaleHalf(w), ScaleHalf(h);
    var rel, build, alloc := ReleaseOps(s), BuildOps(n), AllocOps(n, iW, iH);
    var k := |rel|;
    InitOpsSplit(s, w, h);
    var ops := InitStep(s, w, h).ops;
    forall i | 0 <= i < |ops|
      ensures (IsRelease(ops[i]) <==> i < k) && (IsAlloc(ops[i]) <==> k + 8 <= i < k + 11)
    {
      if i < k {
        assert ops[i] == rel[i];
      } else if i < k + 8 {
        assert ops[i] == build[i - k];
      } else if i < k + 11 {
        assert ops[i] == alloc[i - k - 8];
      } else {
        assert ops[i] == ClearOps[i - k - 11];
      }
    }
    assert ops[k + 11..] == ClearOps;
  }

  /** `initGL` deletes only when `rawTex != 0`, deletes exactly the raw, history and
      vertex-array names, and issues every delete before any allocation. */
  lemma InitReleasesFirst(s: State, w: Int32, h: Int32)
    requires Valid(s)
    ensures var ops := InitStep(s, w, h).ops;
      && ((exists i | 0 <= i < |ops| :: IsRelease(ops[i])) <==> s.rawTex != 0)
      && ReleasedNames(ops) == (if s.rawTex != 0 then ReleasedTargets(s) else [])
      && (forall i, j | 0 <= i < |ops| && 0 <= j < |ops| && IsRelease(ops[i]) && IsAlloc(ops[j]) :: i < j)
  {
    InitOpsPositions(s, w, h);
    InitReleasedNames(s, w, h);
    var ops := InitStep(s, w, h).ops;
    if s.rawTex != 0 {
      assert IsRelease(ops[0]);
    }
  }

  /** `initGL` allocates the raw target and then both history targets, all at the
      internal resolution, and afterwards clears history slot 0 and then slot 1. */
  lemma InitAllocatesThenClears(s: State, w: Int32, h: Int32)
    requires Valid(s)
    ensures var ops := InitStep(s, w, h).ops;
      var allocs := Filter(ops, AllocKind);
      && |allocs| == 3
      && allocs[0].target == RawTarget
      && allocs[1].target == HistoryTarget(0)
      && allocs[2].target == HistoryTarget(1)
      && (forall a | a in allocs :: a.w == ScaleHalf(w) && a.h == ScaleHalf(h))
      && ops[|ops| - 2..] == [ClearHistory(0), ClearHistory(1)]
      && (forall j | 0 <= j < |ops| && IsAlloc(ops[j]) :: j < |ops| - 2)
  {
    InitOpsPositions(s, w, h);
    InitAllocs(s, w, h);
  }

  /** Every name `initGL` deletes was handed out before the call. */
  lemma InitReleasesOldNames(s: State, w: Int32, h: Int32)
    requires Valid(s)
    ensures forall x | x in ReleasedNames(InitStep(s, w, h).ops) :: x < s.nextName
  {
    InitReleasedNames(s, w, h);
    if s.rawTex != 0 {
      assert ReleasedTargets(s) == [s.rawTex, s.rawFBO, s.histTex[0], s.histTex[1],
                          s.histFBO[0], s.histFBO[1], s.vao];
    }
  }

  /** Every `initGL` creates three shaders, two programs and the quad's vertex array and
      two buffers, but its only deletes are those of the raw and history targets and of
      the vertex array: on a re-initialisation the previous programs are replaced
      without being deleted, and the shaders and buffers are never deleted. */
  lemma InitLeaksPrograms(s: State, w: Int32, h: Int32)
    requires Valid(s)
    ensures var ops := InitStep(s, w, h).ops;
      var t := InitStep(s, w, h).post;
      var k := |ReleaseOps(s)|;
      && ops[k..k + 8] == BuildOps(s.nextName)
      && ReleasedNames(ops)
         == (if s.rawTex != 0
             then [s.rawTex, s.rawFBO, s.histTex[0], s.histTex[1], s.histFBO[0], s.histFBO[1], s.vao]
             else [])
      && (s.rawTex != 0 ==> t.progBlur != s.progBlur && t.progDraw != s.progDraw)
  {
    var n, iW, iH := s.nextName, ScaleHalf(w), ScaleHalf(h);
    var rel, build, alloc := ReleaseOps(s), BuildOps(n), AllocOps(n, iW, iH);
    var ops := InitStep(s, w, h).ops;
    InitOpsSplit(s, w, h);
    assert ops[|rel|..|rel| + 8] == build;
    InitReleasedNames(s, w, h);
  }

  // ---------------------------------------------------------------------------
  // render

  /** After `render(w, h)` the stored size is `w x h`, the buffers are allocated at
      the matching internal resolution, and `ping` has flipped. */
  lemma RenderRecordsSize(s: State, w: Int32, h: Int32)
    requires Valid(s)
    ensures var t := RenderStep(s, w, h).post;
      && t.sW == w && t.sH == h
      && t.iW == ScaleHalf(w) && t.iH == ScaleHalf(h)
      && t.rawTex != 0
      && t.ping == 1 - s.ping
      && (t.ping == 0 || t.ping == 1)
  {
    if NeedsInit(s, w, h) {
      InitRecordsSize(s, w, h);
    }
  }

  /** The frame's calls in order: the optional `initGL`, then the state reset, the
      downscale blit `w x h -> iW x iH`, the blur pass into `histTex[ping]` reading
      `histTex[1 - ping]` at the internal resolution, and the draw pass to the screen
      at `w x h` reading the slot just written. No step is skipped. */
  lemma RenderOrder(s: State, w: Int32, h: Int32)
    requires Valid(s)
    ensures var ops := RenderStep(s, w, h).ops;
      var k := |ops| - 6;
      && k >= 0
      && ops[..k] == (if NeedsInit(s, w, h) then InitStep(s, w, h).ops else [])
      && ops[k..] == [Disable(ScissorTest), Disable(DepthTest), Disable(Blend),
                      Blit(w, h, ScaleHalf(w), ScaleHalf(h)),
                      DrawBlur(s.ping, 1 - s.ping, ScaleHalf(w), ScaleHalf(h)),
                      DrawOut(s.ping, w, h)]
  {
    var init := InitIfNeeded(s, w, h);
    var ops := RenderStep(s, w, h).ops;
    assert ops == init.ops + FrameOps(init.post.ping, w, h, init.post.iW, init.post.iH);
    assert ops[..|init.ops|] == init.ops;
    assert ops[|init.ops|..] == FrameOps(init.post.ping, w, h, init.post.iW, init.post.iH);
  }

  /** The filtered calls of the optional re-initialisation at the top of `render`. */
  lemma InitIfNeededGroups(s: State, w: Int32, h: Int32)
    requires Valid(s)
    ensures var init := InitIfNeeded(s, w, h);
      && Filter(init.ops, AllocKind)
         == (if NeedsInit(s, w, h) then AllocOps(s.nextName, ScaleHalf(w), ScaleHalf(h)) else [])
      && Filter(init.ops, BlurKind) == []
      && Filter(init.ops, ForwardKind) == []
      && ReleasedNames(init.ops) == (if NeedsInit(s, w, h) && s.rawTex != 0 then ReleasedTargets(s) else [])
      && init.post.ping == s.ping
  {
    if NeedsInit(s, w, h) {
      InitOpsGroups(s, w, h);
    }
  }

  /** The filtered calls of the fixed part of a frame. */
  lemma FrameGroups(cur: Slot, w: Int32, h: Int32, iW: Int32, iH: Int32)
    ensures var frame := FrameOps(cur, w, h, iW, iH);
      && Filter(frame, BlurKind) == [DrawBlur(cur, 1 - cur, iW, iH)]
      && Filter(frame, AllocKind) == []
      && Filter(frame, ForwardKind) == []
      && ReleasedNames(frame) == []
      && NoRealloc(frame)
  {
    var frame := FrameOps(cur, w, h, iW, iH);
    FilterAppend(frame[..4], frame[4..], BlurKind);
    FilterNone(frame[..4], BlurKind);
    assert frame[4..] == [frame[4]] + frame[5..];
    FilterAppend([frame[4]], frame[5..], BlurKind);
    FilterNone(frame[5..], BlurKind);
    assert frame[..4] + frame[4..] == frame;
    FilterNone(frame, AllocKind);
    FilterNone(frame, ForwardKind);
    ReleasedNamesNone(frame);
  }

  /** Exactly one blur pass per frame; it writes slot `ping` and reads the other one,
      so no history slot is read and written in the same pass. */
  lemma RenderBlursOnce(s: State, w: Int32, h: Int32)
    requires Valid(s)
    ensures var blurs := Filter(RenderStep(s, w, h).ops, BlurKind);
      && blurs == [DrawBlur(s.ping, 1 - s.ping, ScaleHalf(w), ScaleHalf(h))]
      && blurs[0].write != blurs[0].read
  {
    var init := InitIfNeeded(s, w, h);
    RenderRecordsSize(s, w, h);
    InitIfNeededGroups(s, w, h);
    FrameGroups(init.post.ping, w, h, init.post.iW, init.post.iH);
    FilterAppend(init.ops, FrameOps(init.post.ping, w, h, init.post.iW, init.post.iH), BlurKind);
  }

  /** `render` re-initialises exactly when the size changed or nothing is allocated
      yet: then it allocates the three targets once and releases the previous targets
      and vertex array; otherwise it neither releases nor allocates anything. */
  lemma RenderReinitIff(s: State, w: Int32, h: Int32)
    requires Valid(s)
    ensures var ops := RenderStep(s, w, h).ops;
      && ((exists i | 0 <= i < |ops| :: IsAlloc(ops[i])) <==> NeedsInit(s, w, h))
      && Filter(ops, AllocKind)
         == (if NeedsInit(s, w, h) then AllocOps(s.nextName, ScaleHalf(w), ScaleHalf(h)) else [])
      && ReleasedNames(ops)
         == (if NeedsInit(s, w, h) && s.rawTex != 0 then ReleasedTargets(s) else [])
      && (!NeedsInit(s, w, h) ==> NoRealloc(ops))
  {
    var init := InitIfNeeded(s, w, h);
    var frame := FrameOps(init.post.ping, w, h, init.post.iW, init.post.iH);
    var ops := RenderStep(s, w, h).ops;
    assert ops == init.ops + frame;
    InitIfNeededGroups(s, w, h);
    FrameGroups(init.post.ping, w, h, init.post.iW, init.post.iH);
    FilterAppend(init.ops, frame, AllocKind);
    ReleasedNamesAppend(init.ops, frame);
    if NeedsInit(s, w, h) {
      InitOpsPositions(s, w, h);
      assert IsAlloc(ops[|ReleaseOps(s)| + 8]);
    } else {
      assert ops == frame;
    }
    var allocs := Filter(ops, AllocKind);
    if exists i | 0 <= i < |ops| :: IsAlloc(ops[i]) {
      var i :| 0 <= i < |ops| && IsAlloc(ops[i]);
      if !NeedsInit(s, w, h) {
        assert false;
      }
    }
  }

  /** A second `render` at an unchanged size releases and allocates nothing. */
  lemma SecondRenderNoRealloc(s: State, w: Int32, h: Int32)
    requires Valid(s)
    ensures NoRealloc(RenderStep(RenderStep(s, w, h).post, w, h).ops)
  {
    var t := RenderStep(s, w, h).post;
    RenderRecordsSize(s, w, h);
    RenderReinitIff(t, w, h);
  }

  // ---------------------------------------------------------------------------
  // many frames

  /** The blur passes a run of frames issues, starting from history slot `p`: one per
      frame, at that frame's internal resolution, the slots alternating. */
  function BlurRun(p: Slot, sizes: seq<(Int32, Int32)>): (r: seq<Op>)
    ensures |r| == |sizes|
    ensures forall k | 0 <= k < |r| :: r[k].DrawBlur?
    decreases |sizes|
  {
    if sizes == [] then []
    else
      [DrawBlur(p, 1 - p, ScaleHalf(sizes[0].0), ScaleHalf(sizes[0].1))]
      + BlurRun(1 - p, sizes[1..])
  }

  /** One frame followed by the rest: the step `RunFrames` takes for a non-empty run. */
  lemma RunFramesCons(s: State, sizes: seq<(Int32, Int32)>)
    requires Valid(s) && sizes != []
    ensures var first := RenderStep(s, sizes[0].0, sizes[0].1);
      var rest := RunFrames(first.post, sizes[1..]);
      && RunFrames(s, sizes).post == rest.post
      && RunFrames(s, sizes).ops == first.ops + rest.ops
  {
  }

  /** The blur passes of any run of frames, whatever the sizes, are `BlurRun` from the
      current `ping`. */
  lemma {:induction false} FramesBlurs(s: State, sizes: seq<(Int32, Int32)>)
    requires Valid(s)
    decreases |sizes|
    ensures Filter(RunFrames(s, sizes).ops, BlurKind) == BlurRun(s.ping, sizes)
  {
    if sizes != [] {
      var first := RenderStep(s, sizes[0].0, sizes[0].1);
      var rest := RunFrames(first.post, sizes[1..]);
      RunFramesCons(s, sizes);
      RenderBlursOnce(s, sizes[0].0, sizes[0].1);
      RenderRecordsSize(s, sizes[0].0, sizes[0].1);
      FramesBlurs(first.post, sizes[1..]);
      FilterAppend(first.ops, rest.ops, BlurKind);
    }
  }

  /** In `BlurRun(p, sizes)` the first pass writes slot `p`, every pass writes the
      slot the previous one did not, and every pass reads the slot it does not write. */
  lemma {:induction false} BlurRunAlternates(p: Slot, sizes: seq<(Int32, Int32)>)
    decreases |sizes|
    ensures var r := BlurRun(p, sizes);
      && (|r| > 0 ==> r[0].write == p)
      && (forall k | 0 <= k < |r| :: r[k].read == 1 - r[k].write)
      && (forall k | 0 <= k < |r| - 1 :: r[k + 1].write == 1 - r[k].write)
  {
    if sizes != [] {
      var r := BlurRun(p, sizes);
      var rest := BlurRun(1 - p, sizes[1..]);
      BlurRunAlternates(1 - p, sizes[1..]);
      assert forall k | 1 <= k < |r| :: r[k] == rest[k - 1];
    }
  }

  /** Over any run of frames, whatever the sizes, there is one blur pass per frame;
      the first writes history slot `ping`, each later one writes the slot the previous
      one did not, and none reads the slot it writes. */
  lemma FramesAlternate(s: State, sizes: seq<(Int32, Int32)>)
    requires Valid(s)
    ensures var blurs := Filter(RunFrames(s, sizes).ops, BlurKind);
      && |blurs| == |sizes|
      && (|blurs| > 0 ==> blurs[0].write == s.ping)
      && (forall k | 0 <= k < |blurs| :: blurs[k].read == 1 - blurs[k].write)
      && (forall k | 0 <= k < |blurs| - 1 :: blurs[k + 1].write == 1 - blurs[k].write)
  {
    FramesBlurs(s, sizes);
    BlurRunAlternates(s.ping, sizes);
  }

  /** After any run of frames `ping` holds the parity of the frame count. */
  lemma {:induction false} FramesPing(s: State, sizes: seq<(Int32, Int32)>)
    requires Valid(s)
    decreases |sizes|
    ensures RunFrames(s, sizes).post.ping == (s.ping + |sizes|) % 2
  {
    if sizes != [] {
      var first := RenderStep(s, sizes[0].0, sizes[0].1);
      RunFramesCons(s, sizes);
      RenderRecordsSize(s, sizes[0].0, sizes[0].1);
      FramesPing(first.post, sizes[1..]);
      assert first.post.ping == 1 - s.ping;
      if s.ping == 1 {
        assert (|sizes| - 1) % 2 == (1 + |sizes|) % 2;
      }
    }
  }

  /** Frames at the size the engine is already allocated for never release or
      allocate, and leave the stored size as it was. */
  lemma {:induction false} StableFramesNoRealloc(s: State, z: (Int32, Int32), n: nat)
    requires Valid(s) && s.rawTex != 0 && s.sW == z.0 && s.sH == z.1
    decreases n
    ensures var r := RunFrames(s, Repeat(z, n));
      && NoRealloc(r.ops)
      && r.post.sW == z.0 && r.post.sH == z.1 && r.post.rawTex != 0
  {
    if n > 0 {
      var sizes := Repeat(z, n);
      assert sizes[1..] == Repeat(z, n - 1);
      var first := RenderStep(s, z.0, z.1);
      RenderReinitIff(s, z.0, z.1);
      RenderRecordsSize(s, z.0, z.1);
      StableFramesNoRealloc(first.post, z, n - 1);
      var rest := RunFrames(first.post, sizes[1..]);
      assert RunFrames(s, sizes).ops == first.ops + rest.ops;
    }
  }

  /** The allocation count stays constant after the first frame at a size: `n >= 1`
      frames at one size allocate and release exactly what the first frame does. */
  lemma OnlyFirstFrameReallocates(s: State, z: (Int32, Int32), n: nat)
    requires Valid(s) && n >= 1
    ensures var ops := RunFrames(s, Repeat(z, n)).ops;
      var first := RenderStep(s, z.0, z.1).ops;
      && Filter(ops, AllocKind) == Filter(first, AllocKind)
      && ReleasedNames(ops) == ReleasedNames(first)
  {
    var sizes := Repeat(z, n);
    assert sizes[1..] == Repeat(z, n - 1);
    var first := RenderStep(s, z.0, z.1);
    RenderRecordsSize(s, z.0, z.1);
    StableFramesNoRealloc(first.post, z, n - 1);
    var rest := RunFrames(first.post, sizes[1..]);
    assert RunFrames(s, sizes).ops == first.ops + rest.ops;
    FilterAppend(first.ops, rest.ops, AllocKind);
    FilterNone(rest.ops, AllocKind);
    ReleasedNamesAppend(first.ops, rest.ops);
    ReleasedNamesNone(rest.ops);
  }

  // ---------------------------------------------------------------------------
  // hook

  /** A frame never calls the original present function itself. */
  lemma RenderNoForward(s: State, w: Int32, h: Int32)
    requires Valid(s)
    ensures Filter(RenderStep(s, w, h).ops, ForwardKind) == []
  {
    var init := InitIfNeeded(s, w, h);
    var frame := FrameOps(init.post.ping, w, h, init.post.iW, init.post.iH);
    assert RenderStep(s, w, h).ops == init.ops + frame;
    InitIfNeededGroups(s, w, h);
    FrameGroups(init.post.ping, w, h, init.post.iW, init.post.iH);
    FilterAppend(init.ops, frame, ForwardKind);
  }

  /** `hook` runs a frame only for surfaces wider than 100 pixels and forwards the
      present call exactly once, last, with its arguments unchanged. */
  lemma HookGateAndForward(s: State, w: Int32, h: Int32, d: Handle, surf: Handle)
    requires Valid(s)
    ensures var r := HookStep(s, w, h, d, surf);
      && |r.ops| >= 1 && r.ops[|r.ops| - 1] == Forward(d, surf)
      && Filter(r.ops, ForwardKind) == [Forward(d, surf)]
      && (w <= 100 ==> r.post == s && r.ops == [Forward(d, surf)])
      && (w > 100 ==>
            r.post == RenderStep(s, w, h).post &&
            r.ops[..|r.ops| - 1] == RenderStep(s, w, h).ops)
  {
    var r := HookStep(s, w, h, d, surf);
    var frame := RenderIfWide(s, w, h);
    assert r.ops == frame.ops + [Forward(d, surf)];
    assert r.ops[..|r.ops| - 1] == frame.ops;
    if w > 100 {
      RenderNoForward(s, w, h);
    }
    FilterAppend(frame.ops, [Forward(d, surf)], ForwardKind);
  }

  /** Under the width gate the internal width is at least 50; nothing bounds the
      internal height, which is 0 for a surface of height 1. */
  lemma HookInternalResolution(s: State, w: Int32, h: Int32, d: Handle, surf: Handle)
    requires Valid(s) && w > 100
    ensures var t := HookStep(s, w, h, d, surf).post;
      && t.sW == w && t.sH == h
      && t.iW == ScaleHalf(w) >= 50
      && t.iH == ScaleHalf(h)
      && (h == 1 ==> t.iH == 0)
  {
    RenderRecordsSize(s, w, h);
    ScaleHalfSpec(w);
    ScaleHalfSpec(h);
  }

  /** A 1920 x 1080 surface gets 960 x 540 buffers. */
  lemma FullHdHalfResolution(s: State, d: Handle, surf: Handle)
    requires Valid(s)
    ensures var t := HookStep(s, 1920, 1080, d, surf).post;
      t.iW == 960 && t.iH == 540
  {
    RenderRecordsSize(s, 1920, 1080);
    ScaleHalfSpec(1920);
    ScaleHalfSpec(1080);
  }
}
