/** What Render issues, as a function of the frame: the guarded optional
    stages in their fixed order, each followed by a colour-buffer swap, the
    ping-pong between the renderer's two colour buffers that the swaps cause,
    and the uber pass that always closes the frame. */
module Pipeline {
  import opened Engine
  import opened Settings
  import opened Formats
  import Bloom

  // ---------------------------------------------------------------- stages and guards

  /** The optional stages of Render, in their fixed order. */
  datatype Stage = StopNaN | Smaa | DepthOfField | MotionBlur | Panini

  /** The position of a stage in Render's fixed order. */
  function Order(s: Stage): (r: nat)
    ensures r < 5
  {
    match s
    case StopNaN => 0
    case Smaa => 1
    case DepthOfField => 2
    case MotionBlur => 3
    case Panini => 4
  }

  /** Whether a stage runs this frame. The NaN killer also needs its material,
      which some devices cannot load; SMAA is skipped on OpenGL ES 2; the
      depth-based stages and Panini never run for the scene-view camera. */
  predicate Guard(s: Stage, f: Frame, stopNaNLoaded: bool) {
    match s
    case StopNaN => f.camera.isStopNaNEnabled && stopNaNLoaded
    case Smaa => f.camera.antialiasing == SubpixelMorphologicalAntiAliasing && !f.isOpenGLES2
    case DepthOfField => f.volume.depthOfFieldActive && !f.camera.isSceneViewCamera
    case MotionBlur => f.volume.motionBlurActive && !f.camera.isSceneViewCamera
    case Panini => f.volume.paniniActive && !f.camera.isSceneViewCamera
  }

  function When(on: bool, s: Stage): (r: seq<Stage>)
  {
    if on then [s] else []
  }

  /** The stages that run this frame, in Render's order. */
  function EnabledStages(f: Frame, stopNaNLoaded: bool): (r: seq<Stage>)
    ensures forall s :: s in r <==> Guard(s, f, stopNaNLoaded)
  {
    When(Guard(StopNaN, f, stopNaNLoaded), StopNaN) +
    When(Guard(Smaa, f, stopNaNLoaded), Smaa) +
    When(Guard(DepthOfField, f, stopNaNLoaded), DepthOfField) +
    When(Guard(MotionBlur, f, stopNaNLoaded), MotionBlur) +
    When(Guard(Panini, f, stopNaNLoaded), Panini)
  }

  predicate Ordered(ss: seq<Stage>) {
    forall i, j :: 0 <= i < j < |ss| ==> Order(ss[i]) < Order(ss[j])
  }

  /** Appending a stage that comes after every stage so far keeps the order. */
  lemma OrderedWhen(ss: seq<Stage>, on: bool, s: Stage)
    requires Ordered(ss) && forall x :: x in ss ==> Order(x) < Order(s)
    ensures Ordered(ss + When(on, s))
    ensures forall x :: x in ss + When(on, s) ==> Order(x) <= Order(s)
  {
    if on {
      var r := ss + [s];
      forall i, j | 0 <= i < j < |r| ensures Order(r[i]) < Order(r[j]) {
        if j == |ss| {
          assert r[i] == ss[i] && ss[i] in ss;
        } else {
          assert r[i] == ss[i] && r[j] == ss[j];
        }
      }
    }
  }

  /** Whatever the guards, the stages that run keep Render's fixed order:
      NaN killer, SMAA, depth of field, motion blur, Panini. */
  lemma GuardedStagesOrdered(g0: bool, g1: bool, g2: bool, g3: bool, g4: bool)
    ensures Ordered(When(g0, StopNaN) + When(g1, Smaa) + When(g2, DepthOfField) + When(g3, MotionBlur) + When(g4, Panini))
  {
    var p1 := When(g0, StopNaN);
    OrderedWhen([], g0, StopNaN);
    assert [] + p1 == p1;
    OrderedWhen(p1, g1, Smaa);
    var p2 := p1 + When(g1, Smaa);
    OrderedWhen(p2, g2, DepthOfField);
    var p3 := p2 + When(g2, DepthOfField);
    OrderedWhen(p3, g3, MotionBlur);
    var p4 := p3 + When(g3, MotionBlur);
    OrderedWhen(p4, g4, Panini);
  }

  /** The stages that run this frame keep Render's fixed order. */
  lemma EnabledStagesOrdered(f: Frame, stopNaNLoaded: bool)
    ensures Ordered(EnabledStages(f, stopNaNLoaded))
  {
    GuardedStagesOrdered(Guard(StopNaN, f, stopNaNLoaded), Guard(Smaa, f, stopNaNLoaded),
      Guard(DepthOfField, f, stopNaNLoaded), Guard(MotionBlur, f, stopNaNLoaded), Guard(Panini, f, stopNaNLoaded));
  }

  /** The scene-view camera gets at most the NaN killer and SMAA. */
  lemma SceneViewSkipsCameraEffects(f: Frame, stopNaNLoaded: bool)
    requires f.camera.isSceneViewCamera
    ensures forall s :: s in EnabledStages(f, stopNaNLoaded) ==> s == StopNaN || s == Smaa
  {
  }

  // ---------------------------------------------------------------- what each stage issues

  /** A stage as it ran, with the values its commands depend on. */
  datatype StageRun =
    | StopNaNRun
    | SmaaRun(stencil: Handle, edgeDesc: Descriptor, blendDesc: Descriptor)
    | GaussianRun(fullCoC: Handle, halfCoC: Handle, ping: Handle, pong: Handle)
    | BokehRun(fullCoC: Handle, ping: Handle, pong: Handle)
    | DofOffRun                                // DoF active with mode Off: nothing is drawn
    | MotionBlurRun(quality: nat)
    | PaniniRun

  function Kind(r: StageRun): (s: Stage)
    ensures r.StopNaNRun? <==> s == StopNaN
    ensures r.SmaaRun? <==> s == Smaa
    ensures (r.GaussianRun? || r.BokehRun? || r.DofOffRun?) <==> s == DepthOfField
    ensures r.MotionBlurRun? <==> s == MotionBlur
    ensures r.PaniniRun? <==> s == Panini
  {
    match r
    case StopNaNRun => StopNaN
    case SmaaRun(_, _, _) => Smaa
    case GaussianRun(_, _, _, _) => DepthOfField
    case BokehRun(_, _, _) => DepthOfField
    case DofOffRun => DepthOfField
    case MotionBlurRun(_) => MotionBlur
    case PaniniRun => Panini
  }

  function Kinds(rs: seq<StageRun>): (ks: seq<Stage>)
    ensures |ks| == |rs|
    ensures forall i :: 0 <= i < |rs| ==> ks[i] == Kind(rs[i])
  {
    if rs == [] then [] else [Kind(rs[0])] + Kinds(rs[1..])
  }

  /** The kinds of two lists of runs, one after the other. */
  lemma KindsAppend(xs: seq<StageRun>, ys: seq<StageRun>)
    ensures Kinds(xs + ys) == Kinds(xs) + Kinds(ys)
  {
  }

  /** Regrouping five lists: the early and the camera stages. */
  lemma StageListAssoc<T>(w0: seq<T>, w1: seq<T>, w2: seq<T>, w3: seq<T>, w4: seq<T>)
    ensures (w0 + w1) + (w2 + (w3 + w4)) == w0 + w1 + w2 + w3 + w4
  {
  }

  /** Regrouping the runs of later stages after the runs so far. */
  lemma RunListAssoc(ran: seq<StageRun>, r: seq<StageRun>, rest: seq<StageRun>)
    ensures ran + r + rest == ran + (r + rest)
  {
  }

  /** SMAA: two temporaries, edge detection, blend weights, neighbourhood blending. */
  function SmaaCommands(stencil: Handle, edgeDesc: Descriptor, blendDesc: Descriptor, src: Handle, dst: Handle): (cs: seq<Command>)
  {
    var edge, blend := Temporary(EdgeTexture), Temporary(BlendTexture);
    [GetTemporaryRT(EdgeTexture, edgeDesc), GetTemporaryRT(BlendTexture, blendDesc),
     Draw(SmaaMaterial, 0, [src], [edge, stencil]),
     Draw(SmaaMaterial, 1, [edge], [blend, stencil]),
     Draw(SmaaMaterial, 2, [src, blend], [dst]),
     ReleaseTemporaryRT(EdgeTexture), ReleaseTemporaryRT(BlendTexture)]
  }

  /** Gaussian depth of field: CoC, downscale into half CoC and ping, two blurs, composite. */
  function GaussianCommands(fullCoC: Handle, halfCoC: Handle, ping: Handle, pong: Handle, src: Handle, dst: Handle): (cs: seq<Command>)
  {
    [Draw(GaussianDofMaterial, 0, [src], [fullCoC]),
     Draw(GaussianDofMaterial, 1, [src, fullCoC], [halfCoC, ping]),
     Draw(GaussianDofMaterial, 2, [ping, halfCoC], [pong]),
     Draw(GaussianDofMaterial, 3, [pong], [ping]),
     Draw(GaussianDofMaterial, 4, [src, ping, fullCoC], [dst])]
  }

  /** Bokeh depth of field: kernel upload, CoC, prefilter, blur, post-filter, composite. */
  function BokehCommands(fullCoC: Handle, ping: Handle, pong: Handle, src: Handle, dst: Handle): (cs: seq<Command>)
  {
    [BindBokehKernel,
     Draw(BokehDofMaterial, 0, [src], [fullCoC]),
     Draw(BokehDofMaterial, 1, [src, fullCoC], [ping]),
     Draw(BokehDofMaterial, 2, [ping], [pong]),
     Draw(BokehDofMaterial, 3, [pong], [ping]),
     Draw(BokehDofMaterial, 4, [src, ping], [dst])]
  }

  /** The commands a stage issues when it reads `src` and writes `dst`. */
  function StageCommands(r: StageRun, src: Handle, dst: Handle): (cs: seq<Command>)
  {
    match r
    case StopNaNRun => [Draw(StopNaNMaterial, 0, [src], [dst])]
    case SmaaRun(stencil, edgeDesc, blendDesc) => SmaaCommands(stencil, edgeDesc, blendDesc, src, dst)
    case GaussianRun(fullCoC, halfCoC, ping, pong) => GaussianCommands(fullCoC, halfCoC, ping, pong, src, dst)
    case BokehRun(fullCoC, ping, pong) => BokehCommands(fullCoC, ping, pong, src, dst)
    case DofOffRun => []
    case MotionBlurRun(quality) => [Draw(MotionBlurMaterial, quality, [src], [dst])]
    case PaniniRun => [Draw(PaniniMaterial, 0, [src], [dst])]
  }

  /** The scratch surfaces a stage renders into besides its destination. */
  function Scratch(r: StageRun): (hs: set<Handle>)
  {
    match r
    case SmaaRun(stencil, _, _) => {Temporary(EdgeTexture), Temporary(BlendTexture), stencil}
    case GaussianRun(fullCoC, halfCoC, ping, pong) => {fullCoC, halfCoC, ping, pong}
    case BokehRun(fullCoC, ping, pong) => {fullCoC, ping, pong}
    case _ => {}
  }

  /** The draw commands among `cs`, in order. */
  function Draws(cs: seq<Command>): (ds: seq<Command>)
    ensures |ds| <= |cs|
    ensures forall i :: 0 <= i < |ds| ==> ds[i].Draw?
  {
    if cs == [] then []
    else (if cs[0].Draw? then [cs[0]] else []) + Draws(cs[1..])
  }

  lemma {:induction false} DrawsAppend(xs: seq<Command>, ys: seq<Command>)
    ensures Draws(xs + ys) == Draws(xs) + Draws(ys)
    decreases |xs|
  {
    if xs == [] {
      assert xs + ys == ys;
    } else {
      assert (xs + ys)[0] == xs[0];
      assert (xs + ys)[1..] == xs[1..] + ys;
      DrawsAppend(xs[1..], ys);
    }
  }

  /** A sequence made only of draws is its own list of draws. */
  lemma {:induction false} DrawsOfDraws(cs: seq<Command>)
    requires forall i :: 0 <= i < |cs| ==> cs[i].Draw?
    ensures Draws(cs) == cs
    decreases |cs|
  {
    if cs != [] {
      DrawsOfDraws(cs[1..]);
    }
  }

  function Swaps(cs: seq<Command>): (n: nat)
    ensures n <= |cs|
  {
    if cs == [] then 0 else (if cs[0] == ColorBufferSwap then 1 else 0) + Swaps(cs[1..])
  }

  /** A log has no swaps exactly when no colour-buffer swap occurs in it. */
  lemma {:induction false} SwapsZero(cs: seq<Command>)
    ensures Swaps(cs) == 0 <==> ColorBufferSwap !in cs
    decreases |cs|
  {
    if cs != [] {
      SwapsZero(cs[1..]);
      assert cs == [cs[0]] + cs[1..];
    }
  }

  lemma {:induction false} SwapsAppend(xs: seq<Command>, ys: seq<Command>)
    ensures Swaps(xs + ys) == Swaps(xs) + Swaps(ys)
    decreases |xs|
  {
    if xs == [] {
      assert xs + ys == ys;
    } else {
      assert (xs + ys)[0] == xs[0];
      assert (xs + ys)[1..] == xs[1..] + ys;
      SwapsAppend(xs[1..], ys);
    }
  }

  /** A sequence without a swap command counts no swap. */
  lemma {:induction false} NoSwaps(cs: seq<Command>)
    requires forall i :: 0 <= i < |cs| ==> cs[i] != ColorBufferSwap
    ensures Swaps(cs) == 0
    decreases |cs|
  {
    if cs != [] {
      NoSwaps(cs[1..]);
    }
  }

  /** A stage reads `src` and writes `dst`: its first draw samples `src`, its
      last draw renders exactly `dst`, no draw renders into `src`, and no draw
      but the last renders into `dst`. */
  predicate ReadsSourceWritesDestination(cs: seq<Command>, src: Handle, dst: Handle) {
    var ds := Draws(cs);
    |ds| >= 1 && src in ds[0].inputs && ds[|ds| - 1].targets == [dst] &&
    (forall i :: 0 <= i < |ds| ==> src !in ds[i].targets) &&
    (forall i :: 0 <= i < |ds| - 1 ==> dst !in ds[i].targets)
  }

  /** The draws of each stage, in order. */
  lemma SmaaDraws(stencil: Handle, e: Descriptor, b: Descriptor, src: Handle, dst: Handle)
    ensures Draws(SmaaCommands(stencil, e, b, src, dst)) == SmaaCommands(stencil, e, b, src, dst)[2..5]
  {
    var cs := SmaaCommands(stencil, e, b, src, dst);
    assert cs == cs[..2] + cs[2..5] + cs[5..];
    DrawsAppend(cs[..2] + cs[2..5], cs[5..]);
    DrawsAppend(cs[..2], cs[2..5]);
    DrawsOfDraws(cs[2..5]);
    assert Draws(cs[..2]) == [] by {
      assert cs[..2][1..] == [cs[1]];
    }
    assert Draws(cs[5..]) == [] by {
      assert cs[5..][1..] == [cs[6]];
    }
  }

  lemma BokehDraws(fullCoC: Handle, ping: Handle, pong: Handle, src: Handle, dst: Handle)
    ensures Draws(BokehCommands(fullCoC, ping, pong, src, dst)) == BokehCommands(fullCoC, ping, pong, src, dst)[1..]
  {
    var cs := BokehCommands(fullCoC, ping, pong, src, dst);
    assert cs == [cs[0]] + cs[1..];
    DrawsAppend([cs[0]], cs[1..]);
    DrawsOfDraws(cs[1..]);
  }

  /** Every stage that draws at all reads its source and writes its destination,
      provided the two colour buffers differ and the stage's scratch surfaces
      are neither of them; no stage swaps on its own. */
  lemma StageReadsSourceWritesDestination(r: StageRun, src: Handle, dst: Handle)
    requires r != DofOffRun
    requires src != dst && src !in Scratch(r) && dst !in Scratch(r)
    ensures ReadsSourceWritesDestination(StageCommands(r, src, dst), src, dst)
    ensures Swaps(StageCommands(r, src, dst)) == 0
  {
    match r
    case StopNaNRun => SingleDrawReadsWrites(StopNaNMaterial, 0, src, dst);
    case SmaaRun(stencil, e, b) => SmaaReadsWrites(stencil, e, b, src, dst);
    case GaussianRun(fullCoC, halfCoC, ping, pong) => GaussianReadsWrites(fullCoC, halfCoC, ping, pong, src, dst);
    case BokehRun(fullCoC, ping, pong) => BokehReadsWrites(fullCoC, ping, pong, src, dst);
    case MotionBlurRun(quality) => SingleDrawReadsWrites(MotionBlurMaterial, quality, src, dst);
    case PaniniRun => SingleDrawReadsWrites(PaniniMaterial, 0, src, dst);
  }

  lemma SingleDrawReadsWrites(m: MaterialKind, pass: nat, src: Handle, dst: Handle)
    requires src != dst
    ensures ReadsSourceWritesDestination([Draw(m, pass, [src], [dst])], src, dst)
    ensures Swaps([Draw(m, pass, [src], [dst])]) == 0
  {
    var cs := [Draw(m, pass, [src], [dst])];
    NoSwaps(cs);
    DrawsOfDraws(cs);
  }

  lemma SmaaReadsWrites(stencil: Handle, e: Descriptor, b: Descriptor, src: Handle, dst: Handle)
    requires src != dst
    requires src !in {Temporary(EdgeTexture), Temporary(BlendTexture), stencil}
    requires dst !in {Temporary(EdgeTexture), Temporary(BlendTexture), stencil}
    ensures ReadsSourceWritesDestination(SmaaCommands(stencil, e, b, src, dst), src, dst)
    ensures Swaps(SmaaCommands(stencil, e, b, src, dst)) == 0
  {
    var cs := SmaaCommands(stencil, e, b, src, dst);
    NoSwaps(cs);
    SmaaDraws(stencil, e, b, src, dst);
  }

  lemma GaussianReadsWrites(fullCoC: Handle, halfCoC: Handle, ping: Handle, pong: Handle, src: Handle, dst: Handle)
    requires src != dst && src !in {fullCoC, halfCoC, ping, pong} && dst !in {fullCoC, halfCoC, ping, pong}
    ensures ReadsSourceWritesDestination(GaussianCommands(fullCoC, halfCoC, ping, pong, src, dst), src, dst)
    ensures Swaps(GaussianCommands(fullCoC, halfCoC, ping, pong, src, dst)) == 0
  {
    var cs := GaussianCommands(fullCoC, halfCoC, ping, pong, src, dst);
    NoSwaps(cs);
    DrawsOfDraws(cs);
  }

  lemma BokehReadsWrites(fullCoC: Handle, ping: Handle, pong: Handle, src: Handle, dst: Handle)
    requires src != dst && src !in {fullCoC, ping, pong} && dst !in {fullCoC, ping, pong}
    ensures ReadsSourceWritesDestination(BokehCommands(fullCoC, ping, pong, src, dst), src, dst)
    ensures Swaps(BokehCommands(fullCoC, ping, pong, src, dst)) == 0
  {
    var cs := BokehCommands(fullCoC, ping, pong, src, dst);
    NoSwaps(cs);
    BokehDraws(fullCoC, ping, pong, src, dst);
  }

  // ---------------------------------------------------------------- ping-pong

  /** The buffer that is the source after `k` swaps starting from (a, b). */
  function Src(a: Handle, b: Handle, k: nat): (h: Handle)
    ensures h == a || h == b
  {
    if k % 2 == 0 then a else b
  }

  /** The buffer that is the destination after `k` swaps starting from (a, b). */
  function Dst(a: Handle, b: Handle, k: nat): (h: Handle)
    ensures h == a || h == b
    ensures a != b ==> h != Src(a, b, k)
  {
    if k % 2 == 0 then b else a
  }

  /** What one swap does: the destination becomes the source and vice versa. */
  lemma SwapExchanges(a: Handle, b: Handle, k: nat)
    ensures Src(a, b, k + 1) == Dst(a, b, k) && Dst(a, b, k + 1) == Src(a, b, k)
    ensures Src(b, a, k) == Src(a, b, k + 1) && Dst(b, a, k) == Dst(a, b, k + 1)
  {
  }

  /** The stages run one after another, each reading the current source and
      writing the current destination, each followed by a swap. */
  function Chain(rs: seq<StageRun>, src: Handle, dst: Handle): (cs: seq<Command>)
  {
    if rs == [] then []
    else StageCommands(rs[0], src, dst) + [ColorBufferSwap] + Chain(rs[1..], dst, src)
  }

  /** Running two lists of stages one after the other: the second starts on the buffers the first left. */
  lemma {:induction false} ChainAppend(xs: seq<StageRun>, ys: seq<StageRun>, a: Handle, b: Handle)
    ensures Chain(xs + ys, a, b) == Chain(xs, a, b) + Chain(ys, Src(a, b, |xs|), Dst(a, b, |xs|))
    decreases |xs|
  {
    if xs == [] {
      assert xs + ys == ys;
    } else {
      assert (xs + ys)[0] == xs[0];
      assert (xs + ys)[1..] == xs[1..] + ys;
      ChainAppend(xs[1..], ys, b, a);
      SwapExchanges(a, b, |xs| - 1);
    }
  }

  /** Appending one stage appends its commands, run on the buffers the earlier swaps left, and a swap. */
  lemma ChainSnoc(rs: seq<StageRun>, r: StageRun, a: Handle, b: Handle)
    ensures Chain(rs + [r], a, b) ==
      Chain(rs, a, b) + StageCommands(r, Src(a, b, |rs|), Dst(a, b, |rs|)) + [ColorBufferSwap]
  {
    ChainAppend(rs, [r], a, b);
    assert Chain([r][1..], Dst(a, b, |rs|), Src(a, b, |rs|)) == [];
  }

  /** Regrouping a log that grew by a stage's commands and a swap. */
  lemma AppendStageAssoc(start: seq<Command>, c: seq<Command>, sc: seq<Command>)
    ensures start + c + sc + [ColorBufferSwap] == start + (c + sc + [ColorBufferSwap])
  {
  }

  /** Stage k of a chain runs from Src(k) to Dst(k); its destination is the next stage's source. */
  lemma ChainStage(rs: seq<StageRun>, a: Handle, b: Handle, k: nat)
    requires k < |rs|
    ensures Chain(rs, a, b) ==
      Chain(rs[..k], a, b) + StageCommands(rs[k], Src(a, b, k), Dst(a, b, k)) + [ColorBufferSwap] +
      Chain(rs[k + 1..], Src(a, b, k + 1), Dst(a, b, k + 1))
    ensures Src(a, b, k + 1) == Dst(a, b, k)
  {
    assert rs == rs[..k] + rs[k..];
    ChainAppend(rs[..k], rs[k..], a, b);
    assert rs[k..][0] == rs[k] && rs[k..][1..] == rs[k + 1..];
    SwapExchanges(a, b, k);
  }

  /** Each stage adds exactly one swap. */
  lemma {:induction false} ChainSwaps(rs: seq<StageRun>, a: Handle, b: Handle)
    requires a != b
    requires forall i :: 0 <= i < |rs| ==> rs[i] != DofOffRun && a !in Scratch(rs[i]) && b !in Scratch(rs[i])
    ensures Swaps(Chain(rs, a, b)) == |rs|
    decreases |rs|
  {
    if rs != [] {
      StageReadsSourceWritesDestination(rs[0], a, b);
      ChainSwaps(rs[1..], b, a);
      SwapsAppend(StageCommands(rs[0], a, b), [ColorBufferSwap]);
      SwapsAppend(StageCommands(rs[0], a, b) + [ColorBufferSwap], Chain(rs[1..], b, a));
    }
  }

  // ---------------------------------------------------------------- the uber pass

  /** The screen output of a camera. The test is on the camera's own target
      texture, but the output is the camera stack's target texture, so that an
      overlay camera renders into its base camera's texture; a camera without a
      texture of its own renders to the camera target, whatever the stack holds. */
  function ScreenTarget(hasOwnTargetTexture: bool, stackTargetTexture: Option<Handle>): (h: Handle)
  {
    if !hasOwnTargetTexture then CameraTarget
    else if stackTargetTexture.Some? then stackTargetTexture.value
    else NullTexture
  }

  /** Where the uber pass renders: the screen output when resolving to screen,
      otherwise the current destination. */
  function UberTarget(resolveToScreen: bool, hasOwnTargetTexture: bool, stackTargetTexture: Option<Handle>, dst: Handle): (h: Handle)
  {
    if resolveToScreen then ScreenTarget(hasOwnTargetTexture, stackTargetTexture) else dst
  }

  /** The uber block: the bloom schedule when bloom is on, the uber draw, and a final swap unless resolving to screen. */
  function UberCommands(bloom: seq<Command>, src: Handle, target: Handle, resolveToScreen: bool): (cs: seq<Command>)
  {
    bloom + [Draw(UberMaterial, 0, [src], [target])] + (if resolveToScreen then [] else [ColorBufferSwap])
  }

  /** The uber block swaps once exactly when the pass does not resolve to screen. */
  lemma UberSwaps(bloom: seq<Command>, src: Handle, target: Handle, resolveToScreen: bool)
    requires Swaps(bloom) == 0
    ensures Swaps(UberCommands(bloom, src, target, resolveToScreen)) == if resolveToScreen then 0 else 1
  {
    var d := [Draw(UberMaterial, 0, [src], [target])];
    var tail: seq<Command> := if resolveToScreen then [] else [ColorBufferSwap];
    SwapsAppend(bloom, d);
    SwapsAppend(bloom + d, tail);
  }

  /** A frame swaps once per stage that ran, plus once more exactly when the pass does not resolve to screen. */
  lemma FrameSwaps(rs: seq<StageRun>, a: Handle, b: Handle, bloom: seq<Command>, target: Handle, resolveToScreen: bool)
    requires a != b && Swaps(bloom) == 0
    requires forall i :: 0 <= i < |rs| ==> rs[i] != DofOffRun && a !in Scratch(rs[i]) && b !in Scratch(rs[i])
    ensures Swaps(Chain(rs, a, b) + UberCommands(bloom, Src(a, b, |rs|), target, resolveToScreen)) ==
      |rs| + (if resolveToScreen then 0 else 1)
  {
    ChainSwaps(rs, a, b);
    UberSwaps(bloom, Src(a, b, |rs|), target, resolveToScreen);
    SwapsAppend(Chain(rs, a, b), UberCommands(bloom, Src(a, b, |rs|), target, resolveToScreen));
  }

  /** The bloom schedule never swaps. */
  lemma BloomScheduleNoSwaps(n: nat, src: Handle, down: seq<Handle>, up: seq<Handle>)
    requires 1 <= n <= Bloom.MaxPyramidSize && Bloom.Pyramid(down, up)
    ensures Swaps(Bloom.Schedule(n, src, down, up)) == 0
  {
    NoSwaps(Bloom.Schedule(n, src, down, up));
  }
}
