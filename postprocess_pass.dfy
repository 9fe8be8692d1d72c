/** PostProcessPass as a state machine: the pass's configuration flags, the
    motion-blur history, the bokeh kernel and its cache key, the lazily
    allocated depth-of-field scratch handles, the always-allocated temporary
    and bloom handles, and the material library whose keyword sets the pass
    rewrites every frame. Engine calls are appended to a `CommandLog`, handle
    allocations and releases to the `RTHandleSystem`'s event list. */
module PostProcess {
  import opened Engine
  import opened Settings
  import opened Formats
  import opened Keywords
  import opened Pipeline
  import Bloom
  import Bokeh

  const AllMaterials: set<MaterialKind> :=
    {StopNaNMaterial, SmaaMaterial, GaussianDofMaterial, BokehDofMaterial, MotionBlurMaterial,
     PaniniMaterial, BloomMaterial, UberMaterial, FinalPassMaterial}

  // ---------------------------------------------------------------- material library

  lemma EveryMaterial(m: MaterialKind)
    ensures m in AllMaterials
  {
    match m
    case StopNaNMaterial =>
    case SmaaMaterial =>
    case GaussianDofMaterial =>
    case BokehDofMaterial =>
    case MotionBlurMaterial =>
    case PaniniMaterial =>
    case BloomMaterial =>
    case UberMaterial =>
    case FinalPassMaterial =>
  }

  /** The nine materials. `created` holds those whose shader could be loaded
      (the others are null); `missing` those whose shader reference was
      absent, for which an error is logged. Each material has a keyword set;
      the motion-blur material also holds its two matrices. */
  class MaterialLibrary {
    const created: set<MaterialKind>
    const missing: set<MaterialKind>
    var keywords: map<MaterialKind, set<Keyword>>
    var viewProjM: Option<Matrix>
    var prevViewProjM: Option<Matrix>
    var destroyed: bool

    ghost predicate Valid()
      reads this`keywords
    {
      forall m: MaterialKind :: m in keywords
    }

    /** Loads every shader the post-processing data names. */
    constructor (shaders: MaterialKind -> Option<Shader>)
      ensures Valid() && !destroyed
      ensures forall m :: m in created <==> LoadDecision(shaders(m)) == CreatedMaterial
      ensures forall m :: m in missing <==> LogsError(LoadDecision(shaders(m)))
      ensures forall m :: keywords[m] == {}
      ensures viewProjM.None? && prevViewProjM.None?
    {
      forall m: MaterialKind ensures m in AllMaterials {
        EveryMaterial(m);
      }
      created := set m | m in AllMaterials && LoadDecision(shaders(m)) == CreatedMaterial;
      missing := set m | m in AllMaterials && LogsError(LoadDecision(shaders(m)));
      keywords := map m | m in AllMaterials :: {};
      viewProjM, prevViewProjM := None, None;
      destroyed := false;
    }

    /** `shaderKeywords = null`. */
    method ClearKeywords(m: MaterialKind)
      requires Valid()
      modifies this`keywords
      ensures Valid() && keywords == old(keywords)[m := {}]
    {
      keywords := keywords[m := {}];
    }

    method EnableKeyword(m: MaterialKind, k: Keyword)
      requires Valid()
      modifies this`keywords
      ensures Valid() && keywords == old(keywords)[m := old(keywords)[m] + {k}]
    {
      keywords := keywords[m := keywords[m] + {k}];
    }

    /** CoreUtils.SetKeyword. */
    method SetKeyword(m: MaterialKind, k: Keyword, on: bool)
      requires Valid()
      modifies this`keywords
      ensures Valid() && keywords == old(keywords)[m := Keywords.SetKeyword(old(keywords)[m], k, on)]
    {
      keywords := keywords[m := Keywords.SetKeyword(keywords[m], k, on)];
    }

    /** The motion-blur material's `_ViewProjM` and `_PrevViewProjM`. */
    method SetMotionBlurMatrices(viewProj: Matrix, prev: Matrix)
      modifies this`viewProjM, this`prevViewProjM
      ensures viewProjM == Some(viewProj) && prevViewProjM == Some(prev)
    {
      viewProjM, prevViewProjM := Some(viewProj), Some(prev);
    }

    /** Destroys every material; destroying a null material does nothing. */
    method Cleanup()
      modifies this`destroyed
      ensures destroyed
    {
      destroyed := true;
    }
  }

  /** Writing a material's keyword set twice leaves only the second write. */
  lemma UpdateTwice(ks: map<MaterialKind, set<Keyword>>, m: MaterialKind, a: set<Keyword>, b: set<Keyword>)
    ensures ks[m := a][m := b] == ks[m := b]
  {
  }

  // ---------------------------------------------------------------- keyword state of a frame

  /** The bloom commands of the uber block: the schedule of SetupBloom when bloom is on, nothing otherwise. */
  function BloomCommands(bloomActive: bool, desc: Descriptor, skipIterations: int, src: Handle,
                         down: seq<Handle>, up: seq<Handle>): (cs: seq<Command>)
    requires Bloom.Pyramid(down, up)
    ensures !bloomActive ==> cs == []
    ensures bloomActive ==> |cs| == 3 * Bloom.MipCount(desc.width, desc.height, skipIterations) - 1
  {
    if bloomActive then Bloom.Schedule(Bloom.MipCount(desc.width, desc.height, skipIterations), src, down, up) else []
  }

  /** The keyword sets after SetupBloom. */
  function BloomKeywords(ks: map<MaterialKind, set<Keyword>>, f: Frame, useRGBM: bool): (r: map<MaterialKind, set<Keyword>>)
    requires forall m: MaterialKind :: m in ks
  {
    var v := f.volume;
    ks[BloomMaterial := Keywords.SetKeyword(Keywords.SetKeyword(ks[BloomMaterial], BloomHQ, v.bloomHighQualityFiltering), UseRGBM, useRGBM)]
      [UberMaterial := ks[UberMaterial] + {BloomKeyword(v.bloomHighQualityFiltering, v.bloomDirtIntensityPositive)}]
  }

  /** The keyword sets after DoDepthOfField. */
  function DepthOfFieldKeywords(ks: map<MaterialKind, set<Keyword>>, f: Frame, useFast: bool): (r: map<MaterialKind, set<Keyword>>)
    requires forall m: MaterialKind :: m in ks
  {
    match f.volume.depthOfFieldMode
    case Gaussian =>
      ks[GaussianDofMaterial := Keywords.SetKeyword(ks[GaussianDofMaterial], HighQualitySampling, f.volume.gaussianHighQualitySampling)]
    case Bokeh =>
      ks[BokehDofMaterial := Keywords.SetKeyword(ks[BokehDofMaterial], UseFastSRGBLinearConversion, useFast)]
    case DepthOfFieldOff => ks
  }

  /** The keyword sets after Render's SMAA stage: the quality preset when the stage runs. */
  function SmaaStageKeywords(ks: map<MaterialKind, set<Keyword>>, f: Frame, stopNaNLoaded: bool): (r: map<MaterialKind, set<Keyword>>)
    requires forall m: MaterialKind :: m in ks
    ensures r.Keys == ks.Keys
  {
    if Guard(Smaa, f, stopNaNLoaded) then ks[SmaaMaterial := SmaaKeywords(f.camera.antialiasingQuality)] else ks
  }

  /** The keyword sets after Render's depth-of-field stage. */
  function DofStageKeywords(ks: map<MaterialKind, set<Keyword>>, f: Frame, stopNaNLoaded: bool, useFast: bool): (r: map<MaterialKind, set<Keyword>>)
    requires forall m: MaterialKind :: m in ks
    ensures r.Keys == ks.Keys
  {
    if Guard(DepthOfField, f, stopNaNLoaded) then DepthOfFieldKeywords(ks, f, useFast) else ks
  }

  /** The keyword sets after Render's Panini stage: one more keyword, never a clear. */
  function PaniniStageKeywords(ks: map<MaterialKind, set<Keyword>>, f: Frame, stopNaNLoaded: bool): (r: map<MaterialKind, set<Keyword>>)
    requires forall m: MaterialKind :: m in ks
    ensures r.Keys == ks.Keys
  {
    if Guard(Panini, f, stopNaNLoaded) then ks[PaniniMaterial := ks[PaniniMaterial] + {PaniniKeyword(f.volume.paniniGeneric)}] else ks
  }

  /** The SMAA stage replaces the SMAA material's keywords by the quality preset
      when it runs, and changes nothing else. */
  lemma SmaaStageEffect(ks: map<MaterialKind, set<Keyword>>, f: Frame, stopNaNLoaded: bool)
    requires forall m: MaterialKind :: m in ks
    ensures var r := SmaaStageKeywords(ks, f, stopNaNLoaded);
      (forall m :: m != SmaaMaterial ==> r[m] == ks[m]) &&
      (Guard(Smaa, f, stopNaNLoaded) ==> r[SmaaMaterial] == SmaaKeywords(f.camera.antialiasingQuality)) &&
      (!Guard(Smaa, f, stopNaNLoaded) ==> r == ks)
  {
  }

  /** The depth-of-field stage sets high-quality sampling on the Gaussian
      material, or the fast sRGB conversion on the Bokeh material, by the mode;
      with the mode Off or the stage skipped nothing changes. */
  lemma DofStageEffect(ks: map<MaterialKind, set<Keyword>>, f: Frame, stopNaNLoaded: bool, useFast: bool)
    requires forall m: MaterialKind :: m in ks
    ensures var r := DofStageKeywords(ks, f, stopNaNLoaded, useFast);
      (forall m :: m != GaussianDofMaterial && m != BokehDofMaterial ==> r[m] == ks[m]) &&
      (Guard(DepthOfField, f, stopNaNLoaded) && f.volume.depthOfFieldMode == Gaussian ==>
        r[BokehDofMaterial] == ks[BokehDofMaterial] &&
        (HighQualitySampling in r[GaussianDofMaterial] <==> f.volume.gaussianHighQualitySampling)) &&
      (Guard(DepthOfField, f, stopNaNLoaded) && f.volume.depthOfFieldMode == Bokeh ==>
        r[GaussianDofMaterial] == ks[GaussianDofMaterial] &&
        (UseFastSRGBLinearConversion in r[BokehDofMaterial] <==> useFast)) &&
      (!Guard(DepthOfField, f, stopNaNLoaded) || f.volume.depthOfFieldMode == DepthOfFieldOff ==> r == ks)
  {
  }

  /** The Panini stage adds its keyword to the Panini material's set, never
      removing one, and changes nothing else. */
  lemma PaniniStageEffect(ks: map<MaterialKind, set<Keyword>>, f: Frame, stopNaNLoaded: bool)
    requires forall m: MaterialKind :: m in ks
    ensures var r := PaniniStageKeywords(ks, f, stopNaNLoaded);
      (forall m :: m != PaniniMaterial ==> r[m] == ks[m]) &&
      (Guard(Panini, f, stopNaNLoaded) ==> r[PaniniMaterial] == ks[PaniniMaterial] + {PaniniKeyword(f.volume.paniniGeneric)}) &&
      (!Guard(Panini, f, stopNaNLoaded) ==> r == ks)
  {
  }

  /** The keyword sets after the optional stages of Render. */
  function StageKeywords(ks: map<MaterialKind, set<Keyword>>, f: Frame, stopNaNLoaded: bool, useFast: bool): (r: map<MaterialKind, set<Keyword>>)
    requires forall m: MaterialKind :: m in ks
  {
    var smaa := SmaaStageKeywords(ks, f, stopNaNLoaded);
    assert forall m: MaterialKind :: m in smaa;
    var dof := DofStageKeywords(smaa, f, stopNaNLoaded, useFast);
    assert forall m: MaterialKind :: m in dof;
    PaniniStageKeywords(dof, f, stopNaNLoaded)
  }

  /** The keyword sets after the uber block: the uber set rebuilt from
      nothing by the rules in order, the bloom material's two keywords set
      when bloom is on. */
  function UberBlockKeywords(ks: map<MaterialKind, set<Keyword>>, f: Frame, hasFinalPass: bool, srgbConversion: bool, useRGBM: bool)
    : (r: map<MaterialKind, set<Keyword>>)
    requires forall m: MaterialKind :: m in ks
  {
    var base := if f.volume.bloomActive then BloomKeywords(ks[UberMaterial := {}], f, useRGBM) else ks[UberMaterial := {}];
    base[UberMaterial := UberSteps(f, hasFinalPass, srgbConversion)]
  }

  /** Every keyword set Render leaves: the stage rules, then the uber block. */
  function RenderKeywords(ks: map<MaterialKind, set<Keyword>>, f: Frame, stopNaNLoaded: bool, hasFinalPass: bool,
                          srgbConversion: bool, useRGBM: bool, useFast: bool): (r: map<MaterialKind, set<Keyword>>)
    requires forall m: MaterialKind :: m in ks
  {
    UberBlockKeywords(StageKeywords(ks, f, stopNaNLoaded, useFast), f, hasFinalPass, srgbConversion, useRGBM)
  }

  /** Render changes the Panini material's keywords only in its Panini stage:
      the SMAA and depth-of-field stages and the uber block leave them alone. */
  lemma RenderPaniniKeywords(ks: map<MaterialKind, set<Keyword>>, f: Frame, stopNaNLoaded: bool, hasFinalPass: bool,
                             srgbConversion: bool, useRGBM: bool, useFast: bool)
    requires forall m: MaterialKind :: m in ks
    ensures RenderKeywords(ks, f, stopNaNLoaded, hasFinalPass, srgbConversion, useRGBM, useFast)[PaniniMaterial] ==
      PaniniStageKeywords(ks, f, stopNaNLoaded)[PaniniMaterial]
  {
    SmaaStageEffect(ks, f, stopNaNLoaded);
    var smaa := SmaaStageKeywords(ks, f, stopNaNLoaded);
    DofStageEffect(smaa, f, stopNaNLoaded, useFast);
    var dof := DofStageKeywords(smaa, f, stopNaNLoaded, useFast);
    assert dof[PaniniMaterial] == ks[PaniniMaterial];
    PaniniStageEffect(dof, f, stopNaNLoaded);
    PaniniStageEffect(ks, f, stopNaNLoaded);
  }

  /** The Panini material is never cleared: after one Render with the generic
      variant and one with the unit-distance variant, both stay enabled. */
  lemma PaniniTwoFramesBothVariants(ks: map<MaterialKind, set<Keyword>>, f1: Frame, f2: Frame, stopNaNLoaded: bool,
                                    hasFinalPass1: bool, srgbConversion1: bool, useRGBM1: bool, useFast1: bool,
                                    hasFinalPass2: bool, srgbConversion2: bool, useRGBM2: bool, useFast2: bool)
    requires forall m: MaterialKind :: m in ks
    requires Guard(Panini, f1, stopNaNLoaded) && Guard(Panini, f2, stopNaNLoaded)
    requires f1.volume.paniniGeneric && !f2.volume.paniniGeneric
    ensures var first := RenderKeywords(ks, f1, stopNaNLoaded, hasFinalPass1, srgbConversion1, useRGBM1, useFast1);
      (forall m: MaterialKind :: m in first) &&
      {PaniniGeneric, PaniniUnitDistance} <=
        RenderKeywords(first, f2, stopNaNLoaded, hasFinalPass2, srgbConversion2, useRGBM2, useFast2)[PaniniMaterial]
  {
    var first := RenderKeywords(ks, f1, stopNaNLoaded, hasFinalPass1, srgbConversion1, useRGBM1, useFast1);
    RenderPaniniKeywords(ks, f1, stopNaNLoaded, hasFinalPass1, srgbConversion1, useRGBM1, useFast1);
    PaniniStageEffect(ks, f1, stopNaNLoaded);
    RenderPaniniKeywords(first, f2, stopNaNLoaded, hasFinalPass2, srgbConversion2, useRGBM2, useFast2);
    PaniniStageEffect(first, f2, stopNaNLoaded);
  }

  // ---------------------------------------------------------------- lazy allocation

  /** The outcome of filling a list of lazily allocated slots: the handle of
      each slot, the allocator's next serial, and the allocations made. */
  datatype Fill = Fill(handles: seq<Handle>, next: nat, allocations: seq<ResourceEvent>)

  /** The number of empty slots. */
  function Missing(slots: seq<Option<Handle>>): (n: nat)
    ensures n <= |slots|
  {
    if slots == [] then 0 else Missing(slots[..|slots| - 1]) + (if slots[|slots| - 1].None? then 1 else 0)
  }

  /** No slot is missing exactly when all are allocated, and every slot is
      missing exactly when none is. */
  lemma {:induction false} MissingCounts(slots: seq<Option<Handle>>)
    ensures Missing(slots) == 0 <==> forall i :: 0 <= i < |slots| ==> slots[i].Some?
    ensures Missing(slots) == |slots| <==> forall i :: 0 <= i < |slots| ==> slots[i].None?
  {
    if slots != [] {
      MissingCounts(slots[..|slots| - 1]);
    }
  }

  /** The slots are visited in order: each empty one gets a fresh handle under
      its name, a filled one keeps its handle. */
  function LazyFill(slots: seq<Option<Handle>>, names: seq<string>, next: nat): (r: Fill)
    requires |slots| == |names|
    ensures |r.handles| == |slots| && r.next == next + Missing(slots) && |r.allocations| == Missing(slots)
    decreases |slots|
  {
    if slots == [] then Fill([], next, [])
    else
      var k := |slots| - 1;
      LazyStep(LazyFill(slots[..k], names[..k], next), slots[k], names[k])
  }

  /** One slot of a fill: a filled slot keeps its handle, an empty one takes
      the next serial under its name. */
  function LazyStep(before: Fill, slot: Option<Handle>, name: string): (r: Fill)
    ensures |r.handles| == |before.handles| + 1 && |r.allocations| == |before.allocations| + (if slot.None? then 1 else 0)
    ensures r.next == before.next + (if slot.None? then 1 else 0)
  {
    if slot.Some? then Fill(before.handles + [slot.value], before.next, before.allocations)
    else
      var h := Allocated(Named(name), before.next);
      Fill(before.handles + [h], before.next + 1, before.allocations + [Allocation(h)])
  }

  /** A filled slot keeps its handle; an empty one gets a handle under its own
      name with a serial from this fill, so it differs from every handle
      allocated before. */
  lemma {:induction false} LazyFillSlots(slots: seq<Option<Handle>>, names: seq<string>, next: nat)
    requires |slots| == |names|
    ensures var r := LazyFill(slots, names, next);
      (forall i :: 0 <= i < |slots| && slots[i].Some? ==> r.handles[i] == slots[i].value) &&
      (forall i :: 0 <= i < |slots| && slots[i].None? ==>
        r.handles[i].Allocated? && r.handles[i].name == Named(names[i]) && next <= r.handles[i].serial < r.next)
    decreases |slots|
  {
    if slots != [] {
      var k := |slots| - 1;
      LazyFillSlots(slots[..k], names[..k], next);
      var before := LazyFill(slots[..k], names[..k], next);
      var r := LazyStep(before, slots[k], names[k]);
      assert r == LazyFill(slots, names, next);
      assert r.handles == before.handles + [r.handles[k]];
      forall i | 0 <= i < |slots| && slots[i].Some?
        ensures r.handles[i] == slots[i].value
      {
        if i < k {
          assert slots[..k][i] == slots[i];
        }
      }
      forall i | 0 <= i < |slots| && slots[i].None?
        ensures r.handles[i].Allocated? && r.handles[i].name == Named(names[i]) && next <= r.handles[i].serial < r.next
      {
        if i < k {
          assert slots[..k][i] == slots[i] && names[..k][i] == names[i];
        }
      }
    }
  }

  function AllSome(hs: seq<Handle>): (slots: seq<Option<Handle>>)
  {
    seq(|hs|, i requires 0 <= i < |hs| => Some(hs[i]))
  }

  /** Filling slots that all hold a handle allocates nothing and keeps every handle. */
  lemma {:induction false} LazyFillAllSome(hs: seq<Handle>, names: seq<string>, next: nat)
    requires |hs| == |names|
    ensures LazyFill(AllSome(hs), names, next) == Fill(hs, next, [])
    decreases |hs|
  {
    if hs != [] {
      var k := |hs| - 1;
      LazyFillAllSome(hs[..k], names[..k], next);
      var slots := AllSome(hs);
      assert slots[..k] == AllSome(hs[..k]);
      assert slots[k] == Some(hs[k]);
      assert hs == hs[..k] + [hs[k]];
    }
  }

  /** Filling slots that are already filled allocates nothing and keeps every
      handle: a second call reuses the handles of the first. */
  lemma LazyFillReuses(slots: seq<Option<Handle>>, names: seq<string>, next: nat, later: nat)
    requires |slots| == |names|
    ensures var first := LazyFill(slots, names, next);
      LazyFill(AllSome(first.handles), names, later) == Fill(first.handles, later, [])
  {
    LazyFillAllSome(LazyFill(slots, names, next).handles, names, later);
  }

  /** `if (slot == null) slot = RTHandles.Alloc(..., name)`, as the step of a
      fill whose allocations so far follow the event list `base`. */
  method LazyAlloc(ghost before: Fill, ghost base: seq<ResourceEvent>, slot: Option<Handle>, name: string, handles: RTHandleSystem)
    returns (h: Handle)
    requires handles.nextSerial == before.next && handles.events == base + before.allocations
    modifies handles
    ensures var r := LazyStep(before, slot, name);
      r.handles == before.handles + [h] && handles.nextSerial == r.next && handles.events == base + r.allocations
  {
    if slot.None? {
      h := handles.Alloc(Named(name));
    } else {
      h := slot.value;
    }
  }

  const GaussianNames: seq<string> := ["_FullCoCTexture", "_HalfCoCTexture", "_PingTexture", "_PongTexture"]
  const BokehNames: seq<string> := ["_FullCoCTexture", "_PingTexture", "_PongTexture"]

  /** The Gaussian scratch handles, each allocated if still null. */
  method AllocateGaussianTargets(fullCoC: Option<Handle>, halfCoC: Option<Handle>, ping: Option<Handle>, pong: Option<Handle>,
                                 handles: RTHandleSystem)
    returns (fullCoCHandle: Handle, halfCoCHandle: Handle, pingHandle: Handle, pongHandle: Handle)
    modifies handles
    ensures var fill := LazyFill([fullCoC, halfCoC, ping, pong], GaussianNames, old(handles.nextSerial));
      fill.handles == [fullCoCHandle, halfCoCHandle, pingHandle, pongHandle] &&
      handles.nextSerial == fill.next && handles.events == old(handles.events) + fill.allocations
  {
    ghost var base := handles.events;
    ghost var f0 := Fill([], handles.nextSerial, []);
    assert base + f0.allocations == base;
    fullCoCHandle := LazyAlloc(f0, base, fullCoC, "_FullCoCTexture", handles);
    ghost var f1 := LazyStep(f0, fullCoC, "_FullCoCTexture");
    halfCoCHandle := LazyAlloc(f1, base, halfCoC, "_HalfCoCTexture", handles);
    ghost var f2 := LazyStep(f1, halfCoC, "_HalfCoCTexture");
    pingHandle := LazyAlloc(f2, base, ping, "_PingTexture", handles);
    ghost var f3 := LazyStep(f2, ping, "_PingTexture");
    pongHandle := LazyAlloc(f3, base, pong, "_PongTexture", handles);
    ghost var f4 := LazyStep(f3, pong, "_PongTexture");
    FillOfFour(fullCoC, halfCoC, ping, pong, f0.next);
  }

  lemma FillOfFour(a: Option<Handle>, b: Option<Handle>, c: Option<Handle>, d: Option<Handle>, next: nat)
    ensures LazyFill([a, b, c, d], GaussianNames, next) ==
      LazyStep(LazyStep(LazyStep(LazyStep(Fill([], next, []), a, GaussianNames[0]), b, GaussianNames[1]), c, GaussianNames[2]), d, GaussianNames[3])
  {
    var n := GaussianNames;
    var f1 := LazyFill([a], n[..1], next);
    assert [a][..0] == [] && n[..1][..0] == [];
    assert f1 == LazyStep(Fill([], next, []), a, n[0]);
    var f2 := LazyFill([a, b], n[..2], next);
    assert [a, b][..1] == [a] && n[..2][..1] == n[..1];
    assert f2 == LazyStep(f1, b, n[1]);
    var f3 := LazyFill([a, b, c], n[..3], next);
    assert [a, b, c][..2] == [a, b] && n[..3][..2] == n[..2];
    assert f3 == LazyStep(f2, c, n[2]);
    assert [a, b, c, d][..3] == [a, b, c] && n[..3] == n[..3];
  }

  /** The bokeh scratch handles, each allocated if still null. */
  method AllocateBokehTargets(fullCoC: Option<Handle>, ping: Option<Handle>, pong: Option<Handle>, handles: RTHandleSystem)
    returns (fullCoCHandle: Handle, pingHandle: Handle, pongHandle: Handle)
    modifies handles
    ensures var fill := LazyFill([fullCoC, ping, pong], BokehNames, old(handles.nextSerial));
      fill.handles == [fullCoCHandle, pingHandle, pongHandle] &&
      handles.nextSerial == fill.next && handles.events == old(handles.events) + fill.allocations
  {
    ghost var base := handles.events;
    ghost var f0 := Fill([], handles.nextSerial, []);
    assert base + f0.allocations == base;
    fullCoCHandle := LazyAlloc(f0, base, fullCoC, "_FullCoCTexture", handles);
    ghost var f1 := LazyStep(f0, fullCoC, "_FullCoCTexture");
    pingHandle := LazyAlloc(f1, base, ping, "_PingTexture", handles);
    ghost var f2 := LazyStep(f1, ping, "_PingTexture");
    pongHandle := LazyAlloc(f2, base, pong, "_PongTexture", handles);
    FillOfThree(fullCoC, ping, pong, f0.next);
  }

  lemma FillOfThree(a: Option<Handle>, b: Option<Handle>, c: Option<Handle>, next: nat)
    ensures LazyFill([a, b, c], BokehNames, next) ==
      LazyStep(LazyStep(LazyStep(Fill([], next, []), a, BokehNames[0]), b, BokehNames[1]), c, BokehNames[2])
  {
    var n := BokehNames;
    var f1 := LazyFill([a], n[..1], next);
    assert [a][..0] == [] && n[..1][..0] == [];
    assert f1 == LazyStep(Fill([], next, []), a, n[0]);
    var f2 := LazyFill([a, b], n[..2], next);
    assert [a, b][..1] == [a] && n[..2][..1] == n[..1];
    assert f2 == LazyStep(f1, b, n[1]);
    assert [a, b, c][..2] == [a, b];
  }

  // ---------------------------------------------------------------- motion-blur history

  /** The matrix DoMotionBlur hands the material as the previous view-projection. */
  function PreviousViewProj(resetHistory: bool, slot: Matrix, viewProj: Matrix): (m: Matrix)
  {
    if resetHistory then viewProj else slot
  }

  /** The previous matrices of consecutive frames that all run motion blur,
      starting from a reset flag and a stored slot: every Execute clears the
      flag and every motion-blur frame stores its matrix. */
  function PreviousSequence(resetHistory: bool, slot: Matrix, frames: seq<Matrix>): (ps: seq<Matrix>)
    ensures |ps| == |frames|
    decreases |frames|
  {
    if frames == [] then []
    else [PreviousViewProj(resetHistory, slot, frames[0])] + PreviousSequence(false, frames[0], frames[1..])
  }

  /** After the first frame, motion blur always compares with the frame before;
      the first frame compares with itself after a reset and with the slot otherwise. */
  lemma {:induction false} PreviousIsLastFrame(resetHistory: bool, slot: Matrix, frames: seq<Matrix>, i: nat)
    requires i < |frames|
    ensures PreviousSequence(resetHistory, slot, frames)[i] ==
      if i == 0 then (if resetHistory then frames[0] else slot) else frames[i - 1]
    decreases i
  {
    if i > 1 {
      PreviousIsLastFrame(false, frames[0], frames[1..], i - 1);
    }
  }

  /** What motion blur leaves behind: the matrices set on its material and
      the pass's two history slots (m_PrevViewProjM). */
  datatype MotionState = MotionState(viewProj: Option<Matrix>, prevViewProj: Option<Matrix>, history: seq<Matrix>)

  /** The motion-blur state after one frame: unchanged when the stage does
      not run; otherwise the material gets this frame's matrix and the
      previous one, and slot 0 keeps this frame's. Slot 1 is never written. */
  function MotionStep(m: MotionState, run: bool, resetHistory: bool, viewProj: Matrix): (r: MotionState)
    requires |m.history| == 2
    ensures |r.history| == 2 && r.history[1] == m.history[1]
    ensures !run ==> r == m
    ensures run ==>
      r.viewProj == Some(viewProj) && r.history[0] == viewProj &&
      r.prevViewProj == Some(if resetHistory then viewProj else m.history[0])
  {
    if run then MotionState(Some(viewProj), Some(PreviousViewProj(resetHistory, m.history[0], viewProj)), m.history[0 := viewProj])
    else m
  }

  // ---------------------------------------------------------------- bokeh kernel cache

  /** The pass's bokeh kernel and the key it was built for (m_BokehKernel,
      m_BokehHash, m_BokehMaxRadius, m_BokehRCPAspect), kept together. */
  class BokehKernelCache {
    var kernel: array?<Bokeh.KernelSample>
    var hash: int
    var maxRadius: real
    var rcpAspect: real
    ghost var blade: BladeShape                  // the aperture the kernel was built for

    /** The array holds the table for the cached key; before the first build
        the array is null and the key has its default value. */
    ghost predicate Valid()
      reads this, kernel
    {
      (kernel == null ==> Key() == Bokeh.InitialKey) &&
      (kernel != null ==> kernel.Length == Bokeh.KernelSize && kernel[..] == Bokeh.KernelTable(blade, maxRadius, rcpAspect))
    }

    function Key(): (k: Bokeh.CacheKey)
      reads this
    {
      Bokeh.CacheKey(hash, maxRadius, rcpAspect)
    }

    constructor ()
      ensures Valid() && kernel == null && Key() == Bokeh.InitialKey
    {
      kernel, hash, maxRadius, rcpAspect := null, 0, 0.0, 0.0;
    }

    /** PrepareBokehKernel: allocate the 42-entry array on first use, then
        write ring r's 7r points in order. */
    method PrepareBokehKernel(maxR: real, rcp: real, aperture: BladeShape)
      requires kernel != null ==> kernel.Length == Bokeh.KernelSize
      modifies this`kernel, kernel
      ensures kernel != null && (old(kernel) != null ==> kernel == old(kernel))
      ensures old(kernel) == null ==> fresh(kernel)
      ensures kernel.Length == Bokeh.KernelSize
      ensures kernel[..] == Bokeh.KernelTable(aperture, maxR, rcp)
    {
      if kernel == null {
        kernel := new Bokeh.KernelSample[Bokeh.KernelSize];
      }
      var table := kernel;
      Bokeh.RingStarts();
      var idx := 0;
      var ring := 1;
      while ring < Bokeh.Rings
        invariant 1 <= ring <= Bokeh.Rings && idx == Bokeh.RingStart(ring)
        invariant kernel == table
        invariant forall j :: 0 <= j < idx ==> table[j] == Bokeh.KernelAt(aperture, maxR, rcp, j)
      {
        assert ring == 1 || ring == 2 || ring == 3;
        var points := ring * Bokeh.PointsPerRing;
        var point := 0;
        while point < points
          invariant 0 <= point <= points && idx == Bokeh.RingStart(ring) + point
          invariant kernel == table
          invariant forall j :: 0 <= j < idx ==> table[j] == Bokeh.KernelAt(aperture, maxR, rcp, j)
        {
          var rp := Bokeh.IndexRing(idx);
          Bokeh.RingPointUnique(rp.0, rp.1, ring, point);
          table[idx] := Bokeh.Sample(aperture, maxR, rcp, ring, point);
          idx := idx + 1;
          point := point + 1;
        }
        ring := ring + 1;
      }
      forall j | 0 <= j < Bokeh.KernelSize
        ensures table[..][j] == Bokeh.KernelTable(aperture, maxR, rcp)[j]
      {
        Bokeh.KernelTableAt(aperture, maxR, rcp, j);
      }
      Bokeh.KernelTableAt(aperture, maxR, rcp, 0);
    }

    /** The cache test of DoBokehDepthOfField: the kernel is rebuilt, and the
        key stored, only when the hash, the maximum radius or the reciprocal
        aspect differs from the cached key. */
    method Update(newHash: int, maxR: real, rcp: real, aperture: BladeShape)
      requires Valid()
      modifies this, kernel
      ensures Valid()
      ensures var step := Bokeh.CacheUpdate(old(Key()), newHash, maxR, rcp);
        Key() == step.key &&
        (step.rebuild ==> kernel != null && blade == aperture) &&
        (!step.rebuild ==> kernel == old(kernel) && blade == old(blade) && (kernel != null ==> unchanged(kernel)))
      ensures old(kernel) != null ==> kernel == old(kernel)
    {
      if newHash != hash || maxR != maxRadius || rcp != rcpAspect {
        hash, maxRadius, rcpAspect := newHash, maxR, rcp;
        PrepareBokehKernel(maxR, rcp, aperture);
        blade := aperture;
      }
    }
  }

  // ---------------------------------------------------------------- what a stage ran with

  /** What a stage's run depends on besides the frame: the pass's descriptor,
      depth handle and SMAA edge format, and the handles the lazy fills of the
      Gaussian and bokeh slots yield. */
  datatype RunContext = RunContext(desc: Descriptor, depth: Option<Handle>, edgeFormat: GraphicsFormat,
                                   gaussian: seq<Handle>, bokeh: seq<Handle>)

  /** One handle per Gaussian and per bokeh slot. */
  predicate Sized(c: RunContext) {
    |c.gaussian| == |GaussianNames| && |c.bokeh| == |BokehNames|
  }

  /** A stage run agrees with the context it ran in: SMAA's stencil and
      temporaries follow the depth handle and the descriptor, a depth-of-field
      run matches the mode and uses the handles of the fill, motion blur
      draws the quality's pass. */
  predicate Fits(r: StageRun, f: Frame, c: RunContext)
  {
    match r
    case StopNaNRun => true
    case SmaaRun(stencil, edgeDesc, blendDesc) =>
      c.depth.Some? &&
      var choice := SmaaStencil(c.depth.value, c.desc);
      stencil == choice.stencil &&
      edgeDesc == CompatibleDescriptor(c.desc, c.desc.width, c.desc.height, c.edgeFormat, choice.edgeDepthBits) &&
      blendDesc == CompatibleDescriptor(c.desc, c.desc.width, c.desc.height, R8G8B8A8_UNorm, 0)
    case GaussianRun(fullCoC, halfCoC, ping, pong) =>
      f.volume.depthOfFieldMode == Gaussian && [fullCoC, halfCoC, ping, pong] == c.gaussian
    case BokehRun(fullCoC, ping, pong) =>
      f.volume.depthOfFieldMode == Bokeh && [fullCoC, ping, pong] == c.bokeh
    case DofOffRun => f.volume.depthOfFieldMode == DepthOfFieldOff
    case MotionBlurRun(quality) => quality == f.volume.motionBlurQuality
    case PaniniRun => true
  }

  predicate AllFit(rs: seq<StageRun>, f: Frame, c: RunContext)
  {
    forall i :: 0 <= i < |rs| ==> Fits(rs[i], f, c)
  }

  lemma AllFitAppend(xs: seq<StageRun>, ys: seq<StageRun>, f: Frame, c: RunContext)
    requires AllFit(xs, f, c) && AllFit(ys, f, c)
    ensures AllFit(xs + ys, f, c)
  {
    forall i | 0 <= i < |xs + ys| ensures Fits((xs + ys)[i], f, c) {
      if i < |xs| {
        assert (xs + ys)[i] == xs[i];
      } else {
        assert (xs + ys)[i] == ys[i - |xs|];
      }
    }
  }

  /** The run stage `s` makes this frame in context `c`. */
  function RunFor(s: Stage, f: Frame, c: RunContext): (r: StageRun)
    requires s == Smaa ==> c.depth.Some?
    requires Sized(c)
  {
    match s
    case StopNaN => StopNaNRun
    case Smaa =>
      var choice := SmaaStencil(c.depth.value, c.desc);
      SmaaRun(choice.stencil, CompatibleDescriptor(c.desc, c.desc.width, c.desc.height, c.edgeFormat, choice.edgeDepthBits),
              CompatibleDescriptor(c.desc, c.desc.width, c.desc.height, R8G8B8A8_UNorm, 0))
    case DepthOfField =>
      (match f.volume.depthOfFieldMode
       case Gaussian => GaussianRun(c.gaussian[0], c.gaussian[1], c.gaussian[2], c.gaussian[3])
       case Bokeh => BokehRun(c.bokeh[0], c.bokeh[1], c.bokeh[2])
       case DepthOfFieldOff => DofOffRun)
    case MotionBlur => MotionBlurRun(f.volume.motionBlurQuality)
    case Panini => PaniniRun
  }

  /** A stage's run is of that stage's kind and fits its context; and a run
      of that kind that fits is that run: Fits pins every run down. */
  lemma RunForFits(s: Stage, r: StageRun, f: Frame, c: RunContext)
    requires s == Smaa ==> c.depth.Some?
    requires Sized(c)
    ensures Kind(RunFor(s, f, c)) == s && Fits(RunFor(s, f, c), f, c)
    ensures Kind(r) == s && Fits(r, f, c) ==> r == RunFor(s, f, c)
  {
  }

  /** The runs of stage `s` this frame: its run when its guard holds, none otherwise. */
  function StageRuns(s: Stage, f: Frame, stopNaNLoaded: bool, c: RunContext): (rs: seq<StageRun>)
    requires Guard(s, f, stopNaNLoaded) && s == Smaa ==> c.depth.Some?
    requires Sized(c)
  {
    if Guard(s, f, stopNaNLoaded) then [RunFor(s, f, c)] else []
  }

  /** The runs Render's stages make this frame, in order: the early stages, then the camera stages. */
  function EnabledRuns(f: Frame, stopNaNLoaded: bool, c: RunContext): (rs: seq<StageRun>)
    requires Guard(Smaa, f, stopNaNLoaded) ==> c.depth.Some?
    requires Sized(c)
  {
    (StageRuns(StopNaN, f, stopNaNLoaded, c) + StageRuns(Smaa, f, stopNaNLoaded, c)) +
    (StageRuns(DepthOfField, f, stopNaNLoaded, c) +
     (StageRuns(MotionBlur, f, stopNaNLoaded, c) + StageRuns(Panini, f, stopNaNLoaded, c)))
  }

  /** One stage's runs are that stage when it is enabled and nothing otherwise, and they fit. */
  lemma StageRunsKinds(s: Stage, f: Frame, stopNaNLoaded: bool, c: RunContext)
    requires Guard(s, f, stopNaNLoaded) && s == Smaa ==> c.depth.Some?
    requires Sized(c)
    ensures Kinds(StageRuns(s, f, stopNaNLoaded, c)) == When(Guard(s, f, stopNaNLoaded), s)
    ensures AllFit(StageRuns(s, f, stopNaNLoaded, c), f, c)
  {
    var rs := StageRuns(s, f, stopNaNLoaded, c);
    if Guard(s, f, stopNaNLoaded) {
      RunForFits(s, rs[0], f, c);
      assert rs[1..] == [];
    }
  }

  /** The runs of a frame are exactly its enabled stages, in Render's order,
      and each fits the context. */
  lemma EnabledRunsMatch(f: Frame, stopNaNLoaded: bool, c: RunContext)
    requires Guard(Smaa, f, stopNaNLoaded) ==> c.depth.Some?
    requires Sized(c)
    ensures Kinds(EnabledRuns(f, stopNaNLoaded, c)) == EnabledStages(f, stopNaNLoaded)
    ensures AllFit(EnabledRuns(f, stopNaNLoaded, c), f, c)
  {
    var w0 := StageRuns(StopNaN, f, stopNaNLoaded, c);
    var w1 := StageRuns(Smaa, f, stopNaNLoaded, c);
    var w2 := StageRuns(DepthOfField, f, stopNaNLoaded, c);
    var w3 := StageRuns(MotionBlur, f, stopNaNLoaded, c);
    var w4 := StageRuns(Panini, f, stopNaNLoaded, c);
    StageRunsKinds(StopNaN, f, stopNaNLoaded, c);
    StageRunsKinds(Smaa, f, stopNaNLoaded, c);
    StageRunsKinds(DepthOfField, f, stopNaNLoaded, c);
    StageRunsKinds(MotionBlur, f, stopNaNLoaded, c);
    StageRunsKinds(Panini, f, stopNaNLoaded, c);
    StageListAssoc(w0, w1, w2, w3, w4);
    StageListAssoc(When(Guard(StopNaN, f, stopNaNLoaded), StopNaN), When(Guard(Smaa, f, stopNaNLoaded), Smaa),
      When(Guard(DepthOfField, f, stopNaNLoaded), DepthOfField), When(Guard(MotionBlur, f, stopNaNLoaded), MotionBlur),
      When(Guard(Panini, f, stopNaNLoaded), Panini));
    KindsAppend(w0, w1);
    KindsAppend(w0 + w1, w2);
    KindsAppend(w0 + w1 + w2, w3);
    KindsAppend(w0 + w1 + w2 + w3, w4);
    AllFitAppend(w0, w1, f, c);
    AllFitAppend(w0 + w1, w2, f, c);
    AllFitAppend(w0 + w1 + w2, w3, f, c);
    AllFitAppend(w0 + w1 + w2 + w3, w4, f, c);
  }

  /** The handles DoDepthOfField allocates when it runs: the lazy fill of the
      slots of the mode in use, nothing with the mode off or the stage skipped. */
  function DofAllocations(on: bool, f: Frame, serial: nat, gaussian: seq<Option<Handle>>, bokeh: seq<Option<Handle>>)
    : (es: seq<ResourceEvent>)
    requires |gaussian| == |GaussianNames| && |bokeh| == |BokehNames|
    ensures !on || f.volume.depthOfFieldMode == DepthOfFieldOff ==> es == []
  {
    if !on then []
    else match f.volume.depthOfFieldMode
      case Gaussian => LazyFill(gaussian, GaussianNames, serial).allocations
      case Bokeh => LazyFill(bokeh, BokehNames, serial).allocations
      case DepthOfFieldOff => []
  }

  /** Render's state between two stages: the log holds the commands of the
      stages run so far, each followed by a swap; the local source and the
      pass's destination are the renderer's buffers after that many swaps of
      the pair (a, b) the frame started with. */
  predicate Tracks(events: seq<Command>, target: Handle, front: Handle, destination: Option<Handle>,
                   start: seq<Command>, ran: seq<StageRun>, a: Handle, b: Handle, src: Handle)
  {
    a != b && events == start + Chain(ran, a, b) &&
    src == Src(a, b, |ran|) && target == src &&
    front == Dst(a, b, |ran|) && destination == Some(front)
  }

  /** A stage's commands followed by a swap extend the chain by that stage,
      and the swap exchanges source and destination. */
  lemma TracksAfterSwap(events: seq<Command>, start: seq<Command>, ran: seq<StageRun>, r: StageRun, a: Handle, b: Handle)
    requires a != b
    requires events == start + Chain(ran, a, b) + StageCommands(r, Src(a, b, |ran|), Dst(a, b, |ran|)) + [ColorBufferSwap]
    ensures Tracks(events, Dst(a, b, |ran|), Src(a, b, |ran|), Some(Src(a, b, |ran|)), start, ran + [r], a, b, Dst(a, b, |ran|))
  {
    var k := |ran|;
    assert |ran + [r]| == k + 1;
    assert events == start + Chain(ran + [r], a, b) by {
      ChainSnoc(ran, r, a, b);
      AppendStageAssoc(start, Chain(ran, a, b), StageCommands(r, Src(a, b, k), Dst(a, b, k)));
    }
    assert Src(a, b, k + 1) == Dst(a, b, k) && Dst(a, b, k + 1) == Src(a, b, k) by {
      SwapExchanges(a, b, k);
    }
  }

  /** Regrouping a log that grew by the bloom schedule, the uber draw and the optional swap. */
  lemma AppendUberAssoc(start: seq<Command>, bloom: seq<Command>, d: Command, tail: seq<Command>)
    ensures start + bloom + [d] + tail == start + (bloom + [d] + tail)
  {
  }

  // ---------------------------------------------------------------- the pass

  class PostProcessPass {
    var descriptor: Descriptor
    var source: Option<Handle>                   // m_Source; None is null
    var destination: Option<Handle>              // m_Destination
    var depth: Option<Handle>
    var internalLut: Option<Handle>
    var isFinalPass: bool
    var hasFinalPass: bool
    var enableSRGBConversionIfNeeded: bool
    var useFastSRGBLinearConversion: bool
    var resolveToScreen: bool
    var resetHistory: bool

    const defaultHdr: HdrChoice                  // m_DefaultHDRFormat and m_UseRGBM
    const smaaEdgeFormat: GraphicsFormat
    const gaussianCoCFormat: GraphicsFormat

    const prevViewProjM: array<Matrix>           // m_PrevViewProjM, two slots

    const bokeh: BokehKernelCache                // m_BokehKernel and its cache key

    var fullCoCGaussian: Option<Handle>
    var halfCoCGaussian: Option<Handle>
    var pingGaussian: Option<Handle>
    var pongGaussian: Option<Handle>
    var fullCoCBokeh: Option<Handle>
    var pingBokeh: Option<Handle>
    var pongBokeh: Option<Handle>

    const tempTarget: Handle
    const tempTarget2: Handle
    const bloomMipDown: array<Handle>
    const bloomMipUp: array<Handle>

    const materials: MaterialLibrary

    ghost predicate Valid()
      reads materials`keywords, bokeh, bokeh.kernel
    {
      materials.Valid() &&
      prevViewProjM.Length == 2 &&
      bloomMipDown.Length == Bloom.MaxPyramidSize && bloomMipUp.Length == Bloom.MaxPyramidSize &&
      bokeh.Valid()
    }

    function GaussianSlots(): (slots: seq<Option<Handle>>)
      reads this`fullCoCGaussian, this`halfCoCGaussian, this`pingGaussian, this`pongGaussian
      ensures |slots| == |GaussianNames|
    {
      [fullCoCGaussian, halfCoCGaussian, pingGaussian, pongGaussian]
    }

    function BokehSlots(): (slots: seq<Option<Handle>>)
      reads this`fullCoCBokeh, this`pingBokeh, this`pongBokeh
      ensures |slots| == |BokehNames|
    {
      [fullCoCBokeh, pingBokeh, pongBokeh]
    }

    /** The pass's motion-blur state. */
    ghost function Motion(): (m: MotionState)
      reads materials`viewProjM, materials`prevViewProjM, prevViewProjM
      ensures |m.history| == prevViewProjM.Length
    {
      MotionState(materials.viewProjM, materials.prevViewProjM, prevViewProjM[..])
    }

    /** `c` records this pass's descriptor, depth handle and SMAA edge format, with a handle per slot. */
    ghost predicate Describes(c: RunContext)
      reads this`descriptor, this`depth
    {
      c.desc == descriptor && c.depth == depth && c.edgeFormat == smaaEdgeFormat && Sized(c)
    }

    /** The context this frame's stages run in: the handles are those the lazy
        fills of the depth-of-field slots yield from the handle system's next serial. */
    ghost function Context(handles: RTHandleSystem): (c: RunContext)
      reads this`descriptor, this`depth, this`fullCoCGaussian, this`halfCoCGaussian, this`pingGaussian, this`pongGaussian,
        this`fullCoCBokeh, this`pingBokeh, this`pongBokeh, handles`nextSerial
      ensures Describes(c)
    {
      RunContext(descriptor, depth, smaaEdgeFormat,
        LazyFill(GaussianSlots(), GaussianNames, handles.nextSerial).handles,
        LazyFill(BokehSlots(), BokehNames, handles.nextSerial).handles)
    }

    /** Picks the texture formats, loads the materials, arms the history reset
        and allocates the two temporaries and the 16 + 16 bloom levels. */
    constructor (device: Device, shaders: MaterialKind -> Option<Shader>, handles: RTHandleSystem)
      modifies handles
      ensures Valid() && fresh(materials) && fresh(bloomMipDown) && fresh(bloomMipUp) && fresh(prevViewProjM)
      ensures forall m :: m in materials.created <==> LoadDecision(shaders(m)) == CreatedMaterial
      ensures defaultHdr == DefaultHdrFormat(device) && smaaEdgeFormat == SmaaEdgeFormat(device)
      ensures gaussianCoCFormat == GaussianCoCFormat(device)
      ensures resetHistory && !isFinalPass && !hasFinalPass && !resolveToScreen && !enableSRGBConversionIfNeeded
      ensures source.None? && destination.None? && depth.None? && internalLut.None?
      ensures fresh(bokeh) && bokeh.kernel == null && bokeh.Key() == Bokeh.InitialKey
      ensures GaussianSlots() == [None, None, None, None] && BokehSlots() == [None, None, None]
      ensures var s := old(handles.nextSerial);
        tempTarget == Allocated(Named("_TempTarget"), s) && tempTarget2 == Allocated(Named("_TempTarget2"), s + 1) &&
        bloomMipDown[..] == PyramidLevels("_BloomMipDown", s + 2) && bloomMipUp[..] == PyramidLevels("_BloomMipUp", s + 3)
      ensures handles.nextSerial == old(handles.nextSerial) + ConstructorAllocations
      ensures handles.events == old(handles.events) + ConstructorEvents(old(handles.nextSerial), ConstructorAllocations)
    {
      var t1, t2, down, up := AllocateTargets(handles);
      tempTarget, tempTarget2, bloomMipDown, bloomMipUp := t1, t2, down, up;
      materials := new MaterialLibrary(shaders);
      defaultHdr := DefaultHdrFormat(device);
      smaaEdgeFormat := SmaaEdgeFormat(device);
      gaussianCoCFormat := GaussianCoCFormat(device);
      prevViewProjM := new Matrix[2];
      resetHistory := true;
      isFinalPass, hasFinalPass, resolveToScreen, enableSRGBConversionIfNeeded := false, false, false, false;
      source, destination, depth, internalLut := None, None, None, None;
      bokeh := new BokehKernelCache();
      fullCoCGaussian, halfCoCGaussian, pingGaussian, pongGaussian := None, None, None, None;
      fullCoCBokeh, pingBokeh, pongBokeh := None, None, None;
    }

    /** Setup: the camera's descriptor without mip maps, the depth and LUT
        handles, and the flags of a pass that is not the final one. */
    method Setup(baseDescriptor: Descriptor, depthHandle: Handle, lut: Handle, hasFinal: bool, resolvePostProcessingToCameraTarget: bool)
      requires Valid()
      modifies this`descriptor, this`resolveToScreen, this`depth, this`internalLut, this`isFinalPass,
        this`hasFinalPass, this`enableSRGBConversionIfNeeded
      ensures Valid()
      ensures descriptor == PassDescriptor(baseDescriptor)
      ensures depth == Some(depthHandle) && internalLut == Some(lut)
      ensures !isFinalPass && hasFinalPass == hasFinal
      ensures resolveToScreen == resolvePostProcessingToCameraTarget
      ensures enableSRGBConversionIfNeeded == resolvePostProcessingToCameraTarget
    {
      descriptor := baseDescriptor;
      descriptor := descriptor.(useMipMap := false);
      descriptor := descriptor.(autoGenerateMips := false);
      resolveToScreen := resolvePostProcessingToCameraTarget;
      depth := Some(depthHandle);
      internalLut := Some(lut);
      isFinalPass := false;
      hasFinalPass := hasFinal;
      enableSRGBConversionIfNeeded := resolvePostProcessingToCameraTarget;
    }

    /** SetupFinalPass. It assigns the resolve flag twice; the argument wins. */
    method SetupFinalPass(sourceHandle: Handle, resolvePostProcessingToCameraTarget: bool)
      requires Valid()
      modifies this`source, this`destination, this`resolveToScreen, this`isFinalPass, this`hasFinalPass,
        this`enableSRGBConversionIfNeeded
      ensures Valid()
      ensures source == Some(sourceHandle) && destination == Some(CameraTarget)
      ensures isFinalPass && !hasFinalPass && enableSRGBConversionIfNeeded
      ensures resolveToScreen == resolvePostProcessingToCameraTarget
    {
      source := Some(sourceHandle);
      destination := Some(CameraTarget);
      resolveToScreen := true;
      isFinalPass := true;
      hasFinalPass := false;
      enableSRGBConversionIfNeeded := true;
      resolveToScreen := resolvePostProcessingToCameraTarget;
    }

    method ResetHistory()
      requires Valid()
      modifies this`resetHistory
      ensures Valid() && resetHistory
    {
      resetHistory := true;
    }

    // ------------------------------------------------------------ stages

    /** DoSubpixelMorphologicalAntialiasing: the quality keyword, two
        temporaries, three passes, release. The edge and blend passes use the
        depth buffer as stencil unless it is the camera target or multisampled,
        in which case the edge texture gets its own 24-bit depth. */
    method DoSubpixelMorphologicalAntialiasing(log: CommandLog, f: Frame, src: Handle, dst: Handle) returns (ghost r: StageRun)
      requires materials.Valid() && depth.Some?
      modifies log, materials`keywords
      ensures materials.Valid()
      ensures var c := SmaaStencil(depth.value, descriptor);
        r == SmaaRun(c.stencil, CompatibleDescriptor(descriptor, descriptor.width, descriptor.height, smaaEdgeFormat, c.edgeDepthBits),
                     CompatibleDescriptor(descriptor, descriptor.width, descriptor.height, R8G8B8A8_UNorm, 0))
      ensures log.events == old(log.events) + StageCommands(r, src, dst)
      ensures materials.keywords == old(materials.keywords)[SmaaMaterial := SmaaKeywords(f.camera.antialiasingQuality)]
    {
      ghost var ks := materials.keywords;
      materials.ClearKeywords(SmaaMaterial);
      var quality := match f.camera.antialiasingQuality
        case LowQuality => SmaaLow
        case MediumQuality => SmaaMedium
        case HighQuality => SmaaHigh;
      materials.EnableKeyword(SmaaMaterial, quality);
      assert {} + {quality} == SmaaKeywords(f.camera.antialiasingQuality);
      UpdateTwice(ks, SmaaMaterial, {}, {} + {quality});
      var choice := SmaaStencil(depth.value, descriptor);
      var edgeDesc := CompatibleDescriptor(descriptor, descriptor.width, descriptor.height, smaaEdgeFormat, choice.edgeDepthBits);
      var blendDesc := CompatibleDescriptor(descriptor, descriptor.width, descriptor.height, R8G8B8A8_UNorm, 0);
      var edge, blend := Temporary(EdgeTexture), Temporary(BlendTexture);
      log.AddAll([
        GetTemporaryRT(EdgeTexture, edgeDesc),
        GetTemporaryRT(BlendTexture, blendDesc),
        Draw(SmaaMaterial, 0, [src], [edge, choice.stencil]),
        Draw(SmaaMaterial, 1, [edge], [blend, choice.stencil]),
        Draw(SmaaMaterial, 2, [src, blend], [dst]),
        ReleaseTemporaryRT(EdgeTexture),
        ReleaseTemporaryRT(BlendTexture)]);
      r := SmaaRun(choice.stencil, edgeDesc, blendDesc);
    }

    /** DoGaussianDepthOfField: the sampling keyword, the four scratch handles
        allocated on first use and kept, then five passes. */
    method DoGaussianDepthOfField(log: CommandLog, f: Frame, src: Handle, dst: Handle, handles: RTHandleSystem) returns (ghost r: StageRun)
      requires materials.Valid() && f.volume.depthOfFieldMode == Gaussian
      modifies log, materials`keywords, handles,
        this`fullCoCGaussian, this`halfCoCGaussian, this`pingGaussian, this`pongGaussian
      ensures materials.Valid()
      ensures var fill := LazyFill(old(GaussianSlots()), GaussianNames, old(handles.nextSerial));
        GaussianSlots() == AllSome(fill.handles) &&
        handles.nextSerial == fill.next && handles.events == old(handles.events) + fill.allocations
      ensures var hs := LazyFill(old(GaussianSlots()), GaussianNames, old(handles.nextSerial)).handles;
        r == GaussianRun(hs[0], hs[1], hs[2], hs[3])
      ensures log.events == old(log.events) + StageCommands(r, src, dst)
      ensures materials.keywords == old(materials.keywords)[GaussianDofMaterial :=
        Keywords.SetKeyword(old(materials.keywords)[GaussianDofMaterial], HighQualitySampling, f.volume.gaussianHighQualitySampling)]
    {
      materials.SetKeyword(GaussianDofMaterial, HighQualitySampling, f.volume.gaussianHighQualitySampling);
      var fullCoC, halfCoC, ping, pong :=
        AllocateGaussianTargets(fullCoCGaussian, halfCoCGaussian, pingGaussian, pongGaussian, handles);
      fullCoCGaussian, halfCoCGaussian, pingGaussian, pongGaussian := Some(fullCoC), Some(halfCoC), Some(ping), Some(pong);
      assert AllSome([fullCoC, halfCoC, ping, pong]) == GaussianSlots();
      log.AddAll([
        Draw(GaussianDofMaterial, 0, [src], [fullCoC]),
        Draw(GaussianDofMaterial, 1, [src, fullCoC], [halfCoC, ping]),
        Draw(GaussianDofMaterial, 2, [ping, halfCoC], [pong]),
        Draw(GaussianDofMaterial, 3, [pong], [ping]),
        Draw(GaussianDofMaterial, 4, [src, ping, fullCoC], [dst])]);
      r := GaussianRun(fullCoC, halfCoC, ping, pong);
    }

    /** DoBokehDepthOfField: the sRGB keyword, the kernel rebuilt when its
        cache key changed, then the scratch handles and the passes. The
        maximum radius follows the full height, the aspect the half size. */
    method DoBokehDepthOfField(log: CommandLog, f: Frame, src: Handle, dst: Handle, handles: RTHandleSystem) returns (ghost r: StageRun)
      requires materials.Valid() && bokeh.Valid() && f.volume.depthOfFieldMode == Bokeh
      modifies log, materials`keywords, handles, this`fullCoCBokeh, this`pingBokeh, this`pongBokeh, bokeh, bokeh.kernel
      ensures materials.Valid() && bokeh.Valid()
      ensures var maxRadius := Bokeh.MaxBokehRadius(descriptor.height);
        var rcpAspect := Bokeh.RcpAspect(descriptor.width / 2, descriptor.height / 2);
        var step := Bokeh.CacheUpdate(old(bokeh.Key()), f.volume.depthOfFieldHash, maxRadius, rcpAspect);
        bokeh.Key() == step.key && bokeh.kernel != null &&
        bokeh.kernel[..] == Bokeh.KernelTable(bokeh.blade, maxRadius, rcpAspect) &&
        bokeh.blade == (if step.rebuild then f.volume.blade else old(bokeh.blade))
      ensures old(bokeh.kernel) != null ==> bokeh.kernel == old(bokeh.kernel)
      ensures var fill := LazyFill(old(BokehSlots()), BokehNames, old(handles.nextSerial));
        BokehSlots() == AllSome(fill.handles) &&
        handles.nextSerial == fill.next && handles.events == old(handles.events) + fill.allocations
      ensures var hs := LazyFill(old(BokehSlots()), BokehNames, old(handles.nextSerial)).handles;
        r == BokehRun(hs[0], hs[1], hs[2])
      ensures log.events == old(log.events) + StageCommands(r, src, dst)
      ensures materials.keywords == old(materials.keywords)[BokehDofMaterial :=
        Keywords.SetKeyword(old(materials.keywords)[BokehDofMaterial], UseFastSRGBLinearConversion, useFastSRGBLinearConversion)]
    {
      materials.SetKeyword(BokehDofMaterial, UseFastSRGBLinearConversion, useFastSRGBLinearConversion);
      var maxRadius := Bokeh.MaxBokehRadius(descriptor.height);
      var rcpAspect := Bokeh.RcpAspect(descriptor.width / 2, descriptor.height / 2);
      bokeh.Update(f.volume.depthOfFieldHash, maxRadius, rcpAspect, f.volume.blade);
      Bokeh.FirstBokehFrameBuilds(f.volume.depthOfFieldHash, descriptor.height, rcpAspect);
      r := BokehPasses(log, f, src, dst, handles);
    }

    /** The second half of DoBokehDepthOfField: kernel upload, the three
        scratch handles allocated on first use, five passes. */
    method BokehPasses(log: CommandLog, f: Frame, src: Handle, dst: Handle, handles: RTHandleSystem) returns (ghost r: StageRun)
      requires f.volume.depthOfFieldMode == Bokeh
      modifies log, handles, this`fullCoCBokeh, this`pingBokeh, this`pongBokeh
      ensures var fill := LazyFill(old(BokehSlots()), BokehNames, old(handles.nextSerial));
        BokehSlots() == AllSome(fill.handles) &&
        handles.nextSerial == fill.next && handles.events == old(handles.events) + fill.allocations
      ensures var hs := LazyFill(old(BokehSlots()), BokehNames, old(handles.nextSerial)).handles;
        r == BokehRun(hs[0], hs[1], hs[2])
      ensures log.events == old(log.events) + StageCommands(r, src, dst)
    {
      var fullCoC, ping, pong := AllocateBokehTargets(fullCoCBokeh, pingBokeh, pongBokeh, handles);
      fullCoCBokeh, pingBokeh, pongBokeh := Some(fullCoC), Some(ping), Some(pong);
      assert AllSome([fullCoC, ping, pong]) == BokehSlots();
      log.AddAll([
        BindBokehKernel,
        Draw(BokehDofMaterial, 0, [src], [fullCoC]),
        Draw(BokehDofMaterial, 1, [src, fullCoC], [ping]),
        Draw(BokehDofMaterial, 2, [ping], [pong]),
        Draw(BokehDofMaterial, 3, [pong], [ping]),
        Draw(BokehDofMaterial, 4, [src, ping], [dst])]);
      r := BokehRun(fullCoC, ping, pong);
    }

    /** DoDepthOfField: Gaussian or bokeh by mode; with the mode off nothing is drawn. */
    method DoDepthOfField(log: CommandLog, f: Frame, src: Handle, dst: Handle, handles: RTHandleSystem) returns (ghost r: StageRun)
      requires materials.Valid() && bokeh.Valid()
      modifies log, materials`keywords, handles, this`fullCoCGaussian, this`halfCoCGaussian, this`pingGaussian, this`pongGaussian,
        this`fullCoCBokeh, this`pingBokeh, this`pongBokeh, bokeh, bokeh.kernel
      ensures materials.Valid() && bokeh.Valid()
      ensures r == RunFor(DepthOfField, f, old(Context(handles)))
      ensures log.events == old(log.events) + StageCommands(r, src, dst)
      ensures materials.keywords == DepthOfFieldKeywords(old(materials.keywords), f, useFastSRGBLinearConversion)
      ensures f.volume.depthOfFieldMode == Gaussian ==>
        var fill := LazyFill(old(GaussianSlots()), GaussianNames, old(handles.nextSerial));
        GaussianSlots() == AllSome(fill.handles) && handles.events == old(handles.events) + fill.allocations
      ensures f.volume.depthOfFieldMode == Bokeh ==>
        var fill := LazyFill(old(BokehSlots()), BokehNames, old(handles.nextSerial));
        BokehSlots() == AllSome(fill.handles) && handles.events == old(handles.events) + fill.allocations &&
        bokeh.Key() == Bokeh.CacheKey(f.volume.depthOfFieldHash, Bokeh.MaxBokehRadius(descriptor.height),
                                      Bokeh.RcpAspect(descriptor.width / 2, descriptor.height / 2))
      ensures f.volume.depthOfFieldMode != Gaussian ==> GaussianSlots() == old(GaussianSlots())
      ensures f.volume.depthOfFieldMode != Bokeh ==> BokehSlots() == old(BokehSlots()) && unchanged(bokeh)
      ensures f.volume.depthOfFieldMode == DepthOfFieldOff ==> handles.events == old(handles.events)
    {
      if f.volume.depthOfFieldMode == Gaussian {
        r := DoGaussianDepthOfField(log, f, src, dst, handles);
      } else if f.volume.depthOfFieldMode == Bokeh {
        r := DoBokehDepthOfField(log, f, src, dst, handles);
      } else {
        r := DofOffRun;
      }
    }

    /** DoMotionBlur: the material gets this frame's view-projection and the
        previous one (this frame's own after a history reset), the slot keeps
        this frame's, and one pass indexed by the quality runs. */
    method DoMotionBlur(log: CommandLog, f: Frame, src: Handle, dst: Handle) returns (ghost r: StageRun)
      requires prevViewProjM.Length == 2
      modifies log, materials`viewProjM, materials`prevViewProjM, prevViewProjM
      ensures materials.viewProjM == Some(f.camera.viewProj)
      ensures materials.prevViewProjM == Some(PreviousViewProj(old(resetHistory), old(prevViewProjM[0]), f.camera.viewProj))
      ensures prevViewProjM[..] == old(prevViewProjM[..])[0 := f.camera.viewProj]
      ensures r == MotionBlurRun(f.volume.motionBlurQuality)
      ensures log.events == old(log.events) + StageCommands(r, src, dst)
    {
      var viewProj := f.camera.viewProj;
      var prev := if resetHistory then viewProj else prevViewProjM[0];
      materials.SetMotionBlurMatrices(viewProj, prev);
      prevViewProjM[0] := viewProj;
      log.Add(Draw(MotionBlurMaterial, f.volume.motionBlurQuality, [src], [dst]));
      r := MotionBlurRun(f.volume.motionBlurQuality);
    }

    /** DoPaniniProjection: one keyword added to the material, one pass. */
    method DoPaniniProjection(log: CommandLog, f: Frame, src: Handle, dst: Handle) returns (ghost r: StageRun)
      requires materials.Valid()
      modifies log, materials`keywords
      ensures materials.Valid()
      ensures r == PaniniRun && log.events == old(log.events) + StageCommands(r, src, dst)
      ensures materials.keywords == old(materials.keywords)[PaniniMaterial :=
        old(materials.keywords)[PaniniMaterial] + {PaniniKeyword(f.volume.paniniGeneric)}]
    {
      materials.EnableKeyword(PaniniMaterial, PaniniKeyword(f.volume.paniniGeneric));
      log.Add(Draw(PaniniMaterial, 0, [src], [dst]));
      r := PaniniRun;
    }

    // ------------------------------------------------------------ uber setup

    /** SetupBloom: the bloom material's two keywords, the prefilter into
        down 0, two blurs per further level on the way down (remembering the
        last level written), the upsample chain from level mipCount - 2 to 0,
        the result bound for the uber pass, and the uber bloom variant. */
    method SetupBloom(log: CommandLog, f: Frame, src: Handle)
      requires materials.Valid() && bloomMipDown.Length == Bloom.MaxPyramidSize && bloomMipUp.Length == Bloom.MaxPyramidSize
      modifies log, materials`keywords
      ensures materials.Valid()
      ensures log.events == old(log.events) + BloomCommands(true, descriptor, f.volume.bloomSkipIterations, src, bloomMipDown[..], bloomMipUp[..])
      ensures materials.keywords == BloomKeywords(old(materials.keywords), f, defaultHdr.useRGBM)
    {
      var mipCount := Bloom.MipCount(descriptor.width, descriptor.height, f.volume.bloomSkipIterations);
      materials.SetKeyword(BloomMaterial, BloomHQ, f.volume.bloomHighQualityFiltering);
      materials.SetKeyword(BloomMaterial, UseRGBM, defaultHdr.useRGBM);
      BloomPyramid(log, src, bloomMipDown, bloomMipUp, mipCount);
      materials.EnableKeyword(UberMaterial, BloomKeyword(f.volume.bloomHighQualityFiltering, f.volume.bloomDirtIntensityPositive));
    }

    /** SetupLensDistortion: the keyword when the effect is active and the camera is not the scene view. */
    method SetupLensDistortion(f: Frame)
      requires materials.Valid()
      modifies materials`keywords
      ensures materials.Valid()
      ensures materials.keywords == old(materials.keywords)[UberMaterial :=
        EnableIf(old(materials.keywords)[UberMaterial], f.volume.lensDistortionActive && !f.camera.isSceneViewCamera, Distortion)]
    {
      if f.volume.lensDistortionActive && !f.camera.isSceneViewCamera {
        materials.EnableKeyword(UberMaterial, Distortion);
      }
    }

    method SetupChromaticAberration(f: Frame)
      requires materials.Valid()
      modifies materials`keywords
      ensures materials.Valid()
      ensures materials.keywords == old(materials.keywords)[UberMaterial :=
        EnableIf(old(materials.keywords)[UberMaterial], f.volume.chromaticAberrationActive, ChromaticAberration)]
    {
      if f.volume.chromaticAberrationActive {
        materials.EnableKeyword(UberMaterial, ChromaticAberration);
      }
    }

    /** SetupColorGrading: HDR grading, else the tonemapper's keyword. */
    method SetupColorGrading(f: Frame)
      requires materials.Valid()
      modifies materials`keywords
      ensures materials.Valid()
      ensures materials.keywords == old(materials.keywords)[UberMaterial :=
        old(materials.keywords)[UberMaterial] + GradingKeywords(f.hdrGrading, f.volume.tonemapping)]
    {
      if f.hdrGrading {
        materials.EnableKeyword(UberMaterial, HDRGrading);
      } else {
        match f.volume.tonemapping {
          case Neutral => materials.EnableKeyword(UberMaterial, TonemapNeutral);
          case ACES => materials.EnableKeyword(UberMaterial, TonemapACES);
          case NoTonemapping =>
            assert old(materials.keywords)[UberMaterial] + {} == old(materials.keywords)[UberMaterial];
        }
      }
    }

    /** SetupGrain: film grain only when no final pass follows. */
    method SetupGrain(f: Frame, m: MaterialKind)
      requires materials.Valid()
      modifies materials`keywords
      ensures materials.Valid()
      ensures materials.keywords == old(materials.keywords)[m :=
        EnableIf(old(materials.keywords)[m], !hasFinalPass && f.volume.filmGrainActive, FilmGrain)]
    {
      if !hasFinalPass && f.volume.filmGrainActive {
        materials.EnableKeyword(m, FilmGrain);
      }
    }

    /** SetupDithering: dithering only when no final pass follows. */
    method SetupDithering(f: Frame, m: MaterialKind)
      requires materials.Valid()
      modifies materials`keywords
      ensures materials.Valid()
      ensures materials.keywords == old(materials.keywords)[m :=
        EnableIf(old(materials.keywords)[m], !hasFinalPass && f.camera.isDitheringEnabled, Dithering)]
    {
      if !hasFinalPass && f.camera.isDitheringEnabled {
        materials.EnableKeyword(m, Dithering);
      }
    }

    // ------------------------------------------------------------ Render

    /** Render's local Swap: the renderer exchanges its buffers, the new target
        becomes the source and the new front buffer the pass's destination. */
    method Swap(log: CommandLog, renderer: Renderer, ghost start: seq<Command>, ghost ran: seq<StageRun>,
                ghost r: StageRun, ghost a: Handle, ghost b: Handle) returns (src: Handle)
      requires a != b
      requires log.events == start + Chain(ran, a, b) + StageCommands(r, Src(a, b, |ran|), Dst(a, b, |ran|))
      requires renderer.cameraColorTarget == Src(a, b, |ran|) && renderer.cameraColorFrontBuffer == Dst(a, b, |ran|)
      modifies log, renderer, this`destination
      ensures Tracks(log.events, renderer.cameraColorTarget, renderer.cameraColorFrontBuffer, destination,
                     start, ran + [r], a, b, src)
    {
      renderer.SwapColorBuffer();
      log.Add(ColorBufferSwap);
      src := renderer.cameraColorTarget;
      destination := Some(renderer.cameraColorFrontBuffer);
      TracksAfterSwap(log.events, start, ran, r, a, b);
    }

    /** The NaN killer: one blit from the source to the destination, then a swap. */
    method RenderStopNaN(log: CommandLog, f: Frame, renderer: Renderer, stopNaNLoaded: bool,
                         ghost start: seq<Command>, ghost ran: seq<StageRun>, ghost a: Handle, ghost b: Handle, src: Handle)
      returns (newSrc: Handle, ghost runs: seq<StageRun>)
      requires Tracks(log.events, renderer.cameraColorTarget, renderer.cameraColorFrontBuffer, destination, start, ran, a, b, src)
      modifies log, renderer, this`destination
      ensures Tracks(log.events, renderer.cameraColorTarget, renderer.cameraColorFrontBuffer, destination, start, ran + runs, a, b, newSrc)
      ensures runs == if Guard(StopNaN, f, stopNaNLoaded) then [StopNaNRun] else []
    {
      if f.camera.isStopNaNEnabled && stopNaNLoaded {
        log.Add(Draw(StopNaNMaterial, 0, [src], [destination.value]));
        newSrc := Swap(log, renderer, start, ran, StopNaNRun, a, b);
        runs := [StopNaNRun];
      } else {
        newSrc, runs := src, [];
        assert ran + runs == ran;
      }
    }

    /** SMAA, unless the device is OpenGL ES 2. */
    method RenderSmaa(log: CommandLog, f: Frame, renderer: Renderer, stopNaNLoaded: bool,
                      ghost start: seq<Command>, ghost ran: seq<StageRun>, ghost a: Handle, ghost b: Handle, src: Handle,
                      ghost c: RunContext)
      returns (newSrc: Handle, ghost runs: seq<StageRun>)
      requires Describes(c)
      requires materials.Valid() && (Guard(Smaa, f, stopNaNLoaded) ==> depth.Some?)
      requires Tracks(log.events, renderer.cameraColorTarget, renderer.cameraColorFrontBuffer, destination, start, ran, a, b, src)
      modifies log, renderer, this`destination, materials`keywords
      ensures materials.Valid()
      ensures Tracks(log.events, renderer.cameraColorTarget, renderer.cameraColorFrontBuffer, destination, start, ran + runs, a, b, newSrc)
      ensures runs == StageRuns(Smaa, f, stopNaNLoaded, c)
      ensures materials.keywords == SmaaStageKeywords(old(materials.keywords), f, stopNaNLoaded)
    {
      if f.camera.antialiasing == SubpixelMorphologicalAntiAliasing && !f.isOpenGLES2 {
        var r := DoSubpixelMorphologicalAntialiasing(log, f, src, destination.value);
        newSrc := Swap(log, renderer, start, ran, r, a, b);
        runs := [r];
      } else {
        newSrc, runs := src, [];
        assert ran + runs == ran;
      }
    }

    /** Depth of field, unless the camera is the scene view. */
    method RenderDepthOfField(log: CommandLog, f: Frame, renderer: Renderer, handles: RTHandleSystem, stopNaNLoaded: bool,
                              ghost start: seq<Command>, ghost ran: seq<StageRun>, ghost a: Handle, ghost b: Handle, src: Handle,
                              ghost c: RunContext)
      returns (newSrc: Handle, ghost runs: seq<StageRun>)
      requires c == Context(handles)
      requires materials.Valid() && bokeh.Valid()
      requires Tracks(log.events, renderer.cameraColorTarget, renderer.cameraColorFrontBuffer, destination, start, ran, a, b, src)
      modifies log, renderer, this`destination, materials`keywords, handles,
        this`fullCoCGaussian, this`halfCoCGaussian, this`pingGaussian, this`pongGaussian,
        this`fullCoCBokeh, this`pingBokeh, this`pongBokeh, bokeh, bokeh.kernel
      ensures materials.Valid() && bokeh.Valid()
      ensures Tracks(log.events, renderer.cameraColorTarget, renderer.cameraColorFrontBuffer, destination, start, ran + runs, a, b, newSrc)
      ensures runs == StageRuns(DepthOfField, f, stopNaNLoaded, c)
      ensures handles.events == old(handles.events) +
        DofAllocations(Guard(DepthOfField, f, stopNaNLoaded), f, old(handles.nextSerial), old(GaussianSlots()), old(BokehSlots()))
      ensures materials.keywords == DofStageKeywords(old(materials.keywords), f, stopNaNLoaded, useFastSRGBLinearConversion)
      ensures Motion() == old(Motion())
    {
      if f.volume.depthOfFieldActive && !f.camera.isSceneViewCamera {
        var r := DoDepthOfField(log, f, src, destination.value, handles);
        newSrc := Swap(log, renderer, start, ran, r, a, b);
        runs := [r];
      } else {
        newSrc, runs := src, [];
        assert ran + runs == ran;
      }
    }

    /** Motion blur, unless the camera is the scene view. */
    method RenderMotionBlur(log: CommandLog, f: Frame, renderer: Renderer, stopNaNLoaded: bool,
                            ghost start: seq<Command>, ghost ran: seq<StageRun>, ghost a: Handle, ghost b: Handle, src: Handle,
                            ghost c: RunContext)
      returns (newSrc: Handle, ghost runs: seq<StageRun>)
      requires Describes(c)
      requires prevViewProjM.Length == 2
      requires Tracks(log.events, renderer.cameraColorTarget, renderer.cameraColorFrontBuffer, destination, start, ran, a, b, src)
      modifies log, renderer, this`destination, materials`viewProjM, materials`prevViewProjM, prevViewProjM
      ensures Tracks(log.events, renderer.cameraColorTarget, renderer.cameraColorFrontBuffer, destination, start, ran + runs, a, b, newSrc)
      ensures runs == StageRuns(MotionBlur, f, stopNaNLoaded, c)
      ensures Motion() == MotionStep(old(Motion()), Guard(MotionBlur, f, stopNaNLoaded), old(resetHistory), f.camera.viewProj)
    {
      if f.volume.motionBlurActive && !f.camera.isSceneViewCamera {
        var r := DoMotionBlur(log, f, src, destination.value);
        newSrc := Swap(log, renderer, start, ran, r, a, b);
        runs := [r];
      } else {
        newSrc, runs := src, [];
        assert ran + runs == ran;
      }
    }

    /** Panini projection, unless the camera is the scene view. */
    method RenderPanini(log: CommandLog, f: Frame, renderer: Renderer, stopNaNLoaded: bool,
                        ghost start: seq<Command>, ghost ran: seq<StageRun>, ghost a: Handle, ghost b: Handle, src: Handle,
                        ghost c: RunContext)
      returns (newSrc: Handle, ghost runs: seq<StageRun>)
      requires Describes(c)
      requires materials.Valid()
      requires Tracks(log.events, renderer.cameraColorTarget, renderer.cameraColorFrontBuffer, destination, start, ran, a, b, src)
      modifies log, renderer, this`destination, materials`keywords
      ensures materials.Valid()
      ensures Tracks(log.events, renderer.cameraColorTarget, renderer.cameraColorFrontBuffer, destination, start, ran + runs, a, b, newSrc)
      ensures runs == StageRuns(Panini, f, stopNaNLoaded, c)
      ensures materials.keywords == PaniniStageKeywords(old(materials.keywords), f, stopNaNLoaded)
    {
      if f.volume.paniniActive && !f.camera.isSceneViewCamera {
        var r := DoPaniniProjection(log, f, src, destination.value);
        newSrc := Swap(log, renderer, start, ran, r, a, b);
        runs := [r];
      } else {
        newSrc, runs := src, [];
        assert ran + runs == ran;
      }
    }

    /** Render's optional stages, in order, each under its guard and each
        followed by a swap. */
    method RenderStages(log: CommandLog, f: Frame, renderer: Renderer, handles: RTHandleSystem, stopNaNLoaded: bool, src: Handle)
      returns (newSrc: Handle, ghost ran: seq<StageRun>)
      requires Valid() && renderer.Valid() && (Guard(Smaa, f, stopNaNLoaded) ==> depth.Some?)
      requires src == renderer.cameraColorTarget && destination == Some(renderer.cameraColorFrontBuffer)
      modifies log, renderer, this`destination, materials`keywords, materials`viewProjM, materials`prevViewProjM, prevViewProjM,
        handles, this`fullCoCGaussian, this`halfCoCGaussian, this`pingGaussian, this`pongGaussian,
        this`fullCoCBokeh, this`pingBokeh, this`pongBokeh, bokeh, bokeh.kernel
      ensures Valid()
      ensures Tracks(log.events, renderer.cameraColorTarget, renderer.cameraColorFrontBuffer, destination,
                     old(log.events), ran, old(renderer.cameraColorTarget), old(renderer.cameraColorFrontBuffer), newSrc)
      ensures ran == EnabledRuns(f, stopNaNLoaded, old(Context(handles)))
      ensures handles.events == old(handles.events) +
        DofAllocations(Guard(DepthOfField, f, stopNaNLoaded), f, old(handles.nextSerial), old(GaussianSlots()), old(BokehSlots()))
      ensures materials.keywords == StageKeywords(old(materials.keywords), f, stopNaNLoaded, useFastSRGBLinearConversion)
      ensures Motion() == MotionStep(old(Motion()), Guard(MotionBlur, f, stopNaNLoaded), old(resetHistory), f.camera.viewProj)
    {
      ghost var a, b := renderer.cameraColorTarget, renderer.cameraColorFrontBuffer;
      ghost var start := log.events;
      ghost var c := Context(handles);
      assert start + Chain([], a, b) == start;
      ghost var early, late;
      newSrc, early := RenderEarlyStages(log, f, renderer, stopNaNLoaded, start, a, b, src, c);
      newSrc, late := RenderCameraStages(log, f, renderer, handles, stopNaNLoaded, start, early, a, b, newSrc, c);
      ran := early + late;
    }

    /** The NaN killer and SMAA, from the start of the frame. */
    method RenderEarlyStages(log: CommandLog, f: Frame, renderer: Renderer, stopNaNLoaded: bool,
                             ghost start: seq<Command>, ghost a: Handle, ghost b: Handle, src: Handle,
                             ghost c: RunContext)
      returns (newSrc: Handle, ghost runs: seq<StageRun>)
      requires Describes(c)
      requires materials.Valid() && (Guard(Smaa, f, stopNaNLoaded) ==> depth.Some?)
      requires Tracks(log.events, renderer.cameraColorTarget, renderer.cameraColorFrontBuffer, destination, start, [], a, b, src)
      modifies log, renderer, this`destination, materials`keywords
      ensures materials.Valid()
      ensures Tracks(log.events, renderer.cameraColorTarget, renderer.cameraColorFrontBuffer, destination, start, runs, a, b, newSrc)
      ensures runs == StageRuns(StopNaN, f, stopNaNLoaded, c) + StageRuns(Smaa, f, stopNaNLoaded, c)
      ensures materials.keywords == SmaaStageKeywords(old(materials.keywords), f, stopNaNLoaded)
    {
      ghost var r0, r1;
      newSrc, r0 := RenderStopNaN(log, f, renderer, stopNaNLoaded, start, [], a, b, src);
      assert [] + r0 == r0;
      newSrc, r1 := RenderSmaa(log, f, renderer, stopNaNLoaded, start, r0, a, b, newSrc, c);
      runs := r0 + r1;
    }

    /** Depth of field, motion blur and Panini, after the stages `ran`. */
    method RenderCameraStages(log: CommandLog, f: Frame, renderer: Renderer, handles: RTHandleSystem, stopNaNLoaded: bool,
                              ghost start: seq<Command>, ghost ran: seq<StageRun>, ghost a: Handle, ghost b: Handle, src: Handle,
                              ghost c: RunContext)
      returns (newSrc: Handle, ghost runs: seq<StageRun>)
      requires c == Context(handles)
      requires materials.Valid() && bokeh.Valid() && prevViewProjM.Length == 2
      requires Tracks(log.events, renderer.cameraColorTarget, renderer.cameraColorFrontBuffer, destination, start, ran, a, b, src)
      modifies log, renderer, this`destination, materials`keywords, materials`viewProjM, materials`prevViewProjM, prevViewProjM,
        handles, this`fullCoCGaussian, this`halfCoCGaussian, this`pingGaussian, this`pongGaussian,
        this`fullCoCBokeh, this`pingBokeh, this`pongBokeh, bokeh, bokeh.kernel
      ensures materials.Valid() && bokeh.Valid()
      ensures Tracks(log.events, renderer.cameraColorTarget, renderer.cameraColorFrontBuffer, destination, start, ran + runs, a, b, newSrc)
      ensures runs == StageRuns(DepthOfField, f, stopNaNLoaded, c) +
        (StageRuns(MotionBlur, f, stopNaNLoaded, c) + StageRuns(Panini, f, stopNaNLoaded, c))
      ensures handles.events == old(handles.events) +
        DofAllocations(Guard(DepthOfField, f, stopNaNLoaded), f, old(handles.nextSerial), old(GaussianSlots()), old(BokehSlots()))
      ensures materials.keywords == PaniniStageKeywords(
        DofStageKeywords(old(materials.keywords), f, stopNaNLoaded, useFastSRGBLinearConversion), f, stopNaNLoaded)
      ensures Motion() == MotionStep(old(Motion()), Guard(MotionBlur, f, stopNaNLoaded), old(resetHistory), f.camera.viewProj)
    {
      ghost var r2, rest;
      newSrc, r2 := RenderDepthOfField(log, f, renderer, handles, stopNaNLoaded, start, ran, a, b, src, c);
      newSrc, rest := RenderLateStages(log, f, renderer, stopNaNLoaded, start, ran + r2, a, b, newSrc, c);
      runs := r2 + rest;
      RunListAssoc(ran, r2, rest);
    }

    /** Motion blur and Panini, after the stages `ran`. */
    method RenderLateStages(log: CommandLog, f: Frame, renderer: Renderer, stopNaNLoaded: bool,
                            ghost start: seq<Command>, ghost ran: seq<StageRun>, ghost a: Handle, ghost b: Handle, src: Handle,
                            ghost c: RunContext)
      returns (newSrc: Handle, ghost runs: seq<StageRun>)
      requires Describes(c)
      requires materials.Valid() && prevViewProjM.Length == 2
      requires Tracks(log.events, renderer.cameraColorTarget, renderer.cameraColorFrontBuffer, destination, start, ran, a, b, src)
      modifies log, renderer, this`destination, materials`keywords, materials`viewProjM, materials`prevViewProjM, prevViewProjM
      ensures materials.Valid()
      ensures Tracks(log.events, renderer.cameraColorTarget, renderer.cameraColorFrontBuffer, destination, start, ran + runs, a, b, newSrc)
      ensures runs == StageRuns(MotionBlur, f, stopNaNLoaded, c) + StageRuns(Panini, f, stopNaNLoaded, c)
      ensures materials.keywords == PaniniStageKeywords(old(materials.keywords), f, stopNaNLoaded)
      ensures Motion() == MotionStep(old(Motion()), Guard(MotionBlur, f, stopNaNLoaded), old(resetHistory), f.camera.viewProj)
    {
      ghost var r3, r4;
      newSrc, r3 := RenderMotionBlur(log, f, renderer, stopNaNLoaded, start, ran, a, b, src, c);
      newSrc, r4 := RenderPanini(log, f, renderer, stopNaNLoaded, start, ran + r3, a, b, newSrc, c);
      runs := r3 + r4;
      RunListAssoc(ran, r3, r4);
    }

    // ------------------------------------------------------------ the uber block

    /** The uber rules after bloom, in Render's order: lens distortion,
        chromatic aberration, grading, grain, dithering, sRGB conversion and
        the fast sRGB approximation. */
    method SetupUberRules(f: Frame)
      requires materials.Valid() && useFastSRGBLinearConversion == f.useFastSRGBLinearConversion
      modifies materials`keywords
      ensures materials.Valid()
      ensures materials.keywords == old(materials.keywords)[UberMaterial :=
        UberTail(old(materials.keywords)[UberMaterial], f, hasFinalPass,
                 RequireSrgbConversion(f.camera.requireSrgbConversion, enableSRGBConversionIfNeeded))]
    {
      ghost var ks := materials.keywords;
      ghost var effects := UberEffects(ks[UberMaterial], f);
      SetupUberEffects(f);
      SetupUberOutputs(f);
      UpdateTwice(ks, UberMaterial, effects, UberOutputs(effects, f, hasFinalPass,
        RequireSrgbConversion(f.camera.requireSrgbConversion, enableSRGBConversionIfNeeded)));
    }

    /** Lens distortion, chromatic aberration, grading. */
    method SetupUberEffects(f: Frame)
      requires materials.Valid()
      modifies materials`keywords
      ensures materials.Valid()
      ensures materials.keywords == old(materials.keywords)[UberMaterial := UberEffects(old(materials.keywords)[UberMaterial], f)]
    {
      ghost var ks := materials.keywords;
      ghost var v := f.volume;
      SetupLensDistortion(f);
      ghost var u1 := EnableIf(ks[UberMaterial], v.lensDistortionActive && !f.camera.isSceneViewCamera, Distortion);
      SetupChromaticAberration(f);
      ghost var u2 := EnableIf(u1, v.chromaticAberrationActive, ChromaticAberration);
      UpdateTwice(ks, UberMaterial, u1, u2);
      SetupColorGrading(f);
      UpdateTwice(ks, UberMaterial, u2, u2 + GradingKeywords(f.hdrGrading, v.tonemapping));
    }

    /** Grain and dithering (only without a final pass), sRGB conversion, the fast sRGB approximation. */
    method SetupUberOutputs(f: Frame)
      requires materials.Valid() && useFastSRGBLinearConversion == f.useFastSRGBLinearConversion
      modifies materials`keywords
      ensures materials.Valid()
      ensures materials.keywords == old(materials.keywords)[UberMaterial := UberOutputs(old(materials.keywords)[UberMaterial],
        f, hasFinalPass, RequireSrgbConversion(f.camera.requireSrgbConversion, enableSRGBConversionIfNeeded))]
    {
      ghost var ks := materials.keywords;
      SetupGrain(f, UberMaterial);
      ghost var u1 := EnableIf(ks[UberMaterial], !hasFinalPass && f.volume.filmGrainActive, FilmGrain);
      SetupDithering(f, UberMaterial);
      ghost var u2 := EnableIf(u1, !hasFinalPass && f.camera.isDitheringEnabled, Dithering);
      UpdateTwice(ks, UberMaterial, u1, u2);
      SetupSrgbRules(f, u2);
      UpdateTwice(ks, UberMaterial, u2, UberOutputs(ks[UberMaterial], f, hasFinalPass,
        RequireSrgbConversion(f.camera.requireSrgbConversion, enableSRGBConversionIfNeeded)));
    }

    /** The two sRGB rules that close the uber setup. */
    method SetupSrgbRules(f: Frame, ghost u: set<Keyword>)
      requires materials.Valid() && materials.keywords[UberMaterial] == u
      requires useFastSRGBLinearConversion == f.useFastSRGBLinearConversion
      modifies materials`keywords
      ensures materials.Valid()
      ensures materials.keywords == old(materials.keywords)[UberMaterial := EnableIf(EnableIf(u,
        RequireSrgbConversion(f.camera.requireSrgbConversion, enableSRGBConversionIfNeeded), LinearToSRGBConversion),
        f.useFastSRGBLinearConversion, UseFastSRGBLinearConversion)]
    {
      ghost var ks := materials.keywords;
      var srgb := RequireSrgbConversion(f.camera.requireSrgbConversion, enableSRGBConversionIfNeeded);
      if srgb {
        materials.EnableKeyword(UberMaterial, LinearToSRGBConversion);
      }
      ghost var u1 := EnableIf(u, srgb, LinearToSRGBConversion);
      assert materials.keywords == ks[UberMaterial := u1];
      if useFastSRGBLinearConversion {
        materials.EnableKeyword(UberMaterial, UseFastSRGBLinearConversion);
        UpdateTwice(ks, UberMaterial, u1, u1 + {UseFastSRGBLinearConversion});
      }
    }

    /** The keyword half of the uber block: the uber set cleared, SetupBloom
        when bloom is active, the remaining rules. */
    method UberKeywordsAndBloom(log: CommandLog, f: Frame, src: Handle)
      requires Valid() && useFastSRGBLinearConversion == f.useFastSRGBLinearConversion
      modifies log, materials`keywords
      ensures Valid()
      ensures log.events == old(log.events) +
        BloomCommands(f.volume.bloomActive, descriptor, f.volume.bloomSkipIterations, src, bloomMipDown[..], bloomMipUp[..])
      ensures materials.keywords == UberBlockKeywords(old(materials.keywords), f, hasFinalPass,
        RequireSrgbConversion(f.camera.requireSrgbConversion, enableSRGBConversionIfNeeded), defaultHdr.useRGBM)
    {
      materials.ClearKeywords(UberMaterial);
      if f.volume.bloomActive {
        SetupBloom(log, f, src);
      } else {
        assert log.events == old(log.events) + [];
      }
      ghost var base := materials.keywords;
      assert base[UberMaterial] == if f.volume.bloomActive
        then {BloomKeyword(f.volume.bloomHighQualityFiltering, f.volume.bloomDirtIntensityPositive)} else {};
      SetupUberRules(f);
      UpdateTwice(base, UberMaterial, base[UberMaterial], UberSteps(f, hasFinalPass,
        RequireSrgbConversion(f.camera.requireSrgbConversion, enableSRGBConversionIfNeeded)));
    }

    /** The uber block: the keywords and bloom, one draw from the source into
        the screen output or the destination, and a swap unless resolving to screen. */
    method RenderUber(log: CommandLog, f: Frame, renderer: Renderer, src: Handle, ghost handles: RTHandleSystem)
      requires Valid() && renderer.Valid() && destination.Some?
      requires useFastSRGBLinearConversion == f.useFastSRGBLinearConversion
      modifies log, renderer, materials`keywords
      ensures Valid() && renderer.Valid()
      ensures handles.events == old(handles.events) && Motion() == old(Motion())
      ensures log.events == old(log.events) +
        UberCommands(BloomCommands(f.volume.bloomActive, descriptor, f.volume.bloomSkipIterations, src, bloomMipDown[..], bloomMipUp[..]),
                     src, UberTarget(resolveToScreen, f.camera.hasOwnTargetTexture, f.camera.targetTexture, destination.value), resolveToScreen)
      ensures materials.keywords == UberBlockKeywords(old(materials.keywords), f, hasFinalPass,
        RequireSrgbConversion(f.camera.requireSrgbConversion, enableSRGBConversionIfNeeded), defaultHdr.useRGBM)
      ensures resolveToScreen ==> renderer.cameraColorTarget == old(renderer.cameraColorTarget) &&
                                  renderer.cameraColorFrontBuffer == old(renderer.cameraColorFrontBuffer)
      ensures !resolveToScreen ==> renderer.cameraColorTarget == old(renderer.cameraColorFrontBuffer) &&
                                   renderer.cameraColorFrontBuffer == old(renderer.cameraColorTarget)
    {
      ghost var start := log.events;
      UberKeywordsAndBloom(log, f, src);
      ghost var bloom := BloomCommands(f.volume.bloomActive, descriptor, f.volume.bloomSkipIterations, src, bloomMipDown[..], bloomMipUp[..]);
      var cameraTarget := if resolveToScreen then ScreenTarget(f.camera.hasOwnTargetTexture, f.camera.targetTexture) else destination.value;
      UberDraw(log, renderer, src, cameraTarget, resolveToScreen);
      AppendUberAssoc(start, bloom, Draw(UberMaterial, 0, [src], [cameraTarget]), if resolveToScreen then [] else [ColorBufferSwap]);
    }

    /** Render: the optional stages in order, each writing the destination and
        followed by a swap, then the uber block reading the last output. With
        `a` and `b` the renderer's buffers at entry, the log is the chain of the
        enabled stages' runs followed by the uber commands. */
    method Render(log: CommandLog, f: Frame, renderer: Renderer, handles: RTHandleSystem) returns (ghost ran: seq<StageRun>)
      requires Valid() && renderer.Valid()
      requires source == Some(renderer.cameraColorTarget) && destination == Some(renderer.cameraColorFrontBuffer)
      requires useFastSRGBLinearConversion == f.useFastSRGBLinearConversion
      requires Guard(Smaa, f, StopNaNMaterial in materials.created) ==> depth.Some?
      modifies log, renderer, this`destination, materials`keywords, materials`viewProjM, materials`prevViewProjM, prevViewProjM,
        handles, this`fullCoCGaussian, this`halfCoCGaussian, this`pingGaussian, this`pongGaussian,
        this`fullCoCBokeh, this`pingBokeh, this`pongBokeh, bokeh, bokeh.kernel
      ensures Valid() && renderer.Valid()
      ensures ran == EnabledRuns(f, StopNaNMaterial in materials.created, old(Context(handles)))
      ensures var a, b := old(renderer.cameraColorTarget), old(renderer.cameraColorFrontBuffer);
        var last := Src(a, b, |ran|);
        log.events == old(log.events) + Chain(ran, a, b) +
          UberCommands(BloomCommands(f.volume.bloomActive, descriptor, f.volume.bloomSkipIterations, last, bloomMipDown[..], bloomMipUp[..]),
                       last, UberTarget(resolveToScreen, f.camera.hasOwnTargetTexture, f.camera.targetTexture, Dst(a, b, |ran|)), resolveToScreen)
      ensures var a, b := old(renderer.cameraColorTarget), old(renderer.cameraColorFrontBuffer);
        destination == Some(Dst(a, b, |ran|)) &&
        if resolveToScreen then renderer.cameraColorTarget == Src(a, b, |ran|) && renderer.cameraColorFrontBuffer == Dst(a, b, |ran|)
        else renderer.cameraColorTarget == Dst(a, b, |ran|) && renderer.cameraColorFrontBuffer == Src(a, b, |ran|)
      ensures materials.keywords == RenderKeywords(old(materials.keywords), f, StopNaNMaterial in materials.created, hasFinalPass,
        RequireSrgbConversion(f.camera.requireSrgbConversion, enableSRGBConversionIfNeeded), defaultHdr.useRGBM, useFastSRGBLinearConversion)
      ensures handles.events == old(handles.events) +
        DofAllocations(Guard(DepthOfField, f, StopNaNMaterial in materials.created), f, old(handles.nextSerial), old(GaussianSlots()), old(BokehSlots()))
      ensures Motion() == MotionStep(old(Motion()), Guard(MotionBlur, f, StopNaNMaterial in materials.created), old(resetHistory), f.camera.viewProj)
    {
      ghost var a, b := renderer.cameraColorTarget, renderer.cameraColorFrontBuffer;
      var stopNaNLoaded := StopNaNMaterial in materials.created;
      var src;
      src, ran := RenderStages(log, f, renderer, handles, stopNaNLoaded, source.value);
      RenderUber(log, f, renderer, src, handles);
    }

    /** RenderFinalPass: the final-pass material's keywords cleared and then
        set rule by rule (FXAA, grain, dithering, sRGB conversion), and one
        draw from the source into the camera's screen output. */
    method RenderFinalPass(log: CommandLog, f: Frame)
      requires Valid() && source.Some?
      modifies log, materials`keywords
      ensures Valid()
      ensures log.events == old(log.events) + [Draw(FinalPassMaterial, 0, [old(source.value)], [ScreenTarget(f.camera.hasOwnTargetTexture, f.camera.targetTexture)])]
      ensures materials.keywords == old(materials.keywords)[FinalPassMaterial :=
        FinalPassSteps(f, hasFinalPass, RequireSrgbConversion(f.camera.requireSrgbConversion, enableSRGBConversionIfNeeded))]
    {
      SetupFinalPassKeywords(f);
      log.Add(Draw(FinalPassMaterial, 0, [source.value], [ScreenTarget(f.camera.hasOwnTargetTexture, f.camera.targetTexture)]));
    }

    /** The keyword half of RenderFinalPass. */
    method SetupFinalPassKeywords(f: Frame)
      requires materials.Valid()
      modifies materials`keywords
      ensures materials.Valid()
      ensures materials.keywords == old(materials.keywords)[FinalPassMaterial :=
        FinalPassSteps(f, hasFinalPass, RequireSrgbConversion(f.camera.requireSrgbConversion, enableSRGBConversionIfNeeded))]
    {
      ghost var ks := materials.keywords;
      materials.ClearKeywords(FinalPassMaterial);
      ghost var fxaa := EnableIf({}, f.camera.antialiasing == FastApproximateAntialiasing, Fxaa);
      if f.camera.antialiasing == FastApproximateAntialiasing {
        materials.EnableKeyword(FinalPassMaterial, Fxaa);
        UpdateTwice(ks, FinalPassMaterial, {}, fxaa);
      }
      ghost var grain := EnableIf(fxaa, !hasFinalPass && f.volume.filmGrainActive, FilmGrain);
      SetupGrain(f, FinalPassMaterial);
      UpdateTwice(ks, FinalPassMaterial, fxaa, grain);
      ghost var dithering := EnableIf(grain, !hasFinalPass && f.camera.isDitheringEnabled, Dithering);
      SetupDithering(f, FinalPassMaterial);
      UpdateTwice(ks, FinalPassMaterial, grain, dithering);
      if RequireSrgbConversion(f.camera.requireSrgbConversion, enableSRGBConversionIfNeeded) {
        materials.EnableKeyword(FinalPassMaterial, LinearToSRGBConversion);
        UpdateTwice(ks, FinalPassMaterial, dithering, dithering + {LinearToSRGBConversion});
      }
    }

    /** The branch Execute takes once source and destination are set: the
        final blit for a final pass, otherwise (the pass never runs on tile)
        the whole post-processing chain. */
    method Dispatch(log: CommandLog, f: Frame, renderer: Renderer, handles: RTHandleSystem) returns (ghost ran: seq<StageRun>)
      requires Valid() && renderer.Valid()
      requires source == Some(renderer.cameraColorTarget) && destination == Some(renderer.cameraColorFrontBuffer)
      requires useFastSRGBLinearConversion == f.useFastSRGBLinearConversion
      requires !isFinalPass && Guard(Smaa, f, StopNaNMaterial in materials.created) ==> depth.Some?
      modifies log, renderer, this`destination, materials`keywords, materials`viewProjM, materials`prevViewProjM, prevViewProjM,
        handles, this`fullCoCGaussian, this`halfCoCGaussian, this`pingGaussian, this`pongGaussian,
        this`fullCoCBokeh, this`pingBokeh, this`pongBokeh, bokeh, bokeh.kernel
      ensures Valid() && renderer.Valid()
      ensures old(isFinalPass) ==>
        ran == [] && destination == Some(old(renderer.cameraColorFrontBuffer)) &&
        log.events == old(log.events) + [Draw(FinalPassMaterial, 0, [old(renderer.cameraColorTarget)], [ScreenTarget(f.camera.hasOwnTargetTexture, f.camera.targetTexture)])] &&
        materials.keywords == old(materials.keywords)[FinalPassMaterial :=
          FinalPassSteps(f, hasFinalPass, RequireSrgbConversion(f.camera.requireSrgbConversion, enableSRGBConversionIfNeeded))] &&
        renderer.cameraColorTarget == old(renderer.cameraColorTarget) && renderer.cameraColorFrontBuffer == old(renderer.cameraColorFrontBuffer)
      ensures old(isFinalPass) ==>
        handles.events == old(handles.events) && handles.nextSerial == old(handles.nextSerial) &&
        Motion() == old(Motion()) && GaussianSlots() == old(GaussianSlots()) && BokehSlots() == old(BokehSlots())
      ensures old(isFinalPass) ==> unchanged(bokeh) && (bokeh.kernel != null ==> unchanged(bokeh.kernel))
      ensures !old(isFinalPass) ==> ran == EnabledRuns(f, StopNaNMaterial in materials.created, old(Context(handles)))
      ensures !old(isFinalPass) ==>
        var a, b := old(renderer.cameraColorTarget), old(renderer.cameraColorFrontBuffer);
        var last := Src(a, b, |ran|);
        log.events == old(log.events) + Chain(ran, a, b) +
          UberCommands(BloomCommands(f.volume.bloomActive, descriptor, f.volume.bloomSkipIterations, last, bloomMipDown[..], bloomMipUp[..]),
                       last, UberTarget(resolveToScreen, f.camera.hasOwnTargetTexture, f.camera.targetTexture, Dst(a, b, |ran|)), resolveToScreen)
      ensures !old(isFinalPass) ==>
        materials.keywords == RenderKeywords(old(materials.keywords), f, StopNaNMaterial in materials.created, hasFinalPass,
          RequireSrgbConversion(f.camera.requireSrgbConversion, enableSRGBConversionIfNeeded), defaultHdr.useRGBM, useFastSRGBLinearConversion)
    {
      if isFinalPass {
        RenderFinalPass(log, f);
        ran := [];
      } else if CanRunOnTile() {
        ran := [];
      } else {
        ran := Render(log, f, renderer, handles);
      }
    }

    /** The first lines of Execute: the source is the renderer's current color
        target, the destination its front buffer, and the fast sRGB flag is
        the frame's. */
    method TakeCameraTargets(renderer: Renderer, f: Frame, ghost handles: RTHandleSystem)
      requires Valid()
      modifies this`source, this`destination, this`useFastSRGBLinearConversion
      ensures Valid() && Context(handles) == old(Context(handles))
      ensures source == Some(renderer.cameraColorTarget) && destination == Some(renderer.cameraColorFrontBuffer)
      ensures useFastSRGBLinearConversion == f.useFastSRGBLinearConversion
    {
      source := Some(renderer.cameraColorTarget);
      destination := Some(renderer.cameraColorFrontBuffer);
      useFastSRGBLinearConversion := f.useFastSRGBLinearConversion;
    }

    /** The last line of Execute: a requested history reset has been used by this frame. */
    method ConsumeHistoryReset()
      requires Valid()
      modifies this`resetHistory
      ensures Valid() && !resetHistory
      ensures source == old(source) && destination == old(destination) && useFastSRGBLinearConversion == old(useFastSRGBLinearConversion)
      ensures descriptor == old(descriptor) && hasFinalPass == old(hasFinalPass) && resolveToScreen == old(resolveToScreen)
      ensures enableSRGBConversionIfNeeded == old(enableSRGBConversionIfNeeded)
    {
      resetHistory := false;
    }

    /** Execute: the source and destination are taken from the renderer, the
        fast sRGB flag from the frame; a final pass renders the final blit,
        otherwise (the pass never runs on tile) Render runs. The history reset
        is consumed either way. */
    method Execute(log: CommandLog, f: Frame, renderer: Renderer, handles: RTHandleSystem) returns (ghost ran: seq<StageRun>)
      requires Valid() && renderer.Valid()
      requires !isFinalPass && Guard(Smaa, f, StopNaNMaterial in materials.created) ==> depth.Some?
      modifies this`source, this`useFastSRGBLinearConversion, this`resetHistory,
        log, renderer, this`destination, materials`keywords, materials`viewProjM, materials`prevViewProjM, prevViewProjM,
        handles, this`fullCoCGaussian, this`halfCoCGaussian, this`pingGaussian, this`pongGaussian,
        this`fullCoCBokeh, this`pingBokeh, this`pongBokeh, bokeh, bokeh.kernel
      ensures Valid() && renderer.Valid()
      ensures source == Some(old(renderer.cameraColorTarget)) && useFastSRGBLinearConversion == f.useFastSRGBLinearConversion
      ensures !resetHistory
      ensures old(isFinalPass) ==>
        ran == [] && destination == Some(old(renderer.cameraColorFrontBuffer)) &&
        log.events == old(log.events) + [Draw(FinalPassMaterial, 0, [old(renderer.cameraColorTarget)], [ScreenTarget(f.camera.hasOwnTargetTexture, f.camera.targetTexture)])] &&
        materials.keywords == old(materials.keywords)[FinalPassMaterial :=
          FinalPassSteps(f, hasFinalPass, RequireSrgbConversion(f.camera.requireSrgbConversion, enableSRGBConversionIfNeeded))] &&
        renderer.cameraColorTarget == old(renderer.cameraColorTarget) && renderer.cameraColorFrontBuffer == old(renderer.cameraColorFrontBuffer)
      ensures old(isFinalPass) ==>
        handles.events == old(handles.events) && handles.nextSerial == old(handles.nextSerial) &&
        Motion() == old(Motion()) && GaussianSlots() == old(GaussianSlots()) && BokehSlots() == old(BokehSlots())
      ensures old(isFinalPass) ==> unchanged(bokeh) && (bokeh.kernel != null ==> unchanged(bokeh.kernel))
      ensures !old(isFinalPass) ==> ran == EnabledRuns(f, StopNaNMaterial in materials.created, old(Context(handles)))
      ensures !old(isFinalPass) ==>
        var a, b := old(renderer.cameraColorTarget), old(renderer.cameraColorFrontBuffer);
        var last := Src(a, b, |ran|);
        log.events == old(log.events) + Chain(ran, a, b) +
          UberCommands(BloomCommands(f.volume.bloomActive, descriptor, f.volume.bloomSkipIterations, last, bloomMipDown[..], bloomMipUp[..]),
                       last, UberTarget(resolveToScreen, f.camera.hasOwnTargetTexture, f.camera.targetTexture, Dst(a, b, |ran|)), resolveToScreen)
      ensures !old(isFinalPass) ==>
        materials.keywords == RenderKeywords(old(materials.keywords), f, StopNaNMaterial in materials.created, hasFinalPass,
          RequireSrgbConversion(f.camera.requireSrgbConversion, enableSRGBConversionIfNeeded), defaultHdr.useRGBM, useFastSRGBLinearConversion)
    {
      TakeCameraTargets(renderer, f, handles);
      ran := Dispatch(log, f, renderer, handles);
      ConsumeHistoryReset();
    }

    /** Cleanup: the materials are destroyed, then the two temporaries, every
        bloom level (down, then up) and each depth-of-field handle that was
        allocated are released. The fields keep their handles. */
    method Cleanup(handles: RTHandleSystem)
      requires Valid()
      modifies materials`destroyed, handles
      ensures Valid() && materials.destroyed
      ensures handles.nextSerial == old(handles.nextSerial)
      ensures handles.events == old(handles.events) +
        CleanupReleases(tempTarget, tempTarget2, bloomMipDown[..], bloomMipUp[..], GaussianSlots() + BokehSlots())
    {
      materials.Cleanup();
      ghost var start := handles.events;
      ReleaseTargets(handles, tempTarget, tempTarget2, bloomMipDown, bloomMipUp);
      ReleaseSlots(handles, GaussianSlots() + BokehSlots());
      CleanupAssoc(start, tempTarget, tempTarget2, bloomMipDown[..], bloomMipUp[..], GaussianSlots() + BokehSlots());
    }
  }

  /** The uber draw into `target`, then the renderer's swap unless resolving to screen. */
  method UberDraw(log: CommandLog, renderer: Renderer, src: Handle, target: Handle, resolveToScreen: bool)
    requires renderer.Valid()
    modifies log, renderer
    ensures renderer.Valid()
    ensures log.events == old(log.events) + [Draw(UberMaterial, 0, [src], [target])] + (if resolveToScreen then [] else [ColorBufferSwap])
    ensures resolveToScreen ==> renderer.cameraColorTarget == old(renderer.cameraColorTarget) &&
                                renderer.cameraColorFrontBuffer == old(renderer.cameraColorFrontBuffer)
    ensures !resolveToScreen ==> renderer.cameraColorTarget == old(renderer.cameraColorFrontBuffer) &&
                                 renderer.cameraColorFrontBuffer == old(renderer.cameraColorTarget)
  {
    log.Add(Draw(UberMaterial, 0, [src], [target]));
    if !resolveToScreen {
      renderer.SwapColorBuffer();
      log.Add(ColorBufferSwap);
    } else {
      assert log.events == old(log.events) + [Draw(UberMaterial, 0, [src], [target])] + [];
    }
  }

  /** SetupBloom's blits, the binding of the result and nothing else: the log
      grows by exactly the bloom schedule of the pyramid. */
  method BloomPyramid(log: CommandLog, src: Handle, bloomMipDown: array<Handle>, bloomMipUp: array<Handle>, mipCount: nat)
    requires bloomMipDown.Length == Bloom.MaxPyramidSize && bloomMipUp.Length == Bloom.MaxPyramidSize
    requires 1 <= mipCount <= Bloom.MaxPyramidSize
    modifies log
    ensures log.events == old(log.events) + Bloom.Schedule(mipCount, src, bloomMipDown[..], bloomMipUp[..])
  {
    ghost var down, up := bloomMipDown[..], bloomMipUp[..];
    ghost var start := log.events;
    BloomDownsample(log, src, bloomMipDown, bloomMipUp, mipCount);
    BloomUpsample(log, src, bloomMipDown, bloomMipUp, mipCount, start);
    Bloom.PrefixBind(mipCount, src, down, up);
    ghost var beforeBind := log.events;
    log.Add(BindTexture(BloomTextureSlot, bloomMipUp[0]));
    assert log.events == start + Bloom.SchedulePrefix(mipCount, 3 * mipCount - 1, src, down, up) by {
      assert log.events == beforeBind + [BindTexture(BloomTextureSlot, up[0])];
    }
    Bloom.SchedulePrefixComplete(mipCount, src, down, up);
  }

  /** The prefilter into mip 0, then the two blur passes of every lower level. */
  method BloomDownsample(log: CommandLog, src: Handle, bloomMipDown: array<Handle>, bloomMipUp: array<Handle>, mipCount: nat)
    requires bloomMipDown.Length == Bloom.MaxPyramidSize && bloomMipUp.Length == Bloom.MaxPyramidSize
    requires 1 <= mipCount <= Bloom.MaxPyramidSize
    modifies log
    ensures log.events == old(log.events) + Bloom.SchedulePrefix(mipCount, 2 * mipCount - 1, src, bloomMipDown[..], bloomMipUp[..])
  {
    ghost var down, up := bloomMipDown[..], bloomMipUp[..];
    ghost var start := log.events;
    log.Add(Draw(BloomMaterial, 0, [src], [bloomMipDown[0]]));
    assert Bloom.SchedulePrefix(mipCount, 1, src, down, up) == [] + [Draw(BloomMaterial, 0, [src], [down[0]])];
    var lastDown := bloomMipDown[0];
    var i := 1;
    while i < mipCount
      invariant 1 <= i <= mipCount
      invariant lastDown == down[i - 1]
      invariant log.events == start + Bloom.SchedulePrefix(mipCount, 2 * i - 1, src, down, up)
    {
      var mipDown := bloomMipDown[i];
      var mipUp := bloomMipUp[i];
      Bloom.PrefixBlurLevel(mipCount, i, src, down, up);
      log.AddAll([Draw(BloomMaterial, 1, [lastDown], [mipUp]), Draw(BloomMaterial, 2, [mipUp], [mipDown])]);
      lastDown := mipDown;
      i := i + 1;
    }
  }

  /** The upsample passes, from the lowest level back up to mip 0. */
  method BloomUpsample(log: CommandLog, src: Handle, bloomMipDown: array<Handle>, bloomMipUp: array<Handle>, mipCount: nat,
                       ghost start: seq<Command>)
    requires bloomMipDown.Length == Bloom.MaxPyramidSize && bloomMipUp.Length == Bloom.MaxPyramidSize
    requires 1 <= mipCount <= Bloom.MaxPyramidSize
    requires log.events == start + Bloom.SchedulePrefix(mipCount, 2 * mipCount - 1, src, bloomMipDown[..], bloomMipUp[..])
    modifies log
    ensures log.events == start + Bloom.SchedulePrefix(mipCount, 3 * mipCount - 2, src, bloomMipDown[..], bloomMipUp[..])
  {
    ghost var down, up := bloomMipDown[..], bloomMipUp[..];
    var j: int := mipCount - 2;
    while j >= 0
      invariant -1 <= j <= mipCount - 2
      invariant log.events == start + Bloom.SchedulePrefix(mipCount, 3 * mipCount - 3 - j, src, down, up)
    {
      var lowMip := if j == mipCount - 2 then bloomMipDown[j + 1] else bloomMipUp[j + 1];
      var highMip := bloomMipDown[j];
      var dst := bloomMipUp[j];
      Bloom.PrefixUpsampleLevel(mipCount, j, src, down, up);
      log.Add(Draw(BloomMaterial, 3, [highMip, lowMip], [dst]));
      j := j - 1;
    }
  }

  /** The constructor's allocations: the two temporaries, then level i of the
      pyramid allocates "_BloomMipDown" i followed by "_BloomMipUp" i. */
  method AllocateTargets(handles: RTHandleSystem)
    returns (t1: Handle, t2: Handle, down: array<Handle>, up: array<Handle>)
    modifies handles
    ensures fresh(down) && fresh(up)
    ensures down.Length == Bloom.MaxPyramidSize && up.Length == Bloom.MaxPyramidSize
    ensures var s := old(handles.nextSerial);
      t1 == Allocated(Named("_TempTarget"), s) && t2 == Allocated(Named("_TempTarget2"), s + 1) &&
      down[..] == PyramidLevels("_BloomMipDown", s + 2) && up[..] == PyramidLevels("_BloomMipUp", s + 3)
    ensures handles.nextSerial == old(handles.nextSerial) + ConstructorAllocations
    ensures handles.events == old(handles.events) + ConstructorEvents(old(handles.nextSerial), ConstructorAllocations)
  {
    ghost var s := handles.nextSerial;
    ghost var e := handles.events;
    t1 := handles.Alloc(Named("_TempTarget"));
    t2 := handles.Alloc(Named("_TempTarget2"));
    assert handles.events == e + ConstructorEvents(s, 2);
    down := new Handle[Bloom.MaxPyramidSize];
    up := new Handle[Bloom.MaxPyramidSize];
    AllocatePyramid(handles, down, up, s, e);
    assert down[..] == PyramidLevels("_BloomMipDown", s + 2);
    assert up[..] == PyramidLevels("_BloomMipUp", s + 3);
  }

  /** The handles of one pyramid, level i allocated under `base` with serial `first` + 2i. */
  function PyramidLevels(base: string, first: nat): (hs: seq<Handle>)
  {
    seq(Bloom.MaxPyramidSize, (i: int) requires 0 <= i => Allocated(Indexed(base, i), first + 2 * i))
  }

  /** The constructor's loop: level i allocates "_BloomMipDown" i, then "_BloomMipUp" i. */
  method AllocatePyramid(handles: RTHandleSystem, down: array<Handle>, up: array<Handle>,
                         ghost s: nat, ghost e: seq<ResourceEvent>)
    requires down.Length == Bloom.MaxPyramidSize && up.Length == Bloom.MaxPyramidSize && down != up
    requires handles.nextSerial == s + 2 && handles.events == e + ConstructorEvents(s, 2)
    modifies handles, down, up
    ensures forall i :: 0 <= i < Bloom.MaxPyramidSize ==>
      down[i] == Allocated(Indexed("_BloomMipDown", i), s + 2 + 2 * i) &&
      up[i] == Allocated(Indexed("_BloomMipUp", i), s + 3 + 2 * i)
    ensures handles.nextSerial == s + ConstructorAllocations
    ensures handles.events == e + ConstructorEvents(s, ConstructorAllocations)
  {
    var i := 0;
    while i < Bloom.MaxPyramidSize
      invariant 0 <= i <= Bloom.MaxPyramidSize
      invariant handles.nextSerial == s + 2 + 2 * i
      invariant handles.events == e + ConstructorEvents(s, 2 + 2 * i)
      invariant forall j :: 0 <= j < i ==>
        down[j] == Allocated(Indexed("_BloomMipDown", j), s + 2 + 2 * j) &&
        up[j] == Allocated(Indexed("_BloomMipUp", j), s + 3 + 2 * j)
    {
      var d := handles.Alloc(Indexed("_BloomMipDown", i));
      down[i] := d;
      var u := handles.Alloc(Indexed("_BloomMipUp", i));
      up[i] := u;
      ConstructorEventsStep(s, 2 + 2 * i);
      i := i + 1;
    }
  }

  /** The constructor allocates two temporaries and 16 down / up pairs. */
  const ConstructorAllocations: nat := 2 + 2 * Bloom.MaxPyramidSize

  /** The name of the constructor's k-th allocation. */
  function ConstructorName(k: nat): (n: HandleName)
  {
    if k == 0 then Named("_TempTarget")
    else if k == 1 then Named("_TempTarget2")
    else if k % 2 == 0 then Indexed("_BloomMipDown", (k - 2) / 2)
    else Indexed("_BloomMipUp", (k - 2) / 2)
  }

  /** The first `count` allocations of the constructor, starting at serial `s`. */
  function ConstructorEvents(s: nat, count: nat): (es: seq<ResourceEvent>)
  {
    seq(count, k requires 0 <= k < count => Allocation(Allocated(ConstructorName(k), s + k)))
  }

  /** One iteration of the constructor's loop adds the down and up allocation of level i. */
  lemma ConstructorEventsStep(s: nat, k: nat)
    requires k >= 2 && k % 2 == 0
    ensures ConstructorEvents(s, k + 2) ==
      ConstructorEvents(s, k) + [Allocation(Allocated(Indexed("_BloomMipDown", (k - 2) / 2), s + k)),
                                 Allocation(Allocated(Indexed("_BloomMipUp", (k - 2) / 2), s + k + 1))]
  {
    assert ConstructorName(k + 1) == Indexed("_BloomMipUp", (k - 2) / 2);
  }

  // ---------------------------------------------------------------- on tile and cleanup

  /** CanRunOnTile: no effect is checked; the pass never runs on tile. */
  function CanRunOnTile(): (r: bool)
  {
    false
  }

  /** One release per handle, in order. */
  function Releases(hs: seq<Handle>): (es: seq<ResourceEvent>)
  {
    seq(|hs|, (i: int) requires 0 <= i < |hs| => Freed(hs[i]))
  }

  /** `slot?.Release()`: a release when the slot holds a handle, nothing otherwise. */
  function ReleaseOf(slot: Option<Handle>): (es: seq<ResourceEvent>)
  {
    if slot.Some? then [Freed(slot.value)] else []
  }

  /** The releases of `?.Release()` on each slot in turn. */
  function PresentReleases(slots: seq<Option<Handle>>): (es: seq<ResourceEvent>)
    decreases |slots|
  {
    if slots == [] then [] else PresentReleases(slots[..|slots| - 1]) + ReleaseOf(slots[|slots| - 1])
  }

  /** Cleanup's releases in order: the two temporaries, the down levels, the
      up levels, then the depth-of-field slots that hold a handle. */
  function CleanupReleases(t1: Handle, t2: Handle, down: seq<Handle>, up: seq<Handle>, slots: seq<Option<Handle>>)
    : (es: seq<ResourceEvent>)
  {
    [Freed(t1), Freed(t2)] + Releases(down) + Releases(up) + PresentReleases(slots)
  }

  /** The slot releases are releases only, exactly of the handles the slots hold. */
  lemma {:induction false} PresentReleasesExactly(slots: seq<Option<Handle>>, e: ResourceEvent)
    ensures e in PresentReleases(slots) <==> e.Freed? && Some(e.h) in slots
    decreases |slots|
  {
    if slots != [] {
      var init := slots[..|slots| - 1];
      PresentReleasesExactly(init, e);
      assert slots == init + [slots[|slots| - 1]];
    }
  }

  /** Cleanup releases exactly the pass's handles: the temporaries, every
      bloom level and every depth-of-field handle held; it allocates nothing. */
  lemma CleanupReleasesExactly(t1: Handle, t2: Handle, down: seq<Handle>, up: seq<Handle>, slots: seq<Option<Handle>>,
                               e: ResourceEvent)
    ensures e in CleanupReleases(t1, t2, down, up, slots) <==>
      e.Freed? && (e.h == t1 || e.h == t2 || e.h in down || e.h in up || Some(e.h) in slots)
  {
    PresentReleasesExactly(slots, e);
    var es := CleanupReleases(t1, t2, down, up, slots);
    if e.Freed? && e.h in down {
      var i :| 0 <= i < |down| && down[i] == e.h;
      assert Releases(down)[i] == e;
    }
    if e.Freed? && e.h in up {
      var i :| 0 <= i < |up| && up[i] == e.h;
      assert Releases(up)[i] == e;
    }
  }

  /** Every handle the constructor allocates is released by a later Cleanup,
      whatever the depth-of-field slots hold by then. */
  lemma ConstructorHandlesReleased(s: nat, slots: seq<Option<Handle>>, k: nat)
    requires k < ConstructorAllocations
    ensures var e := ConstructorEvents(s, ConstructorAllocations)[k];
      Freed(e.h) in CleanupReleases(Allocated(Named("_TempTarget"), s), Allocated(Named("_TempTarget2"), s + 1),
                                    PyramidLevels("_BloomMipDown", s + 2), PyramidLevels("_BloomMipUp", s + 3), slots)
  {
    var t1, t2 := Allocated(Named("_TempTarget"), s), Allocated(Named("_TempTarget2"), s + 1);
    var down, up := PyramidLevels("_BloomMipDown", s + 2), PyramidLevels("_BloomMipUp", s + 3);
    var h := ConstructorEvents(s, ConstructorAllocations)[k].h;
    if k >= 2 {
      var i := (k - 2) / 2;
      if k % 2 == 0 {
        assert down[i] == h;
      } else {
        assert up[i] == h;
      }
    }
    CleanupReleasesExactly(t1, t2, down, up, slots, Freed(h));
  }

  /** Regrouping Cleanup's log. */
  lemma CleanupAssoc(start: seq<ResourceEvent>, t1: Handle, t2: Handle, down: seq<Handle>, up: seq<Handle>,
                     slots: seq<Option<Handle>>)
    ensures start + [Freed(t1), Freed(t2)] + Releases(down) + Releases(up) + PresentReleases(slots) ==
      start + CleanupReleases(t1, t2, down, up, slots)
  {
  }

  /** `foreach (var handle in hs) handle.Release();` */
  method ReleaseAll(handles: RTHandleSystem, hs: array<Handle>)
    modifies handles
    ensures handles.nextSerial == old(handles.nextSerial)
    ensures handles.events == old(handles.events) + Releases(hs[..])
  {
    for i := 0 to hs.Length
      invariant handles.nextSerial == old(handles.nextSerial)
      invariant handles.events == old(handles.events) + Releases(hs[..i])
    {
      handles.Release(hs[i]);
      assert Releases(hs[..i + 1]) == Releases(hs[..i]) + [Freed(hs[i])];
    }
    assert hs[..hs.Length] == hs[..];
  }

  /** The temporaries, then each down level, then each up level. */
  method ReleaseTargets(handles: RTHandleSystem, t1: Handle, t2: Handle, down: array<Handle>, up: array<Handle>)
    modifies handles
    ensures handles.nextSerial == old(handles.nextSerial)
    ensures handles.events == old(handles.events) + [Freed(t1), Freed(t2)] + Releases(down[..]) + Releases(up[..])
  {
    handles.Release(t1);
    handles.Release(t2);
    ReleaseAll(handles, down);
    ReleaseAll(handles, up);
  }

  /** `slot?.Release()` on the seven depth-of-field slots, one statement each, in declaration order. */
  method ReleaseSlots(handles: RTHandleSystem, slots: seq<Option<Handle>>)
    requires |slots| == 7
    modifies handles
    ensures handles.nextSerial == old(handles.nextSerial)
    ensures handles.events == old(handles.events) + PresentReleases(slots)
  {
    assert slots[..0] == [];
    ReleaseSlot(handles, slots, 0, old(handles.events));
    ReleaseSlot(handles, slots, 1, old(handles.events));
    ReleaseSlot(handles, slots, 2, old(handles.events));
    ReleaseSlot(handles, slots, 3, old(handles.events));
    ReleaseSlot(handles, slots, 4, old(handles.events));
    ReleaseSlot(handles, slots, 5, old(handles.events));
    ReleaseSlot(handles, slots, 6, old(handles.events));
    assert slots[..7] == slots;
  }

  /** `slots[k]?.Release()`, after the slots before it. */
  method ReleaseSlot(handles: RTHandleSystem, slots: seq<Option<Handle>>, k: nat, ghost base: seq<ResourceEvent>)
    requires k < |slots| && handles.events == base + PresentReleases(slots[..k])
    modifies handles
    ensures handles.nextSerial == old(handles.nextSerial)
    ensures handles.events == base + PresentReleases(slots[..k + 1])
  {
    ReleaseIfPresent(handles, slots[k]);
    PresentReleasesPrefix(slots, k);
  }

  /** `slot?.Release()`. */
  method ReleaseIfPresent(handles: RTHandleSystem, slot: Option<Handle>)
    modifies handles
    ensures handles.nextSerial == old(handles.nextSerial)
    ensures handles.events == old(handles.events) + ReleaseOf(slot)
  {
    if slot.Some? {
      handles.Release(slot.value);
    }
  }

  /** Releasing one more slot appends its release. */
  lemma PresentReleasesPrefix(slots: seq<Option<Handle>>, k: nat)
    requires k < |slots|
    ensures PresentReleases(slots[..k + 1]) == PresentReleases(slots[..k]) + ReleaseOf(slots[k])
  {
    assert slots[..k + 1][..k] == slots[..k];
  }
}
