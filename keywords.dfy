/** The shader-keyword rules. The uber and final-pass materials have their
    keyword sets cleared and then filled by guarded rules; SMAA's quality
    keywords are chosen the same way. The other materials only switch single
    keywords on or off, or (Panini) add one and never clear. */
module Keywords {
  import opened Engine
  import opened Settings

  const BloomVariants: set<Keyword> := {BloomLQ, BloomHQ, BloomLQDirt, BloomHQDirt}
  const TonemapKeywords: set<Keyword> := {TonemapNeutral, TonemapACES}
  const SmaaQualityKeywords: set<Keyword> := {SmaaLow, SmaaMedium, SmaaHigh}

  /** The one bloom variant the uber shader compiles for the filtering quality and lens dirt. */
  function BloomKeyword(highQuality: bool, dirtIntensityPositive: bool): (k: Keyword)
    ensures k in BloomVariants
    ensures (k == BloomHQ || k == BloomHQDirt) <==> highQuality
    ensures (k == BloomHQDirt || k == BloomLQDirt) <==> dirtIntensityPositive
  {
    if highQuality then (if dirtIntensityPositive then BloomHQDirt else BloomHQ)
    else (if dirtIntensityPositive then BloomLQDirt else BloomLQ)
  }

  /** SetupColorGrading: HDR grading, or the tonemapper's keyword, or nothing. */
  function GradingKeywords(hdrGrading: bool, tonemapping: TonemappingMode): (r: set<Keyword>)
    ensures HDRGrading in r <==> hdrGrading
    ensures hdrGrading ==> r == {HDRGrading}
    ensures r <= {HDRGrading, TonemapNeutral, TonemapACES}
    ensures TonemapNeutral in r <==> !hdrGrading && tonemapping == Neutral
    ensures TonemapACES in r <==> !hdrGrading && tonemapping == ACES
  {
    if hdrGrading then {HDRGrading}
    else match tonemapping
      case Neutral => {TonemapNeutral}
      case ACES => {TonemapACES}
      case NoTonemapping => {}
  }

  /** Keywords the uber pass can hold. */
  const UberVocabulary: set<Keyword> :=
    {BloomLQ, BloomHQ, BloomLQDirt, BloomHQDirt, Distortion, ChromaticAberration, HDRGrading,
     TonemapNeutral, TonemapACES, FilmGrain, Dithering, LinearToSRGBConversion, UseFastSRGBLinearConversion}

  /** Whether the uber rules enable keyword `k`. */
  predicate UberRule(f: Frame, hasFinalPass: bool, srgbConversion: bool, k: Keyword) {
    var v := f.volume;
    match k
    case BloomLQ => v.bloomActive && !v.bloomHighQualityFiltering && !v.bloomDirtIntensityPositive
    case BloomLQDirt => v.bloomActive && !v.bloomHighQualityFiltering && v.bloomDirtIntensityPositive
    case BloomHQ => v.bloomActive && v.bloomHighQualityFiltering && !v.bloomDirtIntensityPositive
    case BloomHQDirt => v.bloomActive && v.bloomHighQualityFiltering && v.bloomDirtIntensityPositive
    case Distortion => v.lensDistortionActive && !f.camera.isSceneViewCamera
    case ChromaticAberration => v.chromaticAberrationActive
    case HDRGrading => f.hdrGrading
    case TonemapNeutral => !f.hdrGrading && v.tonemapping == Neutral
    case TonemapACES => !f.hdrGrading && v.tonemapping == ACES
    case FilmGrain => !hasFinalPass && v.filmGrainActive
    case Dithering => !hasFinalPass && f.camera.isDitheringEnabled
    case LinearToSRGBConversion => srgbConversion
    case UseFastSRGBLinearConversion => f.useFastSRGBLinearConversion
    case _ => false
  }

  /** The uber material's keyword set after it has been cleared and every rule has run. */
  function UberKeywords(f: Frame, hasFinalPass: bool, srgbConversion: bool): (r: set<Keyword>)
    ensures r <= UberVocabulary
    ensures forall k :: k in BloomVariants ==>
      (k in r <==>
        f.volume.bloomActive && k == BloomKeyword(f.volume.bloomHighQualityFiltering, f.volume.bloomDirtIntensityPositive))
  {
    set k | k in UberVocabulary && UberRule(f, hasFinalPass, srgbConversion, k)
  }

  /** The camera-effect keywords of the uber set: lens distortion (never in the
      scene view), chromatic aberration, and grain and dithering only when no
      final pass applies them instead. */
  lemma UberEffectKeywords(f: Frame, hasFinalPass: bool, srgbConversion: bool)
    ensures var r := UberKeywords(f, hasFinalPass, srgbConversion);
      (Distortion in r <==> f.volume.lensDistortionActive && !f.camera.isSceneViewCamera) &&
      (ChromaticAberration in r <==> f.volume.chromaticAberrationActive) &&
      (FilmGrain in r <==> !hasFinalPass && f.volume.filmGrainActive) &&
      (Dithering in r <==> !hasFinalPass && f.camera.isDitheringEnabled)
  {
  }

  /** The output keywords of the uber set: HDR grading or at most one tonemapper,
      the sRGB conversion and the fast sRGB approximation. */
  lemma UberOutputKeywords(f: Frame, hasFinalPass: bool, srgbConversion: bool)
    ensures var r := UberKeywords(f, hasFinalPass, srgbConversion);
      (HDRGrading in r <==> f.hdrGrading) &&
      (TonemapNeutral in r <==> !f.hdrGrading && f.volume.tonemapping == Neutral) &&
      (TonemapACES in r <==> !f.hdrGrading && f.volume.tonemapping == ACES) &&
      (LinearToSRGBConversion in r <==> srgbConversion) &&
      (UseFastSRGBLinearConversion in r <==> f.useFastSRGBLinearConversion)
  {
  }

  /** Render fills the cleared uber set rule by rule: bloom variant, lens
      distortion, chromatic aberration, grading, grain, dithering, sRGB
      conversion, fast sRGB. The result is the set the uber rules describe. */
  lemma UberRulesInOrder(f: Frame, hasFinalPass: bool, srgbConversion: bool)
    ensures UberSteps(f, hasFinalPass, srgbConversion) == UberKeywords(f, hasFinalPass, srgbConversion)
  {
    var s := UberSteps(f, hasFinalPass, srgbConversion);
    var u := UberKeywords(f, hasFinalPass, srgbConversion);
    forall k | k in s ensures k in u {
      UberStepRule(f, hasFinalPass, srgbConversion, k);
    }
    forall k | k in u ensures k in s {
      UberStepRule(f, hasFinalPass, srgbConversion, k);
    }
  }

  /** A keyword is in Render's uber set exactly when its rule enables it. */
  lemma UberStepRule(f: Frame, hasFinalPass: bool, srgbConversion: bool, k: Keyword)
    ensures k in UberSteps(f, hasFinalPass, srgbConversion) <==> k in UberVocabulary && UberRule(f, hasFinalPass, srgbConversion, k)
  {
  }

  /** The keyword set after each EnableKeyword call of Render, in order. */
  function UberSteps(f: Frame, hasFinalPass: bool, srgbConversion: bool): (r: set<Keyword>)
  {
    var v := f.volume;
    var bloom := if v.bloomActive then {BloomKeyword(v.bloomHighQualityFiltering, v.bloomDirtIntensityPositive)} else {};
    UberTail(bloom, f, hasFinalPass, srgbConversion)
  }

  /** The uber rules that follow bloom, applied in Render's order to `ks`. */
  function UberTail(ks: set<Keyword>, f: Frame, hasFinalPass: bool, srgbConversion: bool): (r: set<Keyword>)
  {
    UberOutputs(UberEffects(ks, f), f, hasFinalPass, srgbConversion)
  }

  /** Lens distortion, chromatic aberration and grading, in that order. */
  function UberEffects(ks: set<Keyword>, f: Frame): (r: set<Keyword>)
  {
    var v := f.volume;
    var distortion := EnableIf(ks, v.lensDistortionActive && !f.camera.isSceneViewCamera, Distortion);
    var chroma := EnableIf(distortion, v.chromaticAberrationActive, ChromaticAberration);
    chroma + GradingKeywords(f.hdrGrading, v.tonemapping)
  }

  /** Grain, dithering, sRGB conversion and the fast sRGB approximation, in that order. */
  function UberOutputs(ks: set<Keyword>, f: Frame, hasFinalPass: bool, srgbConversion: bool): (r: set<Keyword>)
  {
    var grain := EnableIf(ks, !hasFinalPass && f.volume.filmGrainActive, FilmGrain);
    var dithering := EnableIf(grain, !hasFinalPass && f.camera.isDitheringEnabled, Dithering);
    var srgb := EnableIf(dithering, srgbConversion, LinearToSRGBConversion);
    EnableIf(srgb, f.useFastSRGBLinearConversion, UseFastSRGBLinearConversion)
  }

  /** The keyword set after each EnableKeyword call of RenderFinalPass, in order. */
  function FinalPassSteps(f: Frame, hasFinalPass: bool, srgbConversion: bool): (r: set<Keyword>)
  {
    var fxaa := EnableIf({}, f.camera.antialiasing == FastApproximateAntialiasing, Fxaa);
    var grain := EnableIf(fxaa, !hasFinalPass && f.volume.filmGrainActive, FilmGrain);
    var dithering := EnableIf(grain, !hasFinalPass && f.camera.isDitheringEnabled, Dithering);
    EnableIf(dithering, srgbConversion, LinearToSRGBConversion)
  }

  /** RenderFinalPass fills the cleared set rule by rule; the result is the set the final-pass rules describe. */
  lemma FinalPassRulesInOrder(f: Frame, hasFinalPass: bool, srgbConversion: bool)
    ensures FinalPassSteps(f, hasFinalPass, srgbConversion) == FinalPassKeywords(f, hasFinalPass, srgbConversion)
  {
  }

  /** EnableKeyword under a guard: add `k` when `on`, otherwise leave the set alone. */
  function EnableIf(ks: set<Keyword>, on: bool, k: Keyword): (r: set<Keyword>)
  {
    if on then ks + {k} else ks
  }

  /** When bloom is active the uber shader gets exactly one bloom variant, otherwise none. */
  lemma UberBloomVariantUnique(f: Frame, hasFinalPass: bool, srgbConversion: bool)
    ensures var r := UberKeywords(f, hasFinalPass, srgbConversion);
      if f.volume.bloomActive then
        r * BloomVariants == {BloomKeyword(f.volume.bloomHighQualityFiltering, f.volume.bloomDirtIntensityPositive)}
      else r * BloomVariants == {}
  {
    var r := UberKeywords(f, hasFinalPass, srgbConversion);
    var b := BloomKeyword(f.volume.bloomHighQualityFiltering, f.volume.bloomDirtIntensityPositive);
    if f.volume.bloomActive {
      assert b in r * BloomVariants;
      forall k | k in r * BloomVariants ensures k == b { }
    } else {
      forall k | k in r * BloomVariants ensures false { }
    }
  }

  /** HDR grading excludes every tonemapper keyword, and at most one tonemapper is compiled in. */
  lemma UberTonemapExclusive(f: Frame, hasFinalPass: bool, srgbConversion: bool)
    ensures var r := UberKeywords(f, hasFinalPass, srgbConversion);
      (HDRGrading in r ==> r * TonemapKeywords == {}) &&
      (r * TonemapKeywords == {} || r * TonemapKeywords == {TonemapNeutral} || r * TonemapKeywords == {TonemapACES})
  {
    var r := UberKeywords(f, hasFinalPass, srgbConversion);
    if f.hdrGrading || f.volume.tonemapping == NoTonemapping {
      forall k | k in r * TonemapKeywords ensures false { }
    } else if f.volume.tonemapping == Neutral {
      assert r * TonemapKeywords == {TonemapNeutral};
    } else {
      assert r * TonemapKeywords == {TonemapACES};
    }
  }

  /** Keywords the final pass can hold. */
  const FinalVocabulary: set<Keyword> := {Fxaa, FilmGrain, Dithering, LinearToSRGBConversion}

  /** The final-pass material's keyword set after it has been cleared and every rule has run. */
  function FinalPassKeywords(f: Frame, hasFinalPass: bool, srgbConversion: bool): (r: set<Keyword>)
    ensures r <= FinalVocabulary
    ensures Fxaa in r <==> f.camera.antialiasing == FastApproximateAntialiasing
    ensures FilmGrain in r <==> !hasFinalPass && f.volume.filmGrainActive
    ensures Dithering in r <==> !hasFinalPass && f.camera.isDitheringEnabled
    ensures LinearToSRGBConversion in r <==> srgbConversion
  {
    (if f.camera.antialiasing == FastApproximateAntialiasing then {Fxaa} else {}) +
    (if !hasFinalPass && f.volume.filmGrainActive then {FilmGrain} else {}) +
    (if !hasFinalPass && f.camera.isDitheringEnabled then {Dithering} else {}) +
    (if srgbConversion then {LinearToSRGBConversion} else {})
  }

  /** The SMAA material after its keywords are cleared: exactly one quality preset. */
  function SmaaKeywords(q: AntialiasingQuality): (r: set<Keyword>)
    ensures |r| == 1 && r <= SmaaQualityKeywords
    ensures SmaaLow in r <==> q == LowQuality
    ensures SmaaMedium in r <==> q == MediumQuality
    ensures SmaaHigh in r <==> q == HighQuality
  {
    match q
    case LowQuality => {SmaaLow}
    case MediumQuality => {SmaaMedium}
    case HighQuality => {SmaaHigh}
  }

  /** CoreUtils.SetKeyword: switch one keyword on or off and leave the others. */
  function SetKeyword(ks: set<Keyword>, k: Keyword, on: bool): (r: set<Keyword>)
    ensures k in r <==> on
    ensures r - {k} == ks - {k}
  {
    if on then ks + {k} else ks - {k}
  }

  /** The Panini keyword the distance test selects; it is enabled without clearing the other. */
  function PaniniKeyword(generic: bool): (k: Keyword)
    ensures k in {PaniniGeneric, PaniniUnitDistance}
    ensures k == PaniniGeneric <==> generic
  {
    if generic then PaniniGeneric else PaniniUnitDistance
  }
}
