/** What one frame hands to the post-processing pass: the camera data, the
    effect settings of the volume stack (reduced to what the pass's control
    logic reads) and the post-processing data of the renderer. */
module Settings {
  import opened Engine

  datatype AntialiasingMode = NoAntialiasing | FastApproximateAntialiasing | SubpixelMorphologicalAntiAliasing
  datatype AntialiasingQuality = LowQuality | MediumQuality | HighQuality
  datatype DepthOfFieldMode = DepthOfFieldOff | Gaussian | Bokeh
  datatype TonemappingMode = NoTonemapping | Neutral | ACES

  /** The bokeh aperture shape (blade count, curvature, rotation); the kernel is a function of it. */
  datatype BladeShape = BladeShape(bladeCount: real, curvature: real, rotation: real)

  datatype CameraData = CameraData(
    isStopNaNEnabled: bool,
    antialiasing: AntialiasingMode,
    antialiasingQuality: AntialiasingQuality,
    isSceneViewCamera: bool,
    requireSrgbConversion: bool,
    isDitheringEnabled: bool,
    hasOwnTargetTexture: bool,       // camera.targetTexture != null
    targetTexture: Option<Handle>,   // cameraData.targetTexture, the camera stack's; None when null
    viewProj: Matrix)                // projection * view

  /** The volume-stack components, by their IsActive() and the fields the pass branches on. */
  datatype VolumeStack = VolumeStack(
    depthOfFieldActive: bool,
    depthOfFieldMode: DepthOfFieldMode,
    gaussianHighQualitySampling: bool,
    depthOfFieldHash: int,
    blade: BladeShape,
    motionBlurActive: bool,
    motionBlurQuality: nat,
    paniniActive: bool,
    paniniGeneric: bool,             // the outcome of the distance epsilon test
    bloomActive: bool,
    bloomHighQualityFiltering: bool,
    bloomDirtIntensityPositive: bool,
    bloomSkipIterations: int,
    lensDistortionActive: bool,
    chromaticAberrationActive: bool,
    tonemapping: TonemappingMode,
    filmGrainActive: bool)

  datatype Frame = Frame(
    camera: CameraData,
    volume: VolumeStack,
    hdrGrading: bool,                // gradingMode == HighDynamicRange
    useFastSRGBLinearConversion: bool,
    isOpenGLES2: bool)               // SystemInfo.graphicsDeviceType
}
