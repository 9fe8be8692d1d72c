/** Opaque engine values shared by the post-processing model.

    Render-texture handles, matrices and descriptors are compared only for
    equality. Every engine call the pass makes while rendering (blits, draws,
    texture bindings, temporary render textures, the renderer's colour-buffer
    swap) is appended, in the order it is issued, to a `CommandLog`. */
module Engine {

  datatype Option<+T> = None | Some(value: T)

  /** The name a handle was allocated under ("_BloomMipDown3" is `Indexed("_BloomMipDown", 3)`). */
  datatype HandleName = Named(text: string) | Indexed(prefix: string, index: nat)

  /** Shader-property ids used for `GetTemporaryRT` textures. */
  datatype TemporaryId = EdgeTexture | BlendTexture

  /** A render-texture handle. */
  datatype Handle =
    | CameraTarget                              // BuiltinRenderTextureType.CameraTarget
    | NullTexture                               // an identifier made from a null texture
    | External(id: nat)                         // owned by the renderer: colour buffers, depth, LUT
    | Allocated(name: HandleName, serial: nat)  // the serial-th result of RTHandles.Alloc
    | Temporary(tid: TemporaryId)               // a temporary render texture

  /** An opaque 4x4 matrix. */
  datatype Matrix = Matrix(id: int)

  datatype GraphicsFormat =
    | B10G11R11_UFloatPack32 | R8G8B8A8_SRGB | R8G8B8A8_UNorm | R8G8_UNorm
    | R16_UNorm | R16_SFloat | R8_UNorm | R16G16B16A16_SFloat
    | OtherFormat(id: nat)

  /** The fields of a RenderTextureDescriptor the pass reads or writes;
      `rest` stands for every field it only copies. */
  datatype Descriptor = Descriptor(
    width: nat, height: nat, graphicsFormat: GraphicsFormat,
    depthBufferBits: nat, msaaSamples: nat,
    useMipMap: bool, autoGenerateMips: bool,
    dimension: nat, memoryless: nat, rest: int)

  datatype Keyword =
    | BloomLQ | BloomHQ | BloomLQDirt | BloomHQDirt
    | Distortion | ChromaticAberration
    | HDRGrading | TonemapNeutral | TonemapACES
    | FilmGrain | Dithering
    | LinearToSRGBConversion | UseFastSRGBLinearConversion
    | Fxaa | SmaaLow | SmaaMedium | SmaaHigh
    | HighQualitySampling | UseRGBM
    | PaniniGeneric | PaniniUnitDistance

  /** The nine materials of the pass's material library. */
  datatype MaterialKind =
    | StopNaNMaterial | SmaaMaterial | GaussianDofMaterial | BokehDofMaterial
    | MotionBlurMaterial | PaniniMaterial | BloomMaterial | UberMaterial | FinalPassMaterial

  /** Global texture slots whose binding outlives the draw that follows it. */
  datatype TextureSlot = BloomTextureSlot

  /** One recorded engine call. `Draw` is any blit or full-screen draw: the
      textures it samples (the blit source and the textures bound just before
      it) and the surfaces it renders into. */
  datatype Command =
    | Draw(material: MaterialKind, pass: nat, inputs: seq<Handle>, targets: seq<Handle>)
    | BindTexture(slot: TextureSlot, texture: Handle)
    | BindBokehKernel
    | GetTemporaryRT(tid: TemporaryId, desc: Descriptor)
    | ReleaseTemporaryRT(tid: TemporaryId)
    | ColorBufferSwap

  /** The ordered record of engine calls made while rendering. */
  class CommandLog {
    var events: seq<Command>

    constructor ()
      ensures events == []
    {
      events := [];
    }

    method Add(c: Command)
      modifies this
      ensures events == old(events) + [c]
    {
      events := events + [c];
    }

    method AddAll(cs: seq<Command>)
      modifies this
      ensures events == old(events) + cs
    {
      events := events + cs;
    }
  }

  datatype ResourceEvent = Allocation(h: Handle) | Freed(h: Handle)

  /** The RTHandles allocator: every allocation yields a handle with a fresh serial. */
  class RTHandleSystem {
    var nextSerial: nat
    var events: seq<ResourceEvent>

    constructor ()
      ensures nextSerial == 0 && events == []
    {
      nextSerial := 0;
      events := [];
    }

    method Alloc(name: HandleName) returns (h: Handle)
      modifies this
      ensures h == Allocated(name, old(nextSerial))
      ensures nextSerial == old(nextSerial) + 1
      ensures events == old(events) + [Allocation(h)]
    {
      h := Allocated(name, nextSerial);
      nextSerial := nextSerial + 1;
      events := events + [Allocation(h)];
    }

    method Release(h: Handle)
      modifies this
      ensures nextSerial == old(nextSerial)
      ensures events == old(events) + [Freed(h)]
    {
      events := events + [Freed(h)];
    }
  }

  /** The renderer's pair of camera colour buffers. */
  class Renderer {
    var cameraColorTarget: Handle
    var cameraColorFrontBuffer: Handle

    ghost predicate Valid()
      reads this
    {
      cameraColorTarget != cameraColorFrontBuffer
    }

    constructor (a: Handle, b: Handle)
      requires a != b
      ensures Valid() && cameraColorTarget == a && cameraColorFrontBuffer == b
    {
      cameraColorTarget, cameraColorFrontBuffer := a, b;
    }

    /** Exchanges the two colour buffers. */
    method SwapColorBuffer()
      requires Valid()
      modifies this
      ensures Valid()
      ensures cameraColorTarget == old(cameraColorFrontBuffer)
      ensures cameraColorFrontBuffer == old(cameraColorTarget)
    {
      cameraColorTarget, cameraColorFrontBuffer := cameraColorFrontBuffer, cameraColorTarget;
    }
  }
}
