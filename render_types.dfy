/** Handles, init parameters and the small value types that the public
    render-world interface (IRenderWorld.hpp) passes around. */
module RenderTypes {

  /** `unsigned int` / `uint32_t` of the source. */
  newtype u32 = x: int | 0 <= x < 0x1_0000_0000

  /** Entity and model handles share one type and one sentinel: `~0` of an
      unsigned int, the all-ones (largest) 32-bit value. */
  type Handle = u32
  const RenderHandleInvalid: Handle := 0xFFFF_FFFF

  /** Wraps an unbounded count to 32 bits, as an assignment to a `uint32_t` does. */
  function ToU32(n: int): (r: u32)
    ensures 0 <= n < 0x1_0000_0000 ==> r as int == n
    ensures (r as int - n) % 0x1_0000_0000 == 0
  {
    (n % 0x1_0000_0000) as u32
  }

  /** Every handle other than the sentinel is strictly below it, so a handle
      that is a valid index of any table smaller than 2^32 - 1 is never
      mistaken for the sentinel. */
  lemma InvalidIsMaximum(h: Handle)
    ensures h <= RenderHandleInvalid
    ensures h != RenderHandleInvalid ==> h < RenderHandleInvalid
  {
  }

  /** The renderer backends an application may ask for. Only OpenGL 4.5 is
      implemented by the repository. */
  datatype RendererBackend =
    | OpenGL21 | OpenGL33 | OpenGL45
    | Vulkan
    | Direct3D9 | Direct3D11
    | SoftwareGeneric

  const OpenGLRange: nat := 0
  const VulkanRange: nat := 100
  const Direct3DRange: nat := 200
  const SoftwareRange: nat := 400

  /** The numeric value of each enumerator: each family starts at its range
      constant and the following enumerators count up from it. */
  function BackendValue(b: RendererBackend): (v: nat)
    ensures b.OpenGL21? || b.OpenGL33? || b.OpenGL45? <==> OpenGLRange <= v < VulkanRange
    ensures b.Vulkan? <==> VulkanRange <= v < Direct3DRange
    ensures b.Direct3D9? || b.Direct3D11? <==> Direct3DRange <= v < SoftwareRange
    ensures b.SoftwareGeneric? <==> SoftwareRange <= v
  {
    match b
    case OpenGL21 => OpenGLRange
    case OpenGL33 => OpenGLRange + 1
    case OpenGL45 => OpenGLRange + 2
    case Vulkan => VulkanRange
    case Direct3D9 => Direct3DRange
    case Direct3D11 => Direct3DRange + 1
    case SoftwareGeneric => SoftwareRange
  }

  /** Distinct enumerators have distinct values. */
  lemma BackendValueInjective(a: RendererBackend, b: RendererBackend)
    ensures BackendValue(a) == BackendValue(b) ==> a == b
  {
  }

  datatype WindowingFramework = SDL2 | GLFW | Custom

  function WindowingValue(w: WindowingFramework): nat
  {
    match w
    case SDL2 => 0
    case GLFW => 1
    case Custom => 2
  }

  /** The native context is an opaque pointer; the model keeps only whether it is null. */
  datatype RenderInitParams = RenderInitParams(
    windowWidth: int,
    windowHeight: int,
    renderBackend: RendererBackend,
    windowingFramework: WindowingFramework,
    hasContext: bool)

  /** Field initialisers of RenderInitParams. */
  function DefaultInitParams(): (p: RenderInitParams)
    ensures p.windowWidth == 1280 && p.windowHeight == 720
    ensures BackendValue(p.renderBackend) == 2
    ensures WindowingValue(p.windowingFramework) == 0
    ensures !p.hasContext
  {
    RenderInitParams(1280, 720, OpenGL45, SDL2, false)
  }

  /** Floating-point vectors and matrices are kept as uninterpreted reals. */
  datatype Vec3 = Vec3(x: real, y: real, z: real)
  datatype Vec2 = Vec2(x: real, y: real)
  type Mat4 = seq<real>

  /** What an entity is drawn with: a model handle and a placement (the
      fields the renderer reads; RenderEntityParams.hpp is not part of this model). */
  datatype RenderEntityParams = RenderEntityParams(model: Handle, position: Vec3, orientation: Mat4)

  /** What a model is created from: its file path. */
  datatype RenderModelParams = RenderModelParams(modelPath: string)

  /** A camera and viewport, replaced wholesale every frame (the fields the
      backend reads; RenderView.hpp is not part of this model). */
  datatype RenderView = RenderView(
    viewportWidth: int,
    viewportHeight: int,
    cameraPosition: Vec3,
    cameraOrientation: Mat4,
    cameraFov: real)
}
