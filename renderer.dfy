/** The OpenGL 4.5 render backend (Renderer.hpp/.cpp): one vertex buffer
    and one group of vertex arrays per created model, the current render
    view, the default shader and the per-frame draw-call counter. The GL
    state changes themselves (depth test, clear colour, uniform uploads,
    matrix set-up) are not modelled. */
module Renderers {
  import opened Options
  import opened RenderTypes
  import opened Geometry
  import opened Textures
  import opened Shaders
  import opened VertexBuffers
  import TF = TextureFlags
  import opened ShaderText

  /** The path InitDefaultShader loads. */
  const DefaultShaderPath: string := "shaders/default.glsl"

  /** A draw the backend issues: `glDrawElements` with an index count, or
      `glDrawElementsInstanced` with an index count and an instance count. */
  datatype DrawCommand = Elements(indexCount: nat) | Instanced(indexCount: nat, instances: u32)

  /** A surface drawn through RenderSurface: the entity's model handle and
      the surface index. */
  datatype SurfaceDraw = SurfaceDraw(model: Handle, surface: nat)

  /** The draw PerformDrawCall issues for a vertex array of `indexCount`
      indices: without batch parameters a plain draw, with them an
      instanced draw when the batch size is positive and nothing otherwise. */
  function DrawFor(indexCount: nat, batchSize: Option<u32>): Option<DrawCommand>
  {
    match batchSize
    case None => Some(Elements(indexCount))
    case Some(n) => if n > 0 then Some(Instanced(indexCount, n)) else None
  }

  /** A draw is issued exactly when there is no batch or a non-empty one,
      it always draws all the array's indices, and an instanced draw draws
      the batch size of instances. */
  lemma DrawForMeaning(indexCount: nat, batchSize: Option<u32>)
    ensures DrawFor(indexCount, batchSize).Some? <==> batchSize.None? || batchSize.value > 0
    ensures DrawFor(indexCount, batchSize).Some? ==> DrawFor(indexCount, batchSize).value.indexCount == indexCount
    ensures DrawFor(indexCount, batchSize).Some? ==>
      (DrawFor(indexCount, batchSize).value.Instanced? <==> batchSize.Some?)
    ensures DrawFor(indexCount, batchSize).Some? && batchSize.Some? ==>
      DrawFor(indexCount, batchSize).value.instances == batchSize.value
  {
  }

  /** Incrementing a 32-bit counter that holds n wrapped gives n + 1
      wrapped: `numDrawCalls` after k draws since BeginFrame is k modulo 2^32. */
  lemma CounterStep(n: int)
    ensures ToU32(ToU32(n) as int + 1) == ToU32(n + 1)
  {
    var q := n / 0x1_0000_0000;
    var r := n % 0x1_0000_0000;
    assert n == q * 0x1_0000_0000 + r;
    if r + 1 < 0x1_0000_0000 {
      assert (n + 1) % 0x1_0000_0000 == r + 1;
    } else {
      assert n + 1 == (q + 1) * 0x1_0000_0000;
      assert (n + 1) % 0x1_0000_0000 == 0;
    }
  }

  /** The vertex arrays CreateModel builds for a mesh's surfaces over one
      vertex buffer, one per surface, in order. */
  method BuildGroup(vb: VertexBuffer, surfaces: seq<DrawSurface>) returns (group: seq<VertexArray>)
    ensures |group| == |surfaces|
    ensures forall i :: 0 <= i < |group| ==> fresh(group[i])
    ensures forall i :: 0 <= i < |group| ==>
      group[i].buffer == vb && group[i].material == surfaces[i].material &&
      group[i].indices == surfaces[i].vertexIndices && group[i].elementData == surfaces[i].vertexIndices &&
      group[i].attributes == VertexAttributes()
  {
    group := [];
    var i := 0;
    while i < |surfaces|
      invariant i <= |surfaces| && |group| == i
      invariant forall j :: 0 <= j < i ==> fresh(group[j])
      invariant forall j :: 0 <= j < i ==>
        group[j].buffer == vb && group[j].material == surfaces[j].material &&
        group[j].indices == surfaces[j].vertexIndices && group[j].elementData == surfaces[j].vertexIndices &&
        group[j].attributes == VertexAttributes()
    {
      var va := new VertexArray(vb, surfaces[i]);
      group := group + [va];
      i := i + 1;
    }
  }

  /** Renderer_OpenGL45. The default shader is a member object, so it is
      the same object for the renderer's whole life. */
  class Renderer {
    var vertexArrays: seq<seq<VertexArray>>
    var vertexBuffers: seq<VertexBuffer>
    var currentView: RenderView
    const defaultShader: Shader
    /** Draw calls issued since the last BeginFrame, as a `uint32_t`. */
    var numDrawCalls: u32
    /** The surfaces drawn through RenderSurface since the last BeginFrame,
        in the order of their draw calls (the GL command stream, recorded). */
    ghost var drawn: seq<SurfaceDraw>

    /** AllocateRenderer45: a value-initialised renderer with no models, a
        default-constructed shader and a zero draw counter. RenderView.hpp
        is not part of this model; the view starts all zeros. */
    constructor ()
      ensures vertexArrays == [] && vertexBuffers == [] && numDrawCalls == 0 && drawn == []
      ensures fresh(defaultShader) && defaultShader.apiObjects == [] && defaultShader.name == "Default"
      ensures currentView == RenderView(0, 0, Vec3(0.0, 0.0, 0.0), [], 0.0)
    {
      vertexArrays := [];
      vertexBuffers := [];
      currentView := RenderView(0, 0, Vec3(0.0, 0.0, 0.0), [], 0.0);
      defaultShader := new Shader();
      numDrawCalls := 0;
      drawn := [];
    }

    /** Renderer_OpenGL45::Init: `glewOk` is glewInit's outcome, `shaderFile`
        what the file system holds at the default shader's path and `driver`
        the GLSL compiler. Either failure shuts the renderer down; success
        empties the vertex buffers only. Init succeeds exactly when glew
        initialises, the default shader's file is readable and every
        variant of the default shader then builds. */
    method Init(glewOk: bool, shaderFile: ShaderFile, driver: Driver) returns (ok: bool)
      modifies this, defaultShader
      ensures ok <==>
        glewOk && LoadCompiles(old(defaultShader.apiObjects), old(defaultShader.versionText), shaderFile, driver)
      ensures !ok ==> vertexArrays == [] && vertexBuffers == []
      ensures ok ==> vertexBuffers == [] && vertexArrays == old(vertexArrays)
      ensures glewOk && !shaderFile.Missing? ==> defaultShader.fileName == DefaultShaderPath
      ensures !glewOk ==> defaultShader.apiObjects == old(defaultShader.apiObjects)
      ensures currentView == old(currentView) && numDrawCalls == old(numDrawCalls) && drawn == old(drawn)
    {
      if !glewOk {
        Shutdown();
        return false;
      }
      var built := InitDefaultShader(shaderFile, driver);
      if !built {
        Shutdown();
        return false;
      }
      vertexBuffers := [];
      return true;
    }

    /** InitDefaultShader: load the default shader, then compile it; it
        fails when the file does not load or when a variant does not build. */
    method InitDefaultShader(shaderFile: ShaderFile, driver: Driver) returns (ok: bool)
      modifies defaultShader
      ensures ok <==> LoadCompiles(old(defaultShader.apiObjects), old(defaultShader.versionText), shaderFile, driver)
      ensures !shaderFile.Missing? ==> defaultShader.fileName == DefaultShaderPath
    {
      var loaded := defaultShader.Load(DefaultShaderPath, shaderFile);
      if !loaded {
        return false;
      }
      ghost var objs := defaultShader.apiObjects;
      ghost var current := defaultShader.currentObject;
      ok := defaultShader.Compile(driver);
      assert ShaderTexts(defaultShader.versionText, defaultShader.vertexText, defaultShader.fragmentText)
          == LoadedTexts(shaderFile.text, old(defaultShader.versionText));
      CompileOutcome(objs, LoadedTexts(shaderFile.text, old(defaultShader.versionText)), driver, current);
    }

    /** Renderer_OpenGL45::Shutdown: every vertex array and buffer is dropped. */
    method Shutdown()
      modifies this
      ensures vertexArrays == [] && vertexBuffers == []
      ensures currentView == old(currentView) && numDrawCalls == old(numDrawCalls) && drawn == old(drawn)
    {
      vertexArrays := [];
      vertexBuffers := [];
    }

    /** BeginFrame: the draw counter and the frame's draws restart (the GL
        state set-up is not modelled). */
    method BeginFrame()
      modifies this
      ensures numDrawCalls == 0 && drawn == []
      ensures vertexArrays == old(vertexArrays) && vertexBuffers == old(vertexBuffers)
      ensures currentView == old(currentView)
    {
      numDrawCalls := 0;
      drawn := [];
    }

    /** CreateShader: a new shader that is returned whenever its file loads,
        whether or not it then compiles; null when the file does not load. */
    method CreateShader(path: string, file: ShaderFile, driver: Driver) returns (s: Shader?)
      ensures s != null <==> file.Readable?
      ensures s != null ==> fresh(s) && s.fileName == path && s.name == path
    {
      s := new Shader();
      var loaded := s.Load(path, file);
      if !loaded {
        return null;
      }
      var compiled := s.Compile(driver);
    }

    function GetDefaultShader(): Shader
    {
      defaultShader
    }

    /** ReloadShaders: only the default shader is reloaded, as Reload says:
        its programs are deleted, the file at its own path is loaded again
        and every variant is compiled from the texts it then holds. */
    method ReloadShaders(file: ShaderFile, driver: Driver)
      modifies defaultShader
      ensures var t := ReloadedTexts(file, ShaderTexts(old(defaultShader.versionText), old(defaultShader.vertexText),
                                                       old(defaultShader.fragmentText)));
        var r := CompileFrom(ReloadedVariants(old(defaultShader.apiObjects), file), t, driver, 0,
                             old(defaultShader.currentObject));
        ShaderTexts(defaultShader.versionText, defaultShader.vertexText, defaultShader.fragmentText) == t &&
        defaultShader.apiObjects == r.0 && defaultShader.currentObject == r.2
      ensures defaultShader.supportedShaderFlags ==
        if file.Readable? then MetaFlags(Scan(file.text, 0)) else old(defaultShader.supportedShaderFlags)
      ensures defaultShader.fileName == old(defaultShader.fileName)
      ensures defaultShader.errorMessage ==
        ReloadMessage(old(defaultShader.fileName), file, old(defaultShader.errorMessage))
      ensures FlagsOf(defaultShader.apiObjects) == FlagsOf(old(defaultShader.apiObjects))
        + (if file.Readable? then SupportedCombinations(MetaFlags(Scan(file.text, 0))) else [])
    {
      defaultShader.Reload(file, driver);
    }

    method SetRenderView(view: RenderView)
      modifies this
      ensures GetRenderView() == view
      ensures vertexArrays == old(vertexArrays) && vertexBuffers == old(vertexBuffers)
      ensures numDrawCalls == old(numDrawCalls) && drawn == old(drawn)
    {
      currentView := view;
    }

    function GetRenderView(): RenderView
      reads this
    {
      currentView
    }

    /** PerformDrawCall: `batchSize` None stands for the null batch pointer.
        The counter goes up by one (wrapping at 2^32) whatever was drawn,
        even for an empty batch. */
    method PerformDrawCall(va: VertexArray, batchSize: Option<u32>) returns (cmd: Option<DrawCommand>)
      modifies this
      ensures cmd == DrawFor(va.GetNumIndices(), batchSize)
      ensures numDrawCalls == ToU32(old(numDrawCalls) as int + 1)
      ensures vertexArrays == old(vertexArrays) && vertexBuffers == old(vertexBuffers)
      ensures currentView == old(currentView) && drawn == old(drawn)
    {
      if batchSize.None? {
        cmd := Some(Elements(va.GetNumIndices()));
      } else if batchSize.value > 0 {
        cmd := Some(Instanced(va.GetNumIndices(), batchSize.value));
      } else {
        cmd := None;
      }
      numDrawCalls := ToU32(numDrawCalls as int + 1);
    }

    /** RenderSurface: one plain draw of the surface's vertex array, which
        joins the frame's draws. Indexing the model's group is unchecked in
        the source and the surface index goes through `at`, so both must be
        in range. */
    method RenderSurface(params: RenderEntityParams, surface: int) returns (cmd: DrawCommand)
      requires params.model as int < |vertexArrays|
      requires 0 <= surface < |vertexArrays[params.model]|
      modifies this
      ensures vertexArrays == old(vertexArrays) && vertexBuffers == old(vertexBuffers)
      ensures cmd == Elements(|vertexArrays[params.model][surface].indices|)
      ensures numDrawCalls == ToU32(old(numDrawCalls) as int + 1)
      ensures drawn == old(drawn) + [SurfaceDraw(params.model, surface)]
      ensures currentView == old(currentView)
    {
      var va := vertexArrays[params.model][surface];
      var issued := PerformDrawCall(va, None);
      cmd := issued.value;
      drawn := drawn + [SurfaceDraw(params.model, surface)];
    }

    /** CreateModel: a new vertex buffer holding the mesh's vertices and a
        new group with one vertex array per surface over that buffer. The
        handle returned is always RenderHandleInvalid. */
    method CreateModel(params: RenderModelParams, mesh: DrawMesh) returns (h: Handle)
      modifies this
      ensures h == RenderHandleInvalid
      ensures |vertexBuffers| == |old(vertexBuffers)| + 1 && vertexBuffers[..|old(vertexBuffers)|] == old(vertexBuffers)
      ensures |vertexArrays| == |old(vertexArrays)| + 1 && vertexArrays[..|old(vertexArrays)|] == old(vertexArrays)
      ensures var vb := vertexBuffers[|vertexBuffers| - 1];
        fresh(vb) && vb.data == Flatten(mesh.vertices) && vb.GetNumVertices() == |mesh.vertices|
      ensures var group := vertexArrays[|vertexArrays| - 1];
        |group| == |mesh.surfaces| &&
        forall i :: 0 <= i < |group| ==>
          fresh(group[i]) && group[i].buffer == vertexBuffers[|vertexBuffers| - 1] &&
          group[i].indices == mesh.surfaces[i].vertexIndices && group[i].material == mesh.surfaces[i].material
      ensures currentView == old(currentView) && numDrawCalls == old(numDrawCalls) && drawn == old(drawn)
    {
      var vb := new VertexBuffer();
      vb.InitFromMesh(mesh);
      vertexBuffers := vertexBuffers + [vb];
      var group := BuildGroup(vb, mesh.surfaces);
      vertexArrays := vertexArrays + [group];
      return RenderHandleInvalid;
    }

    /** AllocateTexture: a new texture with a fresh GL name (`handle`, from
        the driver) whose name is the one given. */
    method AllocateTexture(name: string, handle: u32) returns (t: Texture)
      ensures fresh(t)
      ensures t.GetName() == name && t.fileName == BuiltinFileName
      ensures t.textureHandle == handle && !t.loaded && t.upload == None
      ensures t.textureType == TF.Albedo && t.flags == TF.DefaultTextureFlags
    {
      t := new Texture();
      t.Init(handle);
      t.SetName(name);
    }
  }
}
