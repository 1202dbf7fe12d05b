# FoxGLBox renderer bookkeeping, modelled in Dafny

FoxGLBox is a small C++ renderer. A render world (the front end) keeps a
fixed table of 16384 render-entity slots and registries of models, textures
and materials. It loads Wavefront OBJ models into draw meshes and hands them
to an OpenGL 4.5 backend. The backend turns each mesh into one vertex buffer
and one vertex array per surface. It also loads and compiles `.glsl` shader
files into flag-specific variants and counts the draw calls of a frame.

This project models that bookkeeping and proves what each step does to it:

- **Entity slots.** Which slot a new entity takes, when a handle may be
  updated, and what a frame does to immediate (one-frame) entities.
- **Draw calls.** How many draw calls a frame issues, as a 32-bit counter.
- **Registries.** Models, textures and materials are deduplicated by name.
- **Models.** What the OBJ reader produces from a file, and the mesh layout
  the backend receives.
- **Vertex data.** The vertex-buffer float layout, and the attribute
  pointers that read it back.
- **Textures.** Upload format, wrap mode and filters chosen from a
  texture's flags.
- **Shaders.** The shader-file scan (`#supports`, `#version`,
  `#section … #endsection`), variant registration, compilation order and
  binding.

The modules follow the source's components:

| module | file | models |
|---|---|---|
| `RenderTypes` | render_types.dfy | handles, the invalid-handle sentinel, init parameters, 32-bit wrap-around |
| `TextureFlags` | texture_flags.dfy | texture types and the 16-bit flag set |
| `Textures` | textures.dfy | `FrontendTexture` and the OpenGL `Texture` |
| `Materials` | materials.dfy | `Material` |
| `Geometry` | geometry.dfy | `DrawVertex`, `DrawTriangle`, `DrawSurface`, `DrawMesh` |
| `TextStream` | text_stream.dfy | how `std::ifstream >>` and `std::getline` read a text |
| `ObjModel` | obj_model.dfy | the built-in OBJ parser and `Model` |
| `ShaderText` | shader_text.dfy | the shader file's meta scan, section extraction and preprocessor flags |
| `Shaders` | shader.dfy | the OpenGL `Shader` and its variants |
| `VertexBuffers` | vertex_buffer.dfy | `VertexBuffer` and `VertexArray` |
| `Renderers` | renderer.dfy | `Renderer_OpenGL45` |
| `RenderWorlds` | render_world.dfy | `RenderWorld` |

How the model stands in for the C++:

- Objects whose fields the source updates become classes whose methods say
  exactly what they change.
- Pure computations become functions with lemmas about them.
- Loops become methods whose invariants tie them to those functions.
- The outside world becomes parameters: the file system, the image
  decoder, the float parser, glewInit and the GLSL compiler.
- GL calls that only bind state are left out. The GL state that later
  behaviour depends on is recorded as data:
  - the texture upload parameters;
  - the attribute pointers;
  - the draw command;
  - the draw counter.

## Model

| member | source | states |
|---|---|---|
| RenderTypes.ToU32 | renderer/public/IRenderWorld.hpp:12-14 | Conversion to `unsigned int` is the identity on 0 .. 2^32-1 and congruent modulo 2^32 everywhere else. |
| RenderTypes.InvalidIsMaximum | renderer/public/IRenderWorld.hpp:14 | `~0` is the largest handle, so every other handle lies strictly below it. |
| RenderTypes.BackendValue | renderer/public/IRenderWorld.hpp:38-55 | Each backend's value falls in its family's range: OpenGL from 0, Vulkan from 100, Direct3D from 200, software from 400. |
| RenderTypes.BackendValueInjective | renderer/public/IRenderWorld.hpp:43-55 | No two backends share an enumerator value. |
| RenderTypes.DefaultInitParams | renderer/public/IRenderWorld.hpp:64-68 | The defaults are a 1280×720 window, backend value 2 (OpenGL 4.5), windowing value 0 (SDL2) and no context. |
| TextureFlags.TypeValue | renderer/public/IMaterial.hpp:3-20 | The four texture types take the values 0-3 in declaration order. |
| TextureFlags.FlagsAreDistinctBits | renderer/public/IMaterial.hpp:22-49 | Flag k is `1 << k` for k in 0..12, so every flag is a single bit and no two flags overlap. |
| TextureFlags.DefaultFlagsContents | renderer/public/IMaterial.hpp:51-56 | The default flags are 0x0A25: exactly Static, Linear, Repeat, RGB and ByteSized. |
| Textures.Components | renderer/src/Backends/OpenGL45/Texture.cpp:89-121 | Each GL pixel format has 1, 3 or 4 components, and which formats have 1 or 4. |
| Textures.TextureDataType | renderer/src/Backends/OpenGL45/Texture.cpp:89-97 | The data type is float exactly when FloatSized is set. |
| Textures.TextureFormat | renderer/src/Backends/OpenGL45/Texture.cpp:90-121 | Greyscale wins over RGBA, which wins over the RGB default. Each comes in a float or byte variant, decided by FloatSized. |
| Textures.FormatAgreesWithDataType | renderer/src/Backends/OpenGL45/Texture.cpp:89-121 | The chosen format is a float format exactly when the data type is float. |
| Textures.WrapModeFor | renderer/src/Backends/OpenGL45/Texture.cpp:140-156 | Mirror beats clamp-to-edge, and plain repeat applies exactly when neither is set. |
| Textures.FilterFor | renderer/src/Backends/OpenGL45/Texture.cpp:161-180 | Magnification is nearest or linear. Minification uses the matching mipmap filter, or equals the magnification filter under NoMip. |
| Textures.NoMipDisablesMipmapSampling | renderer/src/Backends/OpenGL45/Texture.cpp:172-175 | Minification samples mipmaps exactly when NoMip is clear. Magnification never does. |
| Textures.DefaultFlagsUpload | renderer/public/IMaterial.hpp:51-56 | Default flags upload as byte RGB with repeat wrapping and linear / linear-mipmap-linear filtering. |
| Textures.ChannelFlags | renderer/src/FrontendTexture.cpp:19-33 | Only the three channel bits change, and exactly one is set afterwards: Greyscale for 1 channel, RGB for 3, RGBA otherwise. |
| Textures.ChannelFlagsMasks | renderer/src/FrontendTexture.cpp:19-33 | Spells out each branch as the source's mask-and-set on the 16-bit word. |
| Textures.ChannelFlagsIdempotent | renderer/src/FrontendTexture.cpp:19-33 | Rewriting the flags twice for the same channel count is the same as rewriting them once. |
| Textures.ChannelFlagsSelectFormat | renderer/src/FrontendTexture.cpp:19-35 | After the rewrite, the upload format has as many components as the branch chose, and it is float exactly when FloatSized was set. |
| Textures.ChannelFlagsSelectFormatAll | renderer/src/FrontendTexture.cpp:19-35 | For every flag word, the rewrite picks 1, 3 or 4 components as the channel count says. |
| Textures.UploadFor | renderer/src/Backends/OpenGL45/Texture.cpp:85-135 | `glTexImage2D` gets the same format as internal and pixel format, with the flag-derived data type, wrap mode and filters, and mipmaps are generated. |
| Textures.Texture.constructor | renderer/src/FrontendTexture.hpp:38-45 | Initial name "Default", file name "#builtin", Albedo, default flags, handle 0, not loaded. |
| Textures.Texture.Init | renderer/src/Backends/OpenGL45/Texture.cpp:13-17 | Only the GL texture name is set. |
| Textures.Texture.GetName | renderer/src/FrontendTexture.cpp:41-49 | The name is the set name while the file name is "#builtin", and the file name otherwise. |
| Textures.Texture.SetName | renderer/src/Backends/OpenGL45/Texture.hpp:17-20 | Only the name changes. |
| Textures.Texture.SetTextureType | renderer/src/FrontendTexture.hpp:29-31 | The getter returns the new type and nothing else changes. |
| Textures.Texture.SetTextureFlags | renderer/src/FrontendTexture.hpp:33-36 | The getter returns the new flags and nothing else changes. |
| Textures.Texture.Bind | renderer/src/Backends/OpenGL45/Texture.cpp:22-37 | A texture unit is activated exactly when the texture is not yet loaded. |
| Textures.Texture.LoadDirect | renderer/src/Backends/OpenGL45/Texture.cpp:82-135 | Stores the flags and type, records the upload UploadFor describes, and ends loaded. |
| Textures.Texture.RewriteChannelFlags | renderer/src/FrontendTexture.cpp:19-33 | The flags become ChannelFlags of the old flags, and nothing else changes. |
| Textures.Texture.LoadFromFile | renderer/src/FrontendTexture.cpp:7-39 | The path is always stored. It fails exactly when decoding fails, and then nothing else changes. On success it takes the image size, rewrites the channel flags and uploads, and GetName becomes the path. |
| Textures.DecodedBufferMismatch | renderer/src/FrontendTexture.cpp:12-35 | As written, 4- and 1-channel images are uploaded as 4 and 1 components per texel from a buffer decoded with 3. |
| Textures.RequestedComponentsFor | renderer/src/FrontendTexture.cpp:12-35 | The corrected request is, for every flag word, the component count of the format the rewrite selects. |
| Materials.CountOf | renderer/src/Material.cpp:9-20 | The counter of matching textures never exceeds the list length. |
| Materials.NthFrom | renderer/src/Material.cpp:9-20 | A hit lies at or after the start, inside the list, and has the requested type. |
| Materials.NthFromMeaning | renderer/src/Material.cpp:7-24 | From any start, the search succeeds exactly when 0 ≤ order < the number of matches. The hit has exactly `order` matches before it. |
| Materials.NthOfTypeMeaning | renderer/src/Material.cpp:7-24 | The texture found has the requested type and exactly `order` textures of that type before it. There is one exactly when 0 ≤ order < count. |
| Materials.TypesOf | renderer/src/Material.cpp:12 | Element by element, the types of the material's textures. |
| Materials.AddTextureDropsNewTexture | renderer/src/Material.cpp:29-40 | As written, adding a second, different texture without `force` leaves the list unchanged, while the documented behaviour appends it. |
| Materials.AddedAsDocumentedKeepsUnique | renderer/public/IMaterial.hpp:173-177 | The documented add keeps a duplicate-free list duplicate-free, keeps every old entry and contains the new texture. |
| Materials.AddToEmptyAgrees | renderer/src/Material.cpp:29-40 | On an empty list the code as written and the documented behaviour both give `[texture]`. |
| Materials.Material.constructor | renderer/src/Material.hpp:39-45 | Initial name "Default", file name "#built-in", no shader, no textures. |
| Materials.Material.SetName | renderer/src/Material.hpp:11-16 | GetName returns the new name and nothing else changes. |
| Materials.Material.SetShader | renderer/src/Material.hpp:19-24 | GetShader returns the new shader and nothing else changes. |
| Materials.Material.GetTexture | renderer/src/Material.cpp:7-24 | Returns the `order`-th texture of the type (by NthOfTypeMeaning), or null when there are not that many. |
| Materials.Material.AddTexture | renderer/src/Material.cpp:29-40 | As written: appends only when forced or when the list is empty. |
| Materials.Material.AddTextureUnique | renderer/src/Material.hpp:33-37 | Appends unless the same texture is already present and `force` is false. |
| Geometry.SameVertexIgnoresTangentColorWeights | renderer/public/DrawGeometry.hpp:23-28 | Two vertices compare equal exactly when they differ at most in tangent, colour and weights. |
| Geometry.SameVertexIsEquivalence | renderer/public/DrawGeometry.hpp:23-28 | `operator==` is reflexive, symmetric and transitive. |
| Geometry.TriangleOf | renderer/public/DrawGeometry.hpp:45-50 | Three indices, each congruent to its `int` argument modulo 2^32, and equal to it when in range. |
| Geometry.IndexRange | renderer/public/DrawGeometry.hpp:103-106 | n indices, the i-th being i converted to `vertexid_t`. |
| Geometry.AutoIndices | renderer/public/DrawGeometry.hpp:103-106 | The counter loop pushes exactly IndexRange(count). |
| Geometry.AutoIndexRule | renderer/public/DrawGeometry.hpp:98-110 | Only the first surface, and only when it has no indices, is filled, with 0 .. triangles.size()-1. Name and material are always kept, and any other surface is stored unchanged. |
| Geometry.VertexFillInRange | renderer/public/DrawGeometry.hpp:100-107 | The corrected fill indexes every vertex once, in order, and never a vertex that does not exist. |
| Geometry.AutoIndexCountsTriangles | renderer/public/DrawGeometry.hpp:102-106 | As written, one vertex and three triangles give indices 0, 1, 2, and indices 1 and 2 name no vertex. Three vertices and one triangle give the single index 0. |
| Geometry.DrawMesh.constructor | renderer/public/DrawGeometry.hpp:85 | A new mesh has empty lists. |
| Geometry.DrawMesh.AddVertex | renderer/public/DrawGeometry.hpp:88-91 | Appends the vertex, and the other lists do not change. |
| Geometry.DrawMesh.AddTriangles | renderer/public/DrawGeometry.hpp:93-96 | Appends the triangle, and the other lists do not change. |
| Geometry.DrawMesh.AddSurface | renderer/public/DrawGeometry.hpp:98-110 | Appends the surface as SurfaceAdded fills it, and the caller's surface receives the same indices. |
| Geometry.DrawMesh.AddSurfaceByVertices | renderer/public/DrawGeometry.hpp:98-110 | Same as AddSurface, but the fill counts vertices (the corrected behaviour). |
| TextStream.SkipSpaces | renderer/src/Model.cpp:38 | Skips exactly the leading white space and stops at a non-space or the end. |
| TextStream.WordEnd | renderer/src/Model.cpp:38 | Extends exactly over the non-space run and stops at a space or the end. |
| TextStream.ReadWord | renderer/src/Model.cpp:38 | A word read is non-empty, and reading resumes after it without passing the end. |
| TextStream.ReadWordMeaning | renderer/src/Backends/OpenGL45/Shader.cpp:255 | `>>` returns the first maximal non-space run after the white space. It fails exactly when only white space remains. |
| TextStream.LineEnd | renderer/src/Backends/OpenGL45/Shader.cpp:268 | Stops at the first newline at or after the start, or at the end of the text. |
| TextStream.GetLine | renderer/src/Backends/OpenGL45/Shader.cpp:268 | `getline` returns the text up to the next newline and resumes after it. |
| TextStream.Lines | renderer/src/Backends/OpenGL45/Shader.cpp:291 | The getline loop yields no line exactly when the text is empty. |
| TextStream.LinesJoin | renderer/src/Backends/OpenGL45/Shader.cpp:291-320 | Joining the getline lines with `endl` gives back the text, with at most one newline added at the end. |
| TextStream.JoinLinesAppend | renderer/src/Backends/OpenGL45/Shader.cpp:316-320 | Adding one more line to the output appends that line and a newline. |
| TextStream.FindFromFirst | renderer/src/Backends/OpenGL45/Shader.cpp:294-310 | `find` returns the first occurrence at or after the start, or none when there is no occurrence. |
| TextStream.ContainsWitness | renderer/src/Backends/OpenGL45/Shader.cpp:294 | Any occurrence of the pattern makes `find` succeed. |
| ObjModel.ReadFloat | renderer/src/Model.cpp:49 | A float extraction never moves backwards and stays inside the text. |
| ObjModel.ReadFloats | renderer/src/Model.cpp:49-65 | Chained extractions yield exactly `count` values. |
| ObjModel.DigitsEnd | renderer/src/Model.cpp:148 | The digit run ends at the first non-digit. |
| ObjModel.ReadInt | renderer/src/Model.cpp:148 | An `int` extraction consumes at least one character and stops at a non-digit. |
| ObjModel.ReadIntOfDigits | renderer/src/Model.cpp:148 | A run of digits reads as its decimal value and consumes the whole run. |
| ObjModel.ReplaceSlashes | renderer/src/Model.cpp:184-190 | The in-place loop computes Unslashed. |
| ObjModel.UnslashedMeaning | renderer/src/Model.cpp:184-190 | Slashes become spaces and everything else is kept, the length is unchanged, and applying it twice changes nothing further. |
| ObjModel.CornersFrom | renderer/src/Model.cpp:176-196 | Reading the corners never moves backwards. |
| ObjModel.TokenStep | renderer/src/Model.cpp:40-82 | The per-token step resumes at or after the token. |
| ObjModel.SkippedTokensDiscardLine | renderer/src/Model.cpp:40-44 | A `#` comment or an unknown token discards the rest of its line and changes nothing. |
| ObjModel.VertexDataAppendsOne | renderer/src/Model.cpp:46-69 | `v`, `vn` and `vt` each append exactly one entry to their own list and leave the other lists unchanged. Reading goes on exactly when all numbers were read. |
| ObjModel.AddCornerAppends | renderer/src/Model.cpp:135-174 | A corner appends one vertex, tagged with its corner text, and leaves every other list unchanged. |
| ObjModel.CornersKeepData | renderer/src/Model.cpp:176-196 | A face leaves the `v`/`vn`/`vt` data unchanged and only extends the vertex list. |
| ObjModel.CornersKeepLayout | renderer/src/Model.cpp:176-196 | Completing a face keeps the layout "face k is (3k, 3k+1, 3k+2), with three vertices per face". |
| ObjModel.FaceKeepsLayout | renderer/src/Model.cpp:70-76 | A whole `f` line keeps the three-vertices-per-face layout. |
| ObjModel.TokenStepKeepsLayout | renderer/src/Model.cpp:40-82 | Every defined token step keeps that layout. |
| ObjModel.ScanKeepsLayout | renderer/src/Model.cpp:38-83 | The whole token loop keeps that layout. |
| ObjModel.MeshVertices | renderer/src/Model.cpp:87-90 | The mesh receives the parsed vertices in order, without their corner text. |
| ObjModel.FlattenedLayout | renderer/src/Model.cpp:93-99 | Under the layout, the concatenated face indices are 0 .. 3F-1. |
| ObjModel.ParsedMeshLayout | renderer/src/Model.cpp:32-104 | A successful parse has three vertices per face, and its surface indices are 0, 1, …, 3F-1 (empty without faces). |
| ObjModel.LayoutFillKeepsSurface | renderer/src/Model.cpp:93-101 | Under the layout, the corrected surface fill stores the parsed surface unchanged. |
| ObjModel.OBJParser.constructor | renderer/src/Model.cpp:198-202 | A new parser has all five lists empty. |
| ObjModel.OBJParser.ParseOBJVertex | renderer/src/Model.cpp:135-174 | Returns the new vertex's index, or reports the undefined case, exactly as AddCorner says. |
| ObjModel.OBJParser.ParseCorner | renderer/src/Model.cpp:180-192 | One corner: reads a token, blanks its slashes and adds the vertex, advancing CornersFrom by exactly one corner, or reporting the undefined case. |
| ObjModel.OBJParser.ParseOBJTriangle | renderer/src/Model.cpp:176-196 | Three corners, exactly as CornersFrom says. |
| ObjModel.OBJParser.ParseToken | renderer/src/Model.cpp:40-82 | One loop iteration, exactly as TokenStep says. |
| ObjModel.OBJParser.ParseOBJ | renderer/src/Model.cpp:32-104 | Fails exactly when the scan hits undefined behaviour. Otherwise returns a fresh mesh with the scanned vertices, no triangles, and one default surface holding every face's indices. |
| ObjModel.OBJParser.BuildMesh | renderer/src/Model.cpp:85-103 | The mesh gets every vertex, no triangles, and one default surface with all face indices. The surface goes through DrawMesh::AddSurface as written, which stores it unchanged because the mesh has no triangles. |
| ObjModel.Model.constructor | renderer/src/Model.cpp:268-307 | A new model has an empty name, is not okay and has an empty mesh. |
| ObjModel.Model.LoadFromPath | renderer/src/Model.cpp:268-299 | The name is always the path. A missing or bad file leaves the model not okay with its mesh unchanged. Otherwise the model is okay exactly when the parse is defined, and the mesh is the parsed one. |
| ShaderText.SupportsIsSubset | renderer/src/Backends/OpenGL45/Shader.cpp:231-235 | `!((combo & supported) ^ combo)` holds exactly when every bit of the combination is supported. |
| ShaderText.SupportedPrefixMembers | renderer/src/Backends/OpenGL45/Shader.cpp:225-240 | After k combinations, the registered ones are exactly the supported ones among the first k. |
| ShaderText.SupportedCombinations | renderer/src/Backends/OpenGL45/Shader.cpp:213-241 | A combination is registered exactly when it is in the table and all of its bits are supported. |
| ShaderText.SupportedCombinationsInOrder | renderer/src/Backends/OpenGL45/Shader.cpp:213-241 | Registration follows the table's order. |
| ShaderText.CombinationsForScannedFlags | renderer/src/Backends/OpenGL45/Shader.cpp:213-276 | For the flags a scan can produce, the variants are [Normal], or [Normal, Normal\|Instanced] when instancing is supported. |
| ShaderText.ReadStatement | renderer/src/Backends/OpenGL45/Shader.cpp:255-270 | Each iteration of the meta loop consumes at least one character. |
| ShaderText.ReadPass | renderer/src/Backends/OpenGL45/Shader.cpp:255-270 | One pass of the meta loop reads what ReadStatement describes. |
| ShaderText.MetaFlags | renderer/src/Backends/OpenGL45/Shader.cpp:243-276 | Normal is always set and CanSkin never. Instanced is set exactly when some `#supports` is followed by `instancing` or `batching`. |
| ShaderText.VersionText | renderer/src/Backends/OpenGL45/Shader.cpp:266-270 | The version text is the last `#version` line's rest, wrapped as "#version …\n", or the previous text when there is none. |
| ShaderText.ExtractShaderMeta | renderer/src/Backends/OpenGL45/Shader.cpp:243-276 | The loop returns MetaFlags and VersionText of the scanned statements. |
| ShaderText.VisibleLines | renderer/src/Backends/OpenGL45/Shader.cpp:293-297 | Lines containing `#supports` are skipped. |
| ShaderText.VisibleLinesAppend | renderer/src/Backends/OpenGL45/Shader.cpp:293-297 | Skipping `#supports` lines distributes over concatenation of line lists. |
| ShaderText.FirstOpening | renderer/src/Backends/OpenGL45/Shader.cpp:300-308 | Finds the first `#section` line that names the section after the marker. |
| ShaderText.FirstEnd | renderer/src/Backends/OpenGL45/Shader.cpp:310-314 | Finds the first line containing `#endsection`. |
| ShaderText.ExtractShaderText | renderer/src/Backends/OpenGL45/Shader.cpp:278-327 | The loop returns, each line followed by a newline, exactly the visible lines between the first matching opening and the next end marker. The section runs to the end of the file when unterminated, and is empty when never opened. |
| ShaderText.EndMarkers | renderer/src/Backends/OpenGL45/Shader.cpp:294-310 | Examples: "#end" is not an end marker, "#endsection" is, and a `#supports` line is never visible. |
| ShaderText.PreprocessorFlagsContents | renderer/src/Backends/OpenGL45/Shader.cpp:329-337 | The defines start with a newline and contain the instancing define exactly when Instanced is set. Otherwise they are just "\n". |
| ShaderText.PreprocessorFlagsOnlyInstanced | renderer/src/Backends/OpenGL45/Shader.cpp:329-337 | Only the Instanced bit affects the defines. |
| Shaders.Variants | renderer/src/Backends/OpenGL45/Shader.cpp:223-240 | One not-yet-built object per registered combination, in order. |
| Shaders.StageSourceLayout | renderer/src/Backends/OpenGL45/Shader.cpp:56-58 | A stage's source is the version text, then the defines, then the section text. |
| Shaders.CompileFrom | renderer/src/Backends/OpenGL45/Shader.cpp:46-103 | Compiling never adds or removes variants. |
| Shaders.BuildOutcomeOrder | renderer/src/Backends/OpenGL45/Shader.cpp:66-91 | A vertex-shader error is reported first, then a fragment error, then a link error. A variant is built exactly when all three steps succeed. |
| Shaders.FirstFailure | renderer/src/Backends/OpenGL45/Shader.cpp:46-101 | Every variant before the stop builds, and the variant at the stop does not. |
| Shaders.CompileFromSucceeds | renderer/src/Backends/OpenGL45/Shader.cpp:44-104 | Compile succeeds exactly when no variant fails. |
| Shaders.CompileFromContents | renderer/src/Backends/OpenGL45/Shader.cpp:44-104 | Variants up to and including the first failure are built, and later ones are untouched. |
| Shaders.CompileFromCurrent | renderer/src/Backends/OpenGL45/Shader.cpp:73 | The current object ends at the failing variant, at the last variant on success, or unchanged when there are none. |
| Shaders.CompileKeepsFlags | renderer/src/Backends/OpenGL45/Shader.cpp:44-104 | Compiling never changes a variant's flags. |
| Shaders.CompileOutcome | renderer/src/Backends/OpenGL45/Shader.cpp:44-104 | Combines success, per-variant contents, flags and the current object for a compile from the start. |
| Shaders.DeletePrograms | renderer/src/Backends/OpenGL45/Shader.cpp:108-111 | Every program is deleted and nothing else about the variants changes. |
| Shaders.BuildVariants | renderer/src/Backends/OpenGL45/Shader.cpp:46-103 | The loop computes CompileFrom. |
| Shaders.FindVariant | renderer/src/Backends/OpenGL45/Shader.cpp:121-129 | Finds the first variant with exactly these flags, or none. |
| Shaders.BindFindsRegisteredVariants | renderer/src/Backends/OpenGL45/Shader.cpp:117-133 | On a freshly populated shader, Bind finds a variant exactly when the flags are a registered combination. |
| Shaders.SkinnedVariantsNeverRegistered | renderer/src/Backends/OpenGL45/Shader.cpp:213-276 | No scanned shader ever registers a CanSkin variant. |
| Shaders.AppendVariants | renderer/src/Backends/OpenGL45/Shader.cpp:221-241 | The loop appends exactly the variants of the supported combinations. |
| Shaders.ReloadFlags | renderer/src/Backends/OpenGL45/Shader.cpp:106-113 | Deleting keeps the flags, and loading appends the new combinations after them. |
| Shaders.Shader.constructor | renderer/src/Backends/OpenGL45/Shader.hpp:60-62 | Initial name "Default", empty file name, error message "OK", no variants. |
| Shaders.Shader.PopulateShaderObjects | renderer/src/Backends/OpenGL45/Shader.cpp:221-241 | Appends the supported variants to the existing ones, and nothing else changes. |
| Shaders.Shader.Load | renderer/src/Backends/OpenGL45/Shader.cpp:11-42 | Succeeds exactly when the file is readable, with the source's error message for a missing or bad file. On success, the flags, version, variants and both sections come from the scans. On failure, the variants, flags, version and both section texts are unchanged. |
| Shaders.Shader.ReadMeta | renderer/src/Backends/OpenGL45/Shader.cpp:35 | The flags and version text are the meta scan's. |
| Shaders.Shader.ReadSections | renderer/src/Backends/OpenGL45/Shader.cpp:38-39 | The vertex and fragment texts are the extracted sections. |
| Shaders.Shader.Compile | renderer/src/Backends/OpenGL45/Shader.cpp:44-104 | Variants, result and current object are as CompileFrom says, and the texts are untouched. |
| Shaders.Shader.Bind | renderer/src/Backends/OpenGL45/Shader.cpp:117-133 | When the flags are supported, binds the first variant with exactly those flags. Otherwise it binds nothing and the current object does not change. |
| Shaders.Shader.Reload | renderer/src/Backends/OpenGL45/Shader.cpp:106-115 | Every program is deleted, the file at the shader's own path is loaded again, and everything is compiled from variant 0. The variants and current object are CompileFrom over ReloadedVariants (old variants deleted, then one per supported combination of a readable file) with ReloadedTexts (the texts read from a readable file, otherwise the old ones). The meta flags, name and error message are as Load leaves them, and the variants' flags are the old ones followed by the new combinations. |
| VertexBuffers.AttributesTileStride | renderer/src/Backends/OpenGL45/VertexBuffer.hpp:3-19 | The three attributes sit at locations 0, 1, 2 and offsets 0, 12, 24, and tile the 32-byte stride exactly. |
| VertexBuffers.FlattenLayout | renderer/src/Backends/OpenGL45/VertexBuffer.cpp:119-136 | Eight floats per vertex, with vertex i's record at floats 8i .. 8i+7. |
| VertexBuffers.AttributesAddressVertexFields | renderer/src/Backends/OpenGL45/VertexBuffer.cpp:70-92 | Each attribute pointer, read at vertex i, lands on that vertex's own position, normal or texture-coordinate value. |
| VertexBuffers.ObjVertexRecordRoundTrip | renderer/src/Backends/OpenGL45/VertexBuffer.cpp:126-135 | The OBJ reader's ×127 and ×32767 scalings are undone by the buffer's ÷127 and ÷32767, so the record holds the parser's stored position, normal and texture coordinates (v already flipped to 1 − v). The round trip is exact only because the int8/int16 quantisation is not modelled. |
| VertexBuffers.FlattenVertices | renderer/src/Backends/OpenGL45/VertexBuffer.cpp:121-136 | The fill loop produces Flatten. |
| VertexBuffers.VertexCountOfRecords | renderer/src/Backends/OpenGL45/VertexBuffer.cpp:167 | `size / Stride` counts whole records, ignoring any trailing bytes. |
| VertexBuffers.VertexBuffer.constructor | renderer/src/Backends/OpenGL45/VertexBuffer.hpp:149-153 | A new buffer has no data and no vertices. |
| VertexBuffers.VertexBuffer.InitFromMesh | renderer/src/Backends/OpenGL45/VertexBuffer.cpp:119-141 | The data is the flattened mesh, and the vertex count is the mesh's vertex count. |
| VertexBuffers.VertexBuffer.BufferData | renderer/src/Backends/OpenGL45/VertexBuffer.cpp:155-170 | Without explicit data the own data's size counts, otherwise the given size does, and the data is untouched. |
| VertexBuffers.VertexArray.ForBuffer | renderer/src/Backends/OpenGL45/VertexBuffer.hpp:46-51 | An array over the buffer with no indices and no material. |
| VertexBuffers.VertexArray.constructor | renderer/src/Backends/OpenGL45/VertexBuffer.hpp:53-70 | Takes the surface's material and indices, buffers the indices and declares the three attributes. |
| VertexBuffers.VertexArray.SetupIndices | renderer/src/Backends/OpenGL45/VertexBuffer.cpp:62-65 | The indices become the surface's, and nothing else changes. |
| VertexBuffers.VertexArray.BufferData | renderer/src/Backends/OpenGL45/VertexBuffer.cpp:47-57 | The element buffer holds the indices, and nothing else changes. |
| VertexBuffers.VertexArray.SetupVertexAttributes | renderer/src/Backends/OpenGL45/VertexBuffer.cpp:70-81 | The declared attributes are VertexAttributes, and nothing else changes. |
| Renderers.DrawForMeaning | renderer/src/Backends/OpenGL45/Renderer.cpp:365-380 | A draw is issued exactly without batch parameters or with a positive batch size. It is instanced exactly when batched, and covers every index. |
| Renderers.CounterStep | renderer/src/Backends/OpenGL45/Renderer.cpp:381 | The 32-bit `++` composes with wrap-around. |
| Renderers.BuildGroup | renderer/src/Backends/OpenGL45/Renderer.cpp:264-270 | One fresh vertex array per surface, over the new buffer, with that surface's indices and material. |
| Renderers.Renderer.constructor | renderer/src/Backends/OpenGL45/Renderer.cpp:17-20 | No models, a zero draw counter and a default shader. |
| Renderers.Renderer.Init | renderer/src/Backends/OpenGL45/Renderer.cpp:73-94 | Succeeds exactly when GLEW initialises, the default shader file is readable and every variant of the loaded shader then builds (LoadCompiles). A failure empties both lists, as Shutdown does; success empties the vertex buffers only. The view, the draw counter and the frame's draws never change. |
| Renderers.Renderer.InitDefaultShader | renderer/src/Backends/OpenGL45/Renderer.cpp:305-320 | Loads "shaders/default.glsl". Succeeds exactly when that file is readable and Compile then builds every variant, the old ones and those the file's meta flags add, from the texts Load read. |
| Renderers.Renderer.Shutdown | renderer/src/Backends/OpenGL45/Renderer.cpp:99-103 | Both lists are emptied. |
| Renderers.Renderer.BeginFrame | renderer/src/Backends/OpenGL45/Renderer.cpp:124-131 | The draw counter and the frame's draws are reset, and nothing else changes. |
| Renderers.Renderer.CreateShader | renderer/src/Backends/OpenGL45/Renderer.cpp:147-159 | Returns a fresh shader named after the path exactly when the file is readable, and null otherwise. |
| Renderers.Renderer.ReloadShaders | renderer/src/Backends/OpenGL45/Renderer.cpp:164-168 | The default shader reloads as Shader.Reload states: its variants and current object are CompileFrom over ReloadedVariants with ReloadedTexts, its texts, flags and error message are Load's, and its old variants keep their flags, followed by a readable file's supported combinations. |
| Renderers.Renderer.SetRenderView | renderer/src/Backends/OpenGL45/Renderer.cpp:219-230 | GetRenderView afterwards returns the view that was set. |
| Renderers.Renderer.PerformDrawCall | renderer/src/Backends/OpenGL45/Renderer.cpp:365-382 | The command is DrawFor, and the counter goes up by one modulo 2^32 even when nothing was drawn. |
| Renderers.Renderer.RenderSurface | renderer/src/Backends/OpenGL45/Renderer.cpp:173-205 | One non-instanced draw of all of that surface's indices. The counter goes up by one and (model, surface) joins the end of the frame's draws. |
| Renderers.Renderer.CreateModel | renderer/src/Backends/OpenGL45/Renderer.cpp:252-273 | Appends one fresh buffer with the flattened mesh and a group of one array per surface, and returns the invalid handle. |
| Renderers.Renderer.AllocateTexture | renderer/src/Backends/OpenGL45/Renderer.cpp:286-292 | A fresh, unloaded, initialised texture named `name`. |
| RenderWorlds.FirstInactive | renderer/src/RenderWorld.cpp:69-82 | Finds the lowest inactive slot, or none when every slot is in use. |
| RenderWorlds.DestroyIdempotent | renderer/src/RenderWorld.cpp:128-132 | Destroying twice equals destroying once, and a destroyed handle can no longer be updated. |
| RenderWorlds.CreatedIsUpdatable | renderer/src/RenderWorld.cpp:67-107 | The handle CreateEntity returns can be updated. |
| RenderWorlds.DestroyedSlotIsReused | renderer/src/RenderWorld.cpp:67-132 | A destroyed slot with no free slot before it is the next one CreateEntity takes. |
| RenderWorlds.SurfaceCountMeaning | renderer/src/RenderWorld.cpp:344-352 | The sentinel comes back for an invalid or unknown handle, or when the count truncates to it. Otherwise the result is the surface count. |
| RenderWorlds.DrawsForMeaning | renderer/src/RenderWorld.cpp:318-327 | A frame draws at most the model's surfaces, exactly that many when the count fits an `int`, and none for an unknown model. |
| RenderWorlds.ImmediateDrawnOnce | renderer/src/RenderWorld.cpp:313-335 | An immediate entity (CreateImmediateEntity, lines 112-123) with a known model is drawn in full in one frame, then freed, and never drawn again. |
| RenderWorlds.BadModelImmediateStaysActive | renderer/src/RenderWorld.cpp:318-322 | An immediate entity whose model is unknown is skipped before it is freed. It stays active for ever, and no handle can update it. |
| RenderWorlds.FrameKeepsPersistentSlots | renderer/src/RenderWorld.cpp:313-335 | A frame leaves persistent and destroyed slots unchanged. |
| RenderWorlds.FrameKeepsSlotsWellFormed | renderer/src/RenderWorld.cpp:329-334 | A frame keeps "temporary implies active". |
| RenderWorlds.FindName | renderer/src/RenderWorld.cpp:141-148 | Finds the first entry with the name, or none exactly when the name is absent. |
| RenderWorlds.RegisteredKeepsDistinct | renderer/src/RenderWorld.cpp:223-268 | Find-or-append keeps a registry free of duplicate names, contains the name, and keeps the old entries. |
| RenderWorlds.TextureNames | renderer/src/RenderWorld.cpp:227 | Element by element, the textures' GetName. |
| RenderWorlds.MaterialNames | renderer/src/RenderWorld.cpp:189 | Element by element, the materials' GetName. |
| RenderWorlds.ModelNames | renderer/src/RenderWorld.cpp:144 | Element by element, the models' names. |
| RenderWorlds.SizesOf | renderer/src/RenderWorld.cpp:351 | Element by element, the models' surface counts. |
| RenderWorlds.TextureRegistryStaysDistinct | renderer/src/RenderWorld.cpp:223-268 | Appending a texture whose name is new keeps texture names distinct. |
| RenderWorlds.MaterialRegistryStaysDistinct | renderer/src/RenderWorld.cpp:185-202 | Appending a material whose name is new keeps material names distinct. |
| RenderWorlds.RenderWorld.constructor | renderer/src/RenderWorld.hpp:92-105 | Every slot is free (inactive, not temporary) and every registry is empty. |
| RenderWorlds.RenderWorld.CreateEntity | renderer/src/RenderWorld.cpp:67-83 | The lowest inactive slot takes the parameters and becomes active, and its index is returned. With no free slot, nothing changes and the sentinel is returned. |
| RenderWorlds.RenderWorld.UpdateEntity | renderer/src/RenderWorld.cpp:88-107 | Succeeds exactly for an in-range, active, non-temporary slot, and only then replaces its parameters. |
| RenderWorlds.RenderWorld.CreateImmediateEntity | renderer/src/RenderWorld.cpp:112-123 | Succeeds exactly when a slot is free, and that slot becomes active and temporary. |
| RenderWorlds.RenderWorld.DestroyEntity | renderer/src/RenderWorld.cpp:128-132 | Only that slot becomes inactive and non-temporary. |
| RenderWorlds.RenderWorld.GetNumSurfacesForModel | renderer/src/RenderWorld.cpp:344-352 | The count is SurfaceCountIn of the model sizes. |
| RenderWorlds.RenderWorld.RenderFrame | renderer/src/RenderWorld.cpp:307-339 | The frame's draws are exactly FrameLog: for each active slot in index order whose model count is not the sentinel, surfaces 0 .. n-1 of its model. The counter is their number modulo 2^32, and the view is the given one. Each slot becomes SlotAfterFrame, so immediate entities with a known model are freed and others kept. |
| RenderWorlds.RenderWorld.VisitSlots | renderer/src/RenderWorld.cpp:313-336 | The slot loop issues exactly the draws FrameLog lists, counts FrameDraws of them, and leaves every slot as SlotAfterFrame. |
| RenderWorlds.RenderWorld.RenderSlot | renderer/src/RenderWorld.cpp:315-335 | One slot appends its draws (SlotLog) to the frame's draws, adds their number to the counter and is updated. No other slot changes. |
| RenderWorlds.RenderWorld.DrawSlot | renderer/src/RenderWorld.cpp:315-328 | The backend side of one slot: it is visited exactly when it is active and its model is not the sentinel. It extends the frame's draws from the slots before it by its own SlotLog and the counter to FrameDraws of the slots up to it, and leaves the vertex arrays and the view alone. |
| RenderWorlds.RenderWorld.FindModel | renderer/src/RenderWorld.cpp:140-148 | The dedup loop computes FindName over the model names. |
| RenderWorlds.RenderWorld.CreateModel | renderer/src/RenderWorld.cpp:137-170 | A known path returns its handle. A file that does not load gives the sentinel. In both cases the models, the texture and material registries and the whole backend are unchanged. Otherwise one model is appended at the next handle, with the parsed mesh and a placeholder material named "metal1.png" on its surface. The backend then keeps its old vertex arrays and buffers and gains one buffer with the mesh's vertices and one group with each surface's indices and material (BackendGrewBy). The draw counter, the frame's draws and the view never change. |
| RenderWorlds.RenderWorld.UploadModel | renderer/src/RenderWorld.cpp:164 | The model is appended, the backend stays aligned and grows by the model's buffer and group (BackendGrewBy), and its draw counter, draws and view are unchanged. |
| RenderWorlds.RenderWorld.AddNewModel | renderer/src/RenderWorld.cpp:151-169 | For a path no model has: a file that does not parse leaves models, registries and backend unchanged and gives the sentinel; a parsing one is appended at the next handle with the parsed mesh and the placeholder material, and the backend grows by its buffer and group. |
| RenderWorlds.RenderWorld.LoadNewModel | renderer/src/RenderWorld.cpp:151-162 | Loads exactly when the file parses, and then gives the parsed mesh with placeholder materials; otherwise the registries are unchanged. |
| RenderWorlds.RenderWorld.AssignPlaceholderMaterials | renderer/src/RenderWorld.cpp:157-162 | Every surface gets a material named "metal1.png" and keeps its name and indices. |
| RenderWorlds.RenderWorld.PlaceholderMaterial | renderer/src/RenderWorld.cpp:160-161 | Afterwards the placeholder texture is registered and the material is named after it. |
| RenderWorlds.RenderWorld.FindMaterial | renderer/src/RenderWorld.cpp:187-193 | The loop computes FindName over the material names. |
| RenderWorlds.RenderWorld.CreateMaterialSimple | renderer/src/RenderWorld.cpp:185-202 | Returns the existing material with the texture's name. Otherwise it appends a fresh one with that name, the default shader and the single texture. |
| RenderWorlds.RenderWorld.FindTexture | renderer/src/RenderWorld.cpp:225-231 | The loop computes FindName over the texture names. |
| RenderWorlds.RenderWorld.LoadTexture | renderer/src/RenderWorld.cpp:223-245 | Returns the existing texture with that name. If decoding fails it returns null and registers nothing. Otherwise it appends a fresh loaded texture with the type and the channel-rewritten flags. |
| RenderWorlds.RenderWorld.CreateTexture | renderer/src/RenderWorld.cpp:250-268 | Returns the existing texture. Otherwise it appends a fresh one uploaded as UploadFor(width, height, flags). |
| RenderWorlds.DrawEntity | renderer/src/RenderWorld.cpp:324-327 | The surface loop draws surfaces 0 .. numSurfaces-1 of the entity's model in order, appending them to the frame's draws, and adds max(numSurfaces, 0) to the 32-bit counter. |
| RenderWorlds.FrameLogMeaning | renderer/src/RenderWorld.cpp:315-327 | The frame's draw counter counts the frame's draws, and every draw names a surface its model has. |
| RenderWorlds.EntityDraws | renderer/src/RenderWorld.cpp:324-327 | Surfaces 0 .. n-1 of one model, in order: n draws, the i-th being surface i. |
| RenderWorlds.FrameDrawsStep | renderer/src/RenderWorld.cpp:313-332 | One more slot adds that slot's draw count and appends that slot's draws. |
| RenderWorlds.DecodeNewTexture | renderer/src/RenderWorld.cpp:233-241 | A fresh texture named by the path, loaded exactly when decoding succeeds. |
| RenderWorlds.FillNewTexture | renderer/src/RenderWorld.cpp:261-264 | A fresh texture with the type and flags, uploaded as UploadFor. |
| RenderWorlds.NewMaterial | renderer/src/RenderWorld.cpp:195-198 | A fresh material named after the texture, with the shader and exactly that texture. |

## Left out

- GL calls only change driver state, so they are not modelled:
  - buffer and texture object creation, binding, `glEnable`, `glUseProgram`;
  - uniform setting and `SetupMatrices`.
- Their effects that later behaviour depends on are recorded as data instead:
  - the upload parameters;
  - the attribute pointers;
  - the element indices;
  - the draw command;
  - the draw counter;
  - the bound shader variant.
- `GLError`, `printf` and `PrintTextureInfo` only print, so they are not modelled.
- Floating point is modelled as `real`:
  - OBJ number words get their value from a `FloatReader` parameter;
  - the int8/int16 packing of normals and texture coordinates is left out; the ×127 and ×32767 scalings are modelled, but not their truncation.
- The file system, `std::filesystem::exists`, the stream's `bad()`/`eof()` state, `stbi_load`, `glewInit` and the GLSL compiler are parameters:
  - `ModelFile`, `ShaderFile`, `Option<ImageInfo>`, the GLEW outcome and `Driver`;
  - pixel data itself is not modelled.
- ObjModel.Scan: where the source has undefined behaviour, the model reports a failed parse and the model is not okay. The cases are:
  - a corner that does not hold three integers;
  - an index outside its list;
  - a face cut short by the end of the file.
- The Assimp loader path (`FOX_USE_ASSIMP`) is not modelled.
- Empty stubs: `UpdateModel`, `LoadMaterial`, `ReloadMaterials`, `UpdateTexture`, `LoadShader`, `RenderSurfaceBatch`, `CopyFrameToTexture`, `CalculateModelMatrix`, `GetBatchIndex`.
- Members that delegate or print only:
  - `RenderWorld::Init`, `Shutdown`, `ReloadShaders`, `GetAPIName`, `IsHardware`: they delegate to the backend registry and to `delete`;
  - the front end's `shaders` list is never filled anywhere, so `ReloadShaders` only reloads the backend's default shader, which `Renderers.Renderer.ReloadShaders` models.
- `BackendRegistry` and the samples are not part of this model.
- Backend `Clear` and `EndFrame` (colour clear and unbinding) are not modelled.
- RenderSurface's material lookups are not modelled: the `GetTexture`/`GetShader` calls and the argument-less `shader->Bind()`, whose implementation is not part of this model.
- Pointer identity beyond what is modelled is left out:
  - `VertexArray` keeps a pointer to a buffer inside a `std::vector` that later `push_back`s may move;
  - `new`/`delete` of failed textures and shaders;
  - `models.push_back` moving earlier `Model`s.
- Sources the model depends on but does not include:
  - RenderEntityParams.hpp, RenderModelParams.hpp and RenderView.hpp are not part of this model. Their fields are taken as listed in `RenderTypes`, and a fresh view is all zeros.
  - Model.hpp is not part of this model either: a new `Model` is taken to start with an empty name, `okay` false and an empty mesh.
  - The shader flag values (Normal = 1, Instanced = 2, CanSkin = 4) are not defined in any modelled file, so they are assumed.
- Shaders.Shader.constructor: the Shader.hpp shown declares neither `versionText`, `supportedShaderFlags`, `apiObjects` nor `currentObject`, all of which Shader.cpp uses. They start empty, zero and none.
- Renderers.Renderer.constructor: `numDrawCalls` has no initialiser. It is zero because `new Renderer_OpenGL45()` value-initialises the object.
- RenderWorlds.RenderWorld.CreateModel requires three things:
  - fewer than 2^32-1 models, so the handle fits;
  - the placeholder "metal1.png" must be loadable whenever a new model loads, because the source dereferences the null texture otherwise;
  - the render world's own invariant (`Valid`): temporary slots are active and the backend's model list matches the front end's.
- RenderWorlds.RenderWorld.CreateModel: the source's push-then-pop on failure is modelled as appending only on success. The two leave the same model list.
- RenderWorlds.RenderWorld.LoadTexture, RenderWorlds.RenderWorld.CreateTexture and RenderWorlds.RenderWorld.CreateMaterialSimple state registry membership and the append, but not the full name list afterwards. Distinctness of the name list is stated separately by TextureRegistryStaysDistinct and MaterialRegistryStaysDistinct.
- RenderWorlds.RenderWorld.DestroyEntity requires an in-range handle. The source's `entities.at()` throws `std::out_of_range` otherwise, and exceptions are not modelled.
- Renderers.Renderer.RenderSurface requires an existing model and surface. The source indexes `vertexArrays[params.model]` unchecked.
- Textures.Texture.Bind requires a unit below 256, the range of `uint8_t`.
- VertexBuffers.ObjVertexRecordRoundTrip is exact only because the `i8vec4`/`i16vec2` fields are not modelled. In the source, normals are quantised to steps of 1/127, and a texture coordinate outside [-1, 1] overflows its int16 field. The record holds the parser's flipped v (1 - v), not the file's v.
- ObjModel.ReadFloat reads whole whitespace-separated words. The stream's `>>` stops at the end of the numeric prefix: "1.5abc" gives 1.5, and the next read then fails on "abc". After a failed read the later elements of the same line stay indeterminate in the source; the model gives them 0.0.
- Geometry.NamedSurface gives the material null. The source leaves the material pointer uninitialised.

## Findings

| source | as written | input that shows it | evidently intended | confidence | as-written member | corrected member |
|---|---|---|---|---|---|---|
| renderer/src/Material.cpp:31-36 | The loop variable `texture` shadows the parameter, so `texture == texture` is always true. Without `force`, any non-empty list returns before appending. | A material holding texture A; `AddTexture(B)` with B ≠ A leaves the list as [A]. | Add unless the same texture is already present (IMaterial.hpp:173-177). | not executed | Materials.AddTextureDropsNewTexture | Materials.Material.AddTextureUnique |
| renderer/src/FrontendTexture.cpp:12 | `stbi_load` is always asked for 3 components, but lines 19-33 choose the upload format from the file's own channel count. | A 4-channel PNG is uploaded as RGBA8 (4 bytes per texel) from a 3-byte-per-texel buffer; a 1-channel image is uploaded as R8 from a 3-byte buffer. | Request the component count of the format the flags select. | not executed | Textures.DecodedBufferMismatch | Textures.RequestedComponentsFor |
| renderer/public/DrawGeometry.hpp:102-106 | The fill reserves `vertices.size()` indices but pushes one index per triangle. | One vertex and three triangles give indices 0, 1, 2, and indices 1 and 2 name no vertex; three vertices and one triangle give the single index 0. | One index per vertex, 0 .. vertices.size()-1. | not executed | Geometry.AutoIndexCountsTriangles | Geometry.DrawMesh.AddSurfaceByVertices |
