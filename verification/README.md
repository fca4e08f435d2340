# PBR renderer: image-based-lighting passes and resource life cycle

A model in Dafny of the logic of an OpenGL physically-based renderer. The
model covers:

- the four image-based-lighting (IBL) capture passes: equirectangular image to
  cube map, irradiance convolution, specular prefilter and BRDF lookup texture;
- the renderer's start-up, per-frame and shut-down handling of the maps and
  capture objects;
- the scroll and mouse callbacks' clamps;
- the vertex-attribute layout fold;
- the shader wrapper's uniform-location cache and source assembly;
- the 2D-texture wrapper's initialised flag and format table;
- the framebuffer wrapper's attachment bookkeeping.

OpenGL is an immutable record (`Gl.State`). It holds:

- the bound framebuffer and renderbuffer;
- the depth renderbuffer attached to each framebuffer;
- the storage size of each renderbuffer;
- the colour target at each attachment point;
- the viewport;
- the texture bound on each unit of each target;
- the current program;
- the set of live objects and an append-only log of object events;
- an append-only trace of draws.

Each draw snapshots what a draw depends on. This is the bound framebuffer, the
colour target attached at point 0 and its size, the depth storage, the viewport,
the program, the textures on each unit, the `view` index and the `roughness`
uniform. A draw is *consistent* when its depth storage, its viewport and its
colour target all have the same size.

Names that `glGen*` returns, what the image decoder returns, window sizes and
the file picked in the settings window are parameters. A debug build is assumed:

- the `Texture2D::Bind` assertion becomes the fault `TextureNotInitialized`;
- the exception `Shader::Bind` throws becomes the fault `ShaderNotInitialized`.

Operations that can fail return a `Result`.

Modules follow the source files:

- `Gl`: the GL state and its primitive calls;
- `Texture2D`: `src/opengl/Texture2D.cpp`;
- `Shader`: `src/opengl/Shader.cpp`;
- `Layout`: `src/opengl/Layout.cpp`;
- `Framebuffer`: `src/opengl/Framebuffer.cpp`;
- `Ibl`: `src/core/Ibl.cpp`;
- `Lifecycle`: the start-up, loop and shut-down of `src/main.cpp`;
- `Input`: the scroll and mouse callbacks of `src/main.cpp`;
- `Wrappers`: `Option`, `Result` and the fault type.

The renderer passes `capture_fbo` where `capture_rbo` is expected
(src/main.cpp:223, 227, 306, 307). The model keeps this as written. The
context is a 4.6 core profile (src/main.cpp:80-82), where binding a
renderbuffer name that names no live renderbuffer fails with
GL_INVALID_OPERATION and leaves the binding alone (`Gl.RenderbufferBinding`).
The irradiance and prefilter resizes therefore land on:

- the framebuffer's own depth renderbuffer, when the two handles carry the
  same number;
- the renderbuffer `CubemapFromHDRI` left bound, which is that same depth
  renderbuffer, when no renderbuffer carries the framebuffer's number;
- a different renderbuffer, only when one is alive under the framebuffer's
  number.

`Ibl.IrradianceConsistent` and `Ibl.PrefilterConsistentIff` relate
consistency to whether the resize reaches the attached depth renderbuffer.
`Lifecycle.BuildConsistentIff` and `Lifecycle.RunBuild` turn this into an
exact condition on the live objects (`Lifecycle.AliasReaches`). Between
frames the capture renderbuffer is the only live renderbuffer
(`Lifecycle.OwnsRenderbuffers`), so in the program as it runs every build
draw is consistent (`Lifecycle.Startup`, `Lifecycle.Rebuild`,
`Lifecycle.Frame`).

## Model

| member | source | states |
|---|---|---|
| Ibl.FindLastOf | src/core/Ibl.cpp:15 | `find_last_of`: npos (2^64-1) exactly when the character is absent; otherwise an index holding it with no occurrence after it |
| Ibl.Extension | src/core/Ibl.cpp:15 | the extension is a dot-free suffix of the path preceded by a '.', or the whole path when it has no '.' (npos + 1 wraps to 0) |
| Ibl.ExtensionAfterLastDot | src/core/Ibl.cpp:15 | for a dot-free `ext`, the extension of `stem + "." + ext` is `ext`, whatever the stem contains |
| Ibl.FormatAssertion | src/core/Ibl.cpp:17 | the format assertion's condition holds for every extension, so it never rejects a path |
| Ibl.Roughness | src/core/Ibl.cpp:161 | the roughness of a level is its share of the last level: times 4 it gives the level, and it lies in [0, 1] for the five rendered levels |
| Ibl.LevelSetup | src/core/Ibl.cpp:157-162 | the level's set-up sizes whatever renderbuffer the core-profile bind of the handle leaves bound, sets the viewport to the level size and the roughness uniform, and changes nothing else; repeating the bind leaves the same renderbuffer bound |
| Ibl.DrawFace | src/core/Ibl.cpp:69-74 | one face: only the colour attachment, the view index and the trace change; with a framebuffer bound, one draw of that face and level is appended over the current depth, viewport and roughness |
| Gl.RenderbufferBinding | src/core/Ibl.cpp:98 | in the 4.6 core context the bind of `capture_rbo` takes effect exactly for 0 or a live renderbuffer; any other name leaves the previous binding |
| Ibl.MipSize | src/core/Ibl.cpp:155-156 | the level size is the integer part of 128 * 0.5^mip |
| Ibl.MipSizes | src/core/Ibl.cpp:151-156 | the five prefilter level sizes are 128, 64, 32, 16, 8; each is half the previous and equals 128 / 2^m, the size GL gives mip level m of a 128 image |
| Ibl.RoughnessSchedule | src/core/Ibl.cpp:151-161 | the roughness of level m is m/4: 0, 0.25, 0.5, 0.75, 1, within [0, 1] and strictly increasing |
| Ibl.PrefilterLevelsExist | src/core/Ibl.cpp:140-151 | the mipmapped 128 cube map has 8 levels, so all 5 rendered levels exist |
| Ibl.DrawFaces | src/core/Ibl.cpp:67-75 | the face loop changes only the colour attachment, the view index and the draw trace, and appends one draw per face from `i` to 5 |
| Ibl.FaceDrawsRun | src/core/Ibl.cpp:67-75 | draw k of a face loop renders face +X+k at the given level, with the loop's viewport, depth, framebuffer, program and sampled texture |
| Ibl.NewCubemap | src/core/Ibl.cpp:34-41 | a fresh cube texture of the given square size, RGB16F, one level, bound on the active unit, and alive |
| Ibl.ResizeCapture | src/core/Ibl.cpp:97-99 | binds the capture framebuffer; the renderbuffer bind takes effect only for 0 or a live renderbuffer, and the size lands on whatever renderbuffer is bound afterwards; the framebuffer's depth changes exactly when that is its attached renderbuffer |
| Ibl.BindEnvironment | src/core/Ibl.cpp:106-107 | the environment map goes on cube unit 0; every other unit is unchanged |
| Ibl.CaptureFaces | src/core/Ibl.cpp:65-76 | six draws appended with a square viewport, each rendering one face at level 0 while sampling what unit 0 holds; framebuffer 0 is bound afterwards |
| Ibl.CubemapTargets | src/core/Ibl.cpp:19-41 | decodes the image, creates the capture framebuffer with 512x512 depth attached and the 512x512 RGB16F cube map, and logs the creations in order |
| Ibl.CubemapFromHdri | src/core/Ibl.cpp:12-79 | `CubemapFromHDRI` fails exactly when the program is missing (shader fault) or the image does not decode (texture assertion at line 63) |
| Ibl.CubemapTail | src/core/Ibl.cpp:65-79 | after the binds: six face draws of the cube map, framebuffer 0, and the image texture deleted again |
| Ibl.CubemapFromHdriBuilds | src/core/Ibl.cpp:12-79 | on success there are exactly 6 draws, draw i to face +X+i at level 0 with viewport and depth 512x512 while sampling the image; framebuffer 0 is bound on return; the live objects and the event log are as the pass creates and deletes them |
| Ibl.FaceRunConsistent | src/core/Ibl.cpp:109-118 | all draws of a face run are consistent exactly when the run's depth storage equals its viewport |
| Ibl.CreateIrradianceMap | src/core/Ibl.cpp:81-122 | the pass fails exactly when the irradiance program is missing |
| Ibl.CreateIrradianceMapBuilds | src/core/Ibl.cpp:84-121 | on success there are 6 draws of face i at level 0 with a 32x32 viewport, sampling the environment map, over the depth the 32x32 resize of the handle passed as `capture_rbo` left; the 32x32 map exists; framebuffer 0 is bound |
| Ibl.IrradianceConsistent | src/core/Ibl.cpp:97-118 | the irradiance draws are consistent exactly when the resize left 32x32 depth for the framebuffer; this holds whenever the bind of the handle leaves the framebuffer's attached renderbuffer bound |
| Ibl.LevelPass | src/core/Ibl.cpp:154-170 | one mip level: resize of the handle's storage, viewport and roughness of the level, and six draws of that level |
| Ibl.PrefilterLevels | src/core/Ibl.cpp:152-171 | the level loop from `mip` to 4 appends the level runs in level-major order and changes no object |
| Ibl.LevelDrawsRun | src/core/Ibl.cpp:152-171 | draw 6m+f renders face f at level m with a viewport of the level's size and roughness m/4, sampling the environment map |
| Ibl.NewPrefilterMap | src/core/Ibl.cpp:127-140 | a fresh 128x128 RGB16F cube map with its mipmap chain, bound on the active unit |
| Ibl.CreatePrefilterMap | src/core/Ibl.cpp:124-175 | the pass fails exactly when the prefilter program is missing |
| Ibl.PrefilterRender | src/core/Ibl.cpp:144-172 | 30 draws appended in level-major order with the environment map on cube unit 0; no object or texture changes; framebuffer 0 is bound |
| Ibl.CreatePrefilterMapBuilds | src/core/Ibl.cpp:127-174 | on success there are 30 draws of the prefilter map over the environment map, the map with its mip chain exists, and framebuffer 0 is bound |
| Ibl.PrefilterPairsOnce | src/core/Ibl.cpp:152-170 | each (face, level) pair is attached at draw 6·level+face, and no two draws share a target, so each pair is attached exactly once |
| Ibl.PrefilterConsistentIff | src/core/Ibl.cpp:154-169 | all 30 prefilter draws are consistent exactly when the level resizes reach the framebuffer's attached depth renderbuffer; otherwise the five level sizes cannot all match the untouched storage |
| Ibl.NewLookupTexture | src/core/Ibl.cpp:179-184 | a fresh 512x512 RG16F 2D texture bound on the active unit |
| Ibl.CreateBrdfLookupTexture | src/core/Ibl.cpp:177-204 | the pass fails exactly when the BRDF program is missing |
| Ibl.CreateBrdfLookupTextureBuilds | src/core/Ibl.cpp:179-203 | on success there is exactly one quad draw into the whole 512x512 RG16F texture with a 512x512 viewport, the texture is attached at point 0, and framebuffer 0 is bound |
| Ibl.BrdfConsistent | src/core/Ibl.cpp:192-200 | the quad draw is consistent exactly when the resize left 512x512 depth for the framebuffer, in particular when the handle is its depth buffer |
| Lifecycle.Build | src/main.cpp:219-231 | a build fails exactly when a capture program is missing or the image does not decode; the texture fault arises exactly from a failed decode |
| Lifecycle.Convolve | src/main.cpp:223-231 | the three passes after the cube map fail exactly when one of their programs is missing |
| Lifecycle.BuiltKeepsMaps | src/main.cpp:219-231 | after a build the four maps and both capture objects are alive, the environment map is on cube unit 0, and the events are the build's |
| Lifecycle.BuiltDrawsFromPasses | src/main.cpp:219-231 | the four passes' runs, each extending the trace, line up as the build's draws in the order cube map, irradiance, prefilter, lookup |
| Lifecycle.BuildBuilds | src/main.cpp:219-231 | a successful build appends 6 + 6 + 30 + 1 draws in order cube map, irradiance, prefilter, BRDF; irradiance and prefilter sample the cube map just built |
| Lifecycle.ConvolveBuilds | src/main.cpp:223-231 | the three later passes composed after a built cube map give the whole build |
| Lifecycle.BuildTail | src/main.cpp:219-231 | the four passes' post-states compose into the state a build promises |
| Lifecycle.BuildConsistentIff | src/main.cpp:219-231 | every draw of a build is consistent exactly when the irradiance and prefilter resizes, made through `capture_fbo` (lines 223, 227), reach the capture depth renderbuffer |
| Lifecycle.DeleteMaps | src/main.cpp:297-300 | deleting the four maps logs four deletions in order and removes exactly those textures from the live set |
| Lifecycle.Release | src/main.cpp:297-303 | the rebuild's deletions log the four maps, the renderbuffer and the framebuffer, and remove exactly those six objects; the old renderbuffer is gone and every other renderbuffer keeps its liveness |
| Lifecycle.Teardown | src/main.cpp:348-354 | on exit, both capture objects and the four maps are deleted, and the live set loses exactly these six |
| Lifecycle.ReleaseDeletesEachOnce | src/main.cpp:348-354 | both release sequences delete six different objects, each once, all among the owned handles, and the same six |
| Lifecycle.RunBuild | src/main.cpp:219-231 | a build fails exactly when a capture program is missing or the image fails to decode; it appends the build's draws and events, leaves the six objects alive and the environment map on cube unit 0, adds only its own renderbuffer, and all its draws are consistent exactly when the framebuffer's number is the renderbuffer's or names no live renderbuffer |
| Lifecycle.BindMaterial | src/main.cpp:271-274 | binding a material fails exactly when one of its textures is not loaded; otherwise units 3-6 hold its four textures and units 0-2 are untouched |
| Lifecycle.ShadeScene | src/main.cpp:264-294 | the floor and then the sphere are drawn with the PBR program and their materials, reading whatever the three lighting units held beforehand |
| Lifecycle.BindIbl | src/main.cpp:318-324 | after the IBL binds the irradiance, prefilter and lookup samplers read the current maps; the material units are unchanged |
| Lifecycle.Skybox | src/main.cpp:328-333 | the skybox draw samples the environment map on cube unit 0; only the program, unit 0 and the trace change |
| Lifecycle.Select | src/gui/GUI.cpp:69-83 | a picked file becomes the settings path and raises `on_change`; without a pick nothing changes |
| Lifecycle.SetUniforms | src/main.cpp:152-170 | the sampler set-up fails exactly when the PBR, equirectangular or skybox program is missing, and leaves the skybox program bound |
| Lifecycle.Startup | src/main.cpp:152-244 | start-up builds the maps from the default file in the order cube map, irradiance, prefilter, BRDF; it leaves nothing pending, the viewport at the framebuffer size, the six objects alive and the environment map on cube unit 0; from a context with no renderbuffer, the capture renderbuffer is the only one and every build draw is consistent |
| Lifecycle.Rebuild | src/main.cpp:296-316 | a rebuild deletes the old maps and capture objects before creating any new one; it builds from the settings path, sets the viewport to the window size and clears `on_change`; when the old capture renderbuffer was the only one, the new one is, and every build draw is consistent |
| Lifecycle.Pending | src/main.cpp:296-316 | the rebuild runs only when `on_change` is up; afterwards `on_change` is false, and when nothing was pending nothing changed; the capture renderbuffer stays the only one, and every draw it appends is consistent |
| Lifecycle.Present | src/main.cpp:318-336 | the skybox draw reads the environment map, the prefilter map and the lookup texture of the maps present after the rebuild block; a pick in the settings window takes effect only in the flag and the path |
| Lifecycle.Frame | src/main.cpp:251-343 | the loop body as written: PBR draws first, then the rebuild when pending, then the binds and the skybox; the sphere's irradiance sampler reads the environment map when the frame begins with it on unit 0 (see Findings); the capture renderbuffer stays the only one, and every rebuild draw is consistent |
| Lifecycle.ShadeLit | src/main.cpp:318-324 | with the IBL binds first, both PBR draws read the given maps through their three lighting samplers |
| Lifecycle.FrameCorrected | src/main.cpp:251-343 | with the PBR draws moved after the IBL binds, both draws read the irradiance map, prefilter map and lookup texture that the frame's maps hold |
| Lifecycle.FirstFrame | src/main.cpp:219-294 | in the first frame after start-up the sphere's irradiance sampler reads the environment map, not the irradiance map |
| Lifecycle.TwoFrames | src/main.cpp:296-336 | a file picked in one frame's settings window is rebuilt in the next frame, from the picked path; without a pick no object is created or deleted |
| Input.Scroll | src/main.cpp:420-427 | the new field of view is the point of [1, 45] nearest to fov - yoffset |
| Input.ScrollAllStaysInRange | src/main.cpp:420-427 | from a field of view in [1, 45], any run of scroll events keeps it in [1, 45] |
| Input.ScrollInsideRange | src/main.cpp:422-426 | a scroll that stays in range moves by exactly the offset; one that would leave stops at the crossed bound |
| Input.NearestIsUnique | src/main.cpp:406-409 | the nearest point of an interval is unique: the target when inside, otherwise the bound it passed |
| Input.InitialLook | src/main.cpp:55-59 | the initial globals have `firstMouse` set and the pitch within [-89, 89] |
| Input.Mouse | src/main.cpp:377-409 | with Z held nothing changes; otherwise the position is recorded, the first event does not turn, yaw turns by a tenth of the x travel, and the pitch is the point of [-89, 89] nearest to the turned pitch |
| Input.MouseAllKeepsPitch | src/main.cpp:406-409 | over any run of cursor events the pitch stays within [-89, 89] |
| Input.FirstMoveKeepsView | src/main.cpp:386-403 | the first handled cursor event leaves the initial yaw and pitch unchanged |
| Layout.TypeSize | src/opengl/Layout.cpp:42-58 | GL_FLOAT, GL_INT and GL_UNSIGNED_INT have size 4 and GL_UNSIGNED_BYTE size 1; the size is non-zero for exactly these four types |
| Layout.Push | src/opengl/Layout.cpp:20-28 | a push uses the layout's index and moves it on by one, passes count and type through, counts the components, and scales offset and stride by the type's size (4 or 1, 0 for other types), all modulo 2^32; the layout's stride is untouched |
| Layout.PushEachLayout | src/opengl/Layout.cpp:20-28 | after n pushes the index has grown by n and the offset count by the components pushed, modulo 2^32, and the stride is unchanged |
| Layout.PushEachClosedForm | src/opengl/Layout.cpp:22-27 | the k-th pushed attribute gets index `index + k`, byte stride = stride × type size, and byte offset = (earlier components) × its own type size, each modulo 2^32 |
| Layout.FreshLayoutPushes | src/opengl/Layout.cpp:5-18 | from a fresh layout, after n pushes `Index()` is n and the offset count the components pushed (modulo 2^32), `Stride()` is 0; attribute k gets index k, and the first attribute gets offset 0 |
| Layout.PushList | src/opengl/Layout.cpp:30-40 | pushing a list produces the same layout and the same driver calls as pushing its elements one by one in order |
| Shader.GetUniformLocation | src/opengl/Shader.cpp:159-171 | a hit returns the cached value without a query; a miss queries once and caches the result; the cache only grows and keeps other entries |
| Shader.LookupIsStable | src/opengl/Shader.cpp:159-171 | once a name is looked up, a later lookup returns the same location, issues no query and leaves the program unchanged |
| Shader.LookupAllLocations | src/opengl/Shader.cpp:159-171 | each lookup in a sequence returns the entry-time cached value or the driver's answer, and afterwards every looked-up name is cached |
| Shader.LookupAll | src/opengl/Shader.cpp:159-171 | a run of lookups returns one location per name for the same program, drops nothing from the cache, and queries the driver at most once per lookup |
| Shader.LookupAllQueriesOncePerName | src/opengl/Shader.cpp:162-168 | over any sequence of lookups the driver is queried exactly once for each name not cached on entry, and never for a cached one |
| Shader.LineEnd | src/opengl/Shader.cpp:126 | the first newline of the text, or its end when there is none |
| Shader.Lines | src/opengl/Shader.cpp:126 | the lines `getline` extracts contain no newline |
| Shader.ParseShader | src/opengl/Shader.cpp:121-130 | the assembled source is the file's text, newline-terminated |
| Shader.JoinLines | src/opengl/Shader.cpp:121-130 | joining the lines `getline` extracts, each followed by "\n", gives the text with a final newline added when missing |
| Shader.LinesOfJoin | src/opengl/Shader.cpp:121-130 | splitting the assembled text recovers the lines: each line is followed by exactly one "\n", in order, and a second assembly changes nothing |
| Shader.JoinEndsWithNewline | src/opengl/Shader.cpp:127 | the assembly of one or more lines ends with "\n" |
| Texture2D.ChannelFormat | src/opengl/Texture2D.cpp:21-27 | a format is chosen exactly for 1, 3 and 4 channels; it is RED, RGB or RGBA with that many components |
| Texture2D.Upload | src/opengl/Texture2D.cpp:30-31 | the 2D texture bound on the active unit gets the image's size at level 0 and its full mip chain, and nothing else changes; with none bound nothing changes at all |
| Texture2D.ChannelFormatMatchesComponents | src/opengl/Texture2D.cpp:22-27 | 1, 3 and 4 channels map to RED, RGB and RGBA, inverse to their component counts; other channel counts get no format |
| Texture2D.FromPath | src/opengl/Texture2D.cpp:13-46 | width, height and channels start at 0; `initialized_` becomes true exactly when the decoder returns data; a null result leaves the size at 0 and prints the failure |
| Texture2D.WithFormat | src/opengl/Texture2D.cpp:48-98 | initialised exactly when the format is GL_RGB or GL_RGBA16F and the decode succeeds; GL_RGB warns on a channel count other than 3 or 4 but still uploads; any other format decodes nothing |
| Texture2D.EmptyCannotBind | src/opengl/Texture2D.h:23-28 | a default-constructed texture (only the in-class initialisers run, `initialized_` false) fails `Bind`'s assertion on every unit, and still does after the reloader runs on it |
| Texture2D.LoadTexture | src/opengl/Texture2D.cpp:138-169 | the reloader takes a new name and uploads like the path constructor, but never changes `initialized_` |
| Texture2D.Bind | src/opengl/Texture2D.cpp:105-111 | `Bind` fails its assertion exactly when the texture is not initialised; otherwise the texture goes on 2D unit `slot` and every other unit is unchanged |
| Framebuffer.Create | src/opengl/Framebuffer.cpp:5-10 | a new framebuffer is bound and alive, with no attachments and index 0 |
| Framebuffer.AttachDepthBuffer | src/opengl/Framebuffer.cpp:29-36 | the depth storage is exactly (width, height) and attached; a second call overwrites the stored handle without deleting the first |
| Framebuffer.AttachColorBuffer | src/opengl/Framebuffer.cpp:38-52 | attaches the freshly generated texture at point `index_` (the `index` argument is ignored), records it and increments the counter |
| Framebuffer.AttachColorTexture | src/opengl/Framebuffer.cpp:54-60 | binds the texture first (failing its assertion when uninitialised), then attaches it at point `index_`, records it and increments the counter |
| Framebuffer.Record | src/opengl/Framebuffer.cpp:49-51 | one colour attachment: with a framebuffer bound, point `index_` holds the whole texture at level 0; the id is recorded last, `index_` grows by one, and every other point and all other state are unchanged |
| Framebuffer.AttachAll | src/opengl/Framebuffer.cpp:49-51 | after k more attachments `index_` has grown by k, the list holds the new ids in order after the old ones, and id j sits at its own point `index_ + j`; earlier points are untouched |
| Framebuffer.CreateAndAttach | src/opengl/Framebuffer.cpp:49-51 | from a new framebuffer, after k attachments `index_` is k and the list holds the k ids in attachment order, each at its own point |
| Framebuffer.ResizeKeepsDepth | src/opengl/Framebuffer.cpp:67-70 | a resize after a depth attachment changes only the viewport, so the depth storage keeps its attached size |
| Framebuffer.DeleteTextures | src/opengl/Framebuffer.cpp:15 | glDeleteTextures logs one deletion per name, kills each named texture, adds no object and keeps every non-texture object |
| Framebuffer.Destroy | src/opengl/Framebuffer.cpp:12-17 | the destructor deletes the framebuffer and every recorded colour attachment; the depth handle goes through the texture-delete call, so a live depth renderbuffer stays alive |

## Left out

- GLFW: the window and context set-up, callback registration, event polling,
  timing and `ProcessInput` camera motion. This is I/O and floating point. The
  window and framebuffer sizes and the Z-key state are parameters.
- The settings window: ImGui and the file dialog of `src/gui/GUI.cpp`. A pick
  is an `Option<string>` input to `Lifecycle.Select`.
- Shader compilation and linking (`Shader`'s constructor, `CompileShader`). The
  program id they produce is an input. The file read in `ParseShader` is taken
  as the file's text.
- Pixel contents: stb_image is an `Option<Image>` input, and the convolution,
  Monte-Carlo and BRDF kernels are not modelled.
- glm matrices and uniforms other than the `view` index and `roughness`. The
  matrices are not modelled; only which view index a draw used is recorded.
- `glTexParameteri`, `glClear` and the other calls that affect no tracked
  state.
- `src/opengl/VertexBuffer.cpp`, `IndexBuffer.cpp`, `VertexArray.cpp` and the
  renderer's draw routines. These are thin handle wrappers, and draws are
  opaque draw events.
- Lifecycle.Startup: the extra `hdr_map` texture loaded at src/main.cpp:194 and
  the eight material textures (196-204) are not modelled. The materials enter
  the frame as already-loaded `Material` values.
- Input.Mouse: the camera's front vector (src/main.cpp:411-415) is
  trigonometry and is left out.
- Input.Scroll and Input.Mouse: computed over the reals. They do not model
  single-precision rounding of `0.1f` and the float sums.
- Ibl.MipSize: `std::pow(0.5, mip)` is modelled as an exact real. This is exact
  in binary floating point for the five levels used.
- Ibl.RoughnessSchedule: `mip / 4` as a real. Single-precision `float`
  division gives exactly these five values.
- Gl.RenderbufferBinding: of the core profile's renderbuffer-bind errors only
  the unknown name is modelled; the GL error flag itself is not recorded.
- Texture2D.FromPath: when the channel count has no format, the upload with an
  unassigned format is modelled as leaving the texture unchanged. The C++
  behaviour is undefined.
- Framebuffer.AttachDepthBuffer: the storage's internal format
  (GL_DEPTH_COMPONENT24) is not tracked.
- Framebuffer.AttachAll, Framebuffer.CreateAndAttach: attachment points
  beyond GL_MAX_COLOR_ATTACHMENTS are not rejected. The driver limit is not
  part of the model, so `index_` can grow past it.
- Framebuffer `CheckStatus` (src/opengl/Framebuffer.cpp:72-75): it only
  compares the driver's glCheckFramebufferStatus answer with
  GL_FRAMEBUFFER_COMPLETE, and GL framebuffer completeness is not modelled.
- Layout: the conversion of the byte stride to `GLsizei` in
  glVertexAttribPointer is not modelled; strides are kept as unsigned values.
- Destructors of `Texture2D` and `Shader` objects outside the passes. The
  `hdr_map` inside `CubemapFromHDRI` is deleted on return and is modelled.

## Findings

| source | as written | input that shows it | evidently intended | confidence | as-written member | corrected member |
|---|---|---|---|---|---|---|
| src/main.cpp:264-294, 318-332 | the floor and the sphere are drawn before the IBL binds, and line 326 notes that sphere rendering used to come after them; at draw time cube unit 0 still holds the environment map, left by the previous frame's skybox bind (331-332) or by the prefilter pass (src/core/Ibl.cpp:147-148), so the PBR `irradiance_map` sampler (unit 0, line 153) reads the environment map, not the irradiance map | the first frame after any successful start-up: the sphere draw samples the environment map on cube unit 0 | PBR draws after the binds at 318-324, reading the irradiance map, prefilter map and lookup texture of the current maps | not executed | Lifecycle.FirstFrame | Lifecycle.FrameCorrected |
