# OpenGL sandbox core in Dafny

A Dafny model of the plain sequential logic inside a small C++ OpenGL
sandbox (codethakur/OpenGL), with the properties its code promises proved
about the model.

- **Driver calls as a trace.** The GL calls of the modelled operations are
  recorded as `GlCall` values (module `Gl`), except those listed under
  "Left out". Each such operation returns the calls it issues, in order.
  The destructor instead returns the deletes it performs, as `Release`
  values.
- **Resources as objects.** Vertex arrays, vertex buffers, index buffers,
  textures and shaders are Dafny objects, so "fresh resource" means a fresh
  allocation.
- **Unsigned integers.** The `unsigned int` and `uint32_t` values the code
  does arithmetic on are the `uint32` newtype: the stride, offsets and
  attribute index in the layout walk, and `nextId`. Their wrap-around is
  written out with `Wrap32`. Ids, counts and slots that are only passed to
  the driver are `nat`.

The modules follow the source files:

- `Gl`: `uint32` and wrap-around; component types (only `float`,
  `unsigned int` and `unsigned char`, because `Push<T>` accepts only those);
  colours; symbolic matrices; the `GlCall` trace and its draw count.
- `Console`: `getColorCode`, `LOG` and `LOGN` as functions. Each returns
  the exact text written. A decoder reads a logged message back.
- `Layout`: `VertexBufferElement` and `VertexBufferLayout`, with the byte
  arithmetic of one interleaved vertex.
- `Buffers`: the resource wrappers, and `VertexArray::addBuffer` as a loop
  proved against the reference walk `AttributeWalk`.
- `Shaders`:
  - `parseShader` as an imperative line scan, proved equal to the reference
    `Parse`;
  - the compile-failure result;
  - the `Shader` class with its uniform-location cache and the uniform
    setters.
- `Renderer`: `Renderer::Draw` and `Renderer::Clear` as call traces.
- `Engine`: `Graphicsengine` as a class. It holds the id-to-bundle
  registry, the `nextId` counter, the shader and the projection, and
  provides `createQuad`, `draw`, `clear` and the destructor.
- `Cube`: `Cube::build` appending six face records to the caller's object
  list, each with an id from the `createCube` id source.

The main invariants:

- `Shader.Valid`: every cached uniform location equals the driver's answer.
- `Graphicsengine.Valid`: the cache is valid, every bundle is a quad bundle,
  and no two bundles share a resource.
- `Graphicsengine.Dense`: the registry holds exactly the ids `1 .. nextId-1`.
  This holds from construction until `nextId` wraps.

## Model

| member | source | states |
|---|---|---|
| Gl.Wrap32 | src/Graphicsengine.hpp:23 | Reduction to `uint32`: identity below 2^32; subtracts 2^32 once for values in [2^32, 2^33) |
| Gl.WrapAddLeft | src/VertexArray.cpp:44 | Wrapping the left operand of an addition does not change the wrapped sum |
| Gl.WrapAddBoth | src/VertexArray.cpp:44 | `offset += count * size` in unsigned arithmetic equals the wrapped exact sum |
| Gl.DrawCountAppend | src/Renderer.cpp:29 | The draw calls in a concatenated trace are those of the two parts added |
| Gl.DrawCountZero | src/Renderer.cpp:29 | A trace without `glDrawElements` has draw count 0 |
| Console.ColorCode | src/Console.hpp:24-33 | Every code is an SGR escape `ESC [ ... m`; the reset code is returned exactly for `DEFAULT`; red, green and yellow get five-character `ESC[3?m` codes |
| Console.ColorCodeInjective | src/Console.hpp:28-31 | Distinct colours have distinct codes |
| Console.Log | src/Console.hpp:13-16 | The output is the colour code, then the text unchanged, then the reset code |
| Console.LogLine | src/Console.hpp:18-21 | `LOGN(text, c)` writes exactly what `LOG(text + "\n", c)` writes, with the newline just before the reset |
| Console.DefaultColorResets | src/Console.hpp:13-21 | Without a colour argument the message is framed by two reset codes |
| Console.LogRoundTrip | src/Console.hpp:13-16 | Decoding a `LOG` output gives back the colour and the text |
| Console.LogLineRoundTrip | src/Console.hpp:18-21 | Decoding a `LOGN` output gives back the colour and the text with its newline |
| Layout.SizeSumAppend | src/VertexArray.cpp:44 | The byte size of a concatenated layout is the sum of the two parts' sizes |
| Layout.OffsetStep | src/VertexArray.cpp:30-44 | The first attribute's offset is 0; each next offset is the previous one plus that element's `count * size` |
| Layout.OffsetWithinVertex | src/VertexArray.cpp:41-44 | Offsets never decrease along the layout, and every attribute ends within the total vertex size |
| Layout.VertexBufferLayout.constructor | src/VertexBufferLayout.hpp:23 | A new layout is empty with stride 0 |
| Layout.VertexBufferLayout.GetElements | src/VertexBufferLayout.hpp:40 | Returns the stored elements in push order, reading only the layout |
| Layout.VertexBufferLayout.GetStride | src/VertexBufferLayout.hpp:41 | On a valid layout, returns the wrapped total byte size of the elements, and the exact size when it fits in 32 bits |
| Layout.VertexBufferLayout.Push | src/VertexBufferLayout.hpp:25-38 | Appends one element, grows the stride by its byte size in unsigned arithmetic, and keeps the stride equal to the wrapped total size |
| Buffers.VertexBuffer.constructor | src/Graphicsengine.cpp:52 | Keeps the vertex data and its byte size |
| Buffers.IndexBuffer.constructor | src/Graphicsengine.cpp:53 | Keeps the indices and their count |
| Buffers.Texture.constructor | src/Texture.hpp:13 | Keeps the image path |
| Buffers.AttributeWalkAt | src/VertexArray.cpp:32-46 | Each element contributes exactly two calls, at positions `2k` and `2k+1` of the walk |
| Buffers.AttributeWalkLength | src/VertexArray.cpp:32-46 | The walk over `n` elements has `2n` calls |
| Buffers.WalkPositions | src/VertexArray.cpp:29-46 | After the two bind calls, position `2+2k` enables attribute `k`, and `3+2k` describes it with its element's data |
| Buffers.WalkStep | src/VertexArray.cpp:44-45 | One iteration moves the running offset to the next element's exact offset (wrapped), and the index to `i+1` |
| Buffers.WalkExtend | src/VertexArray.cpp:35-43 | Appending the enable and pointer calls of element `i` extends the reference walk by that element |
| Buffers.VertexArray.AddBuffer | src/VertexArray.cpp:24-47 | Binds the array and the buffer, then one enable + pointer pair per element in element order: index `i`, the element's own count, type and flag, the layout's stride for all, and offset = wrapped sum of the earlier elements' sizes |
| Shaders.FindFrom | src/shader.cpp:35-41 | Returns the first match at or after `from`, or `None` exactly when there is none |
| Shaders.Find | src/shader.cpp:35-41 | `find` returns the first occurrence, or `npos` exactly when the pattern does not occur |
| Shaders.TypeIndex | src/shader.cpp:22-27 | The state's integer value is -1, 0 or 1, and -1 exactly for `NONE` |
| Shaders.Classify | src/shader.cpp:35-45 | A line is code iff it lacks `shader`; a vertex marker iff it has `shader` and `vertex`; a fragment marker iff it has `shader` and `fragment` but not `vertex`; otherwise an ignored marker |
| Shaders.MarkersClassify | src/shader.cpp:35-44 | `#shader vertex` selects the vertex section and `#shader fragment` the fragment section |
| Shaders.ScanBlock | src/shader.cpp:46-49 | In a section, a block of code lines is appended to that section's buffer in order, each followed by a newline |
| Shaders.SectionThen | src/shader.cpp:35-49 | From no section, a selecting marker followed by code lines puts that code, in order, into the marker's section, and scanning continues after it in that section |
| Shaders.SwitchThen | src/shader.cpp:35-49 | From either section, a selecting marker followed by the file's last code lines switches to the marker's section and appends that code there, leaving the other buffer unchanged |
| Shaders.VertexSectionFirst | src/shader.cpp:33-51 | A vertex section followed by a fragment section splits into the two code blocks |
| Shaders.FragmentSectionFirst | src/shader.cpp:33-51 | A fragment section followed by a vertex section splits into the same two code blocks |
| Shaders.SectionOrderIrrelevant | src/shader.cpp:33-51 | The result of a two-section file does not depend on the order of the sections |
| Shaders.ScanInSectionSucceeds | src/shader.cpp:33-50 | Once a section is selected the scan cannot fail |
| Shaders.UnsectionedCons | src/shader.cpp:35-48 | A non-selecting marker before an unsectioned code line keeps it unsectioned |
| Shaders.ScanErrorUnsectioned | src/shader.cpp:31-48 | A failed scan names a code line that no selecting marker precedes |
| Shaders.UnsectionedFails | src/shader.cpp:31-48 | A code line that no selecting marker precedes makes the scan fail |
| Shaders.ParseFails | src/shader.cpp:31-48 | Splitting fails iff some code line precedes every selecting marker, and the error names such a line |
| Shaders.ParseShader | src/shader.cpp:18-52 | The `getline` loop with the state variable and the two section buffers computes exactly the reference split `Parse` |
| Shaders.CompileShader | src/shader.cpp:54-79 | The returned id is 0 exactly when the compile failed or no shader was created, and otherwise the created id |
| Shaders.Shader.constructor | src/shader.cpp:8-12 | The shader keeps the split sources and the program id, and starts with an empty cache |
| Shaders.Shader.Bind | src/shader.cpp:97-100 | Exactly one call, `glUseProgram` of this shader's program; no draw |
| Shaders.Shader.GetUniformLocation | src/shader.cpp:106-119 | Returns the driver's answer. A hit answers from the cache without querying; a miss queries once and caches the answer, -1 included. Only `name`'s entry can change, and the cache stays coherent |
| Shaders.Shader.SetUniform1i | src/shader.cpp:121-124 | Always uploads to the looked-up location |
| Shaders.Shader.SetUniform1f | src/shader.cpp:125-128 | Always uploads to the looked-up location |
| Shaders.Shader.SetUniform4f | src/shader.cpp:129-132 | Always uploads to the looked-up location |
| Shaders.Shader.SetUniformMat4f | src/shader.cpp:134-144 | Uploads nothing when the location is -1, otherwise exactly one matrix upload; the lookup is cached either way |
| Renderer.Draw | src/Renderer.cpp:24-31 | Bind program, vertex array, index buffer, then exactly one `glDrawElements` of the buffer's count |
| Renderer.Clear | src/Renderer.cpp:33-36 | Exactly one call, the colour-buffer clear; no draw |
| Engine.NextId | src/Graphicsengine.cpp:62 | `nextId++` on `uint32_t`: one more, or 0 after the largest value |
| Engine.SuccessiveIds | src/Graphicsengine.cpp:62 | `k` successive allocations yield exactly `k` ids, the first being the counter's value |
| Engine.SuccessiveIdsCount | src/Graphicsengine.cpp:62-63 | Without wrap-around, `k` successive `createQuad` calls return `next, next+1, ..., next+k-1` |
| Engine.SuccessiveIdsIncrease | src/Graphicsengine.cpp:62-63 | Without wrap-around, successive ids strictly increase, so they are pairwise distinct |
| Engine.RegisterExclusive | src/Graphicsengine.cpp:51-63 | Registering a bundle that shares no resource with the registry keeps all bundles resource-disjoint |
| Engine.RegisterDense | src/Graphicsengine.cpp:62-63 | Registering under `nextId` and advancing keeps the registry's ids exactly `1 .. nextId-1`, and `nextId` was not yet used |
| Engine.Releases | src/Graphicsengine.cpp:29-32 | A bundle's teardown deletes exactly four resources |
| Engine.QuadLayout | src/Graphicsengine.cpp:55-58 | The quad layout is position then texture coordinate, two floats each: stride `4*sizeof(float)`, offsets 0 and `2*sizeof(float)`, attributes 0 and 1 |
| Engine.NewQuad | src/Graphicsengine.cpp:42-60 | Builds fresh resources: the four (x, y, u, v) vertices, the indices `0,1,2,2,3,0` with count 6, the quad layout, and the texture from the given path |
| Engine.QuadWalk | src/Graphicsengine.cpp:55-58 | `addBuffer` on the two-float, two-float layout issues exactly the six quad layout calls |
| Engine.QuadLayoutFacts | src/Graphicsengine.cpp:56-57 | Two pushes of two floats give stride `4*sizeof(float)` and offsets 0 and `2*sizeof(float)` |
| Engine.DrawSetup | src/Graphicsengine.cpp:75-80 | Before drawing: bind the program, upload the colour last, then bind the bundle's texture to slot 0; no draw call |
| Engine.DrawSequenceDraws | src/Graphicsengine.cpp:75-81 | `draw` binds the program first, uploads the colour and binds the texture to slot 0, and ends in exactly one draw with the bundle's vertex array and index buffer |
| Engine.DrawSequenceMvp | src/Graphicsengine.cpp:77 | The MVP matrix is uploaded iff the shader has a `u_MVP` uniform |
| Engine.QuadDrawsSixIndices | src/Graphicsengine.cpp:53 | A quad bundle is drawn with six indices |
| Engine.Graphicsengine.constructor | src/Graphicsengine.cpp:7-23 | Empty registry, `nextId == 1`, a fresh shader built from the file; the sampler lookup is cached; the invariants and density hold |
| Engine.Graphicsengine.CreateQuad | src/Graphicsengine.cpp:40-65 | Returns the old `nextId` and advances it. The id maps to a fresh quad bundle and no other entry changes. The resource-disjointness invariant is kept, and density is kept while no wrap occurs |
| Engine.Graphicsengine.Draw | src/Graphicsengine.cpp:67-82 | An unknown id issues nothing and leaves the cache alone. A known id issues the setup and one draw of that bundle with MVP `proj * model`, caching the three uniforms. The colour defaults to (1,1,1,1) |
| Engine.Graphicsengine.Clear | src/Graphicsengine.cpp:84-88 | Sets the clear colour, then clears the colour buffer; no draw |
| Engine.Graphicsengine.Destroy | src/Graphicsengine.cpp:25-38 | Deletes vb, ib, vao, texture of every bundle, bundle by bundle, each exactly once and nothing else. Then deletes the shader, and leaves the registry empty |
| Engine.ReleaseStep | src/Graphicsengine.cpp:27-33 | Deleting one more bundle keeps the deletes exact: each remaining bundle's resources are new |
| Engine.ReleaseStepDistinct | src/Graphicsengine.cpp:27-33 | Because bundles share no resource, a not yet deleted bundle's deletes repeat none issued so far |
| Engine.ReleaseStepOrigin | src/Graphicsengine.cpp:27-33 | Every delete issued belongs to a bundle already torn down |
| Engine.ReleaseStepCovers | src/Graphicsengine.cpp:27-33 | Every resource of a torn-down bundle has been deleted |
| Engine.OrderStep | src/Graphicsengine.cpp:27-33 | The deletes follow the order in which the bundles are visited |
| Engine.ReleaseFinish | src/Graphicsengine.cpp:34-36 | After all bundles, four deletes per bundle were issued, and the shader's delete is new |
| Cube.FaceModel | src/primitives/cube.cpp:20-52 | Each face is pushed 0.2 out along z. Only the front is unrotated; back, left and right turn about y; top and bottom turn about x |
| Cube.FaceRecordsFacts | src/primitives/cube.cpp:12-52 | The six records are cube faces coloured (0,0,0,1), carry the ids in call order, and have pairwise different placements |
| Cube.FacesListed | src/primitives/cube.cpp:20-52 | The six faces, in build order, are pairwise different and have different models |
| Cube.ObjectList.PushBack | src/primitives/cube.cpp:17 | `push_back` appends one record at the end |
| Cube.CubeIds.CreateCube | src/primitives/cube.cpp:13 | Returns the counter's current id and advances the counter by one, wrapping as `uint32_t` does |
| Cube.AddFace | src/primitives/cube.cpp:10-18 | Appends one cube-face record whose id is the one its own `createCube` call hands out, with the given model and colour; the counter advances once |
| Cube.FaceIdsDistinct | src/primitives/cube.cpp:13 | Without wrap-around, the six face records carry pairwise different ids |
| Cube.Build | src/primitives/cube.cpp:5-53 | Appends exactly six records: front, back, left, right, top, bottom, with the six successive ids from the counter, in call order. The counter ends one past the last id. The ids are pairwise distinct while the counter does not wrap. The records already in `out` stay as a prefix |

## Left out

- Projection. `glfwGetFramebufferSize`, the aspect ratio and `glm::ortho`
  (src/Graphicsengine.cpp:12-19) are floating point and window-system work.
  The projection is a constructor argument.
- Matrix and float maths. `proj * model` and the cube rotations are
  symbolic `Mat4` terms, never evaluated. Colours and vertex data are
  `real`s without IEEE rounding.
- Driver work. Compiling, linking and validating a program
  (`createShader`, and `compileShader` apart from its failure result) is
  left out. The program id is a parameter. `glGetUniformLocation` is the
  uninterpreted function `location`.
- Error polling and logging. `GLClearError`, `GLLogCall` and the `GLCall`
  macro around each call are not modelled. Neither are the `std::clog` and
  `std::cerr` warnings for missing uniforms and failed compiles.
- I/O.
  - Reading the shader file is not modelled; `parseShader` takes its lines
    in `getline` order.
  - The console stream is not modelled; `Console` returns the text it
    would write.
  - Texture image loading is not modelled; a texture keeps only its path.
- `getSizeOfType`, the `Push<T>` specialisations and `Texture(path)` are
  defined outside the files modelled here. `createQuad` calls `Push<float>`
  and `Texture(path)` at src/Graphicsengine.cpp:56-60, and reaches
  `getSizeOfType` only through `addBuffer`, at src/VertexArray.cpp:44. The
  byte size of each component type is an
  uninterpreted function carried by the layout.
- `Push<T>` is modelled as appending `{type, count, normalized}` and adding
  `count * getSizeOfType(type)` to the stride, in unsigned arithmetic. The
  normalised flag is an argument; `createQuad`'s two pushes pass `false`.
- Other members used by the modelled code are also defined outside the
  files modelled here. The model assumes the following bodies for them:
  - `VertexBufferLayout()` (declared at src/VertexBufferLayout.hpp:23): it
    starts with no elements and `m_Stride == 0`. The header gives
    `m_Stride` no initialiser. `GetStride`, the layout invariant and the
    quad layout's stride all rest on this.
  - `IndexBuffer::getCount()`, used at src/Renderer.cpp:29: it returns the
    count given to the constructor.
  - The `Bind()` bodies: `VertexBuffer::Bind()` issues one
    `BindVertexBuffer`, `IndexBuffer::Bind()` one `BindIndexBuffer`, and
    `Texture::Bind(slot)` one `BindTexture` with that slot.
    `VertexArray::Bind()` is at src/VertexArray.cpp:14-17 and is modelled
    as its one `glBindVertexArray`.
- The GL calls made inside the resource wrappers' constructors are not
  recorded: `glGenVertexArrays` in `VertexArray()`, buffer creation and
  upload in `VertexBuffer` and `IndexBuffer`, texture creation in
  `Texture(path)`. Neither are compile and link in `createShader`.
- Engine.NewQuad: the vertex buffer's byte size is fixed at 64, assuming a
  4-byte `float` as `sizeof(positions)` gives on the usual targets.
- A code line before any section marker makes the source write to `ss[-1]`
  (src/shader.cpp:31,48; undefined behaviour). The model returns
  `Err(SourceOutsideSection(line))` instead. Consequently, the
  `Graphicsengine` constructor requires a file that splits.
- Engine.Graphicsengine.constructor: the GL calls it makes (`Bind`,
  `setUniform1i`) are not returned, because a constructor returns no value.
  Its effect on the uniform cache is stated.
- Engine.Graphicsengine.Destroy: the `Renderer` object's deletion is not
  modelled, because it owns no resource. The map is visited in an
  unspecified order, as `std::unordered_map` iterates.
- `createCube`: `Graphicsengine.hpp` declares no `createCube`. `Cube.CubeIds`
  models it as an id source that returns the current id and advances the
  counter like `nextId++`. Any resources it would build, and any
  registration in the engine's map, are not modelled.
- Cube.Build: the six ids are stated distinct only while the counter does
  not wrap past 2^32 - 1, as for `createQuad`.
- ScreenObjeect: its definition is not part of this model. Only the four
  fields `build` sets are modelled.
- `Renderer::Clear` idempotence, `UnBind` methods, texture slots other than
  0 are not modelled. Neither are the application, UI, background renderer
  and audio code (`App`, `Application`, `ImGuiUI`, `BackgroundRenderer`).
- After `nextId` wraps past 2^32 - 1, `createQuad` reuses ids. An insert
  under a live id then replaces its bundle, as `buffersMap[id] = ...` does.
  Density is stated only up to the wrap.
