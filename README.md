# A verified model of the 3d-model-viewer engine core

This project models, in Dafny, the resource and bookkeeping layer of a small
OpenGL model viewer written in C++:

- the geometry arena that packs every mesh into one GL buffer;
- the resource cache for textures and shaders;
- materials;
- the shader's uniform-location cache and the order of its construction checks;
- meshes, with per-type sampler naming, texture units and handle moves;
- the dirty-flag cache of a transform;
- textures;
- key-binding edge detection;
- the scene's entity list and camera steering;
- the layer stack;
- the event category bit set.

The GPU is not modelled. A `Gl.Context` object keeps a ghost `trace`. The GL
calls that create, bind, fill, draw with or delete GL objects, and every
uniform upload, append a `Gl.Call` entry to that trace, so the contracts
state which of these calls are made, in which order and with which
arguments. Queries and bookkeeping calls have no entry of their own; the
list under "## Left out" names them.

Anything the outside world answers is a parameter of the operation that
receives it:

- a GL object name;
- a uniform location;
- a compile or link status;
- whether a file opens;
- what `stbi_load` returns;
- which keys GLFW reports as held.

Matrices are symbolic terms (`Gl.Mat4`), because glm's floating-point
arithmetic is out of scope.

The iteration order of `std::unordered_map` is unspecified. Loops over one
pick any key not yet visited. Their contracts quantify over the order they
took: a ghost sequence that lists every key exactly once (`Seqs.Enumerates`).

Two behaviours of the source show up in the model as written:

- A shader build that throws after a stage compiled issues no `glDeleteShader`
  (`Shaders.BuildCalls`).
- A texture constructor that throws has already generated its GL texture name
  (`Textures.Texture.Load`).

One module per source file:

- `geometry.dfy`: GeometryManager
- `resources.dfy`: ResourceManager
- `material.dfy`: Material
- `shader.dfy`: Shader
- `mesh.dfy`: Mesh in `Graphics/Mesh.cpp`
- `transform.dfy`: Transform
- `texture.dfy`: Texture
- `input.dfy`: InputManager
- `scene.dfy`: Scene
- `layers.dfy`: LayerStack
- `events.dfy`: Event.hpp

Two shared modules support them:

- `gl.dfy`: the GL vocabulary and the context;
- `base.dfy`: Option/Result and enumeration facts.

## Model

| member | source | states |
|---|---|---|
| Geometry.OverflowChangesNothing | src/Graphics/GeometryManager.cpp:41-48 | when either region lacks room, upload returns the zeroed range and neither cursor moves |
| Geometry.ZeroRangeIffOverflow | src/Graphics/GeometryManager.cpp:41-48 | the zeroed range comes back if and only if the request does not fit, so a caller can tell failure from success |
| Geometry.ExactFillSucceeds | src/Graphics/GeometryManager.cpp:41-48 | because the checks use a strict `>`, a mesh that fills both 32 MiB regions to the last byte is accepted; afterwards a single further vertex is refused |
| Geometry.UploadSucceeds | src/Graphics/GeometryManager.cpp:50-67 | on success the base vertex times sizeof(Vertex) is the old vertex cursor (the division is exact); the index offset is MAX_VERTEX_MEMORY plus the old index cursor; the count is the number of indices; both cursors advance by exactly the bytes written and stay in their regions on element boundaries; the three fields fit in unsigned int; the result is never the zeroed range |
| Geometry.QuadUploadedTwice | src/Graphics/GeometryManager.cpp:52-67 | from a fresh arena, two 4-vertex, 6-index meshes land at base vertex 0 and then 4, with the second one's indices 24 bytes after the first one's |
| Geometry.ReplayWithinCapacity | src/Graphics/GeometryManager.cpp:41-67 | over any sequence of uploads the cursors never move backwards and never leave their regions |
| Geometry.AllocationsAscendAndDisjoint | src/Graphics/GeometryManager.cpp:60-67 | every byte range a sequence of uploads writes lies between the starting and final cursors; vertex data stays below MAX_VERTEX_MEMORY, where the index region begins; each later upload writes strictly after every earlier one, so no two writes overlap |
| Geometry.GeometryManager.constructor | src/Graphics/GeometryManager.hpp:30-41 | GL names and both cursors start at 0, with no uploads yet |
| Geometry.GeometryManager.Init | src/Graphics/GeometryManager.cpp:4-34 | one buffer sized for both regions, and a vertex array reading 32-byte vertices from it with attributes at offsets 0, 12 and 24 and the same buffer as element buffer; cursors untouched |
| Geometry.GeometryManager.Upload | src/Graphics/GeometryManager.cpp:36-70 | the returned range and the new cursors are those of the pure step from the old cursors; the two sub-data writes at the old cursors are issued only when the mesh fits; the invariant holds that the cursors are the replay of every upload made |
| Geometry.GeometryManager.Shutdown | src/Graphics/GeometryManager.cpp:72-75 | deletes the buffer, then the vertex array |
| Resources.ResourceManager.constructor | src/Graphics/ResourceManager.cpp:5-8 | both caches start empty |
| Resources.ResourceManager.LoadTexture | src/Graphics/ResourceManager.cpp:10-21 | a cached path returns the cached instance with no GL call and ignores the requested type; a miss returns the constructor's error and leaves the cache alone, or caches the fresh texture under its path with the requested type; the shader cache is never touched; every cached texture was loaded from the path it is cached under |
| Resources.ResourceManager.GetTexture | src/Graphics/ResourceManager.cpp:23-27 | null exactly for an absent path, otherwise the cached instance; reading never inserts |
| Resources.ResourceManager.LoadShader | src/Graphics/ResourceManager.cpp:29-40 | a cached name returns the cached instance with no GL call and ignores both paths; a miss either throws the first failing build error with the cache unchanged, or caches the fresh shader under the name; the texture cache is never touched |
| Resources.ResourceManager.GetShader | src/Graphics/ResourceManager.cpp:42-46 | null exactly for an absent name, otherwise the cached instance |
| Resources.ResourceManager.Clear | src/Graphics/ResourceManager.cpp:48-51 | both caches become empty, so every later lookup returns null |
| Materials.UniformCallsSendEachValue | src/Graphics/Material.cpp:13-24 | a uniform loop makes exactly one call per stored name, and call i sends the stored value of the i-th visited name to that name's location |
| Materials.BoundEnumeratesTextures | src/Graphics/Material.cpp:26-33 | the names that receive a texture unit are exactly the names holding a non-null texture, each once, so there are as many units as non-null textures |
| Materials.TextureUnitsCountUp | src/Graphics/Material.cpp:26-33 | the j-th non-null texture is bound to unit GL_TEXTURE0 + j, and its sampler uniform is set to the same j; null entries consume no unit |
| Materials.SendUniforms | src/Graphics/Material.cpp:13-24 | one map's loop visits every key once, in some order, and issues exactly the uniform calls for that order; afterwards every key of the map is in the shader's location cache, which gains no other name |
| Materials.SendUniform | src/Graphics/Material.cpp:13-14 | one loop step resolves the visited name through the cache and sends its stored value after the calls for the names already visited; the name is then cached |
| Materials.Material.constructor | src/Graphics/Material.cpp:4-5 | keeps the given shader, possibly null; all seven maps start empty |
| Materials.Material.GetShader | src/Graphics/Material.hpp:28 | the shader passed to the constructor; the field is constant, so no operation can replace it |
| Materials.Material.Bind | src/Graphics/Material.cpp:7-34 | with a null shader, no effect at all; otherwise the GL calls are: make the program current; then the floats, ints, bools, vec3s, vec4s and mat4s, each map's names once each; then the texture calls; the non-null textures get units 0, 1, ... one-to-one; afterwards the shader's location cache holds exactly what it held before plus every uniform name of the six maps and every name with a non-null texture (a null texture's name is never looked up) |
| Materials.Material.SendScalars | src/Graphics/Material.cpp:13-18 | the float, int and bool loops, one after the other: each map's names are sent once each and join the location cache |
| Materials.Material.SendVectors | src/Graphics/Material.cpp:19-24 | the vec3, vec4 and mat4 loops, one after the other: each map's names are sent once each and join the location cache |
| Materials.Material.BindTextures | src/Graphics/Material.cpp:26-33 | the texture loop visits every entry once, and its calls are exactly the unit-counting calls for the visiting order; the names holding a non-null texture, and only those, join the location cache |
| Materials.Material.BindSlot | src/Graphics/Material.cpp:28-32 | a null entry issues nothing and keeps the slot; a non-null one binds to unit GL_TEXTURE0 + slot, sets its sampler to slot and advances the slot by one; only a non-null entry's name is looked up and cached |
| Materials.Material.BindNext | src/Graphics/Material.cpp:27-32 | one loop step after the names already visited: the slot remains the number of textures bound so far, the calls grow by this name's unit calls, and the name joins the cache exactly when its texture is non-null |
| Materials.Material.Unbind | src/Graphics/Material.cpp:36-39 | issues no GL call |
| Materials.Material.SetFloat | src/Graphics/Material.cpp:41-43 | inserts or overwrites the name in the float map only (last write wins); the other six maps are unchanged |
| Materials.Material.SetInt | src/Graphics/Material.cpp:44-46 | the same for the int map |
| Materials.Material.SetBool | src/Graphics/Material.cpp:47-49 | the same for the bool map |
| Materials.Material.SetVec3 | src/Graphics/Material.cpp:50-52 | the same for the vec3 map |
| Materials.Material.SetVec4 | src/Graphics/Material.cpp:53-55 | the same for the vec4 map |
| Materials.Material.SetMat4 | src/Graphics/Material.cpp:56-58 | the same for the mat4 map |
| Materials.Material.SetTexture | src/Graphics/Material.cpp:60-63 | overwrites the texture entry for the name, also with null; the uniform maps are unchanged |
| Shaders.BuildFailsAtFirstFailingStep | src/Graphics/Shader.cpp:21-74 | the constructor succeeds if and only if every check passes; otherwise it throws exactly the error of the earliest failing check, in the order: open vertex source, open fragment source, compile vertex, compile fragment, link |
| Shaders.CameraBlockBoundOnlyWhenDeclared | src/Graphics/Shader.cpp:76-81 | a uniform-block binding is issued only by a successful build, only for the program's CameraData block and only to binding point 0; it is issued whenever the program declares that block |
| Shaders.MissingWarnsOnce | src/Graphics/Shader.cpp:99-105 | when each name is queried from GL at most once, each missing name is warned about at most once; a name is warned about exactly when it was queried and GL has no such uniform |
| Shaders.BoolArg | src/Graphics/Shader.cpp:115-117 | a bool uniform goes to GL as an integer: 1 for true, 0 for false |
| Shaders.Shader.Build | src/Graphics/Shader.cpp:11-89 | returns the first failing check's error, or a fresh shader for the linked program with an empty location cache and no warnings; the GL calls are those of the checks reached; the camera block is bound on success |
| Shaders.Shader.UseShader | src/Graphics/Shader.cpp:92 | makes this program current |
| Shaders.Shader.GetUniformLocation | src/Graphics/Shader.cpp:94-107 | returns GL's location for the name (-1 when missing); a cached name queries nothing and warns nothing; a miss queries GL once, caches the answer even when it is -1, and warns exactly when it is -1; existing cache entries never change, and at most one is added |
| Shaders.Shader.SetUniform | src/Graphics/Shader.cpp:109-130 | resolves the location through the cache as above, then issues one uniform call to that location |
| Shaders.Shader.SetUniformFloat | src/Graphics/Shader.cpp:109-111 | resolves through the cache and sends glUniform1f |
| Shaders.Shader.SetUniformInt | src/Graphics/Shader.cpp:112-114 | resolves through the cache and sends glUniform1i |
| Shaders.Shader.SetUniformBool | src/Graphics/Shader.cpp:115-117 | resolves through the cache and sends glUniform1i of 1 or 0 |
| Shaders.Shader.SetUniformVec3 | src/Graphics/Shader.cpp:118-121 | resolves through the cache and sends glUniform3fv |
| Shaders.Shader.SetUniformVec4 | src/Graphics/Shader.cpp:122-125 | resolves through the cache and sends glUniform4fv |
| Shaders.Shader.SetUniformMat4 | src/Graphics/Shader.cpp:126-130 | resolves through the cache and sends glUniformMatrix4fv |
| Shaders.WarnedAtMostOnce | src/Graphics/Shader.cpp:94-107 | in every state the cache can reach, no name has been warned about twice, and the warned names are exactly the names cached as -1 |
| Textures.FormatFor | src/Graphics/Texture.cpp:22-31 | 1 channel gives RED, 3 give RGB, 4 give RGBA (each if and only if); every other count is UNKNOWN_FORMAT |
| Textures.FormatForChannels | src/Graphics/Texture.cpp:22-31 | the format choice and the channel count of a format are inverse |
| Textures.FormatCheckedBeforeLoad | src/Graphics/Texture.cpp:22-39 | an unsupported count throws UNKNOWN_FORMAT whether or not the pixels loaded; missing pixels with a supported count throw FAILED_TO_LOAD_TEXTURE_DATA; success happens exactly when the pixels loaded and the count is 1, 3 or 4 |
| Textures.Texture.Load | src/Graphics/Texture.cpp:7-42 | throws exactly the error above, after the name was generated, bound and configured; otherwise returns a fresh texture with that name, the image's size and channel count, the given path and type None, uploaded and mipmapped in the chosen format |
| Textures.Texture.MoveFrom | src/Graphics/Texture.cpp:45-52 | the new texture takes the GL name, size and channel count; path and type are not carried over; the source keeps its fields but its GL name becomes 0 |
| Textures.Texture.MoveAssign | src/Graphics/Texture.cpp:53-67 | a self-move changes nothing; otherwise the own GL name is deleted first, then the source's name and size are taken and the source's name becomes 0; path and type stay |
| Textures.Texture.Bind | src/Graphics/Texture.cpp:69-72 | selects unit GL_TEXTURE0 + slot, then binds this texture there |
| Textures.Texture.SetType | src/Graphics/Texture.hpp:24 | changes the type and nothing else |
| Meshes.Decimal | src/Graphics/Mesh.cpp:72 | std::to_string of a counter is a non-empty string of decimal digits |
| Meshes.DecimalRoundTrip | src/Graphics/Mesh.cpp:72 | reading back the digits to_string wrote gives the number |
| Meshes.DecimalInjective | src/Graphics/Mesh.cpp:72 | different counters give different strings |
| Meshes.SamplerNamesDistinct | src/Graphics/Mesh.cpp:60-84 | two textures that both have a type are bound through different sampler names: types differ in the prefix, and textures of one type differ in the number |
| Meshes.CounterGivesSamplerName | src/Graphics/Mesh.cpp:60-82 | given a counter one past the number of same-type textures before it, the draw loop names texture i `texture_<type>` followed by its 1-based rank among textures of its type; a texture of type None gets the empty name |
| Meshes.DrawBindsTextureIToUnitI | src/Graphics/Mesh.cpp:65-87 | the texture loop issues three calls per texture, in texture order, and nothing else; texture i's sampler is set to i, and unit GL_TEXTURE0 + i is selected and given texture i |
| Meshes.NextSampler | src/Graphics/Mesh.cpp:70-82 | the if-chain gives the type's prefix and its counter's digits; only that type's counter advances; None gives an empty name and number and advances nothing |
| Meshes.NameSampler | src/Graphics/Mesh.cpp:66-84 | with the counters in their loop state, the name built for texture i is its sampler name, and the counters move to their state after texture i |
| Meshes.Mesh.constructor | src/Graphics/Mesh.cpp:8-13 | keeps the vertices, indices and textures, and issues the set-up calls for them |
| Meshes.Mesh.SetupMesh | src/Graphics/Mesh.cpp:93-121 | creates the vertex array and two buffers and binds them; uploads 32 bytes per vertex and 4 per index; describes and enables the three attributes; unbinds the array buffer, then the vertex array, then the element buffer |
| Meshes.Mesh.CreateObjects | src/Graphics/Mesh.cpp:94-100 | generates and binds the vertex array and both buffers |
| Meshes.Mesh.Upload | src/Graphics/Mesh.cpp:102-105 | sizes the two buffers as 32 bytes per vertex and 4 per index |
| Meshes.Mesh.DescribeLayout | src/Graphics/Mesh.cpp:107-116 | declares position, normal and texture coordinates at offsets 0, 12 and 24 with stride 32, then enables them |
| Meshes.Mesh.Unbind | src/Graphics/Mesh.cpp:118-120 | unbinds in the source's order |
| Meshes.Mesh.Destroy | src/Graphics/Mesh.cpp:15-19 | deletes both buffers, then the vertex array |
| Meshes.Mesh.MoveFrom | src/Graphics/Mesh.cpp:21-33 | the new mesh takes the data and all three GL names; the source's names become 0 and its vectors empty |
| Meshes.Mesh.MoveAssign | src/Graphics/Mesh.cpp:35-55 | a self-move changes nothing; otherwise the own vertex array and buffers are deleted first, then the source's data and names are taken and the source's names become 0 |
| Meshes.Mesh.Draw | src/Graphics/Mesh.cpp:57-91 | makes the program current before any uniform or binding; binds texture i to unit i through its per-type sampler name; then draws exactly as many indices as the mesh holds from its own vertex array; afterwards the shader's location cache holds what it held before plus the sampler name of every texture, and nothing else |
| Meshes.Mesh.DrawTextures | src/Graphics/Mesh.cpp:60-87 | the loop with the four counters starting at 1 issues exactly the calls that bind texture i to unit i through its sampler name, and adds exactly those sampler names to the location cache |
| Meshes.Mesh.DrawTexture | src/Graphics/Mesh.cpp:66-86 | one iteration extends the calls by texture i's step and moves the counters to their state after texture i; texture i's sampler name joins the location cache |
| Meshes.Mesh.BindSampler | src/Graphics/Mesh.cpp:84-86 | sets the sampler to i, then selects unit i and binds the texture there; the sampler name joins the location cache |
| Transforms.Transform.constructor | src/Core/Transform.cpp:5-7 | position and rotation 0, scale 1, identity cache marked dirty |
| Transforms.Transform.CopyOf | src/Scene/Scene.cpp:15 | a copy has the same fields, cache and flag, and a coherent cache stays coherent |
| Transforms.Transform.GetPosition | src/Core/Transform.cpp:9 | the stored position, which is the last one the constructor or SetPosition stored |
| Transforms.Transform.GetRotation | src/Core/Transform.cpp:10 | the stored rotation, as last set |
| Transforms.Transform.GetScale | src/Core/Transform.cpp:11 | the stored scale, as last set |
| Transforms.Transform.SetPosition | src/Core/Transform.cpp:13-16 | stores the position and marks the cache dirty; rotation, scale and cached matrix are unchanged |
| Transforms.Transform.SetRotation | src/Core/Transform.cpp:18-21 | stores the rotation and marks the cache dirty; nothing else changes |
| Transforms.Transform.SetScale | src/Core/Transform.cpp:23-26 | stores the scale and marks the cache dirty; nothing else changes |
| Transforms.Transform.GetModelMatrix | src/Core/Transform.cpp:28-43 | the result is always the composition of the current position, rotation and scale, and becomes the cached, clean matrix; it is recomputed exactly when the cache was dirty, and a clean cache is returned untouched |
| Transforms.Transform.CacheCoherent | src/Core/Transform.cpp:28-43 | in every reachable state, the matrix the getter would hand back is the composition of the current fields |
| Input.StateOf | src/Core/InputManager.cpp:26-30 | a key with no recorded state reads as released |
| Input.Refresh | src/Core/InputManager.cpp:7-9 | every refreshed key is pressed exactly when it is held; other recorded keys keep their state; no key is forgotten |
| Input.RefreshOneMore | src/Core/InputManager.cpp:8 | polling one more key is a single map update, so the order of polling does not matter |
| Input.InputManager.constructor | src/Core/InputManager.hpp:9 | no bindings and no key states |
| Input.InputManager.Update | src/Core/InputManager.cpp:4-10 | the previous states become this frame's old states, and every bound key is refreshed from the held keys; for every bound action: pressed exactly when its key is held; just pressed exactly when held now and not before; just released exactly when released now and held before |
| Input.InputManager.SetBinding | src/Core/InputManager.cpp:12-18 | rebinds the action, and records the key's current state as both current and previous; the action is then pressed exactly when its key is held, with no edge in either direction |
| Input.InputManager.IsActionPressed | src/Core/InputManager.cpp:20-31 | true exactly when the action is bound and its key's recorded state is down; false for an unbound action |
| Input.InputManager.IsActionJustPressed | src/Core/InputManager.cpp:33-48 | true exactly when the action is bound and its key is down now but was not down in the previous frame |
| Input.InputManager.IsActionJustReleased | src/Core/InputManager.cpp:50-65 | true exactly when the action is bound and its key is up now but was down in the previous frame |
| Input.InputManager.EdgesExclusive | src/Core/InputManager.cpp:33-65 | an action is never both just pressed and just released; just pressed implies pressed; just released implies not pressed |
| Scenes.MovementsFollowKeys | src/Scene/Scene.cpp:20-27 | forward is issued exactly when Up or W is held, backward for Down or S, left for Left or A, right for Right or D; up and down are never issued |
| Scenes.MovementsInOrder | src/Scene/Scene.cpp:20-27 | the movements come in the order forward, backward, left, right |
| Scenes.MovementsDistinct | src/Scene/Scene.cpp:20-27 | no movement is issued twice in one frame |
| Scenes.Scene.constructor | src/Scene/Scene.cpp:7 | no entities, and the camera has received no command |
| Scenes.Scene.AddEntity | src/Scene/Scene.cpp:9-17 | appends exactly one entity holding the given mesh and material and a fresh copy of the whole transform, its cached matrix and dirty flag included, whose cache is coherent when the original's is, so the entity can be drawn; earlier entities keep their places; the camera is untouched |
| Scenes.Scene.OnUpdate | src/Scene/Scene.cpp:19-28 | the camera receives one keyboard command with the frame's time step for each movement the held keys call for, in the order forward, backward, left, right; the entity list is unchanged |
| Scenes.Scene.MoveWhen | src/Scene/Scene.cpp:20-21 | one test: the camera is moved in the direction exactly when its key is held |
| Scenes.Scene.OnMouseView | src/Scene/Scene.cpp:30-32 | both offsets reach the camera unchanged, as one command; the entities are unchanged |
| Layers.FirstIndex | src/Core/LayerStack.hpp:22 | std::find finds the first position holding the layer |
| Layers.FirstIndexUnique | src/Core/LayerStack.hpp:22 | the first occurrence is the only position holding the layer with none before it |
| Layers.RemoveFirstTakesOneOut | src/Core/LayerStack.hpp:21-27 | erasing the found layer takes out exactly one copy of it; earlier layers keep their places, and later ones shift down by one in order |
| Layers.DetachAll | src/Core/LayerStack.hpp:9-14 | the destructor detaches and then deletes each layer, bottom to top |
| Layers.LayerStack.constructor | src/Core/LayerStack.hpp:35 | the stack starts empty |
| Layers.LayerStack.PushLayer | src/Core/LayerStack.hpp:16-19 | the layer goes on top, then it is attached, once |
| Layers.LayerStack.PopLayer | src/Core/LayerStack.hpp:21-27 | the first occurrence of the layer is removed and the rest keep their order; it is detached exactly when it was present; an absent layer changes nothing; the layer is never deleted |
| Layers.LayerStack.Destroy | src/Core/LayerStack.hpp:9-14 | every layer is detached and then deleted, bottom to top |
| Layers.LayerStack.BottomUp | src/Core/LayerStack.hpp:29-30 | forward iteration visits the layers bottom to top |
| Layers.LayerStack.TopDown | src/Core/LayerStack.hpp:31-32 | reverse iteration visits position i of the stack in place \|stack\| - 1 - i |
| Layers.Reversed | src/Core/LayerStack.hpp:31-32 | position i of the reversal is position \|s\| - 1 - i of the sequence |
| Events.NewEvent | src/Core/Event.hpp:32 | every event starts unhandled |
| Events.NewKeyPressed | src/Core/Event.hpp:57-58 | a key-pressed event keeps its key code, and isRepeat defaults to false |
| Events.IsInCategory | src/Core/Event.hpp:37-39 | true exactly when the event's flags and the category share a bit |
| Events.CategoriesOf | src/Core/Event.hpp:37-39 | the category constants the event is in |
| Events.CategoriesAreSingleBits | src/Core/Event.hpp:7-14 | the five categories are distinct single bits, pairwise disjoint |
| Events.NoneMatchesNothing | src/Core/Event.hpp:7-8 | no event is in the None category |
| Events.KeyEventCategories | src/Core/Event.hpp:46-48 | key events are in exactly the Keyboard and Input categories |
| Events.MouseEventCategories | src/Core/Event.hpp:75-113 | moved and scrolled events are exactly Mouse and Input; button events are exactly Mouse, Input and MouseButton |
| Events.WindowEventCategories | src/Core/Event.hpp:133-151 | resize and close events are Application events only |
| Events.TypeMatchesCategory | src/Core/Event.hpp:55-151 | each class's type agrees with its flags: keyboard events are exactly the key types, mouse events exactly the mouse types, application events exactly the window types; Input is exactly the complement of Application; no event reports type None |

## Left out

- GL, stb_image, GLFW and the file system are not executed. Their answers are
  parameters: `Shaders.Toolchain`, `Textures.Image`, the `held` key set, and
  GL object names passed in as numbers. Their effects are entries in
  `Gl.Context.trace`.
- glm matrix arithmetic and floating point are abstracted. `Gl.Mat4.Model(t, r, s)` stands for
  translate, rotate about x, y and z in degrees, then scale. Vectors hold reals.
- Camera math (Camera.cpp) is not modelled. The scene's camera is the ordered list of
  `processKeyboard` / `processMouseMovement` commands it receives.
- Logging (spdlog), stderr output and GL info logs are not modelled. The shader's
  "doesn't exist" warnings are kept as a ghost list, because the cache's behaviour is
  stated through them.
- The order in which unordered maps are visited is left open. Each loop over one
  (Material::bind, InputManager::update) is proved for every order that visits each key once.
- The two static maps of ResourceManager are modelled as the fields of one
  `ResourceManager` object.
- shared_ptr ownership, reference counts and destruction are not modelled. Cached
  objects are references, and a null pointer is `null`.
- The destructors of Shader, Texture and Material are not modelled. `Mesh::~Mesh` and the
  LayerStack destructor are, as `Destroy` methods.
- `GeometryManager::init` is modelled as one `VertexArrayAttrib` call per attribute. In the source
  that is an enable, a format and a binding call.
- The shader constructor's trace records a compile per stage, the link, the block binding and
  the two deletions. `glCreateShader`, `glShaderSource`, `glCreateProgram`, `glAttachShader`,
  `glGetShaderiv`, `glGetShaderInfoLog`, `glGetProgramiv`, `glGetProgramInfoLog` and
  `glGetUniformBlockIndex` have no entry; their answers are fields of `Shaders.Toolchain`.
- `glGetUniformLocation` has no trace entry. Each call is recorded in the shader's ghost
  `queries` list instead, which is where the cache's promise is stated.
- The four `glTexParameteri` calls of the texture constructor are one `TexParameters` entry.
  The wrap and filter values they set are not recorded.
- `Geometry.GeometryManager.Upload`: size_t overflow of `m_verticesHead + vertSize` is not modelled,
  because sizes are unbounded naturals. The check would need a mesh of about 2^64 bytes.
- `Meshes.Mesh.DrawTextures`: the 32-bit wrap-around of the `unsigned int` loop index and counters
  is not modelled. It would need more than 2^32 textures.
- `Meshes.Mesh.SetupMesh`: the undefined behaviour of `&m_vertices[0]` on an empty vector is not
  modelled. Only the sizes passed to glBufferData are recorded.
- `Meshes.Mesh.MoveFrom` and `Meshes.Mesh.MoveAssign`: a moved-from std::vector is only "valid but
  unspecified". The model takes it to be empty, as the standard library does in practice.
- `Textures.Texture.Load`: when stbi_load fails, the channel count it reports is whatever
  `Image.channels` holds. The source reads an `m_BPP` that may be uninitialised there.
- The legacy `src/Shader.cpp` and `src/Mesh.cpp` are not part of this model.
- Model loading (Assimp), Config, Renderer, the editor, ImGui and windowing are not part
  of this model.
- `Shader::reload`, `reloadAllShaders` and `Renderer::submit` are declared or called
  but not defined in the source, so they are not modelled.
- `Scene.hpp` declares `onUpdate(float, const InputManager &)`, while `Scene.cpp` defines
  `onUpdate(float)` and polls `Input::isKeyPressed`. The model follows `Scene.cpp`, with the
  polled keys as the `held` parameter.
- `Scene.cpp` names `KeyCode::W`, `A`, `S` and `D`, but `KeyCodes.hpp` defines Space=32, Escape=256,
  Enter=257, the arrows, Z=87, Q=65, S=83 and D=68 (in a namespace `Key`), and no W or A. The model uses the GLFW codes
  W=87, A=65, S=83, D=68 and the arrows 262-265.
- `Graphics/Mesh.hpp` declares an arena-based mesh (`drawGeometry`, base vertex) that
  `Graphics/Mesh.cpp` does not implement. The model follows `Mesh.cpp`.
- The default `Transform()` argument of `Scene::addEntity` is not modelled. The caller passes
  a transform, e.g. `new Transform()`.
- What a layer does in its own `onAttach` / `onDetach` is not modelled. The stack records
  which of these hooks it calls and which layers it deletes.
- The event getters (`getKeyCode`, `getX`, `getWidth`, ...) are plain field reads of
  the payload datatype. No lemma is stated about them.
