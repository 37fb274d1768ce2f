# Cobalt engine bookkeeping, modelled in Dafny

This project models the bookkeeping layer of the Cobalt game engine (Rust). Nothing here needs the GPU, the window or the event loop:

- the reference-counted asset store and its handles;
- three resource stores: one value per type, values keyed by a fresh id, and a per-type map of id to value;
- the scene manager and its scene generators;
- system descriptors and the ECS system list;
- two generations of keyboard and mouse state;
- the frame counter;
- the force list of the 2D rigid body;
- the dirty-flag logic of the `Text` and `Rect` renderables;
- the OpenGL buffer size bookkeeping and the `set_layout` offset arithmetic;
- the fixed vertex layouts of both renderers;
- window resize validation and the choice of surface format and present mode.

Objects whose fields the engine updates in place are Dafny classes with `modifies` clauses. Their methods state the new state in terms of the old one. The list and map fields are `seq` and `map` fields, and the 1024-key table is an `array<bool>`. The pure parts are functions and lemmas.

Some Rust types become shared stand-ins:

- A `TypeId` is an abstract `TypeKey`.
- A `Box<dyn Any>` is a `Boxed` value that carries its type key. A downcast is a key comparison that yields `None` on a mismatch.
- A handle is the id it names.
- The drop channel of the asset store is the sequence of ids sent and not yet received.
- A closure is a Dafny function of the state it borrows.
- `f32` values are `real`s.
- Clocks, random uuids and the outcome of foreign GPU calls are parameters.

## Model

| member | source | states |
|---|---|---|
| Erased.Downcast | src/resources.rs:39-45 | a downcast succeeds exactly when the stored type key is the requested one, and then yields the stored value |
| Assets.ReleaseOne | src/assets.rs:100-107 | one drained id: every count stays at least one and no id is added |
| Assets.ApplyDrops | src/assets.rs:99-108 | draining a queue in order keeps every count at least one and adds no id |
| Assets.ApplyDropsCount | src/assets.rs:99-108 | after draining, an absent id stays absent; a present id with count c and k queue entries survives iff k < c, then with the same value and count c - k |
| Assets.ApplyDropsUntouched | src/assets.rs:100-107 | a slot whose id is not in the queue is left exactly as it was |
| Assets.AssetManager.constructor | src/assets.rs:70-78 | a new store is empty, its counter is 0 and nothing is pending |
| Assets.AssetManager.CreateAsset | src/assets.rs:80-97 | the handle's id is the old counter and was unused; the counter grows by one; the value is stored with count 1; counts stay positive and ids stay below the counter |
| Assets.AssetManager.CloneHandle | src/assets.rs:44-52 | a clone copies the id and changes nothing in the store or the queue |
| Assets.AssetManager.DropHandle | src/assets.rs:54-58 | dropping a handle appends its id to the queue and changes nothing else |
| Assets.AssetManager.DropUnusedAssets | src/assets.rs:99-108 | the loop leaves the queue empty and the store equal to draining the old queue in order |
| Assets.CloneDropFreesLiveAsset | src/assets.rs:44-58 | as written: create, clone, drop the clone, drain, and the original's slot is gone |
| Assets.ReconcileCounted | src/assets.rs:44-58 | intended counting, where a clone retains and a drop releases, keeps every count positive and adds no id |
| Assets.CountedCloneDropIsNeutral | src/assets.rs:44-58 | with counted clones, a clone that is made and dropped leaves every slot as it was |
| Assets.CountedSlotTracksLiveHandles | src/assets.rs:44-58 | with counted clones, a slot survives as long as a handle lives, and its count is the number of live handles |
| Resources.ResourceManager.constructor | src/resources.rs:20-25 | a new store holds no resource |
| Resources.ResourceManager.GetResource | src/resources.rs:39-45 | a lookup yields a value iff a slot of that type exists, and then its value; a type never created yields `None` |
| Resources.ResourceManager.CreateResource | src/resources.rs:27-36 | `Err` iff a resource of that type exists, with the store unchanged; otherwise it is stored and `get_resource` returns it; other types are unchanged; at most one value per type |
| Resources.ResourceManager.GetResourceMut | src/resources.rs:48-54 | a write through the returned reference is seen by the next `get_resource`; with no such resource nothing changes |
| Resources.CreateTwiceKeepsFirst | src/resources.rs:27-36 | a second create of the same type fails and keeps the first value |
| EcsResources.ResourceManager.constructor | src/ecs/resources.rs:15-22 | a new store is empty with counter 0 |
| EcsResources.ResourceManager.Get | src/ecs/resources.rs:49-56 | a handle finds a value iff its id is stored with the handle's type; a handle of the wrong type yields `None` |
| EcsResources.ResourceManager.Create | src/ecs/resources.rs:24-35 | the id is the old counter and was unused; the counter grows by one; `get` then yields the item |
| EcsResources.ResourceManager.CreateFromBox | src/ecs/resources.rs:37-47 | allocates ids from the same counter in the same way as `create` |
| EcsResources.ResourceManager.GetMut | src/ecs/resources.rs:58-65 | a write through the returned reference is seen by the next `get`; with nothing found nothing changes |
| EcsResources.ResourceManager.Remove | src/ecs/resources.rs:67-77 | `Ok` iff the id is stored, and then the entry is removed; otherwise `Err("Resource not found")` with nothing changed; afterwards no handle with that id finds a value |
| TypedResources.InnerOf | src/resources/mod.rs:27-28 | a type's inner map, or the empty map that `or_insert` creates |
| TypedResources.ResourceManager.constructor | src/resources/mod.rs:18-23 | a new store has no type maps and counter 0 |
| TypedResources.ResourceManager.Get | src/resources/mod.rs:38-43 | `None` if the type's map or the id is missing, otherwise the stored item |
| TypedResources.ResourceManager.Add | src/resources/mod.rs:25-36 | creates the type's map if missing and inserts under the shared counter, which grows by one; every other type's map is unchanged; `get` then yields the item |
| TypedResources.ResourceManager.GetMut | src/resources/mod.rs:45-50 | a write through the returned reference is seen by the next `get`; with nothing found nothing changes |
| TypedResources.ResourceManager.Remove | src/resources/mod.rs:52-57 | `Some(item)` with the entry deleted iff the type's map holds the id; otherwise `None` with nothing changed |
| Scenes.EmptyScene | src/scene.rs:80-83 | a fresh scene has an empty world and no camera |
| Scenes.NewGenerator | src/scene.rs:73-77 | the generator's callback is the one given |
| Scenes.WithOnLoad | src/scene.rs:67-69 | `on_load` replaces the callback |
| Scenes.Generate | src/scene.rs:79-90 | generation starts from an empty scene; without a callback the result is that empty scene, otherwise the callback's output |
| Scenes.ScenesManager.constructor | src/scene.rs:27-33 | no scenes registered, no current scene |
| Scenes.ScenesManager.Current | src/scene.rs:35-37 | `current` is exactly the stored current scene |
| Scenes.ScenesManager.CurrentMut | src/scene.rs:39-41 | a write through `current_mut` replaces the current scene; with none, nothing changes |
| Scenes.ScenesManager.Load | src/scene.rs:43-48 | `Err("Scene not found.")` iff the name is unregistered, with the current scene kept; otherwise the current scene is that generator's fresh output |
| Scenes.ScenesManager.Add | src/scene.rs:50-52 | registers or overwrites the name's generator and leaves the current scene alone |
| Scenes.LoadTwiceReplaces | src/scene.rs:43-48 | loading A then B leaves B's output current, generated from the application A left |
| Scenes.FailedLoadKeepsCurrent | src/scene.rs:43-48 | a failed load keeps the scene that was current |
| Systems.NewStartup | src/system.rs:31-42 | type `Startup`, no scene, and the given name, callback, uuid and stamp |
| Systems.NewEventCallback | src/system.rs:44-55 | type `EventCallback` of exactly the given event kind, no scene, and the given name |
| Systems.NewTimed | src/system.rs:57-68 | type `Timed(duration)`, the given scene, and the given name |
| Systems.NewUpdate | src/system.rs:70-81 | type `Update`, the given scene, and the given name |
| Systems.EventKindsDiffer | src/system.rs:5-9 | `WindowResize` and `ShutDown` compare unequal |
| Ecs.RunAllSnoc | src/ecs/mod.rs:49-53 | running one more system at the end runs it after all the others |
| Ecs.RunAllAppend | src/ecs/mod.rs:45-53 | systems registered in two parts run part by part, in registration order |
| Ecs.SystemsManager.constructor | src/ecs/mod.rs:39-43 | no systems |
| Ecs.SystemsManager.RegisterSystem | src/ecs/mod.rs:45-47 | appends at the end and keeps the earlier systems in order |
| Ecs.SystemsManager.RunSystems | src/ecs/mod.rs:49-53 | the resulting state is that of running every registered system once, first to last; the list is not changed |
| Ecs.Ecs.constructor | src/ecs/mod.rs:14-20 | an empty world, an empty resource store and no systems |
| Input.WithoutKey | src/input.rs:35-37 | a release keeps every entry of other keys with its multiplicity, drops every entry of the key, and the key is no longer down |
| Input.WithoutKeyAppend | src/input.rs:35-37 | a release keeps the other entries in their order |
| Input.WithoutKeyKeepsOtherKeys | src/input.rs:35-37 | releasing one key does not change whether another key is down |
| Input.FirstClicked | src/input.rs:68-77 | the index of the first entry that is the key with its click flag set, if any |
| Input.ClickKeepsKeyDown | src/input.rs:68-88 | consuming a click never changes whether any key is down |
| Input.ClickedOnceAfterPress | src/input.rs:32-77 | after one press, the first click query succeeds and a second one fails |
| Input.Input.constructor | src/input.rs:17-25 | no keys, mouse button `Other(0)` |
| Input.Input.Update | src/input.rs:27-48 | a press appends the key with its flag set, so duplicates are allowed; a release drops every entry of the key; a mouse press records the button and a release resets it to `Other(0)`; unidentified keys and other events change nothing |
| Input.Input.IsKeyClicked | src/input.rs:67-77 | true iff a set flag for the key exists, and then only the first such flag is cleared; otherwise nothing changes |
| Input.Input.IsKeyDown | src/input.rs:79-88 | true iff some entry has the key |
| Input.Input.IsMouseDown | src/input.rs:90-92 | true iff the recorded button is the one asked about |
| KeyStates.KeyboardState.constructor | src/core/input/mod.rs:10-14 | all 1024 keys released |
| KeyStates.KeyboardState.ProcessKeyEvent | src/core/input/mod.rs:16-23 | a press sets the key's cell and a release clears it; no key code, no change; at most one cell changes |
| KeyStates.KeyboardState.KeyPressed | src/core/input/mod.rs:25-27 | the key's cell, for a key below 1024 |
| KeyStates.PressThenRelease | src/core/input/mod.rs:16-27 | a key reads pressed after its press and released after its release |
| FpsCounter.Elapsed | src/core/utils/mod.rs:31 | elapsed time is the difference of the readings, and 0 when the clock reads earlier |
| FpsCounter.FpsCounter.constructor | src/core/utils/mod.rs:13-22 | no frames, not refreshed |
| FpsCounter.FpsCounter.SetReportFpsCallback | src/core/utils/mod.rs:24-26 | replaces the callback and nothing else |
| FpsCounter.FpsCounter.Tick | src/core/utils/mod.rs:28-42 | counts a frame and lowers the flag; before a full period nothing else changes; after one, the callback is called once with the frames counted, the count restarts, the period restarts at now and the flag is up |
| FpsCounter.FpsCounter.IsRefreshed | src/core/utils/mod.rs:44-46 | whether the most recent tick refreshed |
| Rigidbody.Retain | src/physics_2d/rigidbody.rs:81-87 | retention keeps every force that still applies with its multiplicity, drops every other force, and never grows the list |
| Rigidbody.RetainByMode | src/physics_2d/rigidbody.rs:81-87 | continuous forces stay, impulses go, and a timed force stays iff its deadline is ahead |
| Rigidbody.RetainAppend | src/physics_2d/rigidbody.rs:81-87 | survivors keep their relative order |
| Rigidbody.RetainIdempotent | src/physics_2d/rigidbody.rs:81-87 | retaining twice at one instant equals retaining once |
| Rigidbody.Rigidbody2D.constructor | src/physics_2d/rigidbody.rs:37-50 | no forces, mass 1, friction 0, nothing constrained |
| Rigidbody.Rigidbody2D.AddForce | src/physics_2d/rigidbody.rs:52-57 | exactly one force with the given mode is appended at the end |
| Rigidbody.Rigidbody2D.RemoveExpiredForces | src/physics_2d/rigidbody.rs:81-87 | the force list becomes the retained list |
| TextRenderable.Text.constructor | src/renderer_2d/renderables/text.rs:26-43 | all three flags up, no buffer, last depth 0 |
| TextRenderable.Text.SetFontSize | src/renderer_2d/renderables/text.rs:45-52 | stores the size and raises only the metrics flag |
| TextRenderable.Text.SetLineHeight | src/renderer_2d/renderables/text.rs:54-61 | stores the height and raises only the metrics flag |
| TextRenderable.Text.SetAdvancedTextShaping | src/renderer_2d/renderables/text.rs:63-70 | stores the choice and raises the text flag |
| TextRenderable.Text.SetText | src/renderer_2d/renderables/text.rs:72-82 | `text()` then returns the new text, and the text flag is up |
| TextRenderable.Text.SetSize | src/renderer_2d/renderables/text.rs:84-91 | `size()` then returns the new bounds, and the bounds flag is up |
| TextRenderable.Text.Render | src/renderer_2d/renderables/text.rs:103-190 | creates the buffer iff it was absent and otherwise keeps it with only its dirty parts set again; a depth change marks the text dirty; calls the text, size and metrics setters exactly for the flags that were up; reshapes iff a flag was up; then all flags are down and the buffer shows the current text, bounds and metrics; the last depth is recorded only when the renderer calls succeed |
| TextRenderable.RenderShapesOnlyWhenDirty | src/renderer_2d/renderables/text.rs:114-150 | the first render shapes, a repeat at the same depth does not, a new depth does |
| RectRenderable.RectIndicesWellFormed | src/renderer_2d/renderables/rect.rs:10-29 | six indices, each below the four vertices, every vertex used |
| RectRenderable.Rect.constructor | src/renderer_2d/renderables/rect.rs:47-53 | stores the colour, flag up, no render info |
| RectRenderable.Rect.SetColor | src/renderer_2d/renderables/rect.rs:55-62 | `color()` then returns the new colour, and the flag is up |
| RectRenderable.Rect.Render | src/renderer_2d/renderables/rect.rs:100-133 | creates render info iff it was absent; uploads the colour iff the flag was up; then the flag is down and the uniform holds the colour; draws 6 indices |
| RectRenderable.RenderUploadsOnlyWhenDirty | src/renderer_2d/renderables/rect.rs:100-126 | the first render creates and uploads, a second does neither, and after `set_color` the next render uploads without creating |
| GlBuffer.VertexBuffer.constructor | src/core/graphics/buffer.rs:31-37 | size 0 |
| GlBuffer.VertexBuffer.SetData | src/core/graphics/buffer.rs:39-49 | size becomes the slice length and the byte count passed is size times 4 |
| GlBuffer.IndexBuffer.constructor | src/core/graphics/buffer.rs:70-76 | size 0 |
| GlBuffer.IndexBuffer.SetData | src/core/graphics/buffer.rs:78-88 | size becomes the slice length and the byte count passed is size times 4 |
| GlBuffer.ElementSizes | src/core/graphics/buffer.rs:178-182 | element size 4 for `FLOAT` and `UNSIGNED_INT`, 1 for `UNSIGNED_BYTE` |
| GlBuffer.SumPrefixStep | src/core/graphics/buffer.rs:198 | each step of the loop adds one element's size to the running offset |
| GlBuffer.LastAttributeEndsAtStride | src/core/graphics/buffer.rs:183-198 | the last offset plus the last element's byte size is the stride |
| GlBuffer.AttributesContiguous | src/core/graphics/buffer.rs:186-199 | each attribute ends where the next begins and before any later one |
| GlBuffer.VertexArray.SetLayout | src/core/graphics/buffer.rs:176-200 | for each element in order: index i, its size, always `FLOAT`, stride = element size times the layout sum, offset = element size times the sizes before it; then attribute i is enabled |
| VertexLayout.PackedNonOverlapping | src/renderer_2d/renderables/mod.rs:42-53 | in a packed layout no attribute overlaps a later one |
| VertexLayout.PackedWithinStride | src/renderer_2d/renderables/mod.rs:39-53 | in a packed layout every attribute ends within the stride |
| Renderer2DVertices.ColorVertexLayout | src/renderer_2d/renderables/mod.rs:30-56 | offsets 0 and 12 at locations 0 and 1, stride 28, per-vertex, packed, matching the struct fields |
| Renderer2DVertices.UvVertexLayout | src/renderer_2d/renderables/mod.rs:58-85 | offsets 0 and 12 at locations 0 and 1, stride 20, per-vertex, packed, matching the struct fields |
| Renderer2DVertices.UvColorVertexLayout | src/renderer_2d/renderables/mod.rs:87-120 | offsets 0, 12 and 20 at locations 0 to 2, stride 36, per-vertex, packed, matching the struct fields |
| RendererVertices.ColorVertexLayout | src/renderer/renderables/mod.rs:5-31 | offsets 0 and 12 at locations 0 and 1, stride 28, per-vertex, contiguous |
| RendererVertices.UvVertexLayout | src/renderer/renderables/mod.rs:33-60 | offsets 0 and 12 at locations 0 and 1, stride 20, per-vertex, contiguous |
| Window.FindFirst | src/window.rs:59-67 | `find` yields the first element satisfying the test, or none when no element does |
| Window.ChooseSurfaceFormat | src/window.rs:59-62 | the first sRGB format listed, otherwise the first format |
| Window.ChoosePresentMode | src/window.rs:64-67 | `Immediate` if listed, otherwise the first mode |
| Window.InitialConfig | src/window.rs:55-77 | width and height are the inner size; the chosen format and present mode; the first alpha mode |
| Window.Window.constructor | src/window.rs:55-86 | the window is configured with the initial configuration |
| Window.Window.Resize | src/window.rs:89-98 | `Ok` iff both dimensions are positive, and then only width and height change; otherwise `Err("Window size cannot be zero.")` with the configuration unchanged |
| Window.ZeroResizeKeepsSize | src/window.rs:89-98 | a rejected resize keeps the last size and a later valid one applies |

## Left out

- The raw pointers `Asset::data` and `ScenesManager::app_ref` are not modelled. A handle is its id. The scene callback receives the application as an explicit value.
- Assets.AssetManager.CreateAsset: the `anyhow::Result` wrapper is dropped, because `create_asset` always answers `Ok`. The drop channel is unbounded, so `send` fails only once the receiver is gone, that is, when the `AssetManager` was destroyed while handles are alive; the `unwrap()` panic in that case is not modelled.
- All id counters and `frames` are unbounded naturals. The `u32`/`usize` overflow of the source is not modelled.
- Systems.NewStartup, Systems.NewEventCallback, Systems.NewTimed, Systems.NewUpdate: the random uuid and the `Instant::now()` stamp are parameters. The scheduler that reads `SystemType` is not part of this model, so no timing rule is stated.
- Ecs.SystemsManager.RunSystems: an `FnMut` closure's captured state is folded into the state `S` that a system maps to a new state.
- Input.Input.Update: mouse position, mouse delta and wheel deltas are floating point and not modelled. Neither are their getters.
- FpsCounter.FpsCounter.Tick: the `f32` fps value is not computed. Each refresh records the frame count and the elapsed time it is derived from. Time is a whole-unit clock reading passed in.
- FpsCounter.FpsCounter.Tick: the refresh period is a given natural number. In the source it is `Duration::from_secs_f32(1.0 / refresh_rate)`, which panics when the rate is zero, negative or not finite; that error path is not modelled.
- Rigidbody.Rigidbody2D.RemoveExpiredForces: velocity, acceleration and gravity integration in `simulate` is floating point and not modelled. The source reads `Instant::now()` once per force during retention; the model uses one instant for the whole pass.
- TextRenderable.Text.Render: glyph layout, shaping output and the `prepare_with_depth`/`render` calls are foreign. The buffer is modelled as the text, depth, bounds and metrics last handed to it. The outcome of the renderer calls is a parameter, so the last depth is recorded only on success.
- RectRenderable.Rect.Render: buffers, the model-matrix uniform, bind groups and the draw call are GPU calls. Only the colour uniform, whether render information was created, whether the colour was uploaded, and the index count are modelled.
- GlBuffer.VertexArray.SetLayout: the GL calls are returned as a list instead of being issued. The `u32` sum and the `i32` cast of the stride are unbounded.
- Window.Window.constructor: window, instance, adapter and device creation and `surface.configure` are foreign and not modelled. The inner size and the surface capabilities are parameters. Indexing an empty format, present-mode or alpha-mode list panics, so those lists must be non-empty.
- Floating-point values (colours, bounds, sizes, depth, mass, friction) are `real`. NaN and rounding are not modelled.
- GPU pipelines, textures, uniforms, the renderers, the app loop, the logger, image decoding, camera and transform maths are outside the modelled core.

## Findings

| source | as written | input that shows it | evidently intended | confidence | as-written member | corrected member |
|---|---|---|---|---|---|---|
| src/assets.rs:44-52 | `Clone` copies the handle without touching its reference count, yet every clone's `Drop` posts a decrement | `create_asset(v)`, clone the handle, drop the clone, `drop_unused_assets()`: the count goes from 1 to 0 and the slot is freed while the original handle is alive | a clone increments the count, so a slot lives as long as any handle to it | high, not executed | Assets.CloneDropFreesLiveAsset | Assets.CountedSlotTracksLiveHandles |
