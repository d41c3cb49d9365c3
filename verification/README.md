# bevy-piet in Dafny

A model of the sequential logic at the core of bevy-piet. bevy-piet plugs the
piet-gpu renderer into Bevy through a render sub-app. The model covers five
pieces:

- **The two-slot frame ring** of `render_frame` (`frame_ring.dfy`,
  `frame_safety.dfy`). The `RenderFrame` counter picks slot
  `current_frame % 2`. A submission still held in that slot is waited on,
  and its command buffer is recycled. With nothing to recycle, a fresh buffer
  is allocated. The buffer is recorded and submitted, the submission goes back
  into the slot, and the counter advances. Start-up (`setup_piet_renderer`)
  creates two query pools and two present semaphores, with empty slots and
  the counter at 0. The GPU is a `Backend` (`gpu.dfy`): it hands out fresh
  handle numbers and appends every call to a history. The main theorem is
  `FrameSafety.NoReuseBeforeWait`: over any run of frames, a command buffer
  is never begun again while a submission that used it has not been waited
  on.
- **The world hand-over and the stage sequence** of the render sub-app
  (`world_swap.dfy`). `extract` swaps the scratch world and the render world
  between the app world and the sub-app. It runs the Extract stage against the
  app world, swaps back, and applies the buffered commands to the render
  world. As written, the stage applies its buffers to the app world itself,
  so this last step finds nothing to apply (see Findings). One tick runs
  Setup (only the first time), Extract, Prepare, Render and Cleanup, then
  clears the render world's entities. Worlds carry an identity, so that "each
  world has exactly one holder" can be stated.
- **Asset-event reconciliation** `extract_vec_img_render_assets`
  (`vector_image.dfy`). A batch of Created/Modified/Removed events is folded
  into the render world's handle-to-asset map. The extraction of vector-image
  instances lives in the same file.
- **Vector-image ordering and command emission** `prepare_vector_images`
  (`vector_render.dfy`). Instances are sorted by (z, handle). One Middle-layer
  SVG command is sent per instance whose asset is known.
- **Text labels** `extract_text_labels` / `prepare_text_labels`
  (`text_render.dfy`). Query rows are copied in order, and each label yields
  one Foreground text command.

`common.dfy` holds the shared types: `Option`, `Result`, transforms, handles,
and the render-command types.

A panic (`unwrap` on `None` or on an error) is an `Err` in the model. The GPU
calls that can fail are named by the `failing` set a frame is given.

## Model

| member | source | states |
|---|---|---|
| FrameRing.CreateMany | bevy_piet_render/src/render.rs:49-52 | Creating `n` handles in a row gives `n` consecutive fresh handles and issues one creation per handle, in order. The collection fails exactly when `n > 0` and the creation call fails, and the error names that call. |
| FrameRing.Setup | bevy_piet_render/src/render.rs:49-82 | Start-up gives counter 0, an empty drawing context, and both command-buffer and both submission slots empty. It gives exactly 2 query pools with capacity 8 and exactly 2 present semaphores, all distinct. Start-up panics exactly when pool or semaphore creation fails. |
| FrameRing.RenderFrame | bevy_piet_render/src/render.rs:94-162 | Without resources the frame panics with a missing resource. A frame that completes advances the counter by exactly 1, puts the resources back and resets the drawing context. It keeps the semaphores, pools, session, swapchain and renderer. It empties the selected slot's buffer, stores a new submission signalling that slot's present semaphore, and leaves the other slot untouched. The backend's history only grows. The upload error is reported exactly when the upload fails. |
| FrameRing.FramePanics | bevy_piet_render/src/render.rs:108-148 | With resources, a frame panics exactly when a slot index is out of range, a wait on the held submission or the query fetch fails, image acquisition fails, allocation fails when a fresh buffer is needed (the wait handed none back, or with no wait the slot holds none), or submission or presentation fails. The panic is an index error or names one of those failing calls, never the upload. A completed frame issued the upload of its drawing context into its slot's scene buffer. |
| FrameRing.FrameOrder | bevy_piet_render/src/render.rs:112-144 | Every buffer begun in a frame is the submitted buffer, and recording precedes submission. A prior submission in the slot is the first thing waited on. If the wait hands its buffer back, that buffer is the one recorded; if it hands back none, a fresh buffer is allocated. With no prior submission and no slot buffer, a fresh buffer is allocated as well. |
| FrameSafety.SetupEstablishesInv | bevy_piet_render/src/render.rs:49-82 | On a backend that has not begun or submitted anything, start-up establishes the ring invariant: no buffer parked in a slot, submissions accounted for, and no premature reuse. |
| FrameSafety.FramePreservesInv | bevy_piet_render/src/render.rs:94-162 | Every completed frame preserves the ring invariant. |
| FrameSafety.RunRotatesSlots | bevy_piet_render/src/render.rs:110-150 | In a run of frames, frame `k` leaves the counter at `start + k + 1`. It stores in slot `(start + k) % 2` a fresh submission, one whose id the backend handed out during that frame. The other slot is left as frame `k - 1` left it. |
| FrameSafety.RunCompletes | bevy_piet_render/src/render.rs:94-162 | From any state holding two pools and two semaphores, a run of frames completes whenever no GPU call other than the upload fails. |
| FrameSafety.SetupThenRunCompletes | bevy_piet_render/src/render.rs:49-162 | If pool and semaphore creation succeed, start-up completes, and any following run of frames completes when no GPU call other than the upload fails. |
| FrameSafety.RunPreservesInv | bevy_piet_render/src/render.rs:94-162 | The invariant holds after every frame of a run. |
| FrameSafety.NoReuseBeforeWait | bevy_piet_render/src/render.rs:112-128 | After start-up and any number of frames, every `Begin` of a buffer that was submitted earlier has a `Wait` on that submission in between. |
| FrameSafety.WaitsTwoFramesBack | bevy_piet_render/src/render.rs:110-113 | Two frames later the same slot is selected again, and the first call of that frame waits on the earlier frame's submission. |
| FrameSafety.FiveFramesFromStart | bevy_piet_render/src/render.rs:110-150 | From start-up, five frames leave the counter at 1..5. They store fresh submissions in slots 0, 1, 0, 1, 0, and each frame leaves the other slot as the previous frame left it. |
| FrameSafety.UploadFailureOnlyLogged | bevy_piet_render/src/render.rs:117-120 | A failing upload changes nothing but the printed message. Either both frames complete or both panic, with the same state and the same backend history. |
| WorldSwap.ApplyBuffersLastWins | bevy_piet_render/src/lib.rs:215 | After the buffered commands are applied, an entity exists exactly when the last command about it spawned it, or no command mentions it and it existed before. The resources are the last ones set. |
| WorldSwap.ApplyBuffersAppend | bevy_piet_render/src/lib.rs:215 | Applying two command buffers in turn equals applying their concatenation. |
| WorldSwap.Lend | bevy_piet_render/src/lib.rs:204-206 | The first swap panics exactly when the app world has no `ScratchRenderWorld`, and it leaves the app world's own contents alone. |
| WorldSwap.RunExtract | bevy_piet_render/src/lib.rs:208 | The Extract stage panics exactly when `RenderWorld` is absent or one of its systems panics. It does not touch the sub-app's world or the scratch. The app world and the contents of `RenderWorld` become what the systems left, `RenderWorld` keeps its identity, and the systems' buffered commands are handed back. |
| WorldSwap.Reclaim | bevy_piet_render/src/lib.rs:211-213 | The second swap panics exactly when `RenderWorld` is absent, and it leaves the app world's own contents alone. |
| WorldSwap.Extract | bevy_piet_render/src/lib.rs:197-216 | `extract` panics exactly when the scratch world is missing, with that missing resource, or when an extract system panics. Otherwise the scratch returns unchanged and no `RenderWorld` remains. The sub-app gets back its own world as the systems left it, with their buffered commands applied to it. The app world is as the systems left it. |
| WorldSwap.ExtractAsWritten | bevy_piet_render/src/lib.rs:83-84 | The stage as configured applies its buffered commands to the app world at the end of its run. The later `apply_buffers` finds the buffers empty, and the render world gets only what the systems wrote to it directly. |
| WorldSwap.SpawnLandsInAppWorldAsWritten | bevy_piet_render/src/lib.rs:208-215 | An extract system that buffers a spawn of entity 7: as written, 7 appears in the app world and not in the render world. With the buffers applied to the render world, as line 215 intends, it is the other way round. |
| WorldSwap.ExtractAgreesWithoutCommands | bevy_piet_render/src/lib.rs:197-216 | When the extract systems buffer no commands, `extract` as written and as corrected give the same outcome, panics included. |
| WorldSwap.ExtractCommandsReachRenderWorld | bevy_piet_render/src/lib.rs:215 | After `extract`, an entity exists in the render world exactly when the last buffered command about it spawned it, or no command mentions it and the systems left it there. The app world is exactly as the systems left it. |
| WorldSwap.ExtractIdleRoundTrip | bevy_piet_render/src/lib.rs:204-213 | With systems that change nothing, the two swaps undo each other. |
| WorldSwap.ExtractKeepsSoleHolders | bevy_piet_render/src/lib.rs:204-213 | Each of the two worlds has exactly one holder before, during and after `extract`. While the systems run, the app world holds the former render world as `RenderWorld` with no scratch, and the sub-app holds the scratch. |
| WorldSwap.Tick | bevy_piet_render/src/lib.rs:100-190 | A completed tick leaves the render world with the contents obtained by composing the stages' systems in order: Setup (only if it has not run), Extract with its buffered commands applied to the render world (the corrected `extract` of the Findings row), Prepare, Render, Cleanup, then clearing the entities. The app world is as Extract left it. The render world keeps its identity, and the scratch is unchanged. A tick panics only with a missing scratch or a panicking system. Without a scratch, when Setup's systems (if they run) do not panic first, it panics with the missing resource. |
| WorldSwap.TickCompletes | bevy_piet_render/src/lib.rs:100-190 | A tick completes exactly when the scratch world is there and no stage's systems panic: Setup (unless it has run), Extract, and then Prepare, Render and Cleanup on the extracted world with its buffered commands applied. |
| WorldSwap.TickIgnoresSetupOnceDone | bevy_piet_render/src/lib.rs:80-135 | Once Setup has run, a tick is the same whatever the Setup systems are. |
| WorldSwap.TicksIgnoreSetupOnceDone | bevy_piet_render/src/lib.rs:80-135 | Once Setup has run, any number of ticks are the same whatever the Setup systems are. |
| WorldSwap.TicksRunSetupOnce | bevy_piet_render/src/lib.rs:80-189 | Over `n` completed ticks, the Setup systems run once if they had not run before and never otherwise. Extract and Cleanup run `n` times, and `4n` or `4n + 1` stages run in all. After one tick Setup counts as done. The scratch is unchanged and the render world keeps its identity. |
| WorldSwap.Build | bevy_piet_render/src/lib.rs:72-98 | `init_resource` adds an empty scratch world only when there is none. The sub-app starts with a fresh world holding the renderer's resources, and Setup has not run. |
| WorldSwap.BuildThenTick | bevy_piet_render/src/lib.rs:73-206 | After the plugin is built, each world has one holder, and a tick can only panic inside a stage's systems, never for a missing scratch. |
| VectorImage.ExtractVecImgInstances | bevy_piet_vector/src/vector_image.rs:32-47 | One extracted instance per query row, in row order, with the same transform and handle id. |
| VectorImage.ExtractInstancesRoundTrip | bevy_piet_vector/src/vector_image.rs:36-42 | The rows can be read back from the extracted list. |
| VectorImage.ExtractVecImgRenderAssets | bevy_piet_vector/src/vector_image.rs:54-81 | A missing render-asset map is the panic. Otherwise each handle ends with the store's asset if its last event created or modified it and the store has it. Failing that, it ends absent if it was removed at some point in the batch, and unchanged otherwise. The same holds whatever order the handle set is drained in. |
| VectorImage.DuplicateEventsActAsOne | bevy_piet_vector/src/vector_image.rs:63-67 | Repeating a Created or Modified event in place changes no handle's outcome. |
| VectorImage.CreatedActsAsModified | bevy_piet_vector/src/vector_image.rs:66-67 | Created and Modified are interchangeable. |
| VectorRender.SortByKey | bevy_piet_vector/src/render.rs:18-30 | The sort leaves a permutation of the instances, ordered by z and then by handle id. |
| VectorRender.SortedPermutationsAgreeOnKeys | bevy_piet_vector/src/render.rs:18-30 | Any two orderings that are sorted permutations of the same instances agree on (z, handle) at every position. Whichever order the unstable sort picks, the keys come out the same. |
| VectorRender.Emit | bevy_piet_vector/src/render.rs:32-50 | At most one command per instance. Every command is a Middle-layer SVG command made from some instance with a known asset. There is one command for every instance exactly when every handle is known. |
| VectorRender.EmitSingle | bevy_piet_vector/src/render.rs:32-42 | One instance gives one Middle-layer SVG command built from its asset when the handle is known, and nothing otherwise. |
| VectorRender.EmitAppend | bevy_piet_vector/src/render.rs:32-50 | Commands come out in instance order: emitting for `a + b` gives `a`'s commands, then `b`'s. |
| VectorRender.PrepareVectorImages | bevy_piet_vector/src/render.rs:10-51 | The list is sorted and is a permutation of its input. The commands are those emitted for the sorted list, and there are at most as many commands as instances. |
| VectorRender.PrepareDeterminedUpToEqualKeys | bevy_piet_vector/src/render.rs:18-42 | Two sorted orders give the same handle and z at every position, and the same number of commands. |
| TextRender.ExtractTextLabels | bevy_piet_text/src/render.rs:15-30 | One extracted label per query row, in row order, with the text and transform copied. |
| TextRender.PrepareTextLabels | bevy_piet_text/src/render.rs:32-44 | One Foreground text command per label, in label order, carrying the label's text and transform. |
| TextRender.PrepareRoundTrip | bevy_piet_text/src/render.rs:36-40 | The labels can be read back from the commands. |
| TextRender.PrepareAppend | bevy_piet_text/src/render.rs:36-40 | Preparing two lists in turn gives the commands of their concatenation. |
| TextRender.ExtractThenPrepare | bevy_piet_text/src/render.rs:19-40 | From query rows to commands: the i-th command is `Text(text, transform)` of the i-th row, in the foreground. |

## Left out

- Instance, device, surface, swapchain and renderer creation, and the window size (bevy_piet_render/src/render.rs:25-47, 62-68, 85). These are foreign piet-gpu calls. Session, swapchain and renderer are opaque values.
- The piet-gpu-hal calls (`record`, `image_barrier`, `blit_image`, `run_cmd_buf`, `present`, `fetch_query_pool`, `upload_render_ctx`). Each one only appends an operation to the backend's history or fails as the frame's `failing` set says. The query results are dropped, as in the source.
- `SubmittedCmdBuf::wait`: its answer, the submitted buffer or none, is a per-frame input (`recycles`). When a buffer comes back, it is the one that was submitted. piet-gpu-hal is not part of this model.
- FrameRing.RenderFrame: a panicking frame is an `Err` with no state. The source has already taken the resources out at that point, but the application aborts, so the later state is unobservable.
- FrameRing.RenderFrame: the `usize` frame counter is an unbounded `nat`. Wrap-around after 2^64 frames is not modelled.
- `prepare_frame` (bevy_piet_render/src/render.rs:89-92): it computes a floating-point scale and draws nothing.
- The NaN case of the z comparator (bevy_piet_vector/src/render.rs:25). z is a `real`, so the comparator is a total preorder. With NaN, `partial_cmp` gives `None`, the source falls back to the handle order, and the comparator is no longer a total order.
- VectorRender.SortByKey: `sort_unstable_by` is modelled by one deterministic sort (insertion). Its contract promises only what the unstable sort promises: a sorted permutation. `SortedPermutationsAgreeOnKeys` shows every such order has the same keys.
- Handle ids are natural numbers compared by `<=`. Bevy's `HandleId` ordering over UUID or path ids is not modelled.
- The third field of the SVG payload, `extracted.vec_image_inst.center` (bevy_piet_vector/src/render.rs:39), names a field that `ExtractedVecImgInstance` does not have. The payload is (svg, transform).
- `RenderCommand`, `RenderLayer` and `RenderType` are re-exported (bevy_piet_render/src/lib.rs:17) but defined in no file of the source. They are defined from their use sites. No ordering by layer is modelled, since no code here consumes the command stream.
- The `Events` double-buffering of `RenderCommand` (bevy_piet_render/src/lib.rs:92-96): sent commands are returned as a sequence.
- Entity reservation and `flush_as_invalid` (bevy_piet_render/src/lib.rs:112-126), tracing spans, and non-send resources. A world is an identity, an entity set and one opaque value for all its resources.
- WorldSwap.RunExtract: the Extract stage's systems are an arbitrary, possibly panicking function of the app world's contents and the render world's contents. They cannot add or remove the `RenderWorld` or `ScratchRenderWorld` resources themselves; no system of this repository does.
- Bevy's `SystemStage` is not part of this model. Its behaviour at the end of `run`, applying the systems' buffered commands unless `set_apply_buffers(false)` was called, is modelled in `ExtractAsWritten` from Bevy 0.6's documented behaviour. It is not derived from Bevy's code.
- WorldSwap.Tick: the systems of the other stages are arbitrary functions on the sub-app world's contents that may panic.
- WorldSwap.Tick: the tick composes the corrected `Extract`, in which the Extract systems' buffered commands reach the render world. As written, they are applied to the app world (`ExtractAsWritten`, Findings). `Tick`, `Ticks`, `TicksRunSetupOnce`, `TicksIgnoreSetupOnceDone` and `BuildThenTick` therefore describe the closure with that fix applied. Since no extract system of this repository buffers commands, the two agree on this repository's systems.
- The drain order of the `HashSet` of new handles: the method picks handles in any order (`:|`), and its contract holds for every choice.
- VectorImage.ExtractVecImgInstances, TextRender.ExtractTextLabels: the extracted list replaces the resource's previous list wholesale. The functions therefore take only the query rows.
- svg_loader.rs (file I/O and the PicoSvg parser), the plugin registration in the vector, text and core crates, the bundles, and example/text2d.rs: wiring and data with no logic.

## Findings

| source | as written | input that shows it | evidently intended | confidence | as-written member | corrected member |
|---|---|---|---|---|---|---|
| bevy_piet_render/src/lib.rs:83-84 | The Extract stage is a plain `SystemStage::parallel()`, which applies its systems' buffered commands to the world it ran on, the app world, at the end of `run` (line 208). The `apply_buffers` on the render world at line 215 then finds nothing to apply. | An extract system that buffers `spawn` of entity 7: after `extract`, 7 is in the app world and not in the render world. | The commands land in the render world, which needs `set_apply_buffers(false)` on the Extract stage. | medium, not executed | WorldSwap.SpawnLandsInAppWorldAsWritten | WorldSwap.ExtractCommandsReachRenderWorld |
