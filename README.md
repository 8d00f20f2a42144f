# nile engine core, modelled in Dafny

This project models the sequential bookkeeping underneath the nile Vulkan
2D/3D demo engine and proves what that bookkeeping promises. Vulkan handles
are natural numbers (0 is `VK_NULL_HANDLE`), Vulkan results are an enum that
arrives as a parameter, and a thrown `std::runtime_error` is an `Err` result
carrying the engine's message. Each module follows one part of the engine:

- `common.dfy` (`Common`): vectors over `real`, handles, `VkResult`, the
  `Option`/`Result` wrappers and the recorded command stream.
- `game_object.dfy` (`GameObjects`): the game object as a value and
  `NileGameObjectManager` as a class that owns the id-keyed object map and
  hands out ids 0, 1, 2, … up to `MAX_GAME_OBJECTS` = 1000. A reference that
  `createGameObject` returns and the caller then mutates becomes a write-back
  through `Update`.
- `descriptors.dfy` (`Descriptors`): the set-layout builder, the pool builder,
  the pool as a capacity plus a set of live sets, and the descriptor writer
  with its pending writes.
- `mesh.dfy` (`Mesh`): vertex deduplication in `loadModel`, the vertex and
  index count checks of model creation, and the choice between indexed and
  plain `bind`/`draw`.
- `renderer.dfy` (`Renderer`): `NileRenderer`'s frame state machine over
  `isFrameStarted` and `currentFrameIndex`, and the mirror sample's frame as a
  client that meets every precondition.
- `off_screen.dfy` (`OffScreen`): the offscreen target's render pass
  configuration and its two-way layout transition.
- `render_systems.dfy` (`RenderSystems`): the per-object draw loops of the
  simple, 2D, 3D, mirror, water and particle systems. They cover which objects
  each system draws, the sets each one builds in the frame pool and the
  bindings it writes. The iteration order of the object map is an input
  enumeration of its keys.
- `particles.dfy` (`Particles`): `ParticleGenerator`'s pool, the
  wrap-around scan for a free slot, respawn and decay.
- `sprites.dfy` (`Sprites`): the circle, rounded-rectangle and square
  sprites, built with index arithmetic.
- `breakout.dfy` (`BreakoutGame`): level files read into a tile grid, one
  brick object per nonzero tile, and the ball's movement.
- `collision.dfy` (`Collision`): the box overlap test, the circle–box
  contact test, the compass classification of a contact and the per-frame
  collision pass over bricks, ball and paddle.
- `terrain.dfy` (`Terrain`): the vertex and index grid of a procedural
  terrain tile and the on-tile test of the height lookup.
- `gravity.dfy` (`GravityScene`): the gravity sample's scene, made of two
  bodies and a 30 × 30 field of arrows.

Coordinates, colours and times are exact `real`s. The model keeps the
engine's own arithmetic where it differs from the obvious formula. Examples are
the unsigned division in a brick's cell height and the background size, the
unnormalised terrain normal (the result of `glm::normalize` is discarded in
`calculateNormal`), and the unsigned −1 that `VectorDirection` returns for a
zero vector (`Direction.NoMatch`).

## Model

| member | source | states |
|---|---|---|
| GameObjects.GameObject.SetIsHidden | src/framework/core/nile_game_object.hpp:94-95 | setIsHidden changes the hidden flag, which getIsHidden then reads, and leaves the id and every other field alone |
| GameObjects.GameObjectManager.constructor | src/framework/core/nile_game_object.hpp:192-198 | a new manager holds no objects, its next id is 0, and it keeps one uniform buffer per frame in flight and the two default textures |
| GameObjects.GameObjectManager.CreateGameObject | src/framework/core/nile_game_object.hpp:163-173 | below MAX_GAME_OBJECTS, the new object takes the next id, which then goes up by one; it has the default diffuse, normal and depth texture and the default dudv map, every flag false, black, unit scales with no translation or rotation, at rest with mass 1, and no model or optional component; no other object changes |
| GameObjects.GameObjectManager.MakeParticle | src/framework/core/nile_game_object.hpp:182-183 | below MAX_GAME_OBJECTS, the next id; the object is a created one (defaults and default textures as for createGameObject) except that it carries the given particle component and is flagged as a particle; no other object changes |
| GameObjects.GameObjectManager.Update | src/framework/core/nile_game_object.hpp:163-173 | writing back an object changed through the reference createGameObject returned replaces that object and nothing else, under the same id |
| GameObjects.GameObjectManager.GetBufferInfoForGameObject | src/framework/core/nile_game_object.hpp:185-188 | an object's uniform slot is element `id` of the uniform buffer for that frame |
| GameObjects.BufferSlotsDistinct | src/framework/core/nile_game_object.hpp:185-188 | two different objects never share a uniform slot within one frame |
| GravityScene.FieldCoordinates | src/apps/sample/2d/gravity.hpp:106-114 | every cell centre -1 + (i + .5) * 2 / 30 of the field lies strictly inside (-1, 1), and a later cell lies further along |
| GravityScene.ArrowsApart | src/apps/sample/2d/gravity.hpp:107-114 | no two of the 900 arrows stand at the same place |
| GravityScene.Arrow | src/apps/sample/2d/gravity.hpp:109-117 | the object the inner loop makes for cell (i, j) is arrow i * 30 + j: scale .005, white, the square sprite, the cell centre as x and y, flagged as a vector-field object |
| GravityScene.FieldStep | src/apps/sample/2d/gravity.hpp:107-119 | adding the next arrow under the next free id extends the field by one id and keeps every earlier object |
| GravityScene.SceneFlags | src/apps/sample/2d/gravity.hpp:89-119 | of the 902 objects of the scene exactly the 900 field arrows have isVectorField set |
| GravityScene.Gravity.constructor | src/apps/sample/2d/gravity.hpp:80-122 | a scene starts with no physics objects and an empty field |
| GravityScene.Gravity.LoadGameObjects | src/apps/sample/2d/gravity.hpp:80-122 | the square sprite has 4 vertices and 6 indices and the circle 66 of each; the blue and red bodies take the next two ids with their positions, colours and velocities and are the only physics objects added; 900 arrows follow in column order and are the only field objects added; exactly the arrows are flagged; earlier objects are kept and no other id is used, so the scene fits under MAX_GAME_OBJECTS from 98 free ids up |
| GravityScene.Gravity.AddBodies | src/apps/sample/2d/gravity.hpp:89-103 | the blue then the red body, under consecutive ids, appended to physObjects in that order |
| GravityScene.Gravity.AddBody | src/apps/sample/2d/gravity.hpp:89-95 | one body: a created object with the circle sprite, scale .05, its position, colour and velocity, depth, rotation and mass left at their defaults, appended to physObjects; no other object changes |
| GravityScene.Gravity.AddField | src/apps/sample/2d/gravity.hpp:106-121 | the nested loops create arrows 0 to 899 under consecutive ids, append those ids to vectorField, and keep every earlier object |
| GravityScene.Gravity.AddArrow | src/apps/sample/2d/gravity.hpp:109-118 | one pass of the inner loop keeps the field invariant: one more arrow under the next id, its id appended |
| Sprites.Triangles | src/framework/core/nile_model.cpp:157-163 | an indexed draw turns every three indices into one triangle |
| Sprites.CircleFan | src/apps/game/2d/breakout/breakout.cpp:162-170 | the circle has one triangle per side |
| Sprites.CircleVertices | src/apps/game/2d/breakout/breakout.cpp:162-166 | after i sides the vertex list has 3i entries |
| Sprites.CircleVerticesAt | src/apps/game/2d/breakout/breakout.cpp:162-166 | side t contributes rim point t, rim point t + 1 modulo n and the centre, in that order |
| Sprites.CircleTriangles | src/apps/game/2d/breakout/breakout.cpp:162-170 | the indices 0 .. 3n - 1 stay within the circle's vertices and draw exactly its fan: side t joins rim point t, the next rim point and the centre |
| Sprites.CircleMesh | src/apps/game/2d/breakout/breakout.cpp:151-170 | 3n vertices, indices 0, 1, ..., 3n - 1, and the triangles they draw are the circle's fan |
| Sprites.CreateCircleSprite | src/apps/game/2d/breakout/breakout.cpp:151-177 | a model is made exactly when the circle has at least one side, with 3n vertices and 3n indices drawn indexed |
| Sprites.EdgeVertices | src/apps/game/2d/breakout/breakout.cpp:202-210 | the eight points where the straight edges meet the arcs |
| Sprites.AddCornerVertices | src/apps/game/2d/breakout/breakout.cpp:189-194 | appends the six points 0 .. numSegments of corner c's arc and keeps what was there |
| Sprites.FanFromFirst | src/apps/game/2d/breakout/breakout.cpp:213-218 | the fan from vertex 0 has one triangle fewer than two per vertex: |vertices| - 2 |
| Sprites.RectangleMesh | src/apps/game/2d/breakout/breakout.cpp:179-218 | 32 vertices, the four arcs of six points then the eight edge points, and 90 indices (0, t + 1, t + 2) that stay in range and draw the fan from vertex 0 |
| Sprites.CreateRectangleSprite | src/apps/game/2d/breakout/breakout.cpp:179-230 | the emptiness check never throws and the model has 32 vertices and 90 indices |
| Sprites.SquareMesh | src/apps/sample/2d/gravity.hpp:31-51 | 4 vertices, each the unit square's corner moved by the offset, and the indices 0, 1, 2, 0, 2, 3, which draw the two triangles (0, 1, 2) and (0, 2, 3) |
| Mesh.Assemble | src/framework/core/nile_model.cpp:210-239 | a present vertex index selects the three coordinates of the position and of the colour at three times the index; a present normal index selects the normal the same way; a present texcoord index selects the two uv components at twice the index; an absent (negative) index leaves its fields zero |
| Mesh.AssembleAll | src/framework/core/nile_model.cpp:208-239 | one assembled vertex per face corner, in order |
| Mesh.UniqueMembers | src/framework/core/nile_model.cpp:241-245 | deduplication keeps exactly the vertices that occur, each once |
| Mesh.UniqueDistinct | src/framework/core/nile_model.cpp:241-244 | the deduplicated list holds no vertex twice |
| Mesh.UniqueSnoc | src/framework/core/nile_model.cpp:241-244 | a vertex is appended exactly when it was not seen before |
| Mesh.UniqueShorter | src/framework/core/nile_model.cpp:241-245 | deduplication never produces more vertices than there were face corners |
| Mesh.Builder.constructor | src/framework/core/nile_model.hpp:47-49 | a new builder holds no vertices and no indices |
| Mesh.Builder.LoadModel | src/framework/core/nile_model.cpp:194-248 | a loader failure throws the warning and error text and changes nothing; otherwise one index per face corner, the vertex list is the distinct assembled vertices in order of first occurrence, and each index points at its corner's vertex |
| Mesh.DedupSeen | src/framework/core/nile_model.cpp:241-245 | a vertex seen before adds the position the hash map holds for it and nothing else, keeping the loop invariant |
| Mesh.DedupNew | src/framework/core/nile_model.cpp:241-245 | a new vertex is appended, its position recorded, and that position added as its index, keeping the loop invariant |
| Mesh.Deduplicate | src/framework/core/nile_model.cpp:207-247 | one index per assembled vertex, each pointing at an equal vertex, and the vertex list is the distinct vertices in order of first occurrence |
| Mesh.CreateModel | src/framework/core/nile_model.cpp:34-155 | creation fails exactly when there are fewer than 3 vertices or no index, with the vertex check first and its own message; a created model records both counts, has an index buffer, and creates a non-null material or pack only after both buffers exist |
| Mesh.Bind | src/framework/core/nile_model.cpp:165-173 | binding always binds the vertex buffer first, and binds the index buffer exactly when the model has one |
| Mesh.DrawCommand | src/framework/core/nile_model.cpp:157-163 | a model with an index buffer draws indexed with its index count, any other draws its vertex count |
| Mesh.CreatedModelsDrawIndexed | src/framework/core/nile_model.cpp:149-163 | since creation rejects an empty index list, every model that exists binds an index buffer and draws indexed with all its indices |
| Particles.ComponentsOf | src/framework/systems/particles/particle_system.cpp:114-116 | the pool read through the slots' objects, slot by slot |
| Particles.FirstDead | src/framework/systems/particles/particle_system.cpp:129-143 | the first slot in the range whose life is at most 0, with only live slots before it, or none exactly when every slot of the range is alive |
| Particles.FirstUnused | src/framework/systems/particles/particle_system.cpp:127-147 | the first dead slot at or after the last used one if there is one, else the first dead slot before it, else slot 0 |
| Particles.FirstDeadAt | src/framework/systems/particles/particle_system.cpp:129-143 | a dead slot with only live slots before it in the range is the one the search returns |
| Particles.Respawned | src/framework/systems/particles/particle_system.cpp:149-161 | a respawned particle is alive with life 1, has opaque grey colour rColor and a tenth of the emitter's velocity, and sits at the emitter's position plus the offset, moved by the same random spread on both axes |
| Particles.Decayed | src/framework/systems/particles/particle_system.cpp:116-123 | life always drops by dt; position moves back by velocity * dt and alpha drops by 2.5 dt only when the particle is still alive afterwards |
| Particles.DecayedFrom | src/framework/systems/particles/particle_system.cpp:114-124 | after n slots, exactly the first n have decayed |
| Particles.SpawnAll | src/framework/systems/particles/particle_system.cpp:106-111 | one respawn per draw, each in the slot firstUnusedParticle picks; the pool keeps its size and the last used slot stays in range; no draw changes nothing |
| Particles.SpawnOneRevives | src/framework/systems/particles/particle_system.cpp:106-111 | when the pool has a dead particle, one respawn picks a dead slot and revives it, and no other slot changes |
| Particles.SpawnAllTouches | src/framework/systems/particles/particle_system.cpp:106-111 | respawning only writes fresh particles: every slot that changed holds a particle with life 1 |
| Particles.OnlyParticlesTrans | src/framework/systems/particles/particle_system.cpp:100-125 | changing only particle components, twice, changes only particle components |
| Particles.SlotUpdated | src/framework/systems/particles/particle_system.cpp:109-110 | giving one slot's object a new particle component changes the pool at that slot only, and no other part of any object |
| Particles.ParticleGenerator.Pool | src/framework/systems/particles/particle_system.cpp:114-116 | the pool has one component per slot |
| Particles.ParticleGenerator.constructor | src/framework/systems/particles/particle_system.cpp:29-52 | `amount` new particle objects under consecutive ids, each with life 0, zero velocity, scale .07, the default diffuse texture, no translation or rotation and the shared square model; earlier objects are kept |
| Particles.ParticleGenerator.FirstUnusedParticle | src/framework/systems/particles/particle_system.cpp:127-147 | returns the slot FirstUnused picks and records it as the last used slot |
| Particles.ParticleGenerator.RespawnParticle | src/framework/systems/particles/particle_system.cpp:149-161 | only slot k's particle component changes, to the respawned particle |
| Particles.ParticleGenerator.SpawnParticles | src/framework/systems/particles/particle_system.cpp:106-111 | the pool and last used slot become what SpawnAll gives, and only particle components change |
| Particles.ParticleGenerator.DecayParticle | src/framework/systems/particles/particle_system.cpp:116-123 | only slot i decays, and only particle components change |
| Particles.ParticleGenerator.DecayParticles | src/framework/systems/particles/particle_system.cpp:114-124 | every slot decays by dt, and only particle components change |
| Particles.ParticleGenerator.Update | src/framework/systems/particles/particle_system.cpp:100-125 | respawn once per draw, then decay every slot, changing only particle components |
| Descriptors.LayoutBuilder.constructor | src/framework/core/nile_descriptors.hpp:16-27 | a new layout builder has no bindings |
| Descriptors.LayoutBuilder.AddBinding | src/framework/core/nile_descriptors.cpp:11-24 | a binding number not yet used is registered with its type, count and stages, and the map grows by one; reusing a number is a failed assertion |
| Descriptors.LayoutBuilder.Build | src/framework/core/nile_descriptors.cpp:26-28 | builds the layout from the builder's bindings, with the constructor's outcome |
| Descriptors.CreateSetLayout | src/framework/core/nile_descriptors.cpp:32-52 | creation fails, with its message, exactly when vkCreateDescriptorSetLayout fails; otherwise the create info holds one entry per map entry in the map's order, so bindingCount is the number of distinct binding numbers and no number repeats |
| Descriptors.EnumerationSize | src/framework/core/nile_descriptors.cpp:36-42 | walking an unordered map visits as many entries as it holds |
| Descriptors.PoolBuilder.constructor | src/framework/core/nile_descriptors.hpp:59-61 | a new pool builder has no pool sizes, maxSets 1000 and no flags |
| Descriptors.PoolBuilder.AddPoolSize | src/framework/core/nile_descriptors.cpp:60-64 | appends one pool size and changes nothing else |
| Descriptors.PoolBuilder.SetPoolFlags | src/framework/core/nile_descriptors.cpp:66-70 | sets the flags and changes nothing else |
| Descriptors.PoolBuilder.SetMaxSets | src/framework/core/nile_descriptors.cpp:71-74 | sets maxSets and changes nothing else |
| Descriptors.PoolBuilder.Build | src/framework/core/nile_descriptors.cpp:76-99 | creation fails, with its message, exactly when vkCreateDescriptorPool fails; otherwise an empty pool with the builder's maxSets, flags and sizes |
| Descriptors.DescriptorPool.constructor | src/framework/core/nile_descriptors.cpp:82-99 | a new pool has no live sets and keeps its maxSets, flags and sizes |
| Descriptors.DescriptorPool.AllocateDescriptor | src/framework/core/nile_descriptors.cpp:105-119 | allocation succeeds exactly while fewer than maxSets sets are live, returning a new non-null set with nothing bound; a full pool returns false and changes nothing |
| Descriptors.DescriptorPool.FreeDescriptors | src/framework/core/nile_descriptors.cpp:121-127 | the given sets stop being live and every other live set keeps what it has bound |
| Descriptors.DescriptorPool.ResetPool | src/framework/core/nile_descriptors.cpp:129-131 | every set returns to the pool at once |
| Descriptors.Stamped | src/framework/core/nile_descriptors.cpp:190-192 | the loop of overwrite keeps the number of pending writes |
| Descriptors.StampedAt | src/framework/core/nile_descriptors.cpp:190-192 | each pending write gets the target set and keeps everything else |
| Descriptors.ApplyBinds | src/framework/core/nile_descriptors.cpp:193 | applying writes binds exactly the bindings they touch on top of what was bound, and a write that no later write overrides leaves its info bound |
| Descriptors.TouchedCons | src/framework/core/nile_descriptors.cpp:193 | the bindings touched are the first write's and those the rest touch |
| Descriptors.ApplyKeys | src/framework/core/nile_descriptors.cpp:193 | after the writes, exactly what was bound and what they touch is bound |
| Descriptors.ApplyUntouched | src/framework/core/nile_descriptors.cpp:193 | a binding the writes do not touch keeps its info |
| Descriptors.ApplyDistinct | src/framework/core/nile_descriptors.cpp:180-194 | with no binding written twice, a fresh set ends up binding exactly the written bindings, each to the info of its own write |
| Descriptors.DescriptorWriter.constructor | src/framework/core/nile_descriptors.cpp:135-136 | a new writer has no pending writes |
| Descriptors.DescriptorWriter.WriteBuffer | src/framework/core/nile_descriptors.cpp:138-157 | for a binding of the layout with a single descriptor, appends one write of the binding's type carrying the buffer info; any other binding is a failed assertion |
| Descriptors.DescriptorWriter.WriteImage | src/framework/core/nile_descriptors.cpp:159-178 | the same for an image info |
| Descriptors.DescriptorWriter.Build | src/framework/core/nile_descriptors.cpp:180-187 | when allocation fails, returns false and nothing is written; otherwise the new set binds exactly what the stamped pending writes give it |
| Descriptors.DescriptorWriter.Overwrite | src/framework/core/nile_descriptors.cpp:189-194 | every pending write is stamped with the set and applied over what it already binds |
| OffScreen.TransitionBarrier | src/framework/core/nile_off_screen.cpp:280-326 | the barrier is on the colour image and changes its layout: colour-attachment to shader-read for t = 1, shader-read back to colour-attachment for t = 0 |
| OffScreen.TransitionsAreInverse | src/framework/core/nile_off_screen.cpp:296-316 | the two transitions are exact inverses: layouts, access masks and stages swapped |
| OffScreen.FramebufferAttachments | src/framework/core/nile_off_screen.cpp:198-219 | the framebuffer gets the colour view then the depth view |
| OffScreen.RenderPassConfiguration | src/framework/core/nile_off_screen.cpp:129-219 | the colour reference, the attachment array and the framebuffer agree on colour = 0 and depth = 1; the colour image ends the pass shader-readable and the depth image as a depth attachment; the two dependencies lead from outside into the subpass and back out |
| OffScreen.OffScreenTarget.constructor | src/framework/core/nile_off_screen.cpp:11-29 | the target is FB_DIM square and, after init, its descriptor names the colour view and the sampler in the shader-read layout |
| OffScreen.Create | src/framework/core/nile_off_screen.cpp:11-29 | a target is built exactly when the colour view, sampler, depth view, render pass and framebuffer creations all succeed; otherwise the first one to fail decides the error message the engine throws, and the built target holds the created handles with the shader-read descriptor |
| OffScreen.OffScreenTarget.UpdateDescriptor | src/framework/core/nile_off_screen.cpp:51-56 | the descriptor becomes shader-read layout, colour view and sampler |
| OffScreen.OffScreenTarget.TransitionLayout | src/framework/core/nile_off_screen.cpp:280-326 | records the barrier for t and makes the descriptor advertise the layout the image moves to, keeping its view and sampler |
| OffScreen.PassLeavesImageSampleable | src/framework/core/nile_off_screen.cpp:152 | the render pass itself leaves the colour image in the layout transitionLayout(1) would move it to |
| Renderer.FrameIndexAfter | src/framework/core/nile_renderer.cpp:108 | the frame index after any number of completed frames is a valid frame slot |
| Renderer.FrameIndexCountsFrames | src/framework/core/nile_renderer.cpp:107-108 | the frame index is the number of completed frames modulo MAX_FRAMES_IN_FLIGHT |
| Renderer.FrameSlotsAlternate | src/framework/core/nile_renderer.cpp:107-108 | consecutive frames use different slots and every second frame reuses a slot |
| Renderer.Window.constructor | src/framework/core/nile_window.cpp:24-35 | a new window has not been resized |
| Renderer.Window.FramebufferResizeCallback | src/framework/core/nile_window.cpp:33-35 | the callback raises the resize flag |
| Renderer.Window.ResetWindowResizedFlag | src/framework/core/nile_renderer.cpp:100-101 | the flag is lowered |
| Renderer.NileRenderer.Init | src/framework/core/nile_renderer.cpp:11-36 | the first recreateSwapChain installs the first chain; no frame is in progress and the index is 0 |
| Renderer.NileRenderer.Create | src/framework/core/nile_renderer.cpp:11-55 | construction succeeds exactly when command-buffer allocation does, otherwise throws "failed to allocate command buffers!"; on success one command buffer per frame slot, index 0, no frame started |
| Renderer.NileRenderer.CreateCommandBuffers | src/framework/core/nile_renderer.cpp:42-55 | the list has MAX_FRAMES_IN_FLIGHT entries; success exactly when allocation succeeds, with the allocated buffers |
| Renderer.NileRenderer.RecreateSwapChain | src/framework/core/nile_renderer.cpp:19-36 | the rebuilt chain is installed, and the call throws exactly when there was a previous chain whose image or depth format differs |
| Renderer.NileRenderer.CreateOffScreen | src/framework/core/nile_renderer.cpp:38-40 | the renderer now holds the offscreen target |
| Renderer.NileRenderer.GetCurrentCommandBuffer | src/framework/core/nile_renderer.hpp:33-36 | inside a frame, the buffer is non-null and is the one at the number of completed frames modulo MAX_FRAMES_IN_FLIGHT |
| Renderer.NileRenderer.GetFrameIndex | src/framework/core/nile_renderer.hpp:38-41 | inside a frame, the index is a valid slot equal to completed frames modulo MAX_FRAMES_IN_FLIGHT |
| Renderer.NileRenderer.BeginFrame | src/framework/core/nile_renderer.cpp:66-89 | out-of-date: rebuild and no frame; another failure: throw "failed to acquire swap chain image!"; otherwise the frame starts, and the current command buffer is returned or recording failure throws; the frame index never moves |
| Renderer.NileRenderer.EndFrame | src/framework/core/nile_renderer.cpp:91-109 | a recording failure throws with the frame still open; out-of-date, suboptimal or a resize rebuilds and lowers the flag; another present failure throws; when recording and presenting succeed without a resize, the call returns normally with the swap chain and the flag unchanged; a normal return ends the frame and advances the index by one slot |
| Renderer.NileRenderer.BeginSwapChainRenderPass | src/framework/core/nile_renderer.cpp:111-141 | only on the current frame's buffer; begins the swap chain's pass over its whole extent |
| Renderer.NileRenderer.EndSwapChainRenderPass | src/framework/core/nile_renderer.cpp:143-149 | only on the current frame's buffer; ends the render pass |
| Renderer.NileRenderer.BeginOffScreenRenderPass | src/framework/core/nile_renderer.cpp:151-180 | only on the current frame's buffer; begins the offscreen pass over its FB_DIM square |
| Renderer.NileRenderer.EndOffScreenRenderPass | src/framework/core/nile_renderer.cpp:182-188 | only on the current frame's buffer; ends the render pass |
| Renderer.MirrorPasses | src/apps/sample/3d/mirror.hpp:106-123 | a mirror frame records the offscreen pass and then the swap-chain pass, each closed |
| Renderer.MirrorPassesAndEnd | src/apps/sample/3d/mirror.hpp:78-124 | resets this slot's pool whatever the outcome, records both passes and ends the frame; it completes (Ok(true)) when recording and presenting succeed without a resize, fails with the recording message when recording fails, and a completed frame is closed and counted |
| Renderer.MirrorFrame | src/apps/sample/3d/mirror.hpp:76-125 | one loop iteration meets every call's precondition: an out-of-date acquire rebuilds and yields Ok(false) exactly when the formats match, with nothing recorded; acquire and begin-recording failures throw their messages; a started frame resets its pool and records both passes; when every call succeeds without a resize it completes with Ok(true), and a completed frame advances the frame count |
| RenderSystems.MirrorAnd3DPartition | src/framework/systems/rendering/render_system.cpp:368 | the 3D system and the mirror system never draw the same object, and together draw exactly what the simple system draws |
| RenderSystems.CreateSystemLayout | src/framework/systems/rendering/render_system.cpp:29-35 | the layout builder yields binding 0 as a uniform buffer for both stages and fragment samplers at 1 (1 to 5 for water), with distinct binding numbers; a creation failure throws |
| RenderSystems.CreatePipelineLayout | src/framework/systems/rendering/render_system.cpp:22-51 | set 0 is the layout passed in and set 1 the system's own; success exactly when both creations succeed, with the source's message for each failure |
| RenderSystems.PlannedFitsLayout | src/framework/systems/rendering/render_system.cpp:100-107 | every write a system plans for an object targets a binding of its layout with the declared descriptor type, and no binding twice |
| RenderSystems.WaterBindings | src/framework/systems/water/water_system.cpp:100-166 | render writes bindings 0, 4 and 5 only; renderMaps writes all six bindings of the water layout |
| RenderSystems.CountDrawsAppend | src/framework/systems/rendering/render_system.cpp:83-136 | draws in a concatenated recording add up |
| RenderSystems.ObjectBlockDrawsOnce | src/framework/systems/rendering/render_system.cpp:112-135 | one object's block binds, pushes and draws exactly once |
| RenderSystems.OneDrawPerObject | src/framework/systems/rendering/render_system.cpp:83-136 | the recording holds one draw per drawn object |
| RenderSystems.DrawnPrefix | src/framework/systems/rendering/render_system.cpp:83-85 | only visited objects the system selects are drawn |
| RenderSystems.DrawnPrefixComplete | src/framework/systems/rendering/render_system.cpp:83-85 | among the objects visited so far, every selected one is drawn, only those, and none twice |
| RenderSystems.DrawnInComplete | src/framework/systems/rendering/render_system.cpp:83-85 | over the whole map, exactly the selected objects are drawn, each once |
| RenderSystems.WriteObjectSet | src/framework/systems/rendering/render_system.cpp:100-107 | the set is built exactly when the frame pool has room; then it is a new live set holding the planned writes and nothing else in the pool changes; otherwise the pool is untouched and the handle null |
| RenderSystems.QueueWrites | src/framework/systems/water/water_system.cpp:158-165 | the writer holds, in call order, the buffer and image writes of the system |
| RenderSystems.StampedMatches | src/framework/core/nile_descriptors.cpp:190-192 | stamping the set handle keeps each write's binding and info |
| RenderSystems.AppliedHolds | src/framework/core/nile_descriptors.cpp:193 | writes with distinct bindings leave the set holding exactly the plan |
| RenderSystems.StepOutcomes | src/framework/core/nile_descriptors.cpp:105-119 | the k-th build of a frame succeeds exactly when the pool still had room, and successful builds are fresh and pairwise distinct |
| RenderSystems.Built | src/framework/core/nile_descriptors.cpp:105-119 | every successful build is among the allocated sets |
| RenderSystems.BuiltSnoc | src/framework/core/nile_descriptors.cpp:105-119 | a further build adds its set exactly when it succeeded |
| RenderSystems.StepLive | src/framework/core/nile_descriptors.cpp:105-119 | the live sets grow by the new set, and their number is the smaller of the requests and the pool capacity |
| RenderSystems.StepHolding | src/framework/core/nile_descriptors.cpp:180-194 | earlier sets and sets live before the frame keep their bindings, the new one holds its plan |
| RenderSystems.BuildNext | src/framework/systems/rendering/render_system.cpp:100-107 | one more build keeps the pool's tracked history |
| RenderSystems.PlansFor | src/framework/systems/rendering/render_system.cpp:83-107 | one plan per drawn object |
| RenderSystems.PlansForAt | src/framework/systems/rendering/render_system.cpp:83-107 | the k-th plan is the k-th drawn object's |
| RenderSystems.PlansForSnoc | src/framework/systems/rendering/render_system.cpp:83-107 | drawing one more object appends its plan |
| RenderSystems.ObjectCommandsSnoc | src/framework/systems/rendering/render_system.cpp:83-136 | drawing one more object appends its block |
| RenderSystems.TrackedHolds | src/framework/systems/rendering/render_system.cpp:100-107 | every built set holds its object's plan |
| RenderSystems.FirstVisit | src/framework/systems/rendering/render_system.cpp:83 | iterating a map visits each object once |
| RenderSystems.RecordNext | src/framework/systems/rendering/render_system.cpp:86-135 | a selected object gets a set and its block appended, keeping the pool's tracked history |
| RenderSystems.RecordingStarts | src/framework/systems/rendering/render_system.cpp:81-83 | before the loop nothing is drawn and the cache is empty |
| RenderSystems.RecordedAll | src/framework/systems/rendering/render_system.cpp:83-136 | after the loop the recording covers exactly the selected objects in visiting order |
| RenderSystems.VisitNext | src/framework/systems/rendering/render_system.cpp:84-136 | one iteration skips an unselected object and records a selected one |
| RenderSystems.RecordObjects | src/framework/systems/rendering/render_system.cpp:83-136 | the loop draws exactly the selected objects in visiting order, one block each, with the pool tracking every build |
| RenderSystems.RenderGameObjects | src/framework/systems/rendering/render_system.cpp:67-137 | binds the pipeline and the global set at 0, then draws every selected object once; the k-th set exists exactly when the pool had room; built sets are fresh, distinct and hold their object's writes; earlier sets are untouched |
| Terrain.GridSpacing | src/framework/systems/terrain/terrain_system.cpp:70-80 | grid line k lies at k / (VERTEX_COUNT - 1) of the tile, within the tile for every grid line |
| Terrain.GridIndexAt | src/framework/systems/terrain/terrain_system.cpp:102-116 | the six indices of grid square (gz, gx) sit at 6 * (gz * (VERTEX_COUNT - 1) + gx), inside the index buffer |
| Terrain.GridIndexInRange | src/framework/systems/terrain/terrain_system.cpp:103-114 | every index names a vertex of the grid |
| Terrain.GridCoversVertices | src/framework/systems/terrain/terrain_system.cpp:103-114 | every grid vertex is used by some triangle |
| Terrain.QuadWinding | src/framework/systems/terrain/terrain_system.cpp:105-114 | both triangles of a grid square wind the same way, share the top-right to bottom-left diagonal and together use exactly the square's four corners |
| Terrain.FlatWithoutGenerator | src/framework/systems/terrain/terrain_system.cpp:134-141 | without a generator every vertex has height 0 and the negated upright normal |
| Terrain.NormalUpright | src/framework/systems/terrain/terrain_system.cpp:123-132 | the normal's y component is 2 whatever the heights; flat ground gives (0, 2, 0) |
| Terrain.HeightsStep | src/framework/systems/terrain/terrain_system.cpp:71-72 | writing heights[j][i] extends the filled part of the height table by one grid point |
| Terrain.HeightsRowDone | src/framework/systems/terrain/terrain_system.cpp:68-101 | a finished row is the start of the next |
| Terrain.ProceduralTerrain.constructor | src/framework/systems/terrain/terrain_system.cpp:6-15 | the tile's origin is (gridX * SIZE, gridZ * SIZE); the mesh has VERTEX_COUNT squared vertices, the full index count and an index buffer, and is textured exactly when textures are given |
| Terrain.ProceduralTerrain.GenerateTerrain | src/framework/systems/terrain/terrain_system.cpp:44-121 | the model gets the whole vertex grid and index buffer, textured exactly when textures are given |
| Terrain.ProceduralTerrain.BuildGrid | src/framework/systems/terrain/terrain_system.cpp:60-116 | every height is the generator's, every vertex the grid vertex of its row-major position, every index the grid index of its position |
| Terrain.ProceduralTerrain.FillVertices | src/framework/systems/terrain/terrain_system.cpp:67-101 | fills the height table and every vertex in row-major order |
| Terrain.ProceduralTerrain.PlaceVertex | src/framework/systems/terrain/terrain_system.cpp:70-99 | one grid point's height and vertex are written, the earlier ones kept |
| Terrain.ProceduralTerrain.HeightOffTile | src/framework/systems/terrain/terrain_system.cpp:19-28 | outside the tile's square the lookup answers 0 |
| Terrain.ProceduralTerrain.HeightAtGridPoint | src/framework/systems/terrain/terrain_system.cpp:19-41 | at an inner grid point the lookup interpolates at weights (0, 0) over that point's first triangle |
| Terrain.CellOf | src/framework/systems/terrain/terrain_system.cpp:23-30 | the grid square a tile-relative coordinate falls in is inside the grid exactly when the coordinate is in [0, SIZE), so the bounds test of getHeightOfTerrain is the on-tile test |
| Terrain.GridPointCell | src/framework/systems/terrain/terrain_system.cpp:23-30 | grid line k starts grid square k, at fractional position 0 |
| Terrain.FillIndices | src/framework/systems/terrain/terrain_system.cpp:102-116 | every index is the grid index of its position |
| Terrain.EmitQuad | src/framework/systems/terrain/terrain_system.cpp:105-114 | one grid square's six indices are written, the earlier ones kept |
| Terrain.QuadBlock | src/framework/systems/terrain/terrain_system.cpp:105-114 | a square's six writes extend the filled prefix of the index buffer |
| Collision.CheckCollision1Symmetric | src/framework/systems/physics/collision/collision_system.cpp:9-19 | the box-box test does not depend on the order of the two objects |
| Collision.CheckCollision1CommonPoint | src/framework/systems/physics/collision/collision_system.cpp:9-19 | for boxes of non-negative size the test holds exactly when the two boxes share a point |
| Collision.Clamp | src/framework/systems/physics/collision/collision_system.cpp:34 | the clamped value lies in the range and is the value itself when already inside |
| Collision.ClampNearest | src/framework/systems/physics/collision/collision_system.cpp:34-36 | the clamped value is a point of the range nearest to the input |
| Collision.CheckCollision2 | src/framework/systems/physics/collision/collision_system.cpp:21-43 | a miss is (false, UP, 0); a hit carries the compass direction of its difference vector, which is within the radius |
| Collision.ClampedWithinHalfExtents | src/framework/systems/physics/collision/collision_system.cpp:34 | the clamped difference stays within the box's half extents |
| Collision.ClosestPoint | src/framework/systems/physics/collision/collision_system.cpp:34-36 | the point measured lies in the box |
| Collision.ClosestIsDiff | src/framework/systems/physics/collision/collision_system.cpp:33-39 | the tested difference is the measured box point minus the ball's centre |
| Collision.ClosestIsNearest | src/framework/systems/physics/collision/collision_system.cpp:34-38 | no point of the box is nearer the ball's centre than the point measured |
| Collision.ReachFromHit | src/framework/systems/physics/collision/collision_system.cpp:39-40 | a reported hit is witnessed by a box point within the radius |
| Collision.HitFromReach | src/framework/systems/physics/collision/collision_system.cpp:39-40 | any box point within the radius makes the test report a hit |
| Collision.CheckCollision2Sound | src/framework/systems/physics/collision/collision_system.cpp:21-43 | every hit reported is a real contact of circle and box |
| Collision.CheckCollision2Complete | src/framework/systems/physics/collision/collision_system.cpp:21-43 | every real contact of circle and box is reported |
| Collision.CheckCollision2Reach | src/framework/systems/physics/collision/collision_system.cpp:21-43 | for a box of non-negative size a hit is reported exactly when the ball's disc touches the box |
| Collision.CompassDotIsDot | src/framework/systems/physics/collision/collision_system.cpp:47-57 | the written-out compass dot products are the dot products with the compass vectors |
| Collision.DirectionAt | src/framework/systems/physics/collision/collision_system.cpp:47-52 | compass entry i is the direction with index i |
| Collision.CompassDotScaled | src/framework/systems/physics/collision/collision_system.cpp:57 | scaling the target scales every compass dot product |
| Collision.ScanArgmax | src/framework/systems/physics/collision/collision_system.cpp:53-63 | after n entries the best match has the largest positive dot product seen, the first such on ties, or no match when none is positive |
| Collision.DirectionSign | src/framework/systems/physics/collision/collision_system.cpp:45-66 | the chosen direction points along the sign of the vector on its axis; no match only for the zero vector |
| Collision.DirectionNoMatch | src/framework/systems/physics/collision/collision_system.cpp:45-66 | the unsigned -1 result (no match) comes exactly from the zero vector |
| Collision.DirectionOfArgmax | src/framework/systems/physics/collision/collision_system.cpp:45-66 | a direction found has a positive dot product and beats every other compass entry, the earlier one winning ties |
| Collision.ScanSameOrder | src/framework/systems/physics/collision/collision_system.cpp:53-63 | vectors whose compass dot products compare alike get the same direction |
| Collision.ScaledOrder | src/framework/systems/physics/collision/collision_system.cpp:57 | a positive scale keeps the order of the dot products |
| Collision.ScaledSign | src/framework/systems/physics/collision/collision_system.cpp:57 | a positive scale keeps the sign of the dot products |
| Collision.DirectionScaleInvariant | src/framework/systems/physics/collision/collision_system.cpp:57 | normalising the target first does not change the direction chosen |
| Collision.VectorDirection | src/framework/systems/physics/collision/collision_system.cpp:45-66 | the loop's result is the direction of the target |
| Collision.Bounce | src/framework/systems/physics/collision/collision_system.cpp:88-115 | only velocity and position change, speed is kept; a horizontal contact reverses the x velocity and leaves y in place, any other contact reverses the y velocity and leaves x in place |
| Collision.BounceAway | src/framework/systems/physics/collision/collision_system.cpp:90-115 | for a contact the test reports, the ball moves away from the box along the contact axis by the penetration, which is never negative |
| Collision.WithinRadius | src/framework/systems/physics/collision/collision_system.cpp:95-108 | both components of a contact vector within the radius are at most the radius |
| Collision.BounceVelocityInvolution | src/framework/systems/physics/collision/collision_system.cpp:93-106 | bouncing twice off the same contact restores the velocity |
| Collision.ResolvedTrans | src/framework/systems/physics/collision/collision_system.cpp:76-118 | the allowed effect of a pass composes over consecutive bricks |
| Collision.CollideWith | src/framework/systems/physics/collision/collision_system.cpp:78-117 | one brick keeps the map's ids and the ball, changes no scale, and touches only that brick and the ball |
| Collision.CollideWithEffect | src/framework/systems/physics/collision/collision_system.cpp:78-117 | a destroyed or missed brick changes nothing; a hit destroys a non-solid brick, keeps a solid one and bounces the ball |
| Collision.BrickPass | src/framework/systems/physics/collision/collision_system.cpp:76-118 | the pass keeps the map's ids and the ball and changes no scale |
| Collision.BrickPassResolved | src/framework/systems/physics/collision/collision_system.cpp:76-118 | over a whole pass only the ball moves and turns and bricks only become destroyed |
| Collision.BrickPassFrame | src/framework/systems/physics/collision/collision_system.cpp:76-118 | objects that are neither the ball nor listed bricks are untouched |
| Collision.PaddleResponse | src/framework/systems/physics/collision/collision_system.cpp:119-132 | a stuck ball or a miss changes nothing; otherwise only the ball's velocity changes |
| Collision.PaddleDeflection | src/framework/systems/physics/collision/collision_system.cpp:119-132 | off the paddle the ball leaves to the side of the board's centre it hit, with its vertical velocity reversed |
| Collision.CollideBrick | src/framework/systems/physics/collision/collision_system.cpp:78-117 | the manager's map becomes what one brick does to it |
| Collision.CollidePaddle | src/framework/systems/physics/collision/collision_system.cpp:119-132 | the manager's map becomes the paddle response |
| Collision.CollideNext | src/framework/systems/physics/collision/collision_system.cpp:76-118 | one loop turn keeps the loop invariant for the next brick |
| Collision.DoCollisions | src/framework/systems/physics/collision/collision_system.cpp:68-133 | throws exactly when a listed brick is missing from the map; otherwise the map is the brick pass followed by the paddle response, and after a throw it is the pass up to the missing brick |
| BreakoutGame.DigitEnd | src/apps/game/2d/breakout/breakout.cpp:296 | the end of a run of digits: everything before it is a digit and the character at it is not |
| BreakoutGame.LineEnd | src/apps/game/2d/breakout/breakout.cpp:292 | the end of a line: the first newline at or after the position, or the end of the text |
| BreakoutGame.ShowNat | src/apps/game/2d/breakout/breakout.cpp:296 | a number is written as a non-empty run of decimal digits |
| BreakoutGame.ValuePrefix | src/apps/game/2d/breakout/breakout.cpp:296 | text after a run of digits does not change its value |
| BreakoutGame.ValueShow | src/apps/game/2d/breakout/breakout.cpp:296 | reading the digits of a number gives the number |
| BreakoutGame.RowAtShift | src/apps/game/2d/breakout/breakout.cpp:294-297 | reading from a position does not depend on the text before it |
| BreakoutGame.DigitEndShift | src/apps/game/2d/breakout/breakout.cpp:296 | the end of a digit run moves with the text before it |
| BreakoutGame.ValueShift | src/apps/game/2d/breakout/breakout.cpp:296 | the value of a digit run does not depend on the text before it |
| BreakoutGame.ReadNumber | src/apps/game/2d/breakout/breakout.cpp:296-297 | a number up to UINT_MAX followed by a separator reads back as that number, then reading goes on |
| BreakoutGame.DigitEndAll | src/apps/game/2d/breakout/breakout.cpp:296 | a run of digits to the end of the text ends there |
| BreakoutGame.RowRoundTrip | src/apps/game/2d/breakout/breakout.cpp:294-298 | a row of codes written with single spaces reads back unchanged |
| BreakoutGame.FormatRowNoNewline | src/apps/game/2d/breakout/breakout.cpp:292 | a written row holds no newline |
| BreakoutGame.LinesStep | src/apps/game/2d/breakout/breakout.cpp:292 | the first line of a written level is its first row, the rest are the lines of the other rows |
| BreakoutGame.LinesCons | src/apps/game/2d/breakout/breakout.cpp:292 | getline returns a line up to its newline, then continues after it |
| BreakoutGame.LinesOfFormat | src/apps/game/2d/breakout/breakout.cpp:292 | a written level has one line per row, each the written row |
| BreakoutGame.LineEndAt | src/apps/game/2d/breakout/breakout.cpp:292 | a line followed by a newline ends at that newline |
| BreakoutGame.LineEndFrom | src/apps/game/2d/breakout/breakout.cpp:292 | the first newline from a position is where the line ends |
| BreakoutGame.LevelRoundTrip | src/apps/game/2d/breakout/breakout.cpp:288-299 | writing a grid of codes up to UINT_MAX as a level file and loading it gives the grid back |
| BreakoutGame.ReadRow | src/apps/game/2d/breakout/breakout.cpp:294-297 | the stream loop reads exactly the numbers of the line |
| BreakoutGame.ReadLevel | src/apps/game/2d/breakout/breakout.cpp:289-299 | one row per line, each the numbers of that line |
| BreakoutGame.RowTiles | src/apps/game/2d/breakout/breakout.cpp:358-376 | no more tiles than cells visited |
| BreakoutGame.RowTilesExact | src/apps/game/2d/breakout/breakout.cpp:358-376 | a row yields exactly its nonzero cells within the bound, left to right |
| BreakoutGame.GridTilesExact | src/apps/game/2d/breakout/breakout.cpp:356-401 | init places a brick exactly for each nonzero tile within the level width |
| BreakoutGame.GridTilesOrdered | src/apps/game/2d/breakout/breakout.cpp:356-401 | the bricks are placed in row-major order |
| BreakoutGame.BricksKept | src/apps/game/2d/breakout/breakout.cpp:356-401 | bricks already placed stay when later objects are created |
| BreakoutGame.BricksAppend | src/apps/game/2d/breakout/breakout.cpp:356-401 | two consecutive runs of bricks make one run |
| BreakoutGame.RowPlaced | src/apps/game/2d/breakout/breakout.cpp:356-401 | the bricks of the rows above stay and the next row's follow them |
| BreakoutGame.PlaceBackground | src/apps/game/2d/breakout/breakout.cpp:345-353 | creates one object with the next id: the square, the background texture, white, a quarter of the grid's size in unsigned arithmetic, at depth 0.01, hidden unless this is the current level; other objects kept |
| BreakoutGame.GameLevel.constructor | src/apps/game/2d/breakout/breakout.cpp:284 | a new level has no bricks |
| BreakoutGame.GameLevel.PlaceRow | src/apps/game/2d/breakout/breakout.cpp:358-400 | one brick per nonzero tile of the row, with consecutive ids appended to the brick list, other objects kept |
| BreakoutGame.GameLevel.PlaceNextRow | src/apps/game/2d/breakout/breakout.cpp:356-401 | after row y the bricks and ids cover the tiles of rows 0 to y |
| BreakoutGame.GameLevel.Init | src/apps/game/2d/breakout/breakout.cpp:311-402 | one background object, then one brick per nonzero tile in row-major order, with solid or coloured bricks at their cells, and their ids appended to the brick list; other objects kept |
| BreakoutGame.GameLevel.Load | src/apps/game/2d/breakout/breakout.cpp:276-309 | the brick list is cleared; an unreadable file or one without lines creates nothing; otherwise it holds the ids init created |
| BreakoutGame.GridTilesGrow | src/apps/game/2d/breakout/breakout.cpp:356-401 | more rows never mean fewer bricks |
| BreakoutGame.RowTilesPrefix | src/apps/game/2d/breakout/breakout.cpp:358-376 | more cells never mean fewer tiles |
| BreakoutGame.PlaceBrick | src/apps/game/2d/breakout/breakout.cpp:361-398 | creates one brick for the tile with the next id: code 1 solid with the solid texture and colour, other codes breakable with the block texture and their colour, at the tile's cell |
| BreakoutGame.ReflectX | src/apps/game/2d/breakout/breakout.cpp:240-249 | after the side walls the ball is at the left wall or inside the right edge, with the x velocity kept or reversed, and untouched when inside |
| BreakoutGame.ReflectY | src/apps/game/2d/breakout/breakout.cpp:250-261 | after the top wall the ball is at or below it, untouched when inside; the bottom edge does nothing |
| BreakoutGame.MovedBall | src/apps/game/2d/breakout/breakout.cpp:232-266 | a stuck ball only follows the paddle's x; a free ball changes only position and velocity and ends inside the left, right and top walls |
| BreakoutGame.Breakout.constructor | src/apps/game/2d/breakout/breakout.cpp:232-266 | the game refers to a ball and a paddle the manager holds |
| BreakoutGame.Breakout.UpdateBallPos | src/apps/game/2d/breakout/breakout.cpp:232-266 | only the ball object changes, to its moved state |

## Left out

- Vulkan calls (buffer, image, pipeline and shader creation, `vkCmd*`, `vkUpdateDescriptorSets`) are foreign code. Their results are parameters, and recorded commands are an abstract command list. There are two exceptions, each listed below: `vkAllocateDescriptorSets`, whose outcome the pool's set count decides, and the offscreen constructor, which takes already-created handles (`OffScreen.Create` models its creation failures).
- Descriptors.DescriptorPool.AllocateDescriptor: succeeds exactly while fewer than maxSets sets are live. The per-type pool sizes are stored but not counted. Other `vkAllocateDescriptorSets` failures are not modelled either: pool memory, fragmentation and driver errors. A pool whose sets stay under maxSets but whose descriptors run out of one type succeeds here, where the engine's allocateDescriptor returns false. RenderSystems.WriteObjectSet, RenderSystems.StepOutcomes, RenderSystems.StepLive and RenderSystems.RenderGameObjects inherit this: their "exactly when the pool has room" counts sets only.
- OffScreen.OffScreenTarget.constructor: cannot fail. It takes the handles of successful creation calls. The failing paths are in OffScreen.Create. Failure inside the device's createImageWithInfo (the colour and depth images) is not part of this model.
- Swap-chain acquire, submit and present, fences, semaphores and `vkDeviceWaitIdle` are GPU concurrency. Their results are parameters. The zero-extent wait loop of `recreateSwapChain` polls window events and is left out.
- The window and input layers (GLFW events, `Breakout::action`) and the app frame loops with their timing are left out. The mirror sample's frame is kept as a client of the renderer.
- Floating-point rounding is not modelled: coordinates are exact reals. A length test `length(d) <= r` is stated as `r >= 0` and `|d|² <= r²`.
- Collision.VectorDirection: works on the target rather than its `glm::normalize`d copy; DirectionScaleInvariant proves that a positive scale never changes the result. The NaN that normalising a zero vector yields is represented by the zero vector's own result, NoMatch.
- Collision.PaddleResponse: `glm::normalize(v) * glm::length(oldVelocity)` is a positive factor `lengthRatio` supplied by the caller. The model keeps the direction and sign of every component, not the magnitude.
- Collision.DoCollisions: requires a paddle of nonzero width. The engine would divide by zero in floating point there.
- Terrain: the height generator's noise (cosine interpolation over mt19937 draws) is an input function. `Math::barryCentric` is an input function too, and utility/math.hpp is not part of this model.
- Terrain.ProceduralTerrain.constructor: leaves out the height map: `generateTerrain` loads it from the path (and swallows a load failure) but never uses it. It also leaves out the message printed when the generator is missing.
- Particles: the `rand()` draws of `respawnParticle` (position offset and colour) are parameters of the respawn.
- Particles.ParticleGenerator.Update: requires a non-empty pool when particles are to be spawned. With no particles the engine's slot 0 indexes an empty vector.
- Particles.ParticleGenerator.SpawnParticles: requires a non-empty pool, for the same reason.
- BreakoutGame.GameLevel.Init: requires every row to be at least as long as row 0. A shorter row would be read past its end.
- BreakoutGame.ReadRow: reads runs of decimal digits separated by whitespace. A sign, a value above UINT_MAX or any other character ends the row, and the stream's failure states and locale are not modelled.
- BreakoutGame: textures come from files and are handles the caller supplies. So are the vertex and index buffers of the square mesh.
- Sprites: the rim points of a circle and the arc points of the rounded rectangle's corners (`cos`/`sin` of the angle, `ArcVertex`'s `arc` parameter) are inputs; the index arithmetic over them is modelled exactly.
- GravityScene: the gravity and vector-field systems (inverse-square forces, `log`/`atan2` arrow angles) are floating-point physics and are left out; the model covers the scene that `loadGameObjects` builds.
- GameObjects.GameObjectManager.CreateGameObject: requires `currentId < MAX_GAME_OBJECTS`, the condition whose failure the engine reports through `assert`.
- nile_game_object.cpp is not part of this model. `makeParticle` is taken to be `createGameObject` plus a particle component with `isParticle` set. A game object's `getBufferInfo(frameIndex)` is taken to be the manager's `getBufferInfoForGameObject(frameIndex, id)`.
- OffScreen.OffScreenTarget.TransitionLayout: requires `t` to be 0 or 1. For any other value the engine leaves the stage masks uninitialised. The line the engine writes to standard output for t = 0 is not modelled either.
- Matrices (`mat2`, `mat4`, normal matrices) in push constants are kept as the transform they come from.
- ImGui, Lua scripting, asset loading (stb, tinyobj) and the rainbow system are left out. `loadModel` takes the assembled vertices as input.
