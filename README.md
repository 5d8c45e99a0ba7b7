# SomewhereAnywhereEngine bookkeeping, modelled in Dafny

SomewhereAnywhereEngine is a small Rust game engine on Vulkan (vulkano) and
winit. Around its GPU calls sits plain sequential bookkeeping, and that is
what this project models and proves things about:

- **The Vulkan container** (`Vulkan`, vulkan_container.dfy):
  - the adapter-selection rule and the swapchain parameters;
  - one image view and one framebuffer per swapchain image;
  - the list of vertex buffers (create appends, delete removes by index or does nothing);
  - the per-frame command stream: begin, bind pipeline, viewports, scissors, one (bind, draw) pair per buffer, end;
  - the viewport resize.
- **The entities**:
  - the current player and cube entities (`BaseEntities`) with the 36-vertex cube mesh and the camera transform;
  - the older cube entity (`OldCube`).
- **Three entity registries**:
  - the entity repository (`Repository`), whose counter only goes up and whose `add_entity` returns the counter after incrementing it;
  - the entity component (`EntityComponents`), which turns creation and deletion events into repository updates plus one Vulkan event each;
  - the entity manager with its command buffer (`Entities`);
  - the game-stage entity manager (`Gamestage`), which gives every entity id 0.
- **Event queues**:
  - the queue that executes every event once, collects the commands they return and drops the `Done` ones (`EventQueue`);
  - the older `actualize` queue and its render object (`Events`);
  - the events themselves: render objects that hand over or push their vertices, and the delete-object event (`EventSubcomponents`, `StageEvents`, `ContainerEvents`).
- **Input**: the key map and the W/A/S/D movement events (`Input`).
- **The event bus**: per-type handler lists (`Bus`).

State the program updates in place is a Dafny `class` whose methods state the
new state. Pure computations are functions with lemmas. Loops are methods
with invariants, proved against a specification function.

Modelling choices:

- **Trait objects.** `Box<dyn Event>` queues are generic in the event type. The trait's `execute` and `get_status` are passed in as functions.
- **Event classes.** The render objects queued by the two queues are proved against the step function those queues use (`Events.ExecuteRenderObject`, `EventSubcomponents.ExecuteRenderObject`). The delete-object event and the two render objects that push into the Vulkan container are methods whose contracts state the container's new state.
- **Hash-map iteration.** Hash-map iteration order is a parameter `order`, required to list every key once (`Enumeration.IsEnumeration`). So every promise holds for every order.
- **Swapchain images.** Vulkan creates all images of one swapchain in the swapchain's image format. So the hypothesis of `Vulkan.FramebufferFormatsMatch`, that all images share the first image's format, holds for the images `VulkanContainer::new` gets. The model takes the images as a parameter and does not derive this.
- **Floats and casts.** `f32` values are reals. The `f32 as u32` cast of the scissor is written out as Rust defines it (`Vulkan.ToU32`).

## Model

| member | source | states |
|---|---|---|
| Vulkan.FirstPresentQueue | src/engine/vulkan/vulkan_container.rs:109-116 | the first queue family with graphics whose surface-support query answered yes; none exactly when no family qualifies |
| Vulkan.SelectFrom | src/engine/vulkan/vulkan_container.rs:106-125 | among qualifying adapters, one of lowest rank, strictly better than every earlier qualifying one (first minimum); none exactly when none qualifies |
| Vulkan.SelectPhysicalDevice | src/engine/vulkan/vulkan_container.rs:106-125 | fails ("no device available") exactly when no adapter has the swapchain extension and a graphics+present family; otherwise the chosen adapter has the extension, its queue index is the first such family, and its type ranks Discrete < Integrated < Virtual < Cpu < other, earliest on ties |
| Vulkan.SelectionIsUnique | src/engine/vulkan/vulkan_container.rs:118-125 | any adapter meeting the rule (qualifies, lowest rank, earliest) is the one selected, with its first present queue |
| Vulkan.SwapchainRequest | src/engine/vulkan/vulkan_container.rs:154-169 | min image count is the surface minimum plus one, the format the first supported one, the extent the window size, composite alpha the first supported mode; an empty list of either is an error, composite alpha checked first |
| Vulkan.CreateImageViews | src/engine/vulkan/vulkan_container.rs:182-215 | one view per image, in image order, each of its image's format |
| Vulkan.CreateFrameBuffers | src/engine/vulkan/vulkan_container.rs:328-343 | exactly one framebuffer per image view, same order, each on the render pass with that view as its only attachment |
| Vulkan.FramebufferFormatsMatch | src/engine/vulkan/vulkan_container.rs:37-40 | for the views of the images on the render pass made in the first image's format, each framebuffer attachment has its own image's format, and all attachments match the render pass's colour format exactly when all images share the first image's format |
| Vulkan.ToU32 | src/engine/vulkan/vulkan_container.rs:48-51 | the saturating, truncating `f32 as u32`: 0 below 1, the floor inside the range, `u32::MAX` beyond it |
| Vulkan.ScissorKeepsWholeSizes | src/engine/vulkan/vulkan_container.rs:456-459 | a whole window size within u32 range becomes the scissor extent unchanged |
| Vulkan.DrawCommands | src/engine/vulkan/vulkan_container.rs:415-418 | the draw loop records two commands per buffer (what the commands are is stated by `Vulkan.DrawCommandsAt`) |
| Vulkan.DrawCommandsAt | src/engine/vulkan/vulkan_container.rs:415-418 | buffer i is bound at position 2i and drawn at 2i+1 with its own length and one instance |
| Vulkan.FrameCommands | src/engine/vulkan/vulkan_container.rs:401-420 | the frame has five fixed commands plus two per buffer: begin (framebuffer, black clear), bind pipeline, set viewports, set scissors first, end last |
| Vulkan.DrawCommandsDraws | src/engine/vulkan/vulkan_container.rs:415-418 | N buffers give exactly N draws, the k-th drawing buffer k whole, once |
| Vulkan.FrameCommandsShape | src/engine/vulkan/vulkan_container.rs:401-420 | the frame is begin (chosen framebuffer, black clear), bind pipeline, set viewports, set scissors, a (bind, draw) pair per buffer in list order, end; its draws are one per buffer, in order |
| Vulkan.RemoveAt | src/engine/vulkan/vulkan_container.rs:389 | removing one position shortens the list by one and keeps the others in order |
| Vulkan.VulkanContainer.constructor | src/engine/vulkan/vulkan_container.rs:24-66 | a framebuffer per image on a render pass in the first image's format, each attaching a view of its image in that image's format (so, when all images share a format, every attachment matches the render pass's colour format), one viewport (depth 0..1) and one scissor from the window info, no vertex buffers |
| Vulkan.VulkanContainer.CreateVertexBuffer | src/engine/vulkan/vulkan_container.rs:360-379 | exactly one buffer holding the vertices is appended; earlier buffers, viewports and scissors unchanged |
| Vulkan.VulkanContainer.DeleteVertexBuffer | src/engine/vulkan/vulkan_container.rs:381-392 | an index past the end changes nothing; otherwise exactly that buffer is removed, the rest keep their order |
| Vulkan.VulkanContainer.RecordCommandBuffer | src/engine/vulkan/vulkan_container.rs:394-424 | the recorded stream is the frame stream of the acquired image's framebuffer and the current buffers |
| Vulkan.VulkanContainer.ResizeViewport | src/engine/vulkan/vulkan_container.rs:447-462 | only slot 0 of the viewports and scissors is overwritten from the new info (depth 0..1, cast scissor); vertex buffers untouched |
| BaseEntities.CubeModel | src/engine/components/entity_component/entities/base_entities.rs:48-235 | the cube mesh has exactly 36 vertices |
| BaseEntities.CubeModelIsTriangleList | src/engine/components/entity_component/entities/base_entities.rs:48-235 | the mesh is a whole number of triangles, twelve |
| BaseEntities.CubeVerticesAreWhiteCorners | src/engine/components/entity_component/entities/base_entities.rs:50-234 | every vertex has colour (255,255,255) and every position coordinate is ±0.5 |
| BaseEntities.CubeFacesAreAxisAligned | src/engine/components/entity_component/entities/base_entities.rs:48-235 | the six groups of six vertices lie in the planes z=+0.5, z=-0.5, x=-0.5, x=+0.5, y=+0.5, y=-0.5 |
| BaseEntities.CameraTransformOf | src/engine/components/entity_component/entities/base_entities.rs:18-28 | the camera sits one unit above the player, same x, z, rotation and size |
| BaseEntities.PlayerEntity.constructor | src/engine/components/entity_component/entities/base_entities.rs:14-16 | the player holds the given transform |
| BaseEntities.PlayerEntity.SetTransform | src/engine/components/entity_component/entities/base_entities.rs:32-38 | after setting, getting returns the new transform |
| BaseEntities.PlayerEntity.GetTransform | src/engine/components/entity_component/entities/base_entities.rs:32-34 | the transform the player holds now |
| BaseEntities.PlayerEntity.GetCameraTransform | src/engine/components/entity_component/entities/base_entities.rs:18-28 | returns the camera transform (y + 1) and modifies nothing |
| BaseEntities.CubeEntity.constructor | src/engine/components/entity_component/entities/base_entities.rs:47-238 | the cube keeps the given transform and holds the 36-vertex cube model |
| BaseEntities.CubeEntity.SetTransform | src/engine/components/entity_component/entities/base_entities.rs:242-248 | after setting, getting returns the new transform |
| BaseEntities.CubeEntity.GetTransform | src/engine/components/entity_component/entities/base_entities.rs:242-244 | the transform the cube holds now |
| BaseEntities.CubeEntity.GetModel | src/engine/components/entity_component/entities/base_entities.rs:252-254 | the model built by the constructor, 36 vertices |
| OldCube.New | src/engine/components/_old/entities/subcomponents/cube_entity.rs:32-93 | keeps the id and transform, builds a 36-vertex model |
| OldCube.GetIdReturnsConstructorId | src/engine/components/_old/entities/subcomponents/cube_entity.rs:14-20 | `get_id` returns the constructor's id, `get_model` the shared 36-vertex cube mesh |
| OldCube.GetId | src/engine/components/_old/entities/subcomponents/cube_entity.rs:14-16 | the cube's own id |
| OldCube.GetModel | src/engine/components/_old/entities/subcomponents/cube_entity.rs:18-20 | the cube's own vertex list |
| OldCube.ReceiveCommand | src/engine/components/_old/entities/subcomponents/cube_entity.rs:26-28 | receiving any command leaves the cube unchanged |
| OldCube.ModelMatchesBaseCube | src/engine/components/_old/entities/subcomponents/cube_entity.rs:33-87 | the old cube's vertex list equals the current cube mesh element for element |
| Repository.EntityRepository.constructor | src/engine/repositories/entity_repository.rs:11-16 | empty map, counter 0 |
| Repository.EntityRepository.AddEntity | src/engine/repositories/entity_repository.rs:18-24 | stores under the pre-increment counter (a key never issued before), increments by one, returns the post-increment value: the key plus one |
| Repository.EntityRepository.RemoveEntity | src/engine/repositories/entity_repository.rs:26-29 | deletes the key if present, no-op otherwise; other entries and the counter unchanged, so a removed key is never reissued |
| Repository.EntityRepository.GetEntity | src/engine/repositories/entity_repository.rs:31-34 | the entity under a present key (absent keys panic) |
| EntityComponents.EntityComponent.constructor | src/engine/components/entity_component/entity_component.rs:23-32 | a fresh, empty repository and nothing published |
| EntityComponents.EntityComponent.HandleEvent | src/engine/components/entity_component/entity_component.rs:34-61 | creation adds exactly one cube under a new key and publishes one create event with id key+1, the cube mesh, the transform and the default texture; deletion removes the id and publishes a delete event with the same id |
| Entities.PlayerKeys | src/engine/components/entities/entity_manager.rs:44-51 | the collected ids are exactly the player keys |
| Entities.EntityManager.constructor | src/engine/components/entities/entity_manager.rs:11-17 | empty map, empty command buffer, counter 0 |
| Entities.EntityManager.CreateEntity | src/engine/components/entities/entity_manager.rs:19-32 | inserts under the (free) counter value and increments it by one; a cube also buffers one create command with that id, its mesh, transform and texture |
| Entities.EntityManager.DeleteEntity | src/engine/components/entities/entity_manager.rs:34-36 | removes the key if present; buffer and counter unchanged |
| Entities.EntityManager.GetPlayerEntity | src/engine/components/entities/entity_manager.rs:44-54 | the index-th player key met in iteration order, which is a player (too few players panic) |
| Entities.EntityManager.Process | src/engine/components/entities/entity_manager.rs:56-58 | hands over the buffered commands in order and leaves the buffer empty |
| Gamestage.CreateFromInfo | src/engine/components/gamestage/entities/subcomponents/player_entity.rs:48-52 | the entity built from a create info has the given id, the info's transform and the info's kind |
| Gamestage.UnreservedId | src/engine/components/gamestage/entities/entity_manager.rs:13 | 0 for an empty list, otherwise the last entity's id; 0 whenever all ids are 0 |
| Gamestage.CreateKeepsIdsZero | src/engine/components/gamestage/entities/entity_manager.rs:12-16 | creating from a list whose ids are all 0 gives id 0 again |
| Gamestage.CreateAllIdsZero | src/engine/components/gamestage/entities/entity_manager.rs:12-16 | any sequence of creations from an empty list gives one entity per create info, all with id 0 |
| Gamestage.FindById | src/engine/components/gamestage/entities/entity_manager.rs:26 | the first position with the id; none exactly when no entity has it |
| Gamestage.LookupReachesOnlyFirst | src/engine/components/gamestage/entities/entity_manager.rs:12-27 | with every id 0, looking up 0 reaches the first entity and any other id finds nothing |
| Gamestage.PlayerIndices | src/engine/components/gamestage/entities/entity_manager.rs:18-23 | exactly the player entities, each once, in list order |
| Gamestage.EntityManager.GetPlayerEntities | src/engine/components/gamestage/entities/entity_manager.rs:18-23 | exactly the positions of the player entities, in strictly increasing list order |
| Gamestage.EntityManager.constructor | src/engine/components/gamestage/entities/entity_manager.rs:8-10 | an empty list |
| Gamestage.EntityManager.CreateEntity | src/engine/components/gamestage/entities/entity_manager.rs:12-16 | appends exactly one entity, built with the last entity's id (0 on an empty list); every id stays 0 |
| Gamestage.EntityManager.ModifyEntityTransform | src/engine/components/gamestage/entities/entity_manager.rs:25-27 | replaces the transform of the first entity with the id (which must exist); every other entity unchanged |
| EventQueue.Collected | src/engine/components/events/event_manager.rs:19-23 | at most one command per event |
| EventQueue.Retained | src/engine/components/events/event_manager.rs:30 | no kept event is `Done`; every non-`Done` event is kept, and only queued events are |
| EventQueue.RetainedAppend | src/engine/components/events/event_manager.rs:30 | retaining distributes over concatenation: kept events stay in their relative order |
| EventQueue.RetainedSingle | src/engine/components/events/event_manager.rs:30 | a single event is kept exactly when it is not `Done`, so `Failed` ones stay |
| EventQueue.RetainedAllDone | src/engine/components/events/event_manager.rs:30 | a queue of `Done` events is emptied |
| EventQueue.CollectedAppend | src/engine/components/events/event_manager.rs:19-23 | commands come out in event order |
| EventQueue.CollectedAllSome | src/engine/components/events/event_manager.rs:20-23 | when every event returns a command, the commands are those, one per event, in order |
| EventQueue.CollectedAllNone | src/engine/components/events/event_manager.rs:20-23 | when no event returns a command, none is collected |
| EventQueue.EventManager.constructor | src/engine/components/events/event_manager.rs:10-14 | an empty queue |
| EventQueue.EventManager.AddEvent | src/engine/components/events/event_manager.rs:34-36 | appends the event at the end |
| EventQueue.EventManager.Process | src/engine/components/events/event_manager.rs:16-32 | each event executed once in queue order; the result is the `Some` commands in order; the new queue is the executed events that are not `Done`, in order |
| EventQueue.AddedEventProcessedLast | src/engine/components/events/event_manager.rs:16-36 | an event added last is executed last: it stays at the end unless `Done`, and its command, if any, comes last |
| Events.EventManager.constructor | src/engine/components/events.rs:8-12 | an empty queue |
| Events.EventManager.AddEvent | src/engine/components/events.rs:22-24 | appends one event at the end |
| Events.EventManager.Actualize | src/engine/components/events.rs:14-20 | every event executed once, then exactly the `Done` ones removed, the rest in order |
| Events.ExecuteRenderObject | src/engine/components/events.rs:53-59 | an executed render object is `Done` and keeps its vertices |
| Events.RenderObject.constructor | src/engine/components/events.rs:46-51 | starts `Pending` with the given vertices |
| Events.RenderObject.Execute | src/engine/components/events.rs:53-65 | executing leaves it `Done` (the `Processing` step is not observable afterwards) |
| Events.ActualizeRemovesRenderObjects | src/engine/components/events.rs:14-59 | the `actualize` that executes render objects removes them all |
| EventSubcomponents.ExecuteRenderObject | src/engine/components/events/subcomponents/render_object.rs:24-39 | executing yields `CreateVulkanObject(id, the held vertices, transform)` and leaves the object `Done`, empty, with id and transform unchanged |
| EventSubcomponents.RenderObject.constructor | src/engine/components/events/subcomponents/render_object.rs:15-22 | starts `Pending` with the given id, vertices and transform |
| EventSubcomponents.RenderObject.Process | src/engine/components/events/subcomponents/render_object.rs:24-33 | builds the command from the taken vertices and finishes `Done` |
| EventSubcomponents.RenderObject.Execute | src/engine/components/events/subcomponents/render_object.rs:37-39 | always returns `Some` of the command `process` builds |
| EventSubcomponents.ProcessRenderObjects | src/engine/components/events/event_manager.rs:16-32 | processing a queue of render objects yields one create command per object, in order, with its vertices, and empties the queue |
| EventSubcomponents.DeleteObject.constructor | src/engine/components/events/subcomponents/delete_object.rs:15-21 | starts `Pending` with the index and container |
| EventSubcomponents.DeleteObject.Process | src/engine/components/events/subcomponents/delete_object.rs:24-32 | the container loses the buffer at the held index if in range and is unchanged otherwise; the index resets to 0 and the status is `Done` |
| EventSubcomponents.DeleteObject.Execute | src/engine/components/events/subcomponents/delete_object.rs:36-38 | exactly what `process` does |
| StageEvents.RenderObject.constructor | src/engine/components/gamestage/events/subcomponents/render_object.rs:15-21 | starts `Pending` holding the given vertices and the container |
| StageEvents.RenderObject.Process | src/engine/components/gamestage/events/subcomponents/render_object.rs:23-31 | the container gains exactly one buffer, at the end, with the held vertices; the object is emptied and `Done` |
| StageEvents.RenderObject.Execute | src/engine/components/gamestage/events/subcomponents/render_object.rs:35-37 | exactly what `process` does |
| ContainerEvents.RenderObject.constructor | src/engine/components/events/render_object.rs:14-19 | starts `Pending` holding the given vertices |
| ContainerEvents.RenderObject.Process | src/engine/components/events/render_object.rs:21-29 | the container passed in gains exactly one buffer, at the end, with the held vertices; the object is emptied and `Done` |
| ContainerEvents.RenderObject.Execute | src/engine/components/events/render_object.rs:33-35 | exactly what `process` does with the same container |
| Input.MovementKeysAreExactlyTheDirected | src/engine/components/input_manager/input_manager.rs:35-40 | exactly W, A, S and D have a movement direction |
| Input.KeyEventSpec | src/engine/components/input_manager/input_manager.rs:25-29 | a registered key takes the new state; no other entry changes and the key set never changes |
| Input.Movements | src/engine/components/input_manager/input_manager.rs:31-46 | every held W/A/S/D key contributes its direction (W (0,0,1), A (1,0,0), S (0,0,-1), D (-1,0,0)), and every event comes from such a key |
| Input.MovementsCountHeldKeys | src/engine/components/input_manager/input_manager.rs:31-46 | with each key visited once, exactly one event per held movement key |
| Input.AtMostFourMovements | src/engine/components/input_manager/input_manager.rs:31-46 | one `process` adds at most four movement events |
| Input.NothingHeldNoMovement | src/engine/components/input_manager/input_manager.rs:43 | with no key held, nothing is added |
| Input.InputManager.constructor | src/engine/components/input_manager/input_manager.rs:13-23 | the key set is exactly the given keys, all released |
| Input.InputManager.KeyEvent | src/engine/components/input_manager/input_manager.rs:25-29 | the key map becomes the registered-key update of the old one |
| Input.InputManager.Process | src/engine/components/input_manager/input_manager.rs:31-46 | the movement events, in visiting order; the key map is only read |
| Bus.Subscribed | src/engine/event_bus/event_bus.rs:31-34 | the handler joins the end of its type's list (created if absent); other types' lists unchanged |
| Bus.SubscriptionOrder | src/engine/event_bus/event_bus.rs:19-45 | from an empty bus, each type's handlers are exactly those subscribed to it, each once, in subscription order |
| Bus.EventBus.constructor | src/engine/event_bus/event_bus.rs:13-17 | no handlers |
| Bus.EventBus.Subscribe | src/engine/event_bus/event_bus.rs:19-35 | the registry becomes the subscription of the handler to the type |
| Bus.EventBus.Publish | src/engine/event_bus/event_bus.rs:37-45 | invokes exactly the type's handlers, each once, in order, none for an unknown type; the registry is only read |

## Left out

- Vulkan foreign calls. These have no visible semantics:
  - instance, surface and logical-device creation, the render pass and pipeline setup, shader loading;
  - command-buffer allocation and build, acquire, submit, present and the fence wait (`draw_frame`).
  - The model keeps only the rules around them: the adapter choice, the swapchain parameters, list sizes and the command stream.
- Vulkan.VulkanContainer.CreateVertexBuffer: the memory allocator and the buffer allocation (`Buffer::from_iter`) are foreign calls assumed to succeed, an empty vertex list included. The program's `expect` panics when the allocation fails, and vulkano refuses an empty buffer; the model appends a buffer on every call.
- Logging (`Logger::log`) and the log line for a `Failed` event in `EventManager::process` are not modelled.
- Camera and view matrices, push constants, and the trigonometry of `Transform` are not modelled. So are the `move_*` methods of both player entities and the player-movement event.
- The `Arc<Mutex<…>>` sharing of the container and the bus is not modelled. A shared container is one Dafny object reference, and locking always succeeds.
- The subscription wiring in the entity component is not modelled. The event-bus publish the entity component makes is the `published` stream it appends to.
- The thin forwarding components (vulkan component, vulkan manager, command bus) are not part of this model.
- Handler closures of the event bus are opaque. `Bus.EventBus.Publish` returns the handlers it invokes, in order, rather than running them. The downcast inside each wrapped handler always succeeds for the type it is registered under, so it is not modelled.
- The input manager's `process` adds `PlayerMovementEvent`s to a game-stage event manager that is not part of this model. `Input.InputManager.Process` returns the directions of the events it adds, in order. The `player_entity` reference it holds is unused by its methods and is left out.
- `f32` arithmetic is modelled with reals. NaN and infinities are not covered. `Vulkan.ToU32` covers the saturating cast for finite values only.
- Integer widths (`usize`, `u32`) are unbounded here. Three overflows are not modelled:
  - `caps.min_image_count + 1`;
  - the `try_into` of a buffer length to `u32` at the draw, which would panic for buffers longer than `u32::MAX`;
  - the id counters' overflow.
- Panics become preconditions where the caller must avoid them:
  - `get_entity` and `get_player_entity` unwrap;
  - `modify_entity_transform` unwraps the search;
  - `framebuffers[image_index]` is indexed directly.
- Panics the program itself may hit are error results: no adapter available, an empty composite-alpha or format list.
- Iteration order of `HashMap` is not fixed by the program. It is a parameter constrained to list each key once, so the model covers every order and fixes none.
- Trait objects: the events and the entities are boxed trait objects in the program.
  - The queues are generic over an event type, and `execute`/`get_status` are function parameters. So a queue holds event values rather than references, and two queued references to one object are not modelled.
  - Each concrete event class is proved against the step function a queue uses (`Events.ExecuteRenderObject`, `EventSubcomponents.ExecuteRenderObject`).
- Entity kinds: the game-stage entity trait is open-ended. Besides players, its other kinds are one `OtherEntity` case whose `modify_transform` replaces the transform as the player's does.
- One vertex type (position, colour, texture coordinate) stands for the several vertex structs.
- `VulkanContainer::new` is modelled from the swapchain parameters and the images onward. The steps before that are foreign calls.
- The swapchain, render pass, pipeline and framebuffers are fixed at construction and never reassigned. `resize_viewport` does not rebuild the swapchain or the framebuffers; the model follows the code.
- Compile errors and mismatched versions are modelled file by file as written, and not reconciled. `CommandType::CreateVulkanObject` has three fields in events/subcomponents/render_object.rs and four in the components/entities manager, and each file's version is used.
- The components/entities manager calls a `CubeEntity::new` that does not exist: the `CubeEntity` it imports (components/entities/subcomponents/cube_entity.rs) has no constructor, and its `get_model` calls itself without end. `OldCube.New`, the `_old` cube entity's `new(id, transform)`, is substituted for it.
- `DeleteObject::new` is commented out in the program. `EventSubcomponents.DeleteObject.constructor` gives the fields the values that constructor would.
- The `object` field of the render objects is named `vertices`, because `object` is a reserved word in Dafny.
- Each event file declares its own copy of `EventStatus`. One shared `Status.EventStatus` stands for all of them.
