# c17-sdl2-vulkan: the decision rules of a small SDL2 + Vulkan sprite renderer

This project models, in Dafny, the logic at the core of a C17 renderer that
opens an SDL2 window, brings up a Vulkan device and swapchain, and draws
textured sprite instances. Every driver and window-system call is foreign;
what remains and is modelled is the logic the program itself decides:

- **Base** (`base.dfy`): the `MATH_MIN`, `MATH_MAX` and `MATH_CLAMP` macros,
  the unsigned integer widths and C's conversion to `u32`. `ASSERT` and
  `ASSERT_CONTEXT` abort the process. A modelled method that contains one
  returns `ok`, which is false exactly when an assertion would fail; a
  modelled search whose failure aborts (`FindSurfaceFormat`,
  `FindMemoryType`, `LayoutTransition`) returns `None` instead.
- **Sdl** (`sdl.dfy`): the three subsystem switches and the flag mask
  `SDL__Init` hands to `SDL_Init`.
- **Vulkan** (`vulkan.dfy`): the driver state `Vulkan_t` as the class
  `Context`, with the required layer and extension names kept in fixed-size
  arrays and a count, and one method per modelled function: the field
  resets of `Vulkan__InitDriver1`, the required-name checks, the choice of
  physical device by index, the queue-family scan, the queue create infos,
  the surface format, present mode, image count, extent and sharing mode of
  the swapchain, the memory-type search and the image-layout transition table.
  Driver answers are parameters: an enumeration that returns `VK_SUCCESS` is
  `Some(list)`, one that does not is `None`; handles are opaque numbers.
  Enumerant values follow the Vulkan 1.3 specification.
- **Window** (`window.dfy`): `Window_t` as the class `AppWindow`, the
  aspect-preserving centred viewport of `Window__KeepAspectRatio` (the `f32`
  aspect ratio as an exact positive rational, `u32` conversion as truncation),
  and the event and callback logic of `Window__RenderLoop`, with the events
  pending at each iteration as input and the physics and render callbacks
  recorded in call order.
- **Game** (`game.dfy`): the statics of `main.c` as the class `Scene`, the
  scene setup, and the dirty-flag bookkeeping of `renderCallback`, with the
  animation's texture id as input and the buffer uploads recorded.

Where the code does something other than one would expect, the model follows the code:

- The swapchain image count is always `minImageCount + 1`, even above
  `maxImageCount`: `MATH_CLAMP` takes (lower bound, value, upper bound), and
  the call passes `minImageCount + 1` as the lower bound (`Vulkan.ImageCount`,
  `Vulkan.ImageCountExceedsMax`).
- Before a family with both roles is seen, the queue scan keeps the *last*
  graphics family and the *last* present family, not the first
  (`Vulkan.ScanWithoutBoth`).
- The portability-subset loop scans the required list, not the available
  one, so with only the swapchain extension required it changes nothing.
- `Vulkan__InitDriver1` assigns zero to two local variables instead of the
  buffer size fields, so those keep their previous values.

## Model

| member | source | states |
|---|---|---|
| Base.ToU32 | src/lib/Window.c:156 | A value already in u32 range is kept; a negative 32-bit value gains 2^32 |
| Base.Min | src/lib/Base.h:72 | The result is one of the two arguments and no larger than either |
| Base.Max | src/lib/Base.h:73 | The result is one of the two arguments and no smaller than either |
| Base.MinReal | src/lib/Base.h:72 | MATH_MIN at float type: one of the arguments, no larger than either |
| Base.Clamp | src/lib/Base.h:74 | In [lo, hi] when lo <= hi; the value itself when inside; lo when below lo; hi when above hi and not below lo |
| Base.ClampBelowIgnoresUpper | src/lib/Base.h:74 | A value below the lower bound yields the lower bound whatever the upper bound is |
| Sdl.ErrorCode | src/lib/SDL.h:8-11 | The error code is 0 exactly for SDL_ERROR_NONE |
| Sdl.Mask | src/lib/SDL.c:29-38 | The mask the three bitwise-or steps build has no bit other than the three subsystem bits |
| Sdl.MaskBits | src/lib/SDL.c:29-38 | Each subsystem bit is set iff that subsystem is enabled, no other bit is set, and the mask is 0 iff nothing is enabled |
| Sdl.Subsystems.constructor | src/lib/SDL.c:12-14 | All three switches start false |
| Sdl.Subsystems.EnableAudio | src/lib/SDL.c:16-18 | Sets the audio switch and changes nothing else |
| Sdl.Subsystems.EnableGamepad | src/lib/SDL.c:20-22 | Sets the gamepad switch and changes nothing else |
| Sdl.Subsystems.EnableVideo | src/lib/SDL.c:24-26 | Sets the video switch and changes nothing else |
| Sdl.Subsystems.Init | src/lib/SDL.c:28-43 | The mask has AUDIO iff audio, JOYSTICK iff gamepad, VIDEO iff video, no other bit; the result is INIT_FAILED iff SDL_Init reports nonzero |
| Sdl.InitWithNothingEnabled | src/lib/SDL.c:28-43 | With no subsystem enabled the mask is 0 |
| Vulkan.Contains | src/lib/Vulkan.c:122-131 | The search loop finds a name iff it is exactly equal to an entry of the list |
| Vulkan.FirstMissing | src/lib/Vulkan.c:122-136 | None iff every required name is available; otherwise the first required name that is not |
| Vulkan.FindSurfaceFormat | src/lib/Vulkan.c:540-555 | A format is found iff B8G8R8A8_SRGB with SRGB_NONLINEAR is listed, and it is that pair |
| Vulkan.ChoosePresentMode | src/lib/Vulkan.c:557-568 | MAILBOX iff MAILBOX is listed, FIFO otherwise; never fails |
| Vulkan.FindMemoryType | src/lib/Vulkan.c:992-1004 | None (abort) iff no type is allowed by the filter bit and has all requested properties; otherwise the least such index |
| Vulkan.LayoutTransition | src/lib/Vulkan.c:1148-1167 | A barrier exists iff the transition is UNDEFINED to TRANSFER_DST or TRANSFER_DST to SHADER_READ_ONLY |
| Vulkan.UploadTransitionsChain | src/lib/Vulkan.c:1151-1164 | The access masks and stages of the two supported transitions; a direct UNDEFINED to SHADER_READ_ONLY transition aborts |
| Vulkan.Step | src/lib/Vulkan.c:370-387 | One family: no change once a combined family was selected; otherwise same iff this family has both roles; found flags are never cleared; a role's index changes only to this family, and only if it has that role |
| Vulkan.Scan | src/lib/Vulkan.c:345-387 | After the loop, found flags are never cleared, and each role's index is either the one carried in or a family that has that role |
| Vulkan.ScanKeepsSame | src/lib/Vulkan.c:370-387 | Once a combined family is selected, later families change nothing |
| Vulkan.ScanAppend | src/lib/Vulkan.c:370-387 | Families after a selected combined family are ignored |
| Vulkan.ScanWithoutBoth | src/lib/Vulkan.c:370-387 | With no combined family: graphics found iff some family has graphics, present found iff some family presents, and each index is the last such family |
| Vulkan.ScanWithBoth | src/lib/Vulkan.c:370-387 | With a combined family, both roles take the first one and same is true |
| Vulkan.QueueCreateInfos | src/lib/Vulkan.c:425-442 | One create info if same, two otherwise; the first names the graphics family, the second the present family; each asks for one queue at priority 1 |
| Vulkan.QueueCreateInfosDistinct | src/lib/Vulkan.c:422-442 | One create info iff some family has both roles, two otherwise, over pairwise distinct family indices |
| Vulkan.SecondQueueCreateInfoOutOfBounds | src/lib/Vulkan.c:425-441 | After the queue scan, the as-written fill writes outside its array exactly when no family has both roles, and otherwise gives the intended create infos |
| Vulkan.SwapchainAppendGuardAdmitsFullList | src/lib/Vulkan.c:228-232 | On a driver state whose required device-extension list is full, the as-written guard passes and the append index lies outside the array |
| Vulkan.SearchU8 | src/lib/Vulkan.c:266-273 | The u8-indexed search as written: a positive answer names an entry of the list; a negative answer only comes from a list of fewer than 256 names |
| Vulkan.SearchU8BelowLimit | src/lib/Vulkan.c:266-273 | Below 256 names the as-written search ends and answers exactly whether the name is listed from the start index on |
| Vulkan.SearchU8NeverEnds | src/lib/Vulkan.c:266-273 | With 256 or more names and no match among the first 256, the u8-indexed search never ends |
| Vulkan.CountingLoopNeverEnds | src/lib/Vulkan.c:110 | A counting loop without early exit whose index wraps below the count never ends |
| Vulkan.CountingLoopEndsWhenWide | src/lib/Vulkan.c:110 | A counting loop whose index is wide enough for the count ends after exactly count minus start steps |
| Vulkan.ListingLoopU8 | src/lib/Vulkan.c:110 | The as-written listing loop with a u8 index ends iff the u32 count is below 256 |
| Vulkan.ListingLoopU32 | src/lib/Vulkan.c:110 | With an index as wide as the u32 count the listing loop always ends, after count steps |
| Vulkan.ImageCount | src/lib/Vulkan.c:574-577 | The image count is minImageCount + 1 whatever maxImageCount is |
| Vulkan.ImageCountExceedsMax | src/lib/Vulkan.c:574-577 | Capabilities (2, 2) yield 3 images, above the maximum |
| Vulkan.Context.constructor | src/main.c:24 | The static driver state: empty required lists of the given capacities, no device, surface or swapchain, reset queue selection |
| Vulkan.Context.InitDriver1 | src/lib/Vulkan.c:14-45 | Empty required lists, no device, square aspect and zero window and viewport, cleared flags and surface lists, reset queues, buffer size kept; fails iff the loader fails |
| Vulkan.Context.AssertValidationLayersSupported | src/lib/Vulkan.c:49-94 | With DEBUG_VULKAN the validation layer is appended if a slot is free; succeeds iff that append fits and, when any layer is required, the enumeration succeeds with at least one layer and lists every required layer |
| Vulkan.Context.AssertDriverExtensionsSupported | src/lib/Vulkan.c:96-137 | Succeeds iff the enumeration succeeds with at least one extension and lists every required extension; changes nothing |
| Vulkan.Context.RequireDriverExtension | src/main.c:201-206 | Succeeds iff a slot is free, and then the name is appended to the required driver extensions |
| Vulkan.Context.UsePhysicalDevice | src/lib/Vulkan.c:180-223 | Succeeds iff the enumeration succeeds with at least one device and the index is below the count; the device at that index is selected |
| Vulkan.Context.AssertSwapChainSupported | src/lib/Vulkan.c:227-327 | Appends the swapchain extension; succeeds iff a slot is free, the device extensions list every required one, the capabilities query succeeds and the format and present-mode lists are non-empty and within capacity, which are then cached; a required portability-subset name always aborts |
| Vulkan.Context.CreateLogicalDeviceAndQueues | src/lib/Vulkan.c:329-537 | Succeeds iff a device and a surface are bound, every surface-support query succeeds, both roles are found and the device is created; the queue state is the scan's, the create infos are one per distinct family with the required layers and extensions and sampler anisotropy |
| Vulkan.Context.CreateSwapChain | src/lib/Vulkan.c:539-638 | Succeeds iff the sRGB format is listed, the swapchain is created and its images fit the capacity; the image count, format, present mode, extent from the buffer size, sharing mode and family indices, and old swapchain are as the rules say |
| Window.ComputeViewport | src/lib/Window.c:91-98 | Each side is exactly the truncation of the smaller of the window side and the side the aspect ratio derives from the other window side; at least one window side is filled, and the rectangle is centred up to integer division |
| Window.ViewportLandscape | src/lib/Window.c:91-98 | Square aspect, 800x600 window: 600x600 viewport at (100, 0) |
| Window.ViewportSquare | src/lib/Window.c:91-98 | Square aspect, 800x800 window: 800x800 viewport at (0, 0) |
| Window.Resize | src/lib/Window.c:91-109 | Window and buffer size become exactly (W, H), the viewport is the computed one, the framebuffer is marked resized, and aspect and window-state flags are kept |
| Window.HandleEvent | src/lib/Window.c:137-164 | One event: quit is set iff it was or the event is QUIT; the aspect ratio is kept; an event other than SIZE_CHANGED changes no size, viewport or resize field |
| Window.Drain | src/lib/Window.c:136-170 | After the inner loop, quit is set iff it was set before or a QUIT event was among the drained events |
| Window.Iteration | src/lib/Window.c:132-194 | One outer iteration: the state is the drain of its events; no callback runs iff the window is then minimized, otherwise physics then render with deltaTime 0 |
| Window.Run | src/lib/Window.c:130-194 | A loop entered with quit set does nothing; each iteration runs at most two callbacks |
| Window.DrainKeepsMinimized | src/lib/Window.c:139-157 | Events other than MINIMIZED, RESTORED and SIZE_CHANGED leave m_minimized unchanged |
| Window.DrainKeepsMaximized | src/lib/Window.c:139-151 | Events other than MAXIMIZED and RESTORED leave m_maximized unchanged |
| Window.DrainMinimized | src/lib/Window.c:139-157 | After draining, m_minimized is true iff the last of the MINIMIZED, RESTORED and SIZE_CHANGED events is MINIMIZED |
| Window.DrainMaximized | src/lib/Window.c:139-151 | After draining, m_maximized is true iff the last of the MAXIMIZED and RESTORED events is MAXIMIZED |
| Window.DrainKeepsGeometry | src/lib/Window.c:139-157 | Without SIZE_CHANGED, no size, viewport or resize field changes |
| Window.DrainSizeChanged | src/lib/Window.c:154-157 | After draining, the size, buffer and viewport fields come from the last SIZE_CHANGED event's data converted to u32, and the framebuffer is marked resized |
| Window.DrainKeepsAspect | src/lib/Window.c:139-163 | No event changes the aspect ratio |
| Window.QuitEndsLoopAfterIteration | src/lib/Window.c:130-194 | After a QUIT event the rest of that iteration's events and its callbacks still run, and no further iteration happens |
| Window.DrainStaysMinimized | src/lib/Window.c:139-157 | Without RESTORED or SIZE_CHANGED, a minimized window stays minimized |
| Window.MinimizedRunsNoCallbacks | src/lib/Window.c:172-194 | While nothing restores or resizes a minimized window, neither callback runs |
| Window.CallbacksPaired | src/lib/Window.c:125-194 | The callbacks come in pairs, physics then render, each with deltaTime 0 |
| Window.AppWindow.New | src/lib/Window.c:19-26 | quit is false, there is no SDL window, and title, width, height and the driver state are stored unchanged |
| Window.AppWindow.KeepAspectRatio | src/lib/Window.c:91-109 | The driver state becomes the resized view of the given size |
| Window.AppWindow.Dispatch | src/lib/Window.c:137-164 | One event changes the quit flag and the driver's window fields as the event switch says |
| Window.AppWindow.PollEvents | src/lib/Window.c:136-170 | The inner loop leaves the state the drain of all pending events gives |
| Window.AppWindow.RenderLoop | src/lib/Window.c:111-213 | Final state and callbacks are those of the loop over the pending events, which the Drain and Run lemmas characterise |
| Game.IndicesDescribeQuad | src/main.c:61-68 | Six indices forming whole triangles, naming only the four quad vertices and each of them |
| Game.PixelsToUnits | src/main.c:90-94 | The result times 800 is the pixel count |
| Game.RenderStep | src/main.c:312-349 | Instance 1 takes the new texture id; an instance upload happens iff the VBO was dirty or the id changed; the frame's UBO is uploaded iff its flag was set; only that flag is cleared; the VBO ends clean |
| Game.RenderSteps | src/main.c:312-349 | After a sequence of calls the UBO flag list keeps its length, the VBO is clean and instance 1 shows the last call's texture id, with at most two uploads per call; an empty sequence changes nothing |
| Game.RepeatedCallUploadsNothing | src/main.c:312-349 | A second call with the same texture id and frame uploads nothing |
| Game.UniformFlagCleared | src/main.c:325-326 | Frame f's UBO flag stays set exactly while no call has run for f |
| Game.UniformUploadedAtMostOnce | src/main.c:325-349 | Over any sequence of calls, frame f's UBO is uploaded exactly once if its flag was set and some call ran for f, never otherwise |
| Game.SteadyTextureUploadsNoInstances | src/main.c:312-323 | With a clean VBO and an unchanged texture id, no instance upload happens |
| Game.Scene.constructor | src/main.c:21-40 | Both UBO flags and the VBO flag start true, one instance, all instances zero |
| Game.Scene.SetupScene | src/main.c:260-277 | Six indices handed to the driver, square world, instance 0 with texId 0 and instance 1 with texId 4 and their scales, instanceCount 2 within MAX_INSTANCES |
| Game.Scene.RenderCallback | src/main.c:308-349 | The flags move as RenderStep says, only instance 1 changes, an instance upload publishes instanceCount, and a UBO upload copies the world aspect to the driver |
| Game.SetUpScene | src/main.c:260-277 | A scene just set up has every flag dirty and instance 1 showing texture 4 |

## Left out

- Every Vulkan driver call (instance, device, swapchain, image views, render pass, pipeline, framebuffers, command pools, buffers, images, memory mapping, queue submission): foreign; their answers are parameters and their handles opaque numbers.
- Texture and vertex uploads, shader file reading and image decoding: the bytes land in GPU memory that nothing in the program reads back.
- Logging: output only. The listing loops around it are not skipped, though: see the next lines and the Findings.
- Vulkan.Context.AssertValidationLayersSupported: with 256 or more available layers the u8-indexed listing loop at src/lib/Vulkan.c:68 never ends; the model uses a full-width index and returns (`Vulkan.ListingLoopU8`, `Vulkan.ListingLoopU32`).
- Vulkan.Context.AssertDriverExtensionsSupported: with 256 or more available instance extensions the u8-indexed listing loop at src/lib/Vulkan.c:110 never ends, before the search at :122-131 is reached; the model returns.
- Vulkan.Context.CreateLogicalDeviceAndQueues: with 256 or more queue families the u8-indexed loop at src/lib/Vulkan.c:345 never ends; the model scans every family and returns.
- Vulkan.Context.AssertSwapChainSupported: with 256 or more available device extensions and a required one not among the first 256, the u8-indexed search at src/lib/Vulkan.c:266-273 never ends; the model searches the whole list and returns.
- `ASPECT_SQUARE` is not defined in the C files of this model (its header is not part of it); `Vulkan.ASPECT_SQUARE` takes it as 1.0, as its name says.
- Game.PixelsToUnits: the `f32` division by 800 is exact real division in the model; `f32` rounding is not modelled.
- `Animate` and the matrix calls of the uniform buffer: `f64` arithmetic through helpers that are not part of this model; the texture id is the render callback's input.
- SDL window, surface, event polling, gamepad, keyboard and audio calls: foreign; the pending events are the loop's input and the other collaborators receive events without feeding anything back.
- The headers `Vulkan.h` and `Window.h`: `Vulkan.h` declares an older field set and `Window.h` a one-argument `Window__RenderLoop` that disagrees with the definition used; the model follows the C files.
- Window.AppWindow.RenderLoop: the fps parameters and callback pointers are not modelled (frame pacing is commented out in the source), and the loop runs over a finite list of iterations, ending early when quit is set, where the program waits for events forever.
- Frame pacing, timing and GPU-CPU overlap: absent from the code or foreign.
- Window.ComputeViewport: `f32` rounding is not modelled; the aspect ratio is exact, so very large window sizes may round differently in the program.
- Game.Scene.RenderCallback: requires a positive world aspect, which holds once the scene is set up; the zero aspect of the unset static would make the later viewport division meaningless.
- Vulkan.Context.AssertSwapChainSupported: where the portability-subset loop would append past the end of the array, the model aborts; the program would write out of bounds and keep scanning the entries it appended.
- Queue handles fetched with vkGetDeviceQueue and the swapchain image handles: driver-owned values with no logic.
- Vulkan__CreateInstance, Vulkan__InitDriver2 and the other setup functions without decision logic: constant structure filling around a driver call.

## Findings

| source | as written | input that shows it | evidently intended | confidence | as-written member | corrected member |
|---|---|---|---|---|---|---|
| src/lib/Vulkan.c:441 | the second queue create info is stored at index 2 of an array of 2 | a device whose graphics family and present family differ | store it at index 1 | not executed | Vulkan.SecondQueueCreateInfoOutOfBounds | Vulkan.QueueCreateInfosDistinct |
| src/lib/Vulkan.c:228-232 | the capacity guard before the swapchain append is `count <= CAP` | a required device-extension list that is already full | `count < CAP`, as the layer append checks | not executed | Vulkan.SwapchainAppendGuardAdmitsFullList | Vulkan.Context.AssertSwapChainSupported |
| src/lib/Vulkan.c:266-273 | the search loops count with a `u8` against a `u32` count (the same loops at :81 and :124 are reached only after the listing loops of the next row) | 256 available device extensions, none of the first 256 named like a required one | an index as wide as the count | not executed | Vulkan.SearchU8NeverEnds | Vulkan.Contains |
| src/lib/Vulkan.c:110 | the listing loops over available layers (:68), instance extensions (:110) and queue families (:345) count with a `u8` against a `u32` count and have no early exit | a driver that reports 256 instance extensions | an index as wide as the count | not executed | Vulkan.ListingLoopU8 | Vulkan.ListingLoopU32 |
