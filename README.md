# vkrollercoaster core, modelled in Dafny

vkrollercoaster is a Vulkan scene editor written in C++. This project models the
bookkeeping of its core: reference counts, back-references and registration tables;
selection rules and validation; and the order in which resources are torn down and
rebuilt. It also models `scripts/cmake_options.py`. Each source file has one module:

- `Allocator`: the shared memory allocator and its deferred teardown.
- `Buffers`: index-buffer sizes; uniform buffers, their bounds-checked host memory and
  the pipelines they are bound to.
- `CommandBuffer`: the render-pass state machine, clear values, submission fences and
  the pipelines a reset releases.
- `Framebuffer`: size validation, attachments, render-pass ownership and the reload
  callbacks of dependents.
- `Image`: layout-transition tables, formats and staging sizes, the `load_image` size
  rule and cube-map faces.
- `ImGuiController`: shortcuts, the dependent count and "disable all scripts".
- `InputManager`: key states and their per-frame edges.
- `Light`: the "light_data" uniform buffers and the little-endian `int32_t` counters
  in them.
- `Material`: a shader with its buffers and texture slots, and the pipelines created
  from it.
- `Model`: mesh flattening into vertex and index arrays, and index slices grouped by
  material.
- `Pipeline`: Vulkan value mappings, push-constant ranges, descriptor sets and the
  order of work in `reload`.
- `Renderer`: layer and extension registration, device choice, the frame counter,
  the reference count, version unpacking and the choice of the main camera.
- `RendererInfo`: "Reload shaders" and the device description.
- `Scene`: the entity registry, entity handles and grouping lights for the buffer
  update.
- `Shader`: the stage and language tables, the `#stage` splitter, the field-path
  parser, the resource lookup and the shader library.
- `Swapchain`: format, present-mode, extent, image-count and sharing choices, and the
  rebuild order of `reload`.
- `Texture`: texture bindings in pipelines' descriptor sets and their removal.
- `Viewport`: the single viewport window and its framebuffer resizing.
- `Window`: the windowing library's lifetime, the window map and resize flags.
- `CmakeOptions`: the build's CMake options and the command line they form.
- `Util`, `Strings` and `Paths`: `util.h`'s mask and zero-fill, and stand-ins for
  `std::string::find`, `atoi`, `std::to_string` and `std::filesystem::path`.

How the C++ maps onto the model:

- A C++ object whose fields are updated in place is a Dafny `class`, and its methods
  are proved against functions of the old state.
- Value-like code is datatypes and functions.
- A thrown `std::runtime_error` is `Err(message)` of `Wrappers.Result`, and an empty
  `ref` is `None`.
- Vulkan, VMA, GLFW, ImGui, shaderc, SPIRV-Cross, assimp and the image decoders are
  foreign. What they answer is passed in as a parameter, and what is done to them is
  recorded as a sequence of events whose order the contracts state.

## Model

| member | source | states |
|---|---|---|
| Util.CreateMask | src/util.h:26-33 | the loop's mask is `Mask(bits)`; bit k is set exactly when k < bits; the value is 2^bits - 1 in 32-bit arithmetic |
| Util.MaskBits | src/util.h:28-31 | after n rounds exactly the bits below n are set |
| Util.OrBit | src/util.h:30 | `mask \|= 1 << i` sets bit i and leaves every other bit as it was |
| Util.MaskValue | src/util.h:26-33 | the n-round mask equals 2^n - 1, with 0 for n = 0 and all ones for n = 32 |
| Util.MaskMonotone | src/util.h:26-33 | a mask of fewer rounds is contained in a mask of more rounds |
| Util.Zero | src/util.h:20-22 | the `size` bytes from `start` become 0 and every other byte keeps its value |
| Strings.IndexOf | src/shader.cpp:320 | `find(c)` yields the first position holding c, or the length (npos) when c does not occur |
| Strings.IndexOfAfter | src/shader.cpp:332-334 | in `a + c + b` with no c in a, `find(c)` yields the length of a |
| Strings.LeadingDigits | src/shader.cpp:341 | the digit prefix `atoi` reads: a prefix of the input, all digits, and maximal |
| Strings.Decimal | src/light.cpp:97 | `std::to_string` of a count is a non-empty string of decimal digits |
| Strings.DecimalValue | src/light.cpp:102 | the digits `std::to_string` produces have the number's value |
| Strings.AtoiDigits | src/shader.cpp:339-341 | `atoi` of a non-empty digit string is the value of its digits |
| Strings.AtoiDecimal | src/shader.cpp:339-341 | `atoi` inverts `std::to_string` on naturals: atoi(to_string(n)) == n |
| Strings.AtoiNegativeDecimal | src/shader.cpp:339-341 | a leading minus sign negates: atoi("-" + to_string(n)) == -n |
| Strings.AtoiMinusOne | src/shader.cpp:339-341 | `atoi("-1")` is -1, the value `find_offset` also uses for "no index" |
| Strings.Atoi | src/shader.cpp:339-341 | `atoi` is negative only after a leading minus sign (past the leading spaces), and is 0 for a string of spaces |
| Paths.FileName | src/shader.cpp:44 | the filename is a suffix of the path and holds no separator |
| Paths.LastDot | src/shader.cpp:44 | the last '.' of a name: a dot position with no dot after it, or none when the name holds no dot |
| Paths.ExtensionOfFile | src/shader.cpp:43-48 | the extension of "dir/stem.ext" is ".ext", the key `determine_language` looks up |
| Paths.Join | src/model.cpp:193-194 | an absolute right operand replaces the left one; otherwise the result ends with the relative operand |
| Paths.ParentOfChild | src/model.cpp:191-196 | the parent of "dir/name" is "dir", and a relative resource path joined to it lands under "dir" |
| Allocator.AllocatorData.constructor | src/allocator.cpp:22-26 | the global state starts with no objects, no shutdown request and no teardown, which satisfies the invariant "teardown has run exactly when shutdown was requested and no object is left" |
| Allocator.AllocatorData.Init | src/allocator.cpp:28-42 | `init` takes one renderer reference whether or not creation succeeds, and fails with "could not create allocator!" exactly when the allocator library fails |
| Allocator.AllocatorData.Teardown | src/allocator.cpp:44-48 | `shutdown_allocator` counts one teardown and gives one renderer reference back; the renderer tears down when that was its last reference after its own shutdown request |
| Allocator.AllocatorData.Shutdown | src/allocator.cpp:49-54 | shutdown is recorded; teardown runs now exactly when no allocator object is alive, and the invariant holds afterwards |
| Allocator.Allocator.constructor | src/allocator.cpp:56-59 | a new object is counted and its source is "unknown"; the invariant is kept while no shutdown is pending |
| Allocator.Allocator.Dispose | src/allocator.cpp:61-67 | the destructor uncounts the object and runs teardown exactly when it was the last one after a shutdown request, keeping the invariant |
| Allocator.Allocator.SetSource | src/allocator.cpp:69-71 | the source name becomes the given one |
| Allocator.Allocator.Failure | src/allocator.cpp:79 | an allocation error message is the source name, then ": ", then the reason |
| Allocator.Allocator.AllocImage | src/allocator.cpp:73-81 | image allocation fails exactly when the library fails, with "<source>: could not create image!" |
| Allocator.Allocator.AllocBuffer | src/allocator.cpp:87-95 | buffer allocation fails exactly when the library fails, with "<source>: could not create buffer!" |
| Allocator.Allocator.Map | src/allocator.cpp:101-107 | mapping fails exactly when the library fails, with "<source>: could not map memory!" |
| Buffers.IndexBuffer.constructor | src/buffers.cpp:78-80 | an index buffer keeps its index count and sizes its buffers at four bytes per index |
| Buffers.ReadWritten | src/buffers.cpp:180-198 | `get_data` on the range `set_data` just wrote returns the written bytes |
| Buffers.WrittenElsewhere | src/buffers.cpp:184-186 | a write leaves every byte outside [offset, offset + size) as it was |
| Buffers.UniformBufferSize | src/buffers.cpp:104-116 | a missing set, a missing binding and a non-uniform-buffer resource each give their own error; otherwise the size is the reflected type's size |
| Buffers.Attached | src/buffers.cpp:172-177 | after `bind` the pipeline's (set, binding) entry names this buffer and every other entry is kept |
| Buffers.Detached | src/buffers.cpp:131-139 | the destructor's table no longer maps (set, binding) to this buffer, leaves the table alone when another buffer took the entry, and keeps every other set |
| Buffers.AttachedThenDetached | src/buffers.cpp:130-178 | binding a buffer and then destroying it removes exactly its entry and leaves the rest of the table as before the bind |
| Buffers.UniformBuffer.constructor | src/buffers.cpp:120-128 | a new uniform buffer has its set, binding and size and no bound pipelines |
| Buffers.UniformBuffer.SetData | src/buffers.cpp:180-188 | a write past the end is refused with "attempted to map memory outside the buffer's limits!" and nothing changed; otherwise the memory is the old memory with `data` at `offset` |
| Buffers.UniformBuffer.GetData | src/buffers.cpp:190-198 | a read past the end is refused with "attempted to map memory outside the buffer's limits!"; otherwise the result is the `size` bytes at `offset`, and the memory is not modified |
| Buffers.UniformBuffer.Zero | src/buffers.cpp:200-204 | every byte of the buffer becomes 0 |
| Buffers.UniformBuffer.Bind | src/buffers.cpp:143-178 | refused, with the nonexistent-set message, exactly when the pipeline lacks this buffer's set; otherwise one uniform-buffer write per allocated descriptor set, the pipeline joins the bound set, its table entry names this buffer, and nothing else of the pipeline changes |
| Buffers.UniformBuffer.Dispose | src/buffers.cpp:130-141 | every bound pipeline's table becomes `Detached`, so only entries still naming this buffer are erased; the pipeline's textures, sets and material are untouched |
| Buffers.FromShaderData | src/buffers.cpp:102-118 | succeeds exactly when `UniformBufferSize` does, with a fresh unbound buffer of that size at (set, binding); otherwise fails with its message |
| CmakeOptions.Token | scripts/cmake_options.py:38 | an option's token starts with " -D" and is the name, "=" and the value after it |
| CmakeOptions.OptionString | scripts/cmake_options.py:35-39 | the printed string starts with "-Wno-dev" |
| CmakeOptions.RenderOptions | scripts/cmake_options.py:35-38 | the loop yields "-Wno-dev" followed by one token per option in list order, and nothing else |
| CmakeOptions.Render | scripts/cmake_options.py:34-39 | `main` builds the option string of `OPTIONS` |
| CmakeOptions.CountAppend | scripts/cmake_options.py:38 | counting a character over a concatenation adds the counts |
| CmakeOptions.OneSpacePerOption | scripts/cmake_options.py:36-38 | when no name or value holds a space, the tokens hold exactly one space per option |
| CmakeOptions.TokenCount | scripts/cmake_options.py:2-39 | the printed string holds exactly thirty " -D" tokens, one per `OPTIONS` entry |
| CmakeOptions.ValuesOnOff | scripts/cmake_options.py:2-33 | there are thirty options and every value is "ON" or "OFF" |
| CmakeOptions.NamesWithoutSpacesA | scripts/cmake_options.py:3-12 | the first ten option names hold no space |
| CmakeOptions.NamesWithoutSpacesB | scripts/cmake_options.py:13-22 | the next ten option names hold no space |
| CmakeOptions.NamesWithoutSpacesC | scripts/cmake_options.py:23-32 | the last ten option names hold no space |
| CmakeOptions.OptionNamesDistinctA | scripts/cmake_options.py:3-17 | the first fifteen names are pairwise distinct, as dictionary keys are |
| CmakeOptions.OptionNamesDistinctB | scripts/cmake_options.py:3-32 | no name of the first fifteen recurs among the last fifteen |
| CmakeOptions.OptionNamesDistinctC | scripts/cmake_options.py:18-32 | the last fifteen names are pairwise distinct |
| CommandBuffer.AttachmentTypeCount | src/command_buffer.cpp:103-116 | a target's attachment-type set has one member per type it holds, colour and depth/stencil |
| CommandBuffer.ClearValues | src/command_buffer.cpp:102-118 | one clear value per attachment type; the colour value comes first exactly when there is a colour attachment, and depth 1 / stencil 0 comes last exactly when there is a depth/stencil one |
| CommandBuffer.CommandBuffer.constructor | src/command_buffer.cpp:129-134 | a new command buffer records no render pass, holds no pipelines, and takes one renderer reference |
| CommandBuffer.CommandBuffer.Dispose | src/command_buffer.cpp:24-28 | the destructor gives the renderer reference back, tearing the renderer down when that was the last one after a shutdown request |
| CommandBuffer.CommandBuffer.Begin | src/command_buffer.cpp:29-35 | the begin flags hold the one-time-submit bit exactly for single-time buffers, and no other bit |
| CommandBuffer.CommandBuffer.End | src/command_buffer.cpp:40-43 | ending is refused exactly while a render pass is being recorded |
| CommandBuffer.CommandBuffer.Submit | src/command_buffer.cpp:49-80 | a render submission waits on and signals the frame's semaphores and uses the current frame's fence without waiting; any other submission makes its own fence, waits for it and destroys it |
| CommandBuffer.CommandBuffer.Reset | src/command_buffer.cpp:81-90 | the rendered-pipelines list becomes empty and the render-pass state is untouched |
| CommandBuffer.CommandBuffer.BeginRenderPass | src/command_buffer.cpp:91-121 | refused exactly when a render pass is already recorded (state unchanged); otherwise the target becomes current and the pass begins with its `ClearValues` |
| CommandBuffer.CommandBuffer.EndRenderPass | src/command_buffer.cpp:122-128 | refused exactly when no render pass is recorded; either way none is recorded afterwards |
| Framebuffer.ListedTypes | src/framebuffer.cpp:70-75 | collecting, in declaration order, the attachment types that lie in a key set gives back exactly that key set |
| Framebuffer.UsageForBits | src/framebuffer.cpp:125-134 | a created attachment image is always sampled and a transfer source, and is a colour or depth/stencil attachment exactly as its type says |
| Framebuffer.AspectForBits | src/framebuffer.cpp:126-140 | a colour attachment gets the colour aspect; a depth attachment gets the depth aspect and never the colour one, and the stencil aspect exactly for D32_SFLOAT_S8_UINT and D24_UNORM_S8_UINT |
| Framebuffer.Formats | src/framebuffer.cpp:108-110 | the formats `resize` re-requests: one per existing attachment type, that attachment's current format |
| Framebuffer.Framebuffer.constructor | src/framebuffer.cpp:29-45 | the extent is the spec's size; the render pass is owned exactly when none was provided; the attachments are as `acquire_attachments` leaves them, each created image taking one renderer reference; a render pass and a framebuffer are created only when not provided, in that order |
| Framebuffer.Framebuffer.AcquireAttachments | src/framebuffer.cpp:115-146 | the attachment keys become provided ∪ requested, provided images are kept as they are, and every requested type not provided gets a fresh image of the spec's size and requested format, with `UsageFor`/`AspectFor`, in the GENERAL layout; the renderer gains one reference per image created |
| Framebuffer.Framebuffer.Acquire | src/framebuffer.cpp:115-146 | the map `acquire_attachments` builds: keys provided ∪ requested, provided images kept, a fresh image in the GENERAL layout with the spec's size, format, usage and aspect for every other requested type, and one renderer reference per created image |
| Framebuffer.Framebuffer.AcquireFrom | src/framebuffer.cpp:116-145 | the loop over the attachment types still to do: afterwards every requested type has an attachment, the state stays a valid partial acquisition, and the renderer gains exactly one reference per type newly created |
| Framebuffer.Framebuffer.AcquireOne | src/framebuffer.cpp:117-144 | one type: an image is created exactly when the type is requested and not yet acquired, and then it is fresh, in the GENERAL layout, with the spec's size and that type's usage and aspect, and takes one renderer reference |
| Framebuffer.NotProvidedCount | src/framebuffer.cpp:120-123 | the per-type count of requested attachments not provided is the size of the set difference |
| Framebuffer.Framebuffer.CreateFramebuffer | src/framebuffer.cpp:197-219 | the framebuffer is created and then every registered dependent's recreate callback runs; nothing else changes |
| Framebuffer.Framebuffer.DestroyFramebuffer | src/framebuffer.cpp:221-229 | the dependents' destroy callbacks run first exactly when asked for, then the framebuffer is destroyed |
| Framebuffer.Framebuffer.Dispose | src/framebuffer.cpp:48-55 | the destructor destroys the framebuffer without callbacks, the render pass only if it is owned, and gives the renderer reference back |
| Framebuffer.Framebuffer.AddReloadCallbacks | src/framebuffer.cpp:57-66 | a dependent already registered keeps its callbacks; a new one is added |
| Framebuffer.Framebuffer.RemoveReloadCallbacks | src/framebuffer.cpp:68 | the dependent's entry is erased and nothing else changes |
| Framebuffer.Framebuffer.GetAttachmentTypes | src/framebuffer.cpp:70-75 | the result is exactly the set of types that have an attachment |
| Framebuffer.Framebuffer.GetAttachment | src/framebuffer.cpp:77-83 | null exactly for a type without an attachment, otherwise that attachment |
| Framebuffer.Framebuffer.SetAttachment | src/framebuffer.cpp:85-95 | the attachment for the type is replaced, inside a destroy (with callbacks) and recreate of the framebuffer |
| Framebuffer.Framebuffer.Reload | src/framebuffer.cpp:97-100 | the framebuffer is destroyed with callbacks and recreated; the state is otherwise unchanged |
| Framebuffer.Framebuffer.Resize | src/framebuffer.cpp:102-113 | the extent becomes the new size, the attachment types stay the same, and each gets a fresh image of the new size with its old format; one renderer reference is taken per new image |
| Framebuffer.Framebuffer.Reacquire | src/framebuffer.cpp:104-112 | every existing attachment type is requested again with its current format and nothing provided, so each gets a fresh image of the new size |
| Framebuffer.ResizeSpec | src/framebuffer.cpp:104-111 | the spec `resize` builds has the new size, provides nothing and requests exactly the existing attachment types, each with its current format |
| Framebuffer.New | src/framebuffer.cpp:22-33 | construction is refused exactly for a zero width or height; otherwise the framebuffer has the spec's size and attachments, each created image in the GENERAL layout, and takes one renderer reference of its own besides one per created image |
| Image.StageAndMask | src/image.cpp:68-103 | exactly the seven listed layouts have a stage and access mask; every stage is non-zero, only UNDEFINED has no access, and the access includes a write exactly for the layouts the image is written in |
| Image.TransitionImageLayout | src/image.cpp:105-145 | a barrier exists exactly when both layouts are supported; its source half is the old layout's stage/mask and its destination half the new layout's, with the given aspect and layer count; a one-off command buffer is used exactly when none is passed |
| Image.TransitionsChain | src/image.cpp:126-128 | in two transitions in a row the second barrier waits on exactly the stage and access the first made available |
| Image.ChannelFormat | src/image.cpp:277-286 | 4 channels give R8G8B8A8_SRGB and 3 give R8G8B8_SRGB; any other count is an error |
| Image.ChannelFormatRoundTrip | src/image.cpp:277-286 | the channel count can be read back from the chosen format |
| Image.LoadImage | src/image.cpp:169-215 | nothing for a missing path or a file the decoder rejects; otherwise width × height × channels bytes, with four channels assumed for KTX |
| Image.Image2D.constructor | src/image.cpp:242-256 | an attachment image takes one renderer reference, keeps its format, size, usage and aspect and ends in the GENERAL layout after its transition from UNDEFINED |
| Image.Image2D.Uploaded | src/image.cpp:232-240 | an image made from pixel data is a colour image usable as transfer source, destination and sampled, and ends in the GENERAL layout (its renderer reference is taken by `FromData`) |
| Image.Image2D.Dispose | src/image.cpp:258-263 | the destructor gives its renderer reference back; teardown runs exactly when that was the last one after a shutdown request |
| Image.Image2D.Transition | src/image.cpp:265-269 | the result is exactly `TransitionImageLayout` from the recorded layout over one layer with no caller buffer (so a one-off buffer), and afterwards the new layout is recorded; an unsupported layout changes nothing |
| Image.FromData | src/image.cpp:232-322 | one renderer reference is taken in every case, as the constructor takes it before anything can fail; refused exactly for a channel count other than 3 or 4; otherwise the image has the channel format and the data's size, the staging buffer holds width × height × channels bytes, and the image goes UNDEFINED → TRANSFER_DST → GENERAL on the caller's command buffer |
| Image.ImageCube.constructor | src/image.cpp:362-392 | an empty cube map takes one renderer reference, keeps its format and aspect and ends in the GENERAL layout |
| Image.ImageCube.Dispose | src/image.cpp:394-400 | the destructor gives its renderer reference back; teardown runs exactly when that was the last one after a shutdown request |
| Image.ImageCube.Transition | src/image.cpp:402-407 | as for 2D images: exactly `TransitionImageLayout` from the recorded layout over all six layers |
| Image.FaceOffsets | src/image.cpp:426-444 | there is one source offset per cube face, six in all |
| Image.FaceRegions | src/image.cpp:446-475 | face k is copied from its offset in the cross image to array layer k, each region a quarter of the width by a third of the height |
| Image.FacesTileSource | src/image.cpp:426-449 | every face is read from inside the cross image, and no two faces read the same pixel |
| ImGuiController.ShortcutActive | src/imgui_controller.cpp:236-242 | a shortcut is active only for a key pressed this frame, and then exactly when all required modifier bits are held |
| ImGuiController.ShortcutModifiers | src/imgui_controller.cpp:236-250 | Ctrl+Shift+D implies both Ctrl and Shift are held, and extra modifiers never stop a shortcut |
| ImGuiController.HandleShortcuts | src/imgui_controller.cpp:243-251 | the input manager advances one frame, then exit is Ctrl+Q and disable-scripts is Ctrl+Shift+D on the new key states |
| ImGuiController.Script.Disable | src/imgui_controller.cpp:295 | `disable` leaves the script disabled and is counted |
| ImGuiController.DisableScripts | src/imgui_controller.cpp:287-299 | afterwards every script is disabled, and `disable` was called once on each script that was enabled and never on the others |
| ImGuiController.ImGuiData.constructor | src/imgui_controller.cpp:137-203 | `init` creates the three menus and an input manager, takes a renderer reference, and starts with no dependents and no teardown |
| ImGuiController.ImGuiData.Teardown | src/imgui_controller.cpp:205-219 | `shutdown_imgui` counts one teardown and gives the renderer reference back |
| ImGuiController.ImGuiData.Shutdown | src/imgui_controller.cpp:220-227 | the menus and the input manager go, shutdown is recorded, and teardown runs now exactly when nothing depends on ImGui, keeping the invariant "teardown ran once exactly when shutdown was requested and no dependent is left" |
| ImGuiController.ImGuiData.AddDependent | src/imgui_controller.cpp:370 | the dependent count grows by one and nothing else changes |
| ImGuiController.ImGuiData.RemoveDependent | src/imgui_controller.cpp:371-376 | the count drops by one and teardown runs exactly when the last dependent goes after a shutdown request, keeping the invariant |
| InputManager.UpdatedKeysMeaning | src/input_manager.cpp:65-86 | after `update` every key of either frame has an entry; a key with no new event carries over its held state and modifiers; `down` is "held now, not before" and `up` is "held before, not now", so they never hold together and a key held across frames has neither |
| InputManager.UpdatedKeys | src/input_manager.cpp:65-86 | the updated table has an entry for every key of either frame and no other, and no key is both pressed and released in it |
| InputManager.KeyEventMeaning | src/input_manager.cpp:126-134 | a key event creates the key's entry if needed, sets `held` false exactly for a release, ORs the event's modifiers into the accumulated ones, and leaves every other key alone |
| InputManager.KeyEventIdempotent | src/input_manager.cpp:126-134 | delivering the same key event twice to a manager leaves the same writing state as delivering it once |
| InputManager.PressedIdempotent | src/input_manager.cpp:131-133 | applying the same event twice to one key's state is the same as once |
| InputManager.OrAbsorbs | src/input_manager.cpp:133 | OR-ing the same modifier bits again changes nothing |
| InputManager.Manager.constructor | src/input_manager.cpp:28-44 | a new manager starts with empty key tables and is appended to its window's list; the window's entry is created on first use, recording the callback GLFW replaced unless it was this file's own |
| InputManager.Manager.GetKey | src/input_manager.cpp:105-111 | the key's current state, or the default state (nothing held, no edges, no modifiers) for an unknown key; nothing is inserted |
| InputManager.Manager.Update | src/input_manager.cpp:55-87 | the writing state is reset to empty and the current state becomes `UpdatedKeys` of the old current and old writing states |
| InputManager.Registry.constructor | src/input_manager.cpp:24-26 | the window map starts empty |
| InputManager.Registry.Register | src/input_manager.cpp:32-43 | the manager is appended to its window's list, creating the window's entry (with the replaced callback) the first time |
| InputManager.Registry.Unregister | src/input_manager.cpp:46-53 | the destructor removes the manager from its window's list and erases the window's entry once that list is empty |
| InputManager.Registry.KeyCallback | src/input_manager.cpp:119-135 | the previously installed callback is the one reported as called first, then every manager of the window records the event in its writing state and no current state changes |
| InputManager.Without | src/input_manager.cpp:48 | `std::list::remove`: no occurrence of the manager is left, every other manager stays, and nothing is added |
| Light.PlainFieldNames | src/light.cpp:73-74 | "<type>_count" and "<type>s" hold no '.', '[' or ']', so `find_offset` looks them up as single field names |
| Light.PlainTypeName | src/light.cpp:60-69 | the three type names are plain field names |
| Light.PlainAppend | src/light.cpp:73-74 | appending text without '.', '[' or ']' to a plain name keeps it plain |
| Light.DistinctFieldNames | src/light.cpp:60-74 | no two light types share a count or array field, and no count field is an array field, so the types' counters never collide |
| Light.DecodeInt32 | src/light.cpp:93-94 | the `int32_t` count read from four bytes lies in the 32-bit signed range |
| Light.EncodeInt32 | src/light.cpp:99 | storing a count takes four bytes |
| Light.DecodeEncode | src/light.cpp:94-99 | storing a count and reading it back gives the count |
| Light.EncodeDecode | src/light.cpp:94-99 | reading a count and storing it back leaves the bytes as they were |
| Light.Increment | src/light.cpp:95 | `count++` stays an `int32_t` and adds one below the maximum |
| Light.SizeT | src/light.cpp:95 | the index is the count itself when non-negative; a negative count converts to a huge `size_t`, which the bound check then refuses |
| Light.EntryPrefix | src/light.cpp:102 | an entry's field paths start with "<type>s[<index in decimal>]." |
| Light.FieldOffsetMeaning | src/light.cpp:101-111 | the field of entry `index` sits at the array field's offset + index × stride + the field's offset in the element; a name the element lacks is an error |
| Light.SetField | src/light.cpp:103-112 | the corrected `set`: a missing field succeeds exactly when optional and changes nothing, and a missing required one is the "does not exist" error; a present field whose offset lookup fails gives that error; otherwise it succeeds exactly when its bytes fit, which are then written at its offset with every other byte kept, and fails with the out-of-limits message when they do not |
| Light.SetFieldAsWritten | src/light.cpp:103-112 | as written: a field the element has succeeds exactly when it is optional, and nothing is ever written |
| Light.RequiredFieldAlwaysFailsAsWritten | src/light.cpp:104-110 | as written, a field that is not optional (every light's "color") always fails, whether or not the element has it |
| Light.SetFields | src/light.cpp:114-120 | an entity's `set` calls keep the buffer's size |
| Light.SetFieldsFailFast | src/light.cpp:114-120 | the first failing `set` call ends the entity with its error |
| Light.AddEntity | src/light.cpp:91-120 | one entity keeps the buffer's size: it reads the count, is refused past the array size, stores count + 1, then makes its `set` calls with the corrected `set`: "position" (optional), the light's "color" (required), then the typed data (`EntityWrites`) |
| Light.MissingColorFailsEntity | src/light.cpp:103-116 | with an array element lacking "color", every entity fails, and with no "position" either and room in the array the error is exactly `field "color" does not exist!` |
| Light.MissingColorFailsEntities | src/light.cpp:91-119 | with an array element lacking "color", any non-empty list of entities fails |
| Light.MissingColorFailsUpdate | src/light.cpp:75-119 | a buffer whose light array element lacks "color" fails the update of a light with entities |
| Light.AddEntities | src/light.cpp:91 | appending the entities in order keeps the buffer's size |
| Light.AddEntitiesFailFast | src/light.cpp:91-121 | the first failing entity ends the update with its error |
| Light.ReadOutside | src/light.cpp:99-111 | a write outside the count's four bytes leaves the count as it was |
| Light.SetFieldsKeepCount | src/light.cpp:114-120 | setting an entity's fields keeps the count when no field overlaps it |
| Light.AddEntitiesCount | src/light.cpp:91-99 | appending n entities to a buffer holding count c leaves c + n, and succeeds only when c + n fits the array, so the k-th entity gets index c + k |
| Light.BufferUpdate | src/light.cpp:78-90 | one buffer's part keeps its size; a missing count field, a missing array field and a non-array field are each reported; fields are written with the corrected `set` |
| Light.WriteField | src/light.cpp:103-112 | the corrected `set` on the buffer's memory succeeds, fails and writes exactly as `SetField` says |
| Light.AppendEntity | src/light.cpp:93-120 | the per-entity reads and writes through the buffer leave exactly what `AddEntity` (corrected `set`) says, or its error |
| Light.UpdateBuffer | src/light.cpp:76-121 | one shader's part through the buffer's own reads and writes leaves exactly what `BufferUpdate` (corrected `set`) says, or its error |
| Light.LightData.constructor | src/light.cpp:26-28 | the buffer table starts empty |
| Light.LightData.GetBuffer | src/light.cpp:46-52 | the shader's buffer, or null exactly for a shader without one |
| Light.LightData.Shutdown | src/light.cpp:43-45 | the table is emptied |
| Light.LightData.ResetBuffers | src/light.cpp:53-57 | every byte of every light buffer becomes 0 |
| Light.LightData.AddShader | src/light.cpp:33-40 | succeeds exactly when the shader's first "light_data" resource, if any, is a uniform buffer, and otherwise fails with `from_shader_data`'s message for it; a shader with such a resource gets a fresh buffer sized for it unless it already has an entry; other shaders change nothing |
| Light.LightData.Init | src/light.cpp:29-42 | succeeds exactly when every library shader's first "light_data" resource, if any, is a uniform buffer, an error being `from_shader_data`'s message for one that is not; on success every library shader with a "light_data" resource has a buffer; existing entries are kept, and every added buffer sits at the shader's first "light_data" resource with that resource's size |
| Light.LightData.UpdateBuffers | src/light.cpp:58-123 | on success every shader's buffer holds what `BufferUpdate` (corrected `set`, each entity's position and colour first) makes of its old bytes; on failure the error is that of some shader's buffer; with any entity, a buffer whose array element lacks "color" makes the update fail |
| Light.UpdateEntries | src/light.cpp:75-122 | the loop over the shaders' buffers: as `UpdateBuffers` (corrected `set`), for any table of distinct buffers |
| Light.UpdateEntry | src/light.cpp:76-121 | one shader's buffer becomes its expected outcome and every other buffer keeps its bytes |
| Material.MaterialData.constructor | src/material.cpp:22-24 | the material system starts without a swapchain |
| Material.MaterialData.Init | src/material.cpp:25-30 | the swapchain is replaced in every case, with a warning exactly when one was already set |
| Material.MaterialData.Shutdown | src/material.cpp:31-36 | the swapchain is always dropped, with a warning exactly when none was set |
| Material.InitialTextures | src/material.cpp:78-89 | the table has an entry exactly for the names of the shader's sampled-image resources, each holding as many slots as that resource's array size, all the white texture |
| Material.LibraryName | src/material.cpp:56-63 | a name found is one the library maps to the shader, and none is found exactly when no library entry is the shader |
| Material.Material.constructor | src/material.cpp:37-54 | a new material has its shader, buffers and texture table, the name "Material" and no created pipelines |
| Material.Material.GetTexture | src/material.cpp:119-124 | an unknown resource name is an error; otherwise the stored slot |
| Material.Material.SetTexture | src/material.cpp:110-118 | an unknown name is an error with the table unchanged; otherwise exactly that slot now holds the texture (every other slot unchanged); success exactly when binding it by name works on every created pipeline, each of which then has the texture at the first resource of that name and is among the texture's bound pipelines; a failure carries the failing pipeline's bind error |
| Material.BindOnAll | src/material.cpp:115-117 | the loop of `set_texture`: success exactly when the bind works on every pipeline, each then bound at the first resource of the name; the first error is returned; no pipeline's sets or material change |
| Material.Material.BindTextures | src/material.cpp:101-105 | succeeds exactly when every slot of the table binds by name (`TableBinds`: the first resource of its name passes `bind`'s checks), an error being a slot's not-found or check message; on success every texture is bound to the pipeline; the table is unchanged |
| Material.Material.BindBuffers | src/material.cpp:98-100 | the camera, light and material buffers are bound in that order, and binding succeeds exactly when the pipeline has all three sets, failing otherwise with the nonexistent-set message |
| Material.Material.CreatePipeline | src/material.cpp:96-109 | succeeds exactly when the pipeline has the three buffers' sets and every texture slot binds (`TableBinds`), an error being the nonexistent-set message or a slot's bind error; on success every buffer and texture is bound to the pipeline, the pipeline points back at the material and joins the created pipelines; on failure neither happens |
| Material.Material.Dispose | src/material.cpp:91-95 | no created pipeline points back at the material any more, and their binding tables are untouched |
| Material.NewMaterial | src/material.cpp:37-90 | refused before `init`, for a null shader, for a shader without "material_data" or whose "material_data" is no uniform buffer, and without a light buffer (none from the light system for any library name of the shader, or no "light_data" in a shader outside the library), and successful in every other case; on success the material has a fresh buffer at its "material_data" resource, the light system's buffer for a library name of the shader or a fresh one at its own "light_data", and the white-texture table |
| Model.VertexAt | src/model.cpp:96-106 | a built vertex takes the mesh's position and normal; its uv is the first texture-coordinate set, or (0, 0) when the mesh has none |
| Model.FaceIndicesOfTriangles | src/model.cpp:107-115 | once every face is a triangle, the flattened index list holds three indices per face and face f's indices sit at 3f, 3f+1, 3f+2 |
| Model.TiledSlicesInside | src/model.cpp:116-126 | meshes recorded back to back keep every mesh's vertex and index slice inside the flattened arrays |
| Model.ModelSource.constructor | src/model.cpp:50-56 | an absolute path is kept; a relative one is joined to the working directory; the source starts empty with no models |
| Model.ModelSource.ResourcePath | src/model.cpp:191-197 | an absolute resource path is returned unchanged; a relative one is resolved against the model file's directory |
| Model.ResourceBesideModel | src/model.cpp:191-197 | a relative texture named by `dir/name` resolves to `dir/texture` |
| Model.ModelSource.ProcessMesh | src/model.cpp:93-127 | succeeds exactly when every face is a triangle; on success the vertices and face indices are appended and one mesh records their offsets, counts and material, keeping the meshes back to back; on failure nothing changes |
| Model.ModelSource.ProcessNode | src/model.cpp:83-92 | succeeds exactly when every mesh of the node's depth-first traversal is triangulated; then the vertices appended are the visited meshes' vertices and the indices appended their face indices, mesh after mesh in traversal order, and the meshes added are one per visited mesh with that mesh's material; earlier meshes are untouched |
| Model.ModelSource.ProcessMeshes | src/model.cpp:84-87 | the loop over a node's own meshes: succeeds exactly when each is triangulated; then the vertices and indices appended are those meshes' vertices and face indices in order, and one mesh is added per id with its material; earlier meshes are untouched |
| Model.ModelSource.ProcessNodes | src/model.cpp:88-91 | the children loop: the same promise, vertices, indices and meshes, over the concatenated traversals of the children |
| Model.ConcatContents | src/model.cpp:83-92 | the vertices and indices a traversal appends split over a concatenation of traversals, so a node's own meshes followed by its children's give the node's traversal |
| Model.PreorderAllPrefixOf | src/model.cpp:88-91 | the traversal of the first j children is a prefix of the traversal of all of them |
| Model.ModelSource.Reload | src/model.cpp:62-82 | a missing or incomplete scene, or one without a root, is an error and leaves all four collections empty; otherwise success exactly when every reachable mesh is triangulated, and then the vertex and index arrays are the traversal's vertices and face indices, with one material per scene material and the meshes in traversal order; every created model then holds the new data and an index map rebuilt over it |
| Model.ModelSource.RefreshModels | src/model.cpp:78-81 | every model created from the source copies its data and rebuilds its index map |
| Model.VertexInputLayout | src/model.cpp:226-234 | three attributes: two vec3 then one vec2 |
| Model.VertexInputLayoutPacked | src/model.cpp:226-234 | position starts the vertex, each attribute starts where the previous one ends, and the stride is where the uv ends |
| Model.IndexMapMeaning | src/model.cpp:258-269 | a material has an index list exactly when some mesh uses it; its list is the slices of its meshes with later meshes first, and its length is the sum of their index counts |
| Model.IndexMapKeys | src/model.cpp:262-267 | a material is a key of the map exactly when some mesh has that material |
| Model.IndexMapLists | src/model.cpp:262-267 | a material's list is the slices of its meshes, later meshes in front |
| Model.LaterFirstLength | src/model.cpp:262-267 | the length of a material's list is the total index count of its meshes |
| Model.Model.FromSource | src/model.cpp:199-206 | the model is registered with its source, copies its vertices, indices, materials and mesh ranges, and holds the index map over them; the source's data is unchanged |
| Model.Model.constructor | src/model.cpp:208-218 | a model from explicit data has no source, keeps the given data and holds the index map over it |
| Model.Model.Dispose | src/model.cpp:220-224 | a model made from a source is removed from the source's created models |
| Model.Model.AcquireMeshData | src/model.cpp:236-256 | without a source nothing changes; otherwise vertices, indices and materials equal the source's and each mesh keeps only its index range and material, in order |
| Model.Model.AssembleIndexMap | src/model.cpp:258-269 | the index map is the one the meshes define, whatever it held before |
| Model.CopiedInside | src/model.cpp:247-255 | index ranges copied from a source's back-to-back meshes lie inside the copied index array |
| Pipeline.AttributeFormatInjective | src/pipeline.cpp:176-204 | no two vertex attribute types are given the same Vulkan format |
| Pipeline.AttributeFormat | src/pipeline.cpp:176-204 | BOOLEAN, and only BOOLEAN, gets R8_UINT; the four integer types, and only they, get the signed-integer formats |
| Pipeline.AttributeSize | src/pipeline.cpp:176-204 | every attribute type occupies a positive number of bytes: four per float or integer component, one for a boolean |
| Pipeline.AttributeDescriptions | src/pipeline.cpp:162-208 | one description per layout attribute, attribute i at location i of binding 0, with the attribute's offset and its type's format |
| Pipeline.PolygonModeValue | src/pipeline.cpp:237-245 | fill mode maps to `VK_POLYGON_MODE_FILL` and wireframe to `VK_POLYGON_MODE_LINE`, and only those |
| Pipeline.FrontFaceValue | src/pipeline.cpp:249-257 | clockwise and counter-clockwise map to their own front-face values, and only those |
| Pipeline.DepthStateFor | src/pipeline.cpp:265-272 | with depth testing, depth test and write are on and compare with LESS; without it they are off and the compare op stays zero |
| Pipeline.DescriptorType | src/pipeline.cpp:108-119 | a uniform buffer, storage buffer or sampled image gets its descriptor type; any other resource kind is an error |
| Pipeline.LayoutBindings | src/pipeline.cpp:99-123 | succeeds exactly when every resource kind is bindable; the sets are exactly the non-empty resource sets, and each set's bindings are exactly its resources with their descriptor type and count |
| Pipeline.SetCount | src/pipeline.cpp:124-128 | a swapchain target gets one descriptor set per swapchain image, any other target one |
| Pipeline.BindSetIndex | src/pipeline.cpp:62-67 | `bind` uses the swapchain's current image for a swapchain target and set 0 otherwise |
| Pipeline.BindIndexWithinSets | src/pipeline.cpp:62-73 | the set index `bind` uses is always one of the sets `create_descriptor_sets` allocated for the same target |
| Pipeline.AllocatedSets | src/pipeline.cpp:131-152 | every set number of the bindings gets a descriptor set with exactly those bindings and `count` sets, and no other set number is added |
| Pipeline.StaleSetSurvivesReload | src/pipeline.cpp:348-355 | as written, a reload with a shader that no longer declares set 1 keeps set 1's freed descriptor set in the map |
| Pipeline.Pipeline.constructor | src/pipeline.cpp:26-38 | a new pipeline keeps its spec and shader, has no material, no bound objects, no descriptor sets and no pipeline yet, takes one renderer reference and joins its shader's dependents |
| Pipeline.Pipeline.Dispose | src/pipeline.cpp:39-61 | the destructor takes the pipeline out of its shader's dependents, destroys the pipeline and then the descriptor sets, leaving no sets, and gives its renderer reference back, with teardown exactly when that was the last one after a shutdown request |
| Pipeline.Pipeline.CreateDescriptorSets | src/pipeline.cpp:84-153 | one push-constant range per block, at offset 0 and of the block type's size; no resources leaves the sets alone; otherwise success exactly when every resource is bindable, adding the allocated sets; a failure leaves the sets as they were |
| Pipeline.Pipeline.CreatePushConstantRanges | src/pipeline.cpp:85-95 | the ranges are rebuilt: one per push-constant block, at offset 0 and of its type's size |
| Pipeline.Pipeline.AllocateSets | src/pipeline.cpp:131-152 | the descriptor-set map gains exactly the allocated sets of the bindings |
| Pipeline.Pipeline.DestroyDescriptorSets | src/pipeline.cpp:348-355 | corrected: the freed sets are also removed, leaving the map empty |
| Pipeline.Pipeline.CreatePipeline | src/pipeline.cpp:155-342 | the pipeline state has the spec's stride, one attribute description per layout attribute, the spec's polygon mode, front face and depth state, and one set layout per descriptor set and one push-constant range per range |
| Pipeline.Pipeline.DestroyPipeline | src/pipeline.cpp:343-347 | only records the destruction; sets and ranges are kept |
| Pipeline.Pipeline.Reload | src/pipeline.cpp:75-83 | without set rebuilding: destroy then recreate the pipeline, sets unchanged; with it: success exactly when the shader's resources are bindable (or there are none), in which case the sets are exactly those the new shader declares, and the order is destroy pipeline, destroy sets, create sets, rebind, create pipeline |
| Pipeline.Pipeline.RebuildSets | src/pipeline.cpp:77-81 | destroys the sets, recreates exactly those the shader declares and rebinds the objects; a failure stops after the destruction |
| Pipeline.Pipeline.Bind | src/pipeline.cpp:62-74 | the set index bound is the current swapchain image for a swapchain target and 0 otherwise |
| Renderer.MakeVersion | src/renderer.cpp:522-529 | the packed version that `expand_vulkan_version` reads: its top ten bits are the major version |
| Renderer.ExpandVulkanVersion | src/renderer.cpp:522-529 | the three fields fit in 10, 10 and 12 bits and packing them again gives back the version |
| Renderer.ExpandMakeVersion | src/renderer.cpp:522-529 | unpacking a packed version gives back the major, minor and patch it was packed from |
| Renderer.FindQueueFamilies | src/renderer.cpp:530-551 | the indices are complete exactly when some family has the graphics bit and some family can present; each index found names a family with that capability, and each capability present somewhere is found |
| Renderer.RendererData.constructor | src/renderer.cpp:23-41 | the renderer starts with no layers, extensions or device, frame 0, no references and no shutdown request |
| Renderer.RendererData.AddLayer | src/renderer.cpp:66-91 | accepted exactly when the layer is already registered or available, refused otherwise with "attempted to add unsupported layer!"; an accepted layer is registered and nothing else changes |
| Renderer.RendererData.AddInstanceExtension | src/renderer.cpp:92-111 | accepted exactly when the extension is already registered or available, refused otherwise with "the requested instance extension is not available!"; an accepted extension is registered and nothing else changes |
| Renderer.RendererData.AddDeviceExtension | src/renderer.cpp:112-115 | the device extension is registered unconditionally and nothing else changes |
| Renderer.Contains | src/renderer.cpp:71-76 | the availability search finds a name exactly when it is in the list |
| Renderer.RendererData.CheckDeviceExtensionSupport | src/renderer.cpp:199-209 | supported exactly when every registered device extension is among the device's extensions |
| Renderer.RendererData.IsDeviceSuitable | src/renderer.cpp:210-232 | suitable exactly when some family has graphics, some family presents, every registered extension is available and there is at least one surface format and one present mode |
| Renderer.RendererData.PickPhysicalDevice | src/renderer.cpp:233-251 | no device is the "no GPUs are installed" error; otherwise success exactly when some device is suitable, the device chosen being the first suitable one, and failure is "no suitable GPU was found!"; failure leaves the choice unchanged |
| Renderer.RendererData.NewFrame | src/renderer.cpp:424-426 | the frame index advances by one modulo the number of frames in flight and stays below it |
| Renderer.RendererData.Shutdown | src/renderer.cpp:415-423 | the references held by the camera buffer and white texture are given back first, each able to run teardown when it is the last after an earlier request; then the request is recorded and teardown runs once more exactly when no reference is left; a first request keeps the renderer valid |
| Renderer.RendererData.AddRef | src/renderer.cpp:427-429 | one more reference is held; nothing else changes |
| Renderer.RendererData.RemoveRef | src/renderer.cpp:430-435 | one reference fewer; teardown runs exactly when the last reference is dropped after a shutdown request; teardown never runs twice |
| Renderer.ChooseMainCamera | src/renderer.cpp:496-508 | no camera gives none; otherwise the first camera flagged primary, or the first camera when none is primary |
| RendererInfo.VendorName | src/menus/renderer_info.cpp:42-49 | "unknown" exactly for vendor ids other than AMD, NVIDIA, Intel and ARM; NVIDIA's id shows "NVIDIA" |
| RendererInfo.VendorNamesDistinct | src/menus/renderer_info.cpp:42-49 | two different known vendor ids are never shown under the same name |
| RendererInfo.DeviceTypeName | src/menus/renderer_info.cpp:51-58 | "unknown/other" exactly for device types other than CPU and the three GPU kinds; each GPU kind's name ends in "GPU" |
| RendererInfo.DeviceTypeNamesDistinct | src/menus/renderer_info.cpp:51-58 | two different known device types are never shown under the same name |
| RendererInfo.Describe | src/menus/renderer_info.cpp:32-62 | the device's name, its API version split into fields that pack back to it, and the vendor and type names |
| RendererInfo.ReloadShaders | src/menus/renderer_info.cpp:25-31 | every shader of the library is reloaded exactly once, each under its own name, in an order left open |
| Scene.AddComponent | src/scene.h:116-125 | succeeds exactly when the entity has no component of that kind, adding exactly that entry; otherwise the "already has" error |
| Scene.GetComponent | src/scene.h:126-132 | succeeds exactly when the entity has a component of that kind; otherwise the "does not have" error |
| Scene.RemoveComponent | src/scene.h:136-143 | succeeds exactly when the entity has a component of that kind, removing exactly that entry; otherwise the "does not have" error |
| Scene.GetAfterAdd | src/scene.h:116-132 | after an add, getting that kind returns the added component and every other entry reads as before |
| Scene.GetAfterRemove | src/scene.h:126-143 | after a remove, the entity has no component of that kind and every other entry reads as before |
| Scene.RemoveUndoesAdd | src/scene.h:116-143 | removing a component just added gives back the original registry |
| Scene.AddUndoesRemove | src/scene.h:116-143 | adding back a component just removed gives back the original registry |
| Scene.ViewMembers | src/scene.h:96-103 | the view holds exactly the live entities that have every requested kind |
| Scene.WithTagMembers | src/scene.cpp:42-52 | `find_tag` returns exactly the live entities whose tag is the one asked for |
| Scene.WithTagSubset | src/scene.cpp:45-50 | the tag filter keeps exactly the listed entities with that tag |
| Scene.GroupStep | src/scene.cpp:23-26 | appending an entity lit by a light extends that light's group by the entity and leaves every other group unchanged |
| Scene.LightGroupMembers | src/scene.cpp:23-26 | a light's group holds exactly the listed entities that it lights |
| Scene.LightGroupsDisjoint | src/scene.cpp:22-29 | the groups of two different lights share no entity |
| Scene.ViewHasLights | src/scene.cpp:23-24 | every entity of the transform-and-light view has a light component |
| Scene.Scene.constructor | src/scene.h:84-115 | a new scene has no entities, no components and no entity handles |
| Scene.Scene.NewId | src/scene.cpp:32 | the registry hands out an id it never handed out before and records it as live |
| Scene.Scene.CreateBare | src/scene.cpp:31-36 | a fresh handle on a new id, registered in the scene's entity set, whose only component is a transform |
| Scene.Scene.Create | src/scene.cpp:37-41 | as the bare create, plus a tag component holding the given tag |
| Scene.Scene.FindTag | src/scene.cpp:42-52 | the tagged entities of the tag view whose tag matches, in view order (creation order, the model's assumption) |
| Scene.Scene.GroupLights | src/scene.cpp:22-26 | a light is a key exactly when it lights some entity of the view, and its list is those entities in view order (creation order, the model's assumption) |
| Scene.Group | src/scene.cpp:23-26 | the grouping loop: keys are exactly the lights of the listed entities, each with its entities in order |
| Scene.Scene.Update | src/scene.cpp:21-30 | one `update_buffers` call per light that lights an entity, never two for the same light, each with exactly that light's entities in view order |
| Scene.Dispatch | src/scene.cpp:27-29 | one call per key of the grouping, no key twice, each with its own list |
| Scene.Entity.Null | src/scene.h:23-26 | the default handle is the null entity of no scene |
| Scene.Entity.IsSet | src/scene.h:66 | `operator bool`: true exactly when the handle has a scene and a non-null id |
| Scene.Entity.Same | src/scene.h:68-70 | `operator==`: every handle equals itself, and equal handles are set or null together |
| Scene.Entity.constructor | src/scene.h:27-33 | a handle on the id, added to its scene's entity set; the registry is untouched |
| Scene.Entity.Copy | src/scene.h:39-45 | a handle on the same entity and scene, added to that scene's entity set |
| Scene.Entity.Reset | src/scene.h:55-61 | the handle leaves its scene's entity set and becomes null |
| Scene.Entity.Dispose | src/scene.h:34-38 | the handle leaves its scene's entity set |
| Scene.Entity.AssignAsWritten | src/scene.h:46-53 | as written: the handle takes the other's id and scene and joins that scene's entity set, and a previous, different scene's set is left unchanged, still holding it |
| Scene.Entity.Assign | src/scene.h:46-53 | corrected: the handle takes the other's id and scene and joins that scene's entity set; when the scene changes, the previous scene's set loses exactly this handle |
| Scene.Entity.Get | src/scene.h:126-135 | the component of that kind exactly when the entity has one, and it is of that kind |
| Scene.Entity.Has | src/scene.h:133-135 | the entity has a component of the kind exactly when getting it succeeds |
| Scene.Entity.Add | src/scene.h:116-125 | the registry gains the component exactly when the entity had none of its kind; otherwise the error and no change |
| Scene.Entity.Remove | src/scene.h:136-143 | the registry loses the component exactly when the entity had one of that kind; otherwise the error and no change |
| Shader.StageFlags | src/shader.cpp:25-38 | the stage's `VkShaderStageFlagBits` value (vertex 0x1, fragment 0x10, geometry 0x8, compute 0x20), always a single flag bit |
| Shader.StageFlagsDistinctBits | src/shader.cpp:25-38 | each stage's flag is a single bit, and different stages' flags share no bit |
| Shader.DetermineLanguage | src/shader.cpp:39-49 | ".glsl" gives GLSL and ".hlsl" gives HLSL; every other extension is an error |
| Shader.StageNamed | src/shader.cpp:94-100 | a stage is found exactly for "vertex", "fragment", "pixel", "geometry" and "compute" |
| Shader.StageNamesRoundTrip | src/shader.cpp:94-100 | every stage is found under its own name, and "pixel" names the fragment stage |
| Shader.Lines | src/shader.cpp:125-126 | the lines `getline` reads contain no newline |
| Shader.LinesRejoin | src/shader.cpp:125-126 | the lines lose nothing: each followed by a newline, they give back the file text, with a newline added at the end if it had none |
| Shader.SplitLinesMeaning | src/shader.cpp:120-142 | the stage loop fails exactly when some "#stage " line names an unknown stage; otherwise a stage receives text exactly when some ordinary line falls under it, and its text is those lines, each followed by a newline, in file order, where lines before any directive go to compute |
| Shader.DirectiveStep | src/shader.cpp:127-132 | a directive naming a known stage switches to it and copies nothing |
| Shader.OrdinaryStep | src/shader.cpp:133-140 | an ordinary line and a newline are appended to the text of the stage that governs it, and to no other |
| Shader.CollectExtend | src/shader.cpp:133-140 | one more line adds itself and a newline to a stage's text exactly when it is ordinary and governed by that stage |
| Shader.FeedsExtend | src/shader.cpp:133-140 | a stage receives text after one more line exactly when it did before or that line is ordinary and governed by it |
| Shader.CollectAbsent | src/shader.cpp:120-142 | a stage that no line is written to collects no text |
| Shader.DirectivesValidExtend | src/shader.cpp:127-131 | the directives stay valid after one more line exactly when that line is not a directive naming an unknown stage |
| Shader.PrefixFails | src/shader.cpp:129-131 | once the lines read so far fail to split, the whole file fails |
| Shader.SplitStages | src/shader.cpp:120-142 | over the file's lines, fails exactly when a directive names an unknown stage; on success the stages and their texts are the ones `SplitLinesMeaning` describes |
| Shader.StepOffset | src/shader.cpp:331-352 | a field step, when it succeeds, leads to a type of the table |
| Shader.FindOffset | src/shader.cpp:319-359 | `find_offset` of a path text; its meaning is stated by `FindOffsetOfPath` (the rendered path's offset and errors) and by `FindOffsetField`, `FindOffsetIndexed`, `FindOffsetEntry`, `FindOffsetUnfold` and `FindOffsetTrailingDot` |
| Shader.FindOffsetOfPath | src/shader.cpp:319-359 | `find_offset` on the text of any well-formed field path gives that path's offset: each step adds the field offset plus index times stride, and looks the next step up in the field's type; its errors are the path's errors |
| Shader.Then | src/shader.cpp:354-358 | an outer offset is added to a successful inner lookup, and an inner error passes through |
| Shader.FindOffsetField | src/shader.cpp:340-353 | a plain name gives its field's offset, or the "not the name of a field" error when there is none |
| Shader.FindOffsetIndexed | src/shader.cpp:331-353 | "name[i]" adds i times the array stride of the field's type to the field's offset, and is the non-array error when that stride is 0 |
| Shader.FindOffsetEntry | src/shader.cpp:319-359 | "field[i].name" is the array field's offset plus i times its stride plus the offset of `name` in the element type, or an error when the element type has no such field |
| Shader.FindOffsetUnfold | src/shader.cpp:320-330 | the path is split at its first '.' into the head and the rest |
| Shader.FindOffsetTrailingDot | src/shader.cpp:324-326 | a path ending in '.' is the "invalid field name" error |
| Shader.StepText | src/shader.cpp:332-339 | a rendered step has no '.', and its bracket part parses back into the field name and index |
| Shader.ParseIndexed | src/shader.cpp:332-339 | "name[text]" parses into the name and `atoi(text)` when the text is non-empty and holds no bracket |
| Shader.ParseEmptyIndex | src/shader.cpp:334-336 | an empty index "name[]" is the "invalid index operator call" error |
| Shader.ParseTextAfterBracket | src/shader.cpp:334-336 | text after the closing bracket is the "invalid index operator call" error |
| Shader.ParseUnclosed | src/shader.cpp:334-336 | a '[' with no ']' is the "invalid index operator call" error |
| Shader.ParseMinusOne | src/shader.cpp:331-350 | the index "-1" reads as no index, so "name[-1]" means the same as "name" |
| Shader.ParsePlain | src/shader.cpp:331-333 | a name without '[' is not indexed |
| Shader.FindResource | src/shader.cpp:360-371 | found exactly when some resource has the name; the set and binding returned are the first such, in ascending set then binding order; otherwise the caller's set and binding are left as they were |
| Shader.ShaderObject.constructor | src/shader.cpp:51-56 | a shader keeps its path and its reflection data, has no dependent pipelines yet and takes one renderer reference |
| Shader.ShaderObject.Dispose | src/shader.cpp:57-60 | the destructor gives its renderer reference back; teardown runs exactly when that was the last one after a shutdown request |
| Shader.ShaderLibrary.constructor | src/shader.cpp:372 | the library starts empty |
| Shader.ShaderLibrary.Add | src/shader.cpp:373-382 | added exactly when the name is free and the shader is not null; a refusal changes nothing and never overwrites |
| Shader.ShaderLibrary.Remove | src/shader.cpp:383-389 | removed exactly when the name was registered; afterwards it is not |
| Shader.ShaderLibrary.Get | src/shader.cpp:390-396 | the shader under the name, or null when there is none |
| Shader.ShaderLibrary.Clear | src/shader.cpp:397-399 | the library is empty |
| Swapchain.ChooseFormat | src/swapchain.cpp:51-60 | the format chosen is `FormatChoice`: one the surface offers, the sRGB RGBA one when offered, otherwise the first |
| Swapchain.ChoosePresentMode | src/swapchain.cpp:61-68 | the mode is `PresentModeChoice`: mailbox exactly when the surface offers it, FIFO otherwise |
| Swapchain.Clamp | src/swapchain.cpp:73-74 | with consistent bounds the result lies within them, and a value already within them is kept |
| Swapchain.ChooseExtentAsWritten | src/swapchain.cpp:69-78 | as written: the surface's current extent unless its width is the UINT32_MAX marker, else the window size clamped with the minimum width bounding the height |
| Swapchain.ChooseExtentAsWrittenBelowMinimum | src/swapchain.cpp:74 | as written, a 50-pixel-high window on a surface whose minimum height is 100 gets a 50-high extent, below the minimum |
| Swapchain.ChooseExtent | src/swapchain.cpp:69-78 | corrected: the surface's current extent when it gives one, otherwise each dimension clamped to its own limits |
| Swapchain.ChooseExtentWithinLimits | src/swapchain.cpp:69-78 | when the swapchain decides the extent, the chosen extent lies within the surface limits, and a window size already within them is kept |
| Swapchain.ImageCount | src/swapchain.cpp:87-90 | at least one image; never above a non-zero maximum; one more than the minimum when the maximum allows it, and never below the minimum |
| Swapchain.SharingMode | src/swapchain.cpp:101-108 | concurrent sharing listing the graphics then the present family exactly when the two differ; exclusive with no list otherwise |
| Swapchain.DestroyEvents | src/swapchain.cpp:42-44 | one `destroy_pipeline` per dependent, in order |
| Swapchain.CreateEvents | src/swapchain.cpp:47-49 | one `create_pipeline` per dependent, in order |
| Swapchain.Swapchain.constructor | src/swapchain.cpp:24-30 | a renderer reference is taken and the swapchain is built for the window size, with the corrected `ChooseExtent` and the `FormatChoice` image format, holding the fetched images and no dependents |
| Swapchain.Swapchain.Create | src/swapchain.cpp:79-119 | the creation info uses the image count, the extent of the corrected `ChooseExtent`, the sharing mode, the `FormatChoice` format and colour space and the `PresentModeChoice` mode; the fetched images are appended |
| Swapchain.Swapchain.Destroy | src/swapchain.cpp:196-205 | the image list is emptied and the swapchain destroyed; dependents are kept |
| Swapchain.Swapchain.Reload | src/swapchain.cpp:35-50 | every dependent pipeline is destroyed, then the swapchain is destroyed and created again, then every dependent is created again; the new images, extent (by the corrected `ChooseExtent`) and `FormatChoice` image format are those of the new creation |
| Swapchain.Swapchain.DestroyDependents | src/swapchain.cpp:42-44 | each dependent's pipeline is destroyed, in order, and nothing else changes |
| Swapchain.Swapchain.CreateDependents | src/swapchain.cpp:47-49 | each dependent's pipeline is created again, in order, and nothing else changes |
| Swapchain.Swapchain.Dispose | src/swapchain.cpp:31-34 | the swapchain is destroyed and its renderer reference released, running teardown when it was the last one after a shutdown request |
| Swapchain.ReloadOrder | src/swapchain.cpp:35-50 | in a reload, dependent i is destroyed before the swapchain is destroyed, and dependent j is created only after the new swapchain exists |
| Texture.BindingName | src/texture.cpp:63-64 | the name errors give a resource starts with "binding " and is followed by the set and binding numbers |
| Texture.BindCheck | src/texture.cpp:59-77 | the bind succeeds exactly when the resource at (set, binding) is a sampled image, the slot lies inside its array and the pipeline has the set; a missing resource gives the "is not a sampled image" error |
| Texture.Unbound | src/texture.cpp:39-48 | a pipeline's texture table without this texture: no entry names it, every entry naming another texture is kept, and nothing is added |
| Texture.UnboundAfterBind | src/texture.cpp:101-107 | binding a texture at a slot and then destroying it leaves the table without that texture and without the slot |
| Texture.UnboundUnmentioned | src/texture.cpp:39-48 | destroying a texture a pipeline never mentions leaves its table unchanged |
| Texture.Texture.Bind | src/texture.cpp:59-109 | succeeds exactly when the checks pass, with their message otherwise; on success one write per allocated copy of the set, the pipeline joins the bound pipelines and the slot names this texture; nothing else of the pipeline changes, and a failure changes nothing |
| Texture.Texture.BindByName | src/texture.cpp:110-119 | a name no resource has is the "resource was not found" error with nothing changed; otherwise the first resource of that name in set then binding order is bound, succeeding exactly when `bind`'s checks pass there and failing with their message, and on success the pipeline joins the bound pipelines |
| Texture.Texture.GetImGuiId | src/texture.cpp:120-127 | the first call registers one ImGui dependent and stores the backend's handle; later calls return the stored handle without registering again |
| Texture.Texture.Dispose | src/texture.cpp:38-58 | every bound pipeline loses exactly the entries that name this texture and keeps its sets, buffers and material; an ImGui handle gives back its dependent, and the renderer reference is released |
| Texture.NewTexture | src/texture.cpp:24-37 | a renderer reference is taken; when asked, the image is moved to the shader-read-only layout unless it is already there; success exactly when the sampler is created and any transition is supported, giving a texture bound nowhere without an ImGui handle |
| Viewport.ViewportSpec | src/menus/viewport.cpp:32-42 | the framebuffer spec has the swapchain's size and requests exactly a colour attachment in R8G8B8A8_UNORM and a depth-stencil one in D32_SFLOAT, with nothing provided |
| Viewport.TargetSize | src/menus/viewport.cpp:66-75 | both sides of the target size are positive: a non-zero side of the region is kept, a zero side becomes 100 |
| Viewport.InstanceSlot.constructor | src/menus/viewport.cpp:21 | no viewport exists at start |
| Viewport.InstanceSlot.GetInstance | src/menus/viewport.cpp:22-24 | the viewport that holds the slot, if any |
| Viewport.Viewport.VerifySize | src/menus/viewport.cpp:65-87 | the framebuffer ends at the target size of the region; at that size already, nothing changes; otherwise it is resized with the same attachment kinds, the old texture is kept as the previous one, and a new texture shows the new colour attachment, which succeeds exactly when its sampler is created; as the framebuffer ends at the target size, a second call for the same region changes nothing |
| Viewport.NewViewportAsWritten | src/menus/viewport.cpp:26-48 | as written: a second viewport is refused; otherwise the slot is claimed even when building the framebuffer fails, as it does for a zero swapchain size |
| Viewport.NewViewport | src/menus/viewport.cpp:26-48 | corrected: a second viewport is refused; otherwise the slot ends claimed exactly when construction succeeds, which happens exactly when the swapchain size is non-zero and the sampler is created |
| Viewport.Build | src/menus/viewport.cpp:32-47 | a zero size is the framebuffer's size error; otherwise success exactly when the sampler is created, giving a fresh framebuffer at that size with exactly the two requested attachments in their formats and a texture showing its colour attachment |
| Viewport.Dispose | src/menus/viewport.cpp:50-52 | the slot is free again |
| Window.WindowData.constructor | src/window.cpp:22-26 | the window system starts uninitialised, without a shutdown request and with no windows |
| Window.WindowData.Init | src/window.cpp:28-33 | succeeds exactly when the windowing library initialises, with the "could not initialize glfw!" error otherwise; success marks the system initialised |
| Window.WindowData.Shutdown | src/window.cpp:39-44 | the shutdown request is recorded and the library is terminated now exactly when no window is alive |
| Window.CreationError | src/window.cpp:62-66 | the message is "glfw error ", the error code in decimal, ": " and the library's description |
| Window.NewWindow | src/window.cpp:54-70 | refused before `init` and after `shutdown` with their own messages; otherwise success exactly when the library creates the window, which is then entered in the window map under its handle; a library failure gives the creation error |
| Window.Window.Dispose | src/window.cpp:72-78 | the window leaves the map, and the last window gone after a shutdown request terminates the library |
| Window.Window.ResizeCallback | src/window.cpp:84-89 | every swapchain of the window is flagged for a resize and nothing else of it changes |

## Left out

- Vulkan, VMA, GLFW, ImGui, shaderc, SPIRV-Cross, assimp, stb_image and ktx are foreign. Their answers are parameters and their effects are event sequences. A failure of a foreign call the code does not check is not modelled.
- Floating point (camera matrices, transforms, mouse and cursor positions, the FPS display) is not modelled: it has no bookkeeping to prove.
- ImGui drawing, the application loop and the UI windows other than the viewport and renderer info are not modelled: they are I/O.
- `scene_serializer`, the script components and `scripts/install_vulkan_sdk.py` are not part of this model.
- Concurrency is not modelled: the program is single-threaded.
- Shader stage flags and colour-blend factors are carried as Vulkan values without further meaning.
- Util.CreateMask: `1 << i` is an `int` shift in C++, and setting bit 31 is implementation-defined. The model shifts a 32-bit unsigned value.
- Allocator: `free` and `unmap` are passed to VMA unchanged and are not modelled.
- Buffers.UniformBuffer.SetData: a failure of the allocator's `map` is not modelled.
- Buffers.UniformBuffer.GetData: a failure of the allocator's `map` is not modelled.
- Buffers.UniformBuffer.Zero: a failure of the allocator's `map` is not modelled.
- CommandBuffer.CommandBuffer.Begin: a failure of `vkBeginCommandBuffer` is not modelled.
- CommandBuffer.CommandBuffer.End: a failure of `vkEndCommandBuffer` is not modelled.
- CommandBuffer.CommandBuffer.Submit: a failure to create the fence is not modelled.
- CommandBuffer: a failure of `vkAllocateCommandBuffers` in the constructor is not modelled.
- Framebuffer.New: the two error messages (zero width, zero height) become one null result.
- Framebuffer.Framebuffer.SetAttachment: the framebuffer is always recreated. The case where the C++ is still building the framebuffer is the constructor's own path.
- Framebuffer: the render-pass and framebuffer creation failures are not modelled.
- Framebuffer.Framebuffer.AcquireAttachments: the loop over the requested types is written as recursion over the types still to do (`AcquireFrom`); the order in which the types are visited is left open.
- Framebuffer.Framebuffer.Resize: the images it replaces are not released here. In C++ dropping the last `ref` runs their destructor, which is `Image.Image2D.Dispose`; here the caller disposes of them.
- Image.ImageCube.constructor: the face width and height are not recorded. Only the face layout is modelled.
- Image: the image-view creation failure, `update_dependent_imgui_textures` and the pixel decoding are not modelled. The decoded pixels are an input.
- Image: the 4:3 ratio check of the cube-map cross is not modelled.
- InputManager: mouse buttons and the cursor are not modelled. A key repeated in one update is processed once, because the pressed keys are a set.
- Light: each entity is a `LightEntity`: the bytes of its transform's translation, and the `set` calls of `update_typed_light_data`, which are a parameter (the light's own field values). The "position" and "color" calls that precede them are fixed by `EntityWrites`. Float values are bytes, with no float encoding modelled. The shaders are visited in an unspecified order.
- Light: a light count past `INT32_MAX` is undefined behaviour in C++ and is not modelled beyond the little-endian encoding of the stored count.
- Material: the header-inline `set_data`, `get_data` and `set_name` are not modelled. The globals `get_white_texture` and `get_camera_buffer` become parameters.
- Material.Material.CreatePipeline: the exact entries of the pipeline's bound-texture table are not stated, only which pipelines point back at the material.
- Material.LibraryName: with several names for one material, the C++ takes the last. The model leaves which one open.
- Material: with two sampled images of the same name, the last one wins.
- Material: a slot index out of range is undefined behaviour in C++. Here it is a `requires`.
- Model: the assimp import is not modelled, and the imported scene is an input. `process_materials` and the vertex-buffer upload are not modelled.
- Pipeline.Pipeline.constructor: the C++ constructor's calls to `create_descriptor_sets` and `create_pipeline` are the methods of the same names. Its registration of reload callbacks with the render target is not modelled, because the render target is a value here.
- Pipeline.Pipeline.Dispose: the erasure of the pipeline from its material's created pipelines, its uniform buffers' and its textures' bound pipelines, and from the render target's callbacks, is not modelled. A pipeline holds ids of those objects, not the objects.
- Pipeline: the `LayoutBindings` loop's Vulkan structures, the pipeline creation failure, and the failures of descriptor-set layout creation and descriptor-set allocation (`pipeline.cpp:136-138` and `150-152`) are not modelled.
- Renderer: instance, device and command-pool creation, and `render`, are not modelled. Of the camera, only which entity is chosen is modelled.
- RendererInfo: `get_names` is not part of this model, and `shader::reload` is an opaque event.
- Scene: the model assumes that a view lists entities in the order they were created and that ids are never recycled. entt promises neither, so the order stated for `find_tag` and for views holds only under this assumption.
- Scene: `add_to_entity_set`, `remove_from_entity_set`, `reset`, `for_each`, `find_main_camera` and `reevaluate_first_track_node` are not in the modelled files.
- Scene: a view returns entity ids. `update` returns the calls it makes. `unordered_map` iteration order is unspecified.
- Scene: `on_component_added` is not modelled.
- Shader.SplitStages: the "invalid shader stage" message lacks the shader path prefix the C++ puts in front.
- Shader: `reload`, compilation and reflection are not modelled. Their results are inputs.
- Shader.StepOffset: an index below -1 gives a negative offset here. In C++ the `int32_t` index times the unsigned stride wraps around in unsigned arithmetic.
- Swapchain.Swapchain.Reload: when the window size is zero, the C++ reads the size once more and then waits once for events (`glfwWaitEvents`). Neither is modelled: the size is a parameter.
- Swapchain: the `int32_t` to `uint32_t` casts of the window size, and the failures of `vkCreateSwapchainKHR`, render-pass and image-view creation, are not modelled. Dependents are a sequence.
- Texture: the image's dependents, the sampler settings and `update_imgui_texture` are not modelled. A missing (set, binding) counts as "not a sampled image"; that the C++ `operator[]` also inserts a default resource there is not modelled.
- Viewport: the float-to-unsigned cast of the region size and the ImGui drawing are not modelled.
- Window.CreationError: the error code is a natural number (GLFW's codes are positive).
- Window: `poll`, `get_time` and `should_close` are not modelled.
- CmakeOptions: only the string is modelled, not its printing.
- Paths: only '/' separators, with no repeated separators and no root names.
- Resources torn down twice are not modelled.

Where a header and its source file disagree, the model follows the `.cpp`:
- `light.h` declares `update_buffers` with an entity list.
- `window.h` lacks `m_swapchains`.
- `material.h:29` declares `create_pipeline` with a render target; `material.cpp` takes only the pipeline spec.
- `renderer.h:26-43` names `compute_family` where the code uses `present_family`.
- `scene.h:91` declares `create` with a default tag "Entity"; `scene.cpp:31-36` defines an undeclared untagged `create()`, which `Scene.Scene.CreateBare` follows. Under the header alone, a call `create()` (as in the inspector) would make an entity tagged "Entity", which is `Scene.Scene.Create` with that tag.
- `model.h` declares a single `model` class loaded from a path; `model.cpp` has a `model_source` that imports the file and a `model` built from its materials and meshes.

## Findings

| source | as written | input that shows it | evidently intended | confidence | as-written member | corrected member |
|---|---|---|---|---|---|---|
| src/swapchain.cpp:72-77 | the height is clamped with `minImageExtent.width` as its lower bound | current extent (UINT32_MAX, UINT32_MAX), minimum (1, 100), maximum (1000, 1000), window 500 x 50: the height stays 50, below the minimum of 100 | each dimension clamped to its own limits | not executed | Swapchain.ChooseExtentAsWrittenBelowMinimum | Swapchain.ChooseExtentWithinLimits |
| src/pipeline.cpp:348-355 | `destroy_descriptor_sets` frees the sets but never erases them from `m_descriptor_sets`; a shader with no resources keeps the old map | sets {0, 1}, then a reload with a shader that declares only set 0: set 1's freed set survives | the map is emptied along with the sets | not executed | Pipeline.StaleSetSurvivesReload | Pipeline.Pipeline.DestroyDescriptorSets |
| src/light.cpp:103-112 | the field test is inverted: a present optional field is skipped, a present required field is reported missing, and a missing field has its offset looked up; nothing is ever written | a light's required "color" field, present in the buffer: the write fails with "field does not exist" | write present fields; skip missing optional fields; fail only on a missing required field | not executed | Light.RequiredFieldAlwaysFailsAsWritten | Light.SetField |
| src/scene.h:46-53 | `operator=` adds the handle to the new scene's entity set without removing it from the old scene's | a handle of scene A assigned from a handle of scene B stays in A's set | the handle leaves A's set and joins B's | not executed | Scene.Entity.AssignAsWritten | Scene.Entity.Assign |
| src/menus/viewport.cpp:26-47 | the single-instance slot is claimed before the framebuffer is built, so a failed construction leaves it claimed | a swapchain extent of zero: construction throws, and no later viewport can be opened | claim the slot only once construction succeeds | not executed | Viewport.NewViewportAsWritten | Viewport.NewViewport |
