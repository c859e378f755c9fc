# Device selection and render-graph recording of VulkanSceneGraph, in Dafny

This project models two pieces of the VulkanSceneGraph (vsg) rendering layer and proves properties of them.

- **`PhysicalDevice` (physical_device.dfy)** models `vsg::PhysicalDevice::create`. It picks a GPU for a requested set of queue capabilities (`VkQueueFlags`) and an optional presentation surface.
  - The driver's answers are inputs. An `Instance` holds its devices in enumeration order. Each device is a sequence of `QueueFamily` records (`queueFlags`, `queueCount`, and the surface-support answer). A missing instance is `None`, and a passed surface is `hasSurface`.
  - `Create` is the selection loop. Each device's queue families are scanned by `ScanQueueFamilies`, which is the inner loop of `create`. It keeps the *last* graphics family, the *last* compute family and, when there is a surface, the *last* family that has queues and can present. It also ORs the graphics and compute bits into `matchedQueues`.
  - The first device with `(matchedQueues & queueFlags) == queueFlags`, plus a presenting family when there is a surface, is returned as `Ok(deviceIndex, graphicsFamily, presentFamily, computeFamily)`.
  - Otherwise the result is `Err(message, VkResult)`: `VK_ERROR_INVALID_EXTERNAL_HANDLE` when there is no instance, and `VK_INCOMPLETE` when no device qualifies.
  - Both methods are proved equal to specification functions: `Scan` (with `LastServing` and `MatchedQueues`) for a device, and `Select`/`SelectFrom` for the whole enumeration. The lemmas state what the selection promises.
- **`Viewer` (render_graph.dfy)** models the `vsg::RenderGraph` node as a class with the header's public fields: `framebuffer`, `window`, `renderArea`, `clearValues`, `contents`, `windowResizeHandler`, the mutable `previous_extent` (`previousExtent`) and the group's children.
  - Target resolution (`GetRenderPass`, `GetExtent`, `ActiveFramebuffer`) gives the framebuffer precedence over the window.
  - `Accept` records one frame into a `RecordTraversal`, which stands for the command buffer as a list of events. When the extent differs from `previousExtent`, it invokes the resize handler (if any) through `Resized` and remembers the extent. The handler may leave a new render area and new clear values in the node; what it leaves is the `ResizeUpdate` argument. `Accept` then emits a begin-render-pass with the render area, clear values and subpass contents now in the node, visits the children in order, and ends the render pass.
  - `Accept` is proved to append exactly `FrameEvents(State(), update)` and to leave the node in `AfterFrame(State(), update)`. The lemmas about these functions state the resize and render-pass guarantees.

## Model

| member | source | states |
|---|---|---|
| `PhysicalDevice.LastServing` | src/vsg/vk/PhysicalDevice.cpp:75-106 | the index a scan assigns to a role is -1 or a valid index; that family serves the role (graphics bit, compute bit, or queueCount > 0 with present support); no later family does, so the last match wins |
| `PhysicalDevice.Mask` | src/vsg/vk/PhysicalDevice.cpp:79-89 | a mask built from the two OR steps holds no bit but graphics and compute; it holds the graphics bit iff a graphics family was found, and the compute bit iff a compute family was found |
| `PhysicalDevice.MaskGrows` | src/vsg/vk/PhysicalDevice.cpp:79-89 | ORing the graphics bit and then the compute bit into the mask records exactly the newly found roles |
| `PhysicalDevice.MatchedQueuesMeaning` | src/vsg/vk/PhysicalDevice.cpp:73-89 | the matched mask holds no bit other than graphics and compute; it holds the graphics bit iff some family has graphics, and the compute bit iff some family has compute |
| `PhysicalDevice.Scan` | src/vsg/vk/PhysicalDevice.cpp:69-107 | every family index left by the scan is -1 or a valid index, and without a surface the present family stays -1 |
| `PhysicalDevice.ScanKeepsLastMatch` | src/vsg/vk/PhysicalDevice.cpp:75-107 | the family-by-family scan keeps the last graphics family, the last compute family, the last presenting family when there is a surface (-1 without), and the mask of found graphics/compute roles |
| `PhysicalDevice.ScanQueueFamilies` | src/vsg/vk/PhysicalDevice.cpp:63-107 | the inner loop returns the last graphics family, the last presenting family (-1 without a surface), the last compute family and the matched mask, all as specified by `Scan` |
| `PhysicalDevice.SelectFromFindsFirst` | src/vsg/vk/PhysicalDevice.cpp:60-115 | a success names a qualifying device from position i on, with its scanned family indices, and no device between i and it qualifies; a failure is the VK_INCOMPLETE error and means no device from i on qualifies |
| `PhysicalDevice.Create` | src/vsg/vk/PhysicalDevice.cpp:47-116 | the selection loop returns exactly `Select` of its inputs: the handle error without an instance, else the first qualifying device or VK_INCOMPLETE |
| `PhysicalDevice.UndefinedInstanceIsRejected` | src/vsg/vk/PhysicalDevice.cpp:49-52 | with no instance the result is an error with code VK_ERROR_INVALID_EXTERNAL_HANDLE, whatever the request |
| `PhysicalDevice.SelectReturnsFirstQualifyingDevice` | src/vsg/vk/PhysicalDevice.cpp:60-115 | with an instance, selection succeeds iff some device qualifies; it returns the first qualifying device, with its last graphics, compute and (with a surface) present family; otherwise it fails with VK_INCOMPLETE, including for zero devices |
| `PhysicalDevice.SelectFromIgnoresLaterDevices` | src/vsg/vk/PhysicalDevice.cpp:60-112 | once a device from position i on is selected, appending more devices to the enumeration does not change the selection |
| `PhysicalDevice.LaterDevicesAreNeverExamined` | src/vsg/vk/PhysicalDevice.cpp:109-112 | a successful selection is unchanged by any devices enumerated after the chosen one, so enumeration stops at the first match |
| `PhysicalDevice.OtherQueueBitsAreNeverMatched` | src/vsg/vk/PhysicalDevice.cpp:73-109 | a request with any bit other than graphics or compute (transfer, sparse binding, ...) fails with VK_INCOMPLETE on every instance, with or without a surface |
| `PhysicalDevice.SelectedFamilyIndicesAreInRange` | src/vsg/vk/PhysicalDevice.cpp:75-107 | every family index of a selected device is -1 or below that device's queue-family count |
| `PhysicalDevice.NoSurfaceLeavesPresentFamilyUnassigned` | src/vsg/vk/PhysicalDevice.cpp:98-109 | without a surface the present family is -1, and qualification depends on the matched mask alone |
| `PhysicalDevice.DeviceWithoutFamiliesQualifiesOnlyForEmptyRequest` | src/vsg/vk/PhysicalDevice.cpp:69-109 | a device with no queue families qualifies iff nothing is requested and no surface is given |
| `PhysicalDevice.NoGraphicsFamilyFailsGraphicsRequest` | src/vsg/vk/PhysicalDevice.cpp:79-109 | a device whose families all lack the graphics bit never qualifies for a request that includes graphics |
| `PhysicalDevice.TwoDeviceExample` | src/vsg/vk/PhysicalDevice.cpp:60-112 | with graphics and compute requested and a surface, a compute-only first device is skipped, and a second device with a graphics+compute family 0 and a presenting family 2 is chosen as (1, 0, 2, 0) |
| `Viewer.RenderGraph.constructor` | include/vsg/viewer/RenderGraph.h:38-67 | a new node has no framebuffer, no window, no clear values, no resize handler and no children; its contents are inline, and its previous extent is the sentinel (UINT32_MAX, UINT32_MAX) |
| `Viewer.RenderGraph.GetRenderPass` | include/vsg/viewer/RenderGraph.h:37-42 | requires a framebuffer or a window; the render pass is the framebuffer's whenever a framebuffer is set, even if a window is set too, and the window's otherwise |
| `Viewer.RenderGraph.ActiveFramebuffer` | include/vsg/viewer/RenderGraph.h:37-42 | the framebuffer rendered into is the assigned framebuffer when set, else the window's active framebuffer; either way it was made for the render pass that is begun |
| `Viewer.RenderGraph.GetExtent` | include/vsg/viewer/RenderGraph.h:37-45 | the extent is the framebuffer's when one is set, else the window's |
| `Viewer.RenderGraph.Resized` | include/vsg/viewer/RenderGraph.h:58-63 | with a handler set, records one handler invocation with the current extent and leaves the handler's render area and clear values in the node; with a null handler it records nothing and changes nothing |
| `Viewer.RenderGraph.Accept` | include/vsg/viewer/RenderGraph.h:34-67 | keeps the target; appends exactly the frame's events for the node's state before the call, whose begin-render-pass carries the render area and clear values as they are after the handler ran; leaves `previousExtent` equal to the extent just recorded and the handler's settings in place, and changes nothing else of the node |
| `Viewer.ChildVisits` | include/vsg/viewer/RenderGraph.h:32-35 | the subgraph traversal visits every child once, in child order |
| `Viewer.ResizeHandledIffExtentChanged` | include/vsg/viewer/RenderGraph.h:58-67 | the handler is invoked once in a frame exactly when the extent differs from the previous one and a handler is set, and never otherwise; when invoked it comes first and receives the new extent |
| `Viewer.RenderPassFrameLayout` | include/vsg/viewer/RenderGraph.h:48-63 | after an optional resize, a frame is one begin-render-pass carrying the node's render pass, framebuffer and contents, with the handler's render area and clear values when it ran and the node's own otherwise; then one visit per child in order; then one end |
| `Viewer.UpdateMattersOnlyWhenHandlerRuns` | include/vsg/viewer/RenderGraph.h:58-63 | in a frame where the handler does not run (extent unchanged or no handler), what it would have set changes neither the recorded events nor the node's next state |
| `Viewer.OneRenderPassPerFrame` | include/vsg/viewer/RenderGraph.h:48-56 | every frame, with or without a resize, holds exactly one begin-render-pass and exactly one end-render-pass |
| `Viewer.ConsecutiveFramesResizeAtMostOnce` | include/vsg/viewer/RenderGraph.h:58-67 | the frame after a recording, at the same extent, invokes no handler whatever the handler would do, so two consecutive frames at one extent invoke it at most once |
| `Viewer.FirstFrameIsAResize` | include/vsg/viewer/RenderGraph.h:65-67 | from the sentinel previous extent, any other extent makes the first frame start with exactly one handler invocation |
| `Viewer.ResizeSteadyResize` | include/vsg/viewer/RenderGraph.h:58-67 | over three frames (a new extent, the same extent again, then a grown extent) the handler is invoked exactly twice, first in the first and third frame with that frame's extent, not in the second; the third frame begins its pass with the settings the handler chose |

## Left out

- Driver calls (`vkEnumeratePhysicalDevices`, `vkGetPhysicalDeviceQueueFamilyProperties`, `vkGetPhysicalDeviceSurfaceSupportKHR`) are replaced by their answers. The count-then-fill enumeration is not modelled; the answers arrive as sequences.
- The `PhysicalDevice` constructor, its property query and its ray-tracing properties (src/vsg/vk/PhysicalDevice.cpp:19-41): these are foreign calls. A successful `Result` carries the device's position and the three family indices that the constructor stores.
- The `#else` branch at src/vsg/vk/PhysicalDevice.cpp:90-96 is compiled out. Only the `#if 1` branch is modelled.
- `ScanQueueFamilies` is the inner loop of `create`, lifted into its own method. The loop, its order and its updates are unchanged.
- Family indices are unbounded integers. The conversion of a `uint32_t` index above `INT_MAX` to `int` is not modelled, since a device has only a handful of queue families.
- Error kinds: the code returns `VK_ERROR_INVALID_EXTERNAL_HANDLE` for a missing instance and `VK_INCOMPLETE` when no device fits. The model follows the code, not the generic "invalid argument" and "no suitable device" names.
- Clear-value count checked against the render pass's attachments: no visible code performs this check, so the model does not either.
- The body of RenderGraph.cpp is not part of this model. `Accept` follows the header's doc comments: compare the extent, call the resize handler, begin the render pass, then traverse the subgraph. The closing end-render-pass event is the usual pairing for Vulkan render passes.
- `createRenderGraphForView` and the constructor that takes a window and a view (include/vsg/viewer/RenderGraph.h:30, 73): only declarations are visible, and they depend on window format negotiation.
- `Viewer.RenderGraph.Resized`: requires a target, because it reports the extent it was called for. The source's `resized()` takes no arguments, and its body is not visible. The traversal argument only receives the logged invocation, and the `update` argument is the handler's answer.
- The resize handler's policy (how it rescales viewports, scissors, render area and clear values) belongs to an external collaborator. Its answer for the node's render area and clear values is an input of `Accept` and `Resized` (a `ResizeUpdate`); its own traversal of the subgraph's viewports and scissors is not modelled.
- Swapchain recreation and window framebuffer switching are not modelled. A window's active framebuffer is required (through `HasTarget`) to be made for the window's render pass, as the window creates it.
- `renderArea` has no initialiser in the header. The model's constructor sets a zero rectangle but promises nothing about it.
- Window, Framebuffer and RenderPass are reduced to the fields the node reads. Children are identifiers, and what a child records is not modelled.
- Thread safety of recording, and reference counting of the shared window and framebuffer, are not modelled.
