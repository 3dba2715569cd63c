# HaishinKit pixel-transform core, modelled in Dafny

This project models three sequential pieces of HaishinKit.kt and proves properties of each.

- **GlThreadPixelTransform** (Kotlin) is a proxy in front of a `GlPixelTransform` delegate. Every property setter, and `createInputSurface`, is encoded as an `android.os.Message` with an integer tag `what`, `arg1`/`arg2` and an `obj`. The message is posted to a lazily created `Handler` running on its own `HandlerThread`. The handler reaches the delegate through a weak reference, decodes each message and assigns the one delegate field its tag names. The delegate's two lifecycle callbacks are relayed to an external listener, with the proxy named as the source.
  - `pixel_transform_message.dfy` (module `PixelTransformMessage`) holds the protocol as values: `Encode`, `Decode`, `Apply`, and `Run`, which processes a queue in FIFO order.
  - `gl_thread_pixel_transform.dfy` (module `GlThread`) holds the class `GlThreadPixelTransform`. Its fields are the delegate record, the weak-reference flag `delegateAlive`, the backing field of `handler`, the looper of every handler created so far, and the listener.
  - Threads become explicit steps: `ProcessNext` delivers the head message of one looper, `Drain` repeats it, and `CollectDelegate` stands for the garbage collector clearing the weak reference.
  - The object invariant `Valid()` says that every looper other than the current handler's has been asked to quit, so at most one worker is running.
  - The property getters (`GetSurface`, `GetExtent`, …) are functions of the delegate's current state. Being functions, they cannot create a handler.
- **ByteBufferUtils.toHexString** (Java) dumps a buffer's backing array. Each byte becomes `0x`, two lower-case hex digits of `b & 0xff`, and a comma.
  - `byte_buffer_utils.dfy` has the loop as `ToHexString`, specified by the function `HexString`, plus a decoder `ParseHexString` that reads the text back.
- **Vulkan::ImageStorage** (C++) tracks an image's current layout, records a layout-transition barrier for every `SetLayout`, and builds the `vk::ImageCreateInfo` the image is created from.
  - `image_storage.dfy` (module `Vulkan`) models these. Formats and layouts are abstract enumerations. A command buffer is the log of barriers recorded into it.
  - The ghost fields `setUpLayout` and `requested` let the invariant state that `layout` is always the last layout requested since `SetUp`. They also let the lemmas about `Transitions` describe the whole sequence of barriers.
- `wrappers.dfy` holds the `Option` and `Result` types.

Three behaviours of the code that the model keeps:

- **Quitting an old handler does not stop its pending messages.** `quitSafely` keeps draining messages already queued, and they still reach the delegate. Only messages sent to a looper after it was asked to quit are refused. That is Android's `MessageQueue` behaviour, and `Enqueue` models it.
- **An unknown tag is fatal only while the delegate is alive.** `handleMessage` checks the weak reference before it branches on the tag (GlThreadPixelTransform.kt:98), so with the delegate gone every message, unknown tags included, is a no-op.
- **A payload of the wrong type is also fatal.** The Kotlin `as` casts throw, and `Decode` reports this as `ClassCast`, separately from `UnhandledWhat`.

## Model

| member | source | states |
|---|---|---|
| PixelTransformMessage.Encode | haishinkit/src/main/java/com/haishinkit/graphics/GlThreadPixelTransform.kt:17-65 | each operation is sent under its own tag in 0..6, and the handler decodes the message back to exactly the same operation and payload (a null surface stays null; an extent's width and height travel in arg1/arg2 and come back as the same Size) |
| PixelTransformMessage.Decode | haishinkit/src/main/java/com/haishinkit/graphics/GlThreadPixelTransform.kt:99-127 | a decoded operation carries the tag it was read from; a tag outside 0..6 fails with UnhandledWhat; under a known tag the message decodes exactly when obj fits the branch's cast (null or a Surface, a boxed Int, the matching enum, anything for the extent), and fails with ClassCast otherwise; a null obj under MSG_SET_SURFACE sets the surface to null; MSG_SET_CURRENT_EXTENT rebuilds Size(arg1, arg2) |
| PixelTransformMessage.DecodeThenEncode | haishinkit/src/main/java/com/haishinkit/graphics/GlThreadPixelTransform.kt:99-125 | decoding and re-encoding any message that decodes gives back the message, apart from the slots the branch ignores (arg1/arg2 where the value comes from obj, obj for the extent), so each payload is read from the slot the branch names |
| PixelTransformMessage.Apply | haishinkit/src/main/java/com/haishinkit/graphics/GlThreadPixelTransform.kt:100-125 | processing one operation changes exactly the property it names, to the carried value; every other property, the handler binding and earlier requests are unchanged; createInputSurface reaches the delegate once with exactly (width, height, format) |
| PixelTransformMessage.Handle | haishinkit/src/main/java/com/haishinkit/graphics/GlThreadPixelTransform.kt:97-128 | with the weak reference cleared, nothing happens to the delegate; otherwise one message succeeds exactly when its tag is known and its obj fits the cast; success never rebinds the handler |
| PixelTransformMessage.Run | haishinkit/src/main/java/com/haishinkit/graphics/GlThreadPixelTransform.kt:93-128 | a queue processed in FIFO order can fault only while the delegate is alive, and never rebinds the handler |
| PixelTransformMessage.LastWriteWins | haishinkit/src/main/java/com/haishinkit/graphics/GlThreadPixelTransform.kt:97-125 | after a sequence of operations is applied in order, each property equals the payload of the last operation that set it, or its old value if none did |
| PixelTransformMessage.ApplyAllRequests | haishinkit/src/main/java/com/haishinkit/graphics/GlThreadPixelTransform.kt:119-122 | the delegate receives one createInputSurface call per request, in order, and the operations never rebind its handler |
| PixelTransformMessage.RunEncoded | haishinkit/src/main/java/com/haishinkit/graphics/GlThreadPixelTransform.kt:97-125 | a queue of messages posted by the setters, drained FIFO against a live delegate, never faults and leaves the delegate as applying the operations in order would |
| PixelTransformMessage.RunDead | haishinkit/src/main/java/com/haishinkit/graphics/GlThreadPixelTransform.kt:97-98 | with the weak reference cleared, any queue, even one holding unknown tags, drains without a fault and leaves the delegate unchanged |
| PixelTransformMessage.RunAppend | haishinkit/src/main/java/com/haishinkit/graphics/GlThreadPixelTransform.kt:97-98 | processing a + b is processing a, then b from the state a left, and a fault in a ends the run there |
| PixelTransformMessage.UnknownTagIsFatal | haishinkit/src/main/java/com/haishinkit/graphics/GlThreadPixelTransform.kt:126-127 | a message with a tag outside 0..6 reaching a live delegate makes the worker throw, whatever was processed before it |
| GlThread.GlThreadPixelTransform.constructor | haishinkit/src/main/java/com/haishinkit/graphics/GlThreadPixelTransform.kt:67 | a new proxy has no handler and no looper; the delegate is live and no listener is set |
| GlThread.GlThreadPixelTransform.GetHandler | haishinkit/src/main/java/com/haishinkit/graphics/GlThreadPixelTransform.kt:68-76 | the first read creates a handler with a new, running looper, binds it to the delegate and returns it; later reads return the same handler and change nothing |
| GlThread.GlThreadPixelTransform.SetHandler | haishinkit/src/main/java/com/haishinkit/graphics/GlThreadPixelTransform.kt:77-80 | the old handler's looper is marked quitting, with its queue kept, before the new value is stored; after assigning null, the next read creates a fresh handler |
| GlThread.GlThreadPixelTransform.Send | haishinkit/src/main/java/com/haishinkit/graphics/GlThreadPixelTransform.kt:18-20 | sendMessage appends to the handler's looper queue, unless that looper is quitting, in which case the message is dropped; nothing else changes |
| GlThread.Enqueue | haishinkit/src/main/java/com/haishinkit/graphics/GlThreadPixelTransform.kt:19 | a looper that has been asked to quit refuses the new message; otherwise the message joins the end of that looper's queue; every other looper is unchanged |
| GlThread.GlThreadPixelTransform.SetSurface | haishinkit/src/main/java/com/haishinkit/graphics/GlThreadPixelTransform.kt:17-21 | obtains the handler (creating it if needed) and appends one MSG_SET_SURFACE message carrying the surface, or null, unless the handler's looper is quitting; the delegate's properties do not change |
| GlThread.GlThreadPixelTransform.SetImageOrientation | haishinkit/src/main/java/com/haishinkit/graphics/GlThreadPixelTransform.kt:25-29 | appends one MSG_SET_IMAGE_ORIENTATION message carrying the orientation, unless the handler's looper is quitting; the delegate's properties do not change |
| GlThread.GlThreadPixelTransform.SetSurfaceRotation | haishinkit/src/main/java/com/haishinkit/graphics/GlThreadPixelTransform.kt:32-36 | appends one MSG_SET_SURFACE_ORIENTATION message carrying the rotation, unless the handler's looper is quitting; the delegate's properties do not change |
| GlThread.GlThreadPixelTransform.SetVideoGravity | haishinkit/src/main/java/com/haishinkit/graphics/GlThreadPixelTransform.kt:39-43 | appends one MSG_SET_VIDEO_GRAVITY message carrying the gravity, unless the handler's looper is quitting; the delegate's properties do not change |
| GlThread.GlThreadPixelTransform.SetExtent | haishinkit/src/main/java/com/haishinkit/graphics/GlThreadPixelTransform.kt:46-57 | appends one MSG_SET_CURRENT_EXTENT message with width in arg1, height in arg2 and a null obj, unless the handler's looper is quitting; the delegate's properties do not change |
| GlThread.GlThreadPixelTransform.SetResampleFilter | haishinkit/src/main/java/com/haishinkit/graphics/GlThreadPixelTransform.kt:60-66 | appends one MSG_SET_RESAMPLE_FILTER message carrying the filter, unless the handler's looper is quitting; the delegate's properties do not change |
| GlThread.GlThreadPixelTransform.CreateInputSurface | haishinkit/src/main/java/com/haishinkit/graphics/GlThreadPixelTransform.kt:87-91 | appends one MSG_CREATE_INPUT_SURFACE message with arg1 = width, arg2 = height, obj = format, unless the handler's looper is quitting; nothing is created at call time |
| GlThread.GlThreadPixelTransform.HandleMessage | haishinkit/src/main/java/com/haishinkit/graphics/GlThreadPixelTransform.kt:97-129 | with the weak reference cleared, returns and changes nothing; otherwise it changes the delegate exactly as decoding and applying the message does, or throws the decoder's fault and leaves the delegate unchanged |
| GlThread.GlThreadPixelTransform.ProcessNext | haishinkit/src/main/java/com/haishinkit/graphics/GlThreadPixelTransform.kt:93-98 | the looper removes its head message and hands it to handleMessage; other loopers, the handler field and the listener are unchanged |
| GlThread.GlThreadPixelTransform.Drain | haishinkit/src/main/java/com/haishinkit/graphics/GlThreadPixelTransform.kt:93-129 | running one looper to empty leaves the delegate as processing its old queue in FIFO order does; on the first fault the worker stops with that fault; a quitting looper that drains without a fault has terminated; other loopers are unchanged |
| GlThread.GlThreadPixelTransform.CollectDelegate | haishinkit/src/main/java/com/haishinkit/graphics/GlThreadPixelTransform.kt:94-95 | the weak reference is cleared; no other state changes |
| GlThread.GlThreadPixelTransform.OnPixelTransformSetUp | haishinkit/src/main/java/com/haishinkit/graphics/GlThreadPixelTransform.kt:132-134 | the set-up notification is forwarded to the listener with the proxy as its source; with no listener nothing happens |
| GlThread.GlThreadPixelTransform.OnPixelTransformInputSurfaceCreated | haishinkit/src/main/java/com/haishinkit/graphics/GlThreadPixelTransform.kt:136-138 | the input-surface notification is forwarded to the listener with the proxy as its source and the surface unchanged; with no listener nothing happens |
| GlThread.LastExtentWins | haishinkit/src/main/java/com/haishinkit/graphics/GlThreadPixelTransform.kt:44-57 | reading a property creates no worker; two extents posted in order and drained leave the second one on the delegate |
| GlThread.CollectedBeforeProcessing | haishinkit/src/main/java/com/haishinkit/graphics/GlThreadPixelTransform.kt:94-98 | a rotation posted and then orphaned by collection is processed without a fault and does not touch the delegate |
| GlThread.InputSurfaceInOrder | haishinkit/src/main/java/com/haishinkit/graphics/GlThreadPixelTransform.kt:119-122 | a createInputSurface queued between two extents reaches the delegate exactly once with its arguments, and the later extent still wins |
| GlThread.GlThreadPixelTransform.GetSurface | haishinkit/src/main/java/com/haishinkit/graphics/GlThreadPixelTransform.kt:16 | reads the delegate's surface as it stands now, the value LastWriteWins describes; no handler is created |
| GlThread.GlThreadPixelTransform.GetImageOrientation | haishinkit/src/main/java/com/haishinkit/graphics/GlThreadPixelTransform.kt:24 | reads the delegate's image orientation as it stands now; no handler is created |
| GlThread.GlThreadPixelTransform.GetSurfaceRotation | haishinkit/src/main/java/com/haishinkit/graphics/GlThreadPixelTransform.kt:31 | reads the delegate's surface rotation as it stands now; no handler is created |
| GlThread.GlThreadPixelTransform.GetVideoGravity | haishinkit/src/main/java/com/haishinkit/graphics/GlThreadPixelTransform.kt:38 | reads the delegate's video gravity as it stands now; no handler is created |
| GlThread.GlThreadPixelTransform.GetExtent | haishinkit/src/main/java/com/haishinkit/graphics/GlThreadPixelTransform.kt:45 | reads the delegate's extent as it stands now; no handler is created |
| GlThread.GlThreadPixelTransform.GetResampleFilter | haishinkit/src/main/java/com/haishinkit/graphics/GlThreadPixelTransform.kt:59 | reads the delegate's resample filter as it stands now; no handler is created |
| ByteBufferUtils.Unsigned | app/src/main/java/com/haishinkit/util/ByteBufferUtils.java:13 | b & 0xff is in 0..255 and congruent to b modulo 256 (masked, not sign-extended) |
| ByteBufferUtils.HexDigit | app/src/main/java/com/haishinkit/util/ByteBufferUtils.java:13 | %x writes a lower-case hex digit that reads back as the same value |
| ByteBufferUtils.Chunk | app/src/main/java/com/haishinkit/util/ByteBufferUtils.java:13 | each byte becomes five characters "0x", two hex digits, "," that decode back to the byte |
| ByteBufferUtils.HexString | app/src/main/java/com/haishinkit/util/ByteBufferUtils.java:10-15 | the dump is exactly five characters per byte |
| ByteBufferUtils.ToHexString | app/src/main/java/com/haishinkit/util/ByteBufferUtils.java:9-16 | the builder loop produces the chunks of every byte of the backing array, in order |
| ByteBufferUtils.HexStringAppend | app/src/main/java/com/haishinkit/util/ByteBufferUtils.java:12-14 | dumping a + b gives the dump of a followed by the dump of b |
| ByteBufferUtils.HexStringChunkAt | app/src/main/java/com/haishinkit/util/ByteBufferUtils.java:12-13 | characters 5i..5i+4 of the dump are the chunk of byte i |
| ByteBufferUtils.HexStringEnds | app/src/main/java/com/haishinkit/util/ByteBufferUtils.java:10-15 | an empty array, and only an empty one, dumps to ""; a non-empty dump ends with "," |
| ByteBufferUtils.NegativeBytesMasked | app/src/main/java/com/haishinkit/util/ByteBufferUtils.java:13 | -1 dumps as "0xff,", -128 as "0x80,", 127 as "0x7f,", 0 as "0x00," |
| ByteBufferUtils.ParseHexStringRoundTrip | app/src/main/java/com/haishinkit/util/ByteBufferUtils.java:12-14 | reading the dump back chunk by chunk recovers the original bytes |
| ByteBufferUtils.HexStringInjective | app/src/main/java/com/haishinkit/util/ByteBufferUtils.java:13 | two byte arrays with the same dump are equal |
| Vulkan.Transitions | haishinkit/src/main/cpp/Vulkan/ImageStorage.cpp:19-32 | request i records a transition from the layout request i - 1 left (the SetUp layout for the first) to the layout requested, one per request |
| Vulkan.TransitionsChain | haishinkit/src/main/cpp/Vulkan/ImageStorage.cpp:19-32 | the first barrier leaves the SetUp layout, each next barrier leaves the layout the previous one entered, and the last enters the final layout |
| Vulkan.TransitionsSnoc | haishinkit/src/main/cpp/Vulkan/ImageStorage.cpp:19-32 | one more SetLayout adds exactly one transition, from the layout the earlier ones left |
| Vulkan.ColorSubresourceRange | haishinkit/src/main/cpp/Vulkan/ImageStorage.cpp:21 | every barrier targets the colour aspect, base mip 0 with count 1, base layer 0 with count 1 |
| Vulkan.ImageStorage.constructor | haishinkit/src/main/cpp/Vulkan/ImageStorage.cpp:6-8 | the state SetUp later overwrites, standing in for the header's field initialisers (see Left out): a new storage holds the given format, extent and layout and no image yet (the handle SetUp later fills), with an empty transition history |
| Vulkan.ImageStorage.SetUp | haishinkit/src/main/cpp/Vulkan/ImageStorage.cpp:6-9 | layout becomes info.initialLayout and the image the device created is kept; format and extent are unchanged |
| Vulkan.ImageStorage.TearDown | haishinkit/src/main/cpp/Vulkan/ImageStorage.cpp:11-12 | changes no state |
| Vulkan.ImageStorage.SetLayout | haishinkit/src/main/cpp/Vulkan/ImageStorage.cpp:14-33 | records exactly one barrier from the previous layout to the new one on this image's colour range, then layout equals the new layout; the transition log grows by that one step |
| Vulkan.ImageStorage.IsMultiPlanar | haishinkit/src/main/cpp/Vulkan/ImageStorage.cpp:35-42 | true exactly for eG8B8R82Plane420Unorm, and only ever for a format Vulkan classes as multi-planar |
| Vulkan.ImageStorage.CreateImageCreateInfo | haishinkit/src/main/cpp/Vulkan/ImageStorage.cpp:44-58 | a 2D, depth-1, 1-mip, 1-layer, 1-sample, exclusive image with the storage's format, extent and current layout; eDisjoint exactly when multi-planar, default flags otherwise; usage is left 0; with a non-empty extent, even in each direction the format subsamples, it meets the VkImageCreateInfo valid-usage rules ValidImageCreateInfo lists |
| Vulkan.IsMultiPlanarIncomplete | haishinkit/src/main/cpp/Vulkan/ImageStorage.cpp:35-42 | the three-plane 4:2:0 format is multi-planar for Vulkan but not for IsMultiPlanar (harmless, since eDisjoint is optional) |

## Left out

- Threads, `HandlerThread.start` and cross-thread delivery are not modelled. Each looper is a sequential FIFO queue, and delivery is the explicit step `ProcessNext`. The race between the unsynchronised getters and the worker is not modelled; getters read the delegate's current state.
- Garbage collection is modelled as `CollectDelegate`, which the environment may call at any moment. In the source, the weak reference clears only once proxy and delegate are both unreachable, so the model allows more interleavings than can occur.
- A throw from `handleMessage` is returned as a `Failure`. The process abort that follows it is not modelled.
- `GlPixelTransform` is not part of this model. The delegate is a record of its six properties, its handler binding and the createInputSurface calls it has received. What it does with those calls, and when it emits its callbacks, is left out; the callbacks are entry points of the proxy that the environment calls.
- The `by lazy` construction of the delegate, and its `listener = this` binding, are folded into the proxy's constructor. The delegate's initial state is a constructor parameter.
- `assetManager` and `fpsControllerClass` are plain properties with no logic, and are not modelled.
- Android's `Message`/`Handler` machinery beyond `what`, `arg1`, `arg2`, `obj`, `obtainMessage` and `sendMessage` is not modelled. Delayed messages are not modelled: every send here is immediate, so `quitSafely` drains the whole queue.
- `ImageOrientation`, `VideoGravity` and `ResampleFilter` are opaque enumerations. Their members are defined in files that are not part of this model.
- ByteBufferUtils: a buffer without an accessible backing array, where `array()` throws, is out of scope. The model takes the backing array itself. `position`/`limit` are ignored, as the code ignores them. `String.format` locale handling is not modelled.
- ImageStorage: the `createImageUnique` and `pipelineBarrier` device calls are left out; the created image is a parameter of `SetUp`, and a recorded barrier is appended to the command buffer's log. The access masks of `Util::CreateImageMemoryBarrier`, the stage masks and the `Kernel` are not modelled.
- The ImageStorage header is not part of this model. The constructor's arguments stand in for the fields' initial values.
- Vulkan.ImageStorage.CreateImageCreateInfo: the info it returns leaves `usage` at 0, which Vulkan forbids, because the code never sets it; the caller must set it before creating the image. `ValidImageCreateInfo` therefore leaves out the non-zero-usage rule.
- Only the fields of `vk::ImageCreateInfo` that the code sets, plus `flags` and `usage`, are kept. Of `vk::Format`, only a handful of values are kept.
- haishinkit/src/main/cpp/Graphics/CommandBuffer.cpp, haishinkit/src/main/cpp/Vulkan/PixelTransform.h and app/src/main/java/com/haishinkit/studio/CameraTabFragment.kt are not modelled. They hold Vulkan resource allocation and render-pass recording, declarations only, and Android UI with networking.
