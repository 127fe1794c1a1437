# KivyCvCamera frame pipeline in Dafny

This project models the frame pipeline under the Kivy widgets of
`kivycvcamera.py`. Four parts make up that pipeline:

- **`Filterable`** is the filter chain. It is an ordered list of frame-to-frame
  functions. Applying it is a left-to-right fold that starts from the input
  frame. `add_filter` appends one function.
- **`KivyCvCamera`** is the camera. Each tick reads the current camera texture
  and reshapes its bytes into a (height, width, 4) frame. On Android it reverses
  the row order. It then runs its chain and stores the result as the latest
  frame. `get_frame` returns that frame, or None before the first textured tick.
- **`ImageReceiver`** is the image sink. It holds one frame that `set_frame`
  overwrites. Each tick filters the held frame without replacing it. It then
  publishes a texture of size (columns, rows) whose buffer is the filtered
  frame's bytes in row-major order.
- **`KivyCvCameraSet`** is the coordinator. Its relay tick copies the camera's
  `get_frame()` into the image, None included. Its configure step
  (`_apply_filter`) hands `img_filters` to the image and `cam_filters` to the
  camera. Its `add_filter` appends to the chain of the component it is given.

Modelling choices:

- Frames are numpy arrays of shape (height, width, channels), written as
  `Frames.Frame`: the shape plus the flat byte data.
- A Kivy texture becomes the record `Frames.Texture(width, height, pixels)`.
  The same record is the camera's input and the image's output.
- Filters are total Dafny functions `Frame -> Frame`.
- In place of Python's `Filterable` mixin, each widget class owns a
  `Filterable` object (`chain`). The coordinator's `AddFilter` takes that
  object.
- Each tick, relay and configure step is a plain method call. The camera's
  current texture is a parameter of its tick. Kivy's `platform` is one value
  for the whole process, so it is a constant of the camera, set when the
  camera is created.

Modules:

- `options.dfy`: `Options`, the None/Some slot type.
- `frames.dfy`: `Frames`, with frames, textures, reshape and `flipud`.
- `filterable.dfy`: `Filtering`, with the chain's meaning `ApplyChain`, its
  lemmas and the `Filterable` class.
- `camera.dfy`, `receiver.dfy`, `camera_set.dfy`: one module per widget class.
- `scenarios.dfy`: whole-pipeline runs built from the widgets' own methods.

A relay tick calls `set_frame(get_frame())` unconditionally
(kivycvcamera.py:132-136). While the camera has no frame, this clears the
image's held frame, and `KivyCvCameraSet.Relay` models that.

## Model

| member | source | states |
|---|---|---|
| Frames.FromBuffer | kivycvcamera.py:53-56 | reshaping a buffer of height·width·4 bytes gives a well-shaped RGBA frame of that height and width |
| Frames.ReverseRows | kivycvcamera.py:57-58 | reversing the rows of a row-major buffer keeps its length |
| Frames.ReverseRowsAt | kivycvcamera.py:57-58 | byte j of output row i is byte j of input row rows-1-i |
| Frames.ReverseRowsTwice | kivycvcamera.py:57-58 | reversing the rows twice gives the original bytes |
| Frames.FlipUD | kivycvcamera.py:57-58 | `np.flipud` keeps the frame's shape and well-shapedness |
| Frames.FlipUDAt | kivycvcamera.py:57-58 | element [i, j, k] of the flipped frame is element [height-1-i, j, k] of the original |
| Frames.FlipUDTwice | kivycvcamera.py:57-58 | flipping a frame twice gives the same frame |
| Filtering.ApplyChain | kivycvcamera.py:33-37 | the meaning of a chain: the left-to-right fold that feeds the input frame to the first filter and each output to the next |
| Filtering.ApplyChainEmpty | kivycvcamera.py:33-37 | an empty chain returns its input frame unchanged |
| Filtering.ApplyChainAppend | kivycvcamera.py:33-37 | applying fs + gs is applying gs to the result of fs |
| Filtering.ApplyChainSnoc | kivycvcamera.py:34-37 | applying fs + [f] is f applied to the result of fs, so filters run in list order |
| Filtering.Filterable.constructor | kivycvcamera.py:28-31 | a chain starts with the list it is given |
| Filtering.Filterable.ApplyFilter | kivycvcamera.py:33-37 | the loop over `filters` returns the left-to-right fold of the chain over the input frame |
| Filtering.Filterable.AddFilter | kivycvcamera.py:39-40 | the chain grows by exactly one, the new filter is last and earlier filters keep their order |
| Camera.Oriented | kivycvcamera.py:53-58 | the frame built from a texture before filtering has the texture's height and width and 4 channels |
| Camera.OrientedAt | kivycvcamera.py:53-58 | on Android, row i of that frame is buffer row height-1-i; elsewhere, rows are unchanged |
| Camera.OrientedElsewhere | kivycvcamera.py:56-58 | off Android the frame holds the texture's bytes exactly |
| Camera.KivyCvCamera.constructor | kivycvcamera.py:45-49 | a new camera has no frame and an empty chain, and runs on the platform it is given |
| Camera.KivyCvCamera.UpdateFrame | kivycvcamera.py:51-59 | with no texture the latest frame is unchanged; otherwise it is the chain applied to the reshaped frame, flipped on Android |
| Camera.KivyCvCamera.GetFrame | kivycvcamera.py:66-67 | returns the latest-frame slot as it is, None before the first textured tick |
| Receiver.CreateTextureAt | kivycvcamera.py:82-86 | texture byte (i·width + j)·4 + k is frame element [i, j, k] (row-major RGBA) |
| Receiver.FrameRoundTrip | kivycvcamera.py:82-86 | an RGBA frame turned into a texture and reshaped back is the same frame |
| Receiver.TextureRoundTrip | kivycvcamera.py:82-86 | a texture reshaped into a frame and turned back into a texture is the same texture |
| Receiver.ImageReceiver.constructor | kivycvcamera.py:72-80 | a new receiver holds no frame, shows no texture and runs the filters it is given |
| Receiver.ImageReceiver.CreateTexture | kivycvcamera.py:82-86 | the texture is sized (columns, rows); a well-shaped RGBA frame gives a buffer of the matching length |
| Receiver.ImageReceiver.UpdateFrame | kivycvcamera.py:88-92 | with no held frame nothing is published; otherwise the filtered held frame is published; the held frame is unchanged |
| Receiver.ImageReceiver.SetFrame | kivycvcamera.py:94-95 | the held frame becomes the argument (last write wins) and nothing else changes |
| CameraSet.KivyCvCameraSet.constructor | kivycvcamera.py:123-131 | the filter lists are stored; both components start with empty, separate chains and empty slots |
| CameraSet.KivyCvCameraSet.Relay | kivycvcamera.py:132-136 | the image's held frame becomes exactly the camera's `get_frame()`, None included |
| CameraSet.KivyCvCameraSet.ApplyFilter | kivycvcamera.py:139-141 | the image's chain becomes `img_filters` and the camera's becomes `cam_filters`, neither crossed over |
| CameraSet.KivyCvCameraSet.AddFilter | kivycvcamera.py:143-144 | only the given component's chain changes, by appending the filter |
| Scenarios.RunPipeline | kivycvcamera.py:51-92 | configure, camera tick, relay and image tick publish cam_filters + imgFilters applied to the oriented frame; with empty chains off Android the texture published is the one captured |
| Scenarios.CameraWithoutTexture | kivycvcamera.py:45-67 | `get_frame` stays None while no tick has a texture |
| Scenarios.SinkWithoutFrame | kivycvcamera.py:78-92 | a receiver whose frame is never set publishes nothing, however many ticks run |
| Scenarios.RepeatedSinkTicks | kivycvcamera.py:82-95 | every tick after one `set_frame` publishes the same texture |
| Scenarios.InvertedBlackTexture | kivycvcamera.py:51-59 | on any platform, Android included, a 4x4 texture of zero bytes through the chain [invert] becomes a 4x4 RGBA frame of 0xFF bytes |

## Left out

- Kivy widget, property and KV-language machinery (`ListProperty`,
  `ObjectProperty`, `Builder.load_string`, `self.ids`): components are direct
  object references.
- CameraSet.KivyCvCameraSet.constructor: the start differs from the source.
  In the source, the KV rules `filters: root.cam_filters` and
  `filters: root.img_filters` pass both lists to the two components as soon
  as lines 130-131 assign them, so there is no window with empty chains. The
  model starts in two steps instead: the constructor leaves both chains
  empty, and `ApplyFilter` then sets them.
- `Clock.schedule_once` and `schedule_interval`, the FPS values and the
  rescheduling at the end of each tick: each tick, relay and configure step is
  a method call. The one-second delay before configuring is the caller's
  choice of when to call `ApplyFilter`.
- Kivy texture internals: `texture.pixels`, the `flip_horizontal` in
  `on_texture`, `Texture.create` and `blit_buffer` are GPU or foreign calls.
  A texture is only its size and bytes. The camera's input texture stands for
  what `self.texture` holds after `on_texture`.
- `standard_filter` calls OpenCV (`cv2.flip`, `cvtColor`). It is one more
  opaque filter, covered by the `Filter` type.
- Exceptions: filters are total functions, and a failed reshape is excluded
  by the precondition `Reshapable` on the camera tick. A raising filter, with
  its skipped reschedule, is not modelled.
- Receiver.ImageReceiver.CreateTexture: a filter output whose byte length does
  not match its shape is recorded as it is. The model does not capture what
  `blit_buffer` then does with it.
- Mutable default `[]` arguments and list sharing between instances: filter
  lists are values (`seq`), so no two components share one list.
- The `__main__` demo application is user interface.
