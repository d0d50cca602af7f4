# libcamera input plugin of mjpg-streamer, in Dafny

This project models the decision logic of mjpg-streamer's libcamera input plugin
(`input_libcamera.cpp`) and proves properties of it. It covers three parts.

- **Settings and camera controls** (`init.dfy`, module `Init`). The option parser clamps the
  JPEG quality into [0, 100] (`WithQuality`). `input_init` first registers the AfTrigger
  control with the host, on every path. It then normalises the buffer count of the settings
  record the parser filled in. It builds the libcamera control list: frame-duration limits
  from the frame rate, the image controls, and the autofocus mode, trigger, range and lens
  position. It calls `camera.set` only when the list is not empty. Finally it records the
  requested size and snapshot size in `vdIn`.
- **The capture worker** (`worker.dfy`, module `Worker`). `input_run` allocates the frame
  buffer and `worker_thread` starts the camera. Each pass of the loop first looks at a
  pending snapshot request. If the saved steady size differs from the snapshot size, it
  switches the camera to the snapshot size with one buffer. The pass then reads a frame,
  encodes it, publishes it and, when a snapshot was taken, switches back to the steady size.
  `switch_resolution` resets the camera, re-reads the geometry and reallocates the buffer; any
  failure runs `worker_cleanup` and ends the process. The pure functions `AfterRequest`,
  `AfterFrame`, `AfterIteration` and `AfterLoop` state what a pass and a run do to the
  worker's state. The class `CaptureWorker` performs the same steps by updating its fields and
  is proved against those functions.
- **Generic commands** (`command.dfy`, module `Command`). `input_cmd` scans the registered
  parameter table for a generic control with the requested id. For id 1 (AfTrigger) it asks the
  camera for an autofocus run.

`common.dfy` holds the shared value types: `Option`, 32-bit unsigned values, the stream
configuration and `struct vdIn`. `controls.dfy` holds the control list and libcamera's
autofocus enumeration values.

Everything the camera, the encoder, the allocator or the host decides is an argument of the
model:
- whether `initCamera`, `resetCamera`, `malloc` or `realloc` succeeded;
- the geometry `VideoStream` reports;
- whether `readFrame` had a frame;
- the size `compress_image_to_jpeg` returned;
- whether an output asked for a snapshot before a pass;
- how many passes run before the host stops the worker.

A process exit (`exit(EXIT_FAILURE)`) is the `Fatal` result of `InputInit` or the `Exited`
outcome of a pass.

Some libcamera enumerations have Manual (AfMode) and Normal (AfRange) as value 0. Since a
zero setting means "not given", asking for those values sends nothing
(`Init.ManualModeSelectsNothing`).

`switch_resolution` always passes rotation 0 to `resetCamera`. So after a snapshot round
trip the camera streams unrotated, even when a rotation of 180 was configured at start-up.
`Worker.SnapshotRoundTrip` states this as the code does it (`SteadyConfig` has rotation 0).

## Model

| member | source | states |
|---|---|---|
| `Init.WithQuality` | mjpg-streamer-experimental/plugins/input_libcamera/input_libcamera.cpp:245 | the stored quality always lies in [0, 100]: a value in range is kept, a negative one becomes 0 and one above 100 becomes 100; no other setting changes |
| `Init.DefaultSettings` | mjpg-streamer-experimental/plugins/input_libcamera/input_libcamera.cpp:122-133 | with no option given, quality is 80, the buffer count becomes 4 and no control is selected |
| `Init.NormalisedBufferCount` | mjpg-streamer-experimental/plugins/input_libcamera/input_libcamera.cpp:284-288 | the buffer count is at least 1: 0 becomes 4, a positive count is kept and a negative one becomes 1 |
| `Init.FrameDuration` | mjpg-streamer-experimental/plugins/input_libcamera/input_libcamera.cpp:300 | the frame duration is 1000000 / fps truncated toward zero, stated as the bounds t * fps <= 1000000 < (t + 1) * fps (mirrored for a negative fps) |
| `Init.AssembleControls` | mjpg-streamer-experimental/plugins/input_libcamera/input_libcamera.cpp:299-344 | the control list follows the selection rule `Selected`, and `controls_flag` (whether `camera.set` is called) is true exactly when some optional setting is non-zero, exactly when the list is not empty |
| `Init.AddImageControls` | mjpg-streamer-experimental/plugins/input_libcamera/input_libcamera.cpp:299-324 | both frame-duration limits are 1000000 / fps exactly when fps is non-zero; brightness, contrast, saturation, gain and exposure are each present exactly when non-zero, with their value; no focus control is set; the flag is set exactly when the list is not empty |
| `Init.AddFocusControls` | mjpg-streamer-experimental/plugins/input_libcamera/input_libcamera.cpp:325-341 | AfMode is present exactly when afmode is non-zero, and is Manual when a lens position is given; AfTrigger = Start is present exactly when the requested mode is Auto; range and lens position are present exactly when non-zero; the other controls are untouched; the flag is raised exactly when one of them is non-zero |
| `Init.SelectedEmptyIffNothingSet` | mjpg-streamer-experimental/plugins/input_libcamera/input_libcamera.cpp:342-344 | a control list chosen by the rule is empty exactly when no optional setting is non-zero |
| `Init.AutoWithLensPosition` | mjpg-streamer-experimental/plugins/input_libcamera/input_libcamera.cpp:325-333 | Auto focus together with a lens position yields AfMode = Manual, AfTrigger = Start and the lens position |
| `Init.ManualModeSelectsNothing` | mjpg-streamer-experimental/plugins/input_libcamera/input_libcamera.cpp:325-333 | asking for Manual focus (value 0) selects neither a focus mode nor a trigger |
| `Init.InputInit` | mjpg-streamer-experimental/plugins/input_libcamera/input_libcamera.cpp:143-356 | given a settings record whose quality is the default or clamped (as the option parser leaves it), the parameter table is exactly [AfTrigger]; the session is ready exactly when the camera initialised and `vdIn` was allocated; then the buffer count is normalised and at least 1, the quality stays in [0, 100], the camera is configured with the requested size, buffer count and rotation, a control list is applied exactly when some optional setting is non-zero and follows the selection rule, and `vdIn` holds the requested size and snapshot size |
| `Command.OnlyAfTriggerRegistered` | mjpg-streamer-experimental/plugins/input_libcamera/input_libcamera.cpp:165-174 | with the table `input_init` registers, a generic command id is registered exactly when it is 1 |
| `Command.InputCmd` | mjpg-streamer-experimental/plugins/input_libcamera/input_libcamera.cpp:520-553 | a generic command returns 0 exactly when a generic parameter with that id is registered and -1 exactly when none is; only then is a control list sent, holding AfMode = Auto and AfTrigger = Start for id 1 and nothing for another id; any other command type returns 0 and sends nothing |
| `Worker.Switched` | mjpg-streamer-experimental/plugins/input_libcamera/input_libcamera.cpp:416-435 | a switch ends the process exactly when the reset or the reallocation fails; a successful reset is logged on the camera with the new unrotated configuration, and `vdIn` takes the geometry the camera reports; the buffer then holds width * height bytes in 32-bit arithmetic; the snapshot size and every other part of the state stay as they were |
| `Worker.AfterRequest` | mjpg-streamer-experimental/plugins/input_libcamera/input_libcamera.cpp:461-468 | with nothing pending nothing changes; the camera is reset to the snapshot size (one buffer) exactly when a snapshot is pending and its size differs from the saved steady size, also when `is_switch` is already set; the pass exits exactly when that switch fails; otherwise the request is cleared and `is_switch` records the switch; the loop invariant is kept and a pending snapshot leaves the camera at the snapshot size |
| `Worker.AfterFrame` | mjpg-streamer-experimental/plugins/input_libcamera/input_libcamera.cpp:470-487 | a missed frame changes nothing; a read frame is published with the current configuration and geometry, `in->size` is its size, and it is given back to the camera; only after that return is a camera at the snapshot size reset to the saved steady configuration, after which `is_switch` is clear; the pass exits exactly when that switch fails; the loop invariant is kept |
| `Worker.AfterIteration` | mjpg-streamer-experimental/plugins/input_libcamera/input_libcamera.cpp:459-488 | a pass keeps the loop invariant (camera at the snapshot size while `is_switch` is set, at the steady size otherwise), consumes any snapshot request, keeps the saved steady size and quality, and only appends to the published frames and the camera calls (resets and frame returns) |
| `Worker.PassExitsOnlyOnFailedSwitch` | mjpg-streamer-experimental/plugins/input_libcamera/input_libcamera.cpp:459-488 | a pass ends the process exactly when the switch to a pending snapshot's size fails, or the switch back after a frame fails |
| `Worker.PassPublishesFrame` | mjpg-streamer-experimental/plugins/input_libcamera/input_libcamera.cpp:470-487 | a pass publishes one frame exactly when it reads one; a frame read while a snapshot is pending is captured at the snapshot size, any other one at the configuration the camera already had |
| `Worker.PassReturnsFrame` | mjpg-streamer-experimental/plugins/input_libcamera/input_libcamera.cpp:470-487 | a pass that goes on publishes one frame and returns one frame to the camera exactly when it read one |
| `Worker.SteadyPass` | mjpg-streamer-experimental/plugins/input_libcamera/input_libcamera.cpp:461-487 | with no snapshot pending or requested and `is_switch` clear, a pass only encodes, publishes and returns the frame it reads, if any, and changes nothing else |
| `Worker.AfterLoop` | mjpg-streamer-experimental/plugins/input_libcamera/input_libcamera.cpp:459-488 | a run of passes goes on exactly while `in->context` is still held: every exit, and only an exit, has released it through `worker_cleanup` |
| `Worker.LoopKeepsInvariant` | mjpg-streamer-experimental/plugins/input_libcamera/input_libcamera.cpp:459-488 | a run of passes keeps the loop invariant, the saved steady size, the quality and the snapshot size, and only appends to the camera calls and the published frames |
| `Worker.EveryFrameReturnedOnce` | mjpg-streamer-experimental/plugins/input_libcamera/input_libcamera.cpp:459-488 | over a run that goes on, the number of frames published and the number returned to the camera both grow by exactly the number of frames read |
| `Worker.SnapshotRoundTrip` | mjpg-streamer-experimental/plugins/input_libcamera/input_libcamera.cpp:459-488 | a requested snapshot at a new size, with a frame and successful switches, makes exactly the camera calls reset to the snapshot size, return the frame, reset to the steady size, in that order; it publishes exactly that frame at the snapshot configuration and geometry; it leaves the buffer sized to the steady geometry, the camera unrotated, and nothing pending |
| `Worker.SnapshotAtSteadySize` | mjpg-streamer-experimental/plugins/input_libcamera/input_libcamera.cpp:461-468 | a snapshot at the size already streamed needs no switch: the camera keeps its configuration and is not reset (a frame read is only returned), `vdIn` is untouched and the request is cleared |
| `Worker.MissesChangeNothing` | mjpg-streamer-experimental/plugins/input_libcamera/input_libcamera.cpp:470-471 | passes without a frame and without a request leave the state exactly as it was, including a pending `is_switch` and the snapshot configuration |
| `Worker.SnapshotServedAfterMisses` | mjpg-streamer-experimental/plugins/input_libcamera/input_libcamera.cpp:459-488 | a snapshot request is served by the next frame read, however many reads fail in between: that frame is published at the snapshot configuration, and the camera calls are exactly the reset to the snapshot size, the return of that frame, then the reset to the steady size |
| `Worker.SteadyStreaming` | mjpg-streamer-experimental/plugins/input_libcamera/input_libcamera.cpp:459-488 | without snapshot requests the camera is never reset: its only calls are one frame return per frame read, and every frame read is published, in order, with the steady configuration and geometry |
| `Worker.CaptureWorker.Start` | mjpg-streamer-experimental/plugins/input_libcamera/input_libcamera.cpp:393-458 | `input_run` sizes the buffer to width * height and sets `in->size` to 0; the worker saves the configured size, buffer count and quality, starts the camera and records the geometry it reports; the loop invariant holds |
| `Worker.CaptureWorker.Cleanup` | mjpg-streamer-experimental/plugins/input_libcamera/input_libcamera.cpp:504-512 | the context is released if still held and nothing else changes; it is deleted at most once, so a second call does nothing |
| `Worker.CaptureWorker.SwitchResolution` | mjpg-streamer-experimental/plugins/input_libcamera/input_libcamera.cpp:416-435 | updates the fields exactly as `Switched` says and exits exactly when it does |
| `Worker.CaptureWorker.ServeRequest` | mjpg-streamer-experimental/plugins/input_libcamera/input_libcamera.cpp:461-468 | updates the fields exactly as `AfterRequest` says |
| `Worker.CaptureWorker.PublishFrame` | mjpg-streamer-experimental/plugins/input_libcamera/input_libcamera.cpp:470-487 | updates the fields exactly as `AfterFrame` says, the frame return included |
| `Worker.CaptureWorker.Iterate` | mjpg-streamer-experimental/plugins/input_libcamera/input_libcamera.cpp:459-488 | updates the fields exactly as `AfterIteration` says, keeping the worker valid |
| `Worker.CaptureWorker.Stop` | mjpg-streamer-experimental/plugins/input_libcamera/input_libcamera.cpp:490-494 | the camera is stopped and closed, then the context is released |
| `Worker.CaptureWorker.Run` | mjpg-streamer-experimental/plugins/input_libcamera/input_libcamera.cpp:459-497 | the loop reaches the state `AfterLoop` gives; if a switch failed it stops there, otherwise the camera is stopped and closed and the context released |

## Left out

- Option parsing (`getopt_long_only`, the `OPTION_INT`/`OPTION_MULTI` macros, `parse_resolution_opt`, `help`) is not modelled. The model starts from the parsed settings record and the parsed size and snapshot size. The parser defaults to 640x480 and 0x0.
- The `*_set` flags of the settings record are not modelled: they are written by the parser and never read.
- libcamera is abstract. The worker's successful `resetCamera` calls and its `returnFrameBuffer` calls are logged on the camera in order; `configureStill` and `set` are recorded in the session; `startCamera`, `stopCamera` and `closeCamera` are flags; the results of `initCamera`, `VideoStream` and `readFrame` are arguments. Which geometry the camera picks (0x0 meaning its largest size) is not modelled.
- `compress_image_to_jpeg` is an opaque encoder. Its result is an arbitrary natural number stored in `in->size`, with no bound.
- Control values are integers. The conversion of brightness, contrast, saturation, gain and lens position to libcamera's floating-point controls is not modelled.
- C `int` settings are unbounded integers. Overflow of an `int` setting is not modelled. The 32-bit unsigned product of the buffer size is modelled (`Wrap32`).
- Threads are not modelled: the mutexes, the condition broadcast (a published frame is appended to a list), `pthread_create`/`detach`/`cancel` and the cleanup push/pop. `input_stop`, which frees `vdIn` and the buffer while the detached worker may still run, is a concurrency concern and is not modelled.
- The failure of `pthread_create` in `input_run` is not modelled, and neither is an unchecked `malloc` of the frame buffer.
- Memory and process plumbing are not modelled: `malloc`/`free`/`delete`, the camera-id string, syslog and `exit`. Allocation failure and `exit` become the `Fatal` result or an `Exited` state.
- `Init.InputInit` assumes the host's parameter table was empty before `input_init`. The code allocates a fresh table and writes only its last slot.
- `Init.InputInit` records the `vdIn` stride as 0: `input_init` never writes it, and the worker sets it from `VideoStream` before its first use.
- The host's stop flag is the end of the sequence of passes given to `Worker.CaptureWorker.Run`. The frame data pointer and the pixel format written to `vdIn` are not modelled.
