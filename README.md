# librealsense GLSL aligner and DDS device watcher, modelled in Dafny

This project models two components of librealsense:

- **`align_gl`.** This is the OpenGL implementation of the `align` processing block. The model covers:
  - its GPU resource set and its "GLSL enabled" flag;
  - the output-frame extension it selects;
  - the camera matrices its `render` pass builds;
  - the bookkeeping of its two alignment entry points, `align_z_to_other` and `align_other_to_z`.
- **`lrs_device_watcher`** in the DDS server. It keeps a list of connected devices. It seeds the list at wake-up and updates it on every device-change event, calling back before each change.

The modules are:

- `Matrices` (`matrices.dfy`): 4×4 matrices as row-major `seq<real>` of length 16. It provides entry access `At(m, i, j)`, the single-entry write `Set`, the identity and the product, each with a point lemma.
- `Camera` (`camera.dfy`):
  - `build_opengl_projection_for_intrinsics` as the function `BuildProjection`. Its closed form is proved entry by entry.
  - The matrix set-up of `render` as the method `SetUpRenderMatrices`, proved against its closed forms. The transformation matrix is filled by nested loops with invariants, as the source fills it.
  - Two design lemmas about those matrices. First, the projection and view matrix put every point on its pinhole pixel (`fx·x/z + ppx`, `fy·y/z + ppy`). This assumes the on-screen viewport is `[0, 0, w, h]`, the same as the viewport `render` computes. Second, near maps to NDC depth −1, far to +1, and depth increases with distance. So a renderer that depth-tests would keep the nearest point. The aligner itself enables no depth test.
- `Align` (`align_gl.dfy`):
  - frames as a class with kind, profile, size, sensor, "original" reference, reference count, GPU-section size and output texture;
  - the aligner as a class with an `enabled` field and one ghost field per resource handle;
  - a trace of completed render passes and a map of the GL texture storage it specifies.

  Whether a guarded GL action (`perform_gl_action`) completes is a parameter, `GlOutcome`. So is `glsl_enabled()`, and so is the extrinsics lookup `get_extrinsics_to`.
- `DeviceWatcher` (`device_watcher.dfy`):
  - the watcher as a class with a `seq` device list, a flag for whether the list is still alive (the handler's `weak_ptr`), and the trace of callbacks;
  - `was_removed` as a predicate parameter, `get_new_devices` and `query_devices` as sequence parameters.

Two behaviours of the code differ from how the aligner is usually described. The model follows the code:

- `align_z_to_other` sizes the output frame's GPU section to the output frame's own width and height, not to the destination profile. `render` then re-specifies the output texture's storage at the render intrinsics' size.
- The resource handles are not released when the flag drops to 0. A failed action or `glsl_enabled() == false` leaves all five handles present with `_enabled == 0`.

## Model

Some specification functions have no row of their own. Their properties are stated by the lemma rows about them: `Camera.BuildProjection` by Camera.FrustumClosedForm, `Camera.FlipDepthSign` by Camera.FlipDepthSignAt, and `DeviceWatcher.Erase` and `DeviceWatcher.EraseAll` by DeviceWatcher.EraseAllIsFilter.

| member | source | states |
|---|---|---|
| Matrices.MulAt | src/gl/align-gl.cpp:752 | entry (i, j) of `a*b` is row i of `a` dotted with column j of `b` |
| Camera.NegatedSelfQuotient | src/gl/align-gl.cpp:734-735 | with C++ truncating division, `-(R+L)/(R-L)` with `L = 0` is −1 for every nonzero R |
| Camera.OrthoAt | src/gl/align-gl.cpp:729-737 | every entry of `ortho`: `2/w`, `2/h`, `−2/(F−N)`, `−(F+N)/(F−N)`, −1 in (0,3) and (1,3), 1 in (3,3), 0 elsewhere |
| Camera.TProjAt | src/gl/align-gl.cpp:743-747 | every entry of `tproj`: α, skew, u0, β, v0, `−(N+F)`, `−N·F`, 1 in (3,2), 0 elsewhere |
| Camera.FrustumClosedForm | src/gl/align-gl.cpp:706-753 | the viewport is `[0, 0, w, h]`; the frustum rows are `[2α/w, 2skew/w, 2u0/w−1, 0]`, `[0, 2β/h, 2v0/h−1, 0]`, `[0, 0, (F+N)/(F−N), 2FN/(F−N)]` and exactly `[0, 0, 1, 0]` |
| Camera.FlipDepthSignAt | src/gl/align-gl.cpp:816-818 | the fix-up negates exactly entries (3,2), (2,3) and (2,2) and leaves every other entry unchanged |
| Camera.SignFixUpGivesRenderProjection | src/gl/align-gl.cpp:814-818 | the frustum requested with skew 0, `u0 = width − ppx`, `v0 = height − ppy`, near 0.001 and far 100, after the fix-up, is the standard GL perspective with (3,2) = −1 |
| Camera.NegateDepthEntries | src/gl/align-gl.cpp:816-818 | the three in-place negations produce the fix-up of their input |
| Camera.SetUpRenderMatrices | src/gl/align-gl.cpp:812-833 | `render` hands the renderer the closed-form projection, the view matrix and the extrinsics matrix; the viewport it fills, and never passes on, is `[0, 0, intr.width, intr.height]` |
| Camera.BuildViewMatrix | src/gl/align-gl.cpp:822-823 | the view matrix is the identity with (2,2) = −1 |
| Camera.BuildTransformMatrix | src/gl/align-gl.cpp:826-832 | the nested loops leave the identity except `(i,j) = rotation[3i+j]` and `(3,i) = translation[i]` for i, j < 3 |
| Camera.ExtrinsicsMatrixAt | src/gl/align-gl.cpp:826-832 | the same, entry by entry, for the specification of the loops |
| Camera.IdentityExtrinsicsGiveIdentity | src/gl/align-gl.cpp:826-832 | identity rotation and zero translation give exactly the identity matrix |
| Camera.ClipPositionClosedForm | src/gl/align-gl.cpp:812-824 | the clip position of camera point (x, y, z) under view then projection, coordinate by coordinate, with w = z |
| Camera.RenderedPointLandsOnPinholePixel | src/gl/align-gl.cpp:812-824 | for z ≠ 0 the viewport transform of that clip position is the pinhole pixel `(fx·x/z + ppx, fy·y/z + ppy)` |
| Camera.DepthOrderPreserved | src/gl/align-gl.cpp:814-818 | after the fix-up the near plane maps to NDC depth −1 and the far plane to +1, and depth strictly increases with distance |
| Align.SelectExtension | src/gl/align-gl.cpp:35-39 | the result is `DEPTH_FRAME_GL` exactly for depth inputs and `VIDEO_FRAME_GL` otherwise; its registered frame class is a GPU frame that is a depth frame exactly when the input is |
| Align.AlignGl.constructor | src/gl/align-gl.cpp:888-898 | both GL extensions are registered, the flag is bound to a 0..1 option with step 0 and default 1, the flag starts at 0 and no resource is present |
| Align.AlignGl.CreateGpuResources | src/gl/align-gl.cpp:52-63 | all five handles present; the flag is 1 if `glsl_enabled()` holds and 0 otherwise |
| Align.AlignGl.CleanupGpuResources | src/gl/align-gl.cpp:41-50 | all five handles absent and the flag 0 |
| Align.AlignGl.SetEnabledOption | src/gl/align-gl.cpp:893-895 | the option is bound to the flag with range 0..1: a write in range sets the flag; any other value is refused and leaves it unchanged |
| Align.AlignGl.Render | src/gl/align-gl.cpp:755-845 | a failed action clears the flag and reports the error. A completed one records the pass (its model, texture source, intrinsics, extrinsics, output texture and the matrices of SetUpRenderMatrices), gives the output texture the input's format at the intrinsics' size, and leaves the flag unchanged |
| Align.AlignGl.AlignZToOther | src/gl/align-gl.cpp:199-236 | a non-depth or non-GPU output is refused before anything changes. Only the reference counts of the depth frame and the previous original may change besides the output frame and the aligner. Otherwise the GPU section is sized to the output's own size, and only then is a non-depth input refused. Otherwise the output takes the depth frame's sensor and holds it, acquired, as original, and gets a texture in the depth format. The depth frame is rendered with the other profile's intrinsics and the depth→other extrinsics |
| Align.AlignGl.AlignOtherToZ | src/gl/align-gl.cpp:847-886 | a non-GPU output is refused with nothing changed. Otherwise the output gets a texture in the other frame's format and a GPU section of its own size. The other frame is rendered with the depth intrinsics and the depth→depth extrinsics |
| Align.AlignGl.Destroy | src/gl/align-gl.cpp:900-913 | destruction never reports an error; if the cleanup action completes, every handle is absent and the flag is 0 |
| DeviceWatcher.LrsDeviceWatcher.constructor | tools/dds/dds-server/lrs-device-watcher.cpp:10-16 | the device list starts empty, with no callbacks made |
| DeviceWatcher.LrsDeviceWatcher.AddDevices | tools/dds/dds-server/lrs-device-watcher.cpp:59-64 | each device is announced with the list as it stands and then appended, in the given order |
| DeviceWatcher.LrsDeviceWatcher.NotifyConnectedDevicesOnWakeUp | tools/dds/dds-server/lrs-device-watcher.cpp:69-79 | the connected devices are appended in query order, each announced just before its push |
| DeviceWatcher.LrsDeviceWatcher.Run | tools/dds/dds-server/lrs-device-watcher.cpp:23-32 | the wake-up notification, then the handler is registered |
| DeviceWatcher.LrsDeviceWatcher.CollectRemoved | tools/dds/dds-server/lrs-device-watcher.cpp:37-44 | the entries to remove are exactly the flagged entries of the list, in list order |
| DeviceWatcher.LrsDeviceWatcher.RemoveDevices | tools/dds/dds-server/lrs-device-watcher.cpp:46-56 | for each device to remove, the remove callback sees the current list, and then every copy of the device is erased |
| DeviceWatcher.LrsDeviceWatcher.DevicesChanged | tools/dds/dds-server/lrs-device-watcher.cpp:33-65 | with the list gone nothing changes. Otherwise the new list is the unflagged entries in their old order followed by the new devices. The callbacks are the removals, one per flagged entry, followed by the additions |
| DeviceWatcher.LrsDeviceWatcher.Release | tools/dds/dds-server/lrs-device-watcher.cpp:31-35 | once the watcher's list is gone the handler's weak reference can no longer be locked |
| DeviceWatcher.EraseAllIsFilter | tools/dds/dds-server/lrs-device-watcher.cpp:50-55 | erasing the devices one by one with `erase(remove_if(==))` keeps exactly the entries equal to none of them, in order |
| DeviceWatcher.RemovalPhaseKeepsUnflagged | tools/dds/dds-server/lrs-device-watcher.cpp:37-56 | the removal phase leaves exactly the entries `was_removed` does not flag, in their original order |
| DeviceWatcher.SurvivorCount | tools/dds/dds-server/lrs-device-watcher.cpp:37-56 | after the removal phase a flagged device has no copy left and every unflagged device keeps all its copies |
| DeviceWatcher.FilterMembership | tools/dds/dds-server/lrs-device-watcher.cpp:38-44 | an entry is collected exactly when it is in the list and flagged |
| DeviceWatcher.RemovalEventsAt | tools/dds/dds-server/lrs-device-watcher.cpp:46-49 | there is one remove callback per entry to remove; the k-th is for the k-th entry and sees the list erased of the entries before it |
| DeviceWatcher.AdditionEventsAt | tools/dds/dds-server/lrs-device-watcher.cpp:59-64 | there is one add callback per new device; the k-th is for the k-th new device and sees the list holding the new devices before it |
| DeviceWatcher.RemovalsBeforeAdditions | tools/dds/dds-server/lrs-device-watcher.cpp:46-64 | in one event's callbacks, every removal comes before every addition |
| DeviceWatcher.RemovedDeviceStillListed | tools/dds/dds-server/lrs-device-watcher.cpp:46-55 | when the list holds each device once, every remove callback runs while its device is still listed, and the erase after it drops the device |
| DeviceWatcher.DuplicateEntryRemovedTwice | tools/dds/dds-server/lrs-device-watcher.cpp:37-56 | callbacks are per entry: a device listed twice is reported removed twice, the second time after it is gone |

## Left out

- The GL work itself: `fbo`, `glBindTexture`, `glTexParameteri`, `_renderer->process`, `_other_texture->upload` and `output_texture`. A completed `render` is recorded as a `RenderCall`; `glTexImage2D` is recorded as an update of `textureStorage`.
- The experimental shader block in `align_z_to_other` (src/gl/align-gl.cpp:346-684), its fallbacks that also clear the flag, the shader sources, and the commented-out code. They are GL calls, console output and debug scaffolding.
- `perform_gl_action`, `glsl_enabled`, `rs_format_to_gl_format`, `get_extrinsics_to`, `_pc->map_to` and `_pc->calculate` are not part of this model. The first three become parameters or plain format numbers. The point cloud becomes the value `Points(depth, mappedTo)`, and the point-cloud object's internal mapping state is not modelled. A `get_extrinsics_to` that throws is not modelled.
- `initialize()` of the `align` base class, and the `align` and `gpu_processing_object` bases in general. The `to_stream` constructor argument belongs to the base and is not modelled.
- Float and double rounding. Matrix entries, intrinsics and extrinsics are `real`; only the integer divisions at src/gl/align-gl.cpp:734-735 are modelled as C++ truncating division.
- The memory layout of `matrix4` (`to_column_major` against the raw `&mat`). `matrix4` is not part of this model: it is taken to zero-initialise, `identity()` to be the identity and `*` to be the matrix product, indexed by (row, column) as the code indexes it.
- Zero image width or height, and near equal to far: the source divides by them. `Render`, `AlignZToOther` and `AlignOtherToZ` therefore require nonzero intrinsics sizes.
- Align.AlignGl.Render: a failed action is modelled as having no effect other than clearing the flag. What a throwing action had already done to GL state is not modelled.
- Align.AlignGl.AlignZToOther: `set_original` and `frame_holder` are not part of this model. Replacing a previously held original is modelled as releasing it once. The output frame is assumed not to be its own original.
- The `ptr` argument of `render` and the `z_scale` argument of both alignment overrides are accepted and never read.
- The watcher's threading (the handler runs on the context's thread), its `std::cout` logging and the `rs2::context` set-up string. `rs2::device` equality is modelled as value equality.
- The on-screen viewport. `render` fills a viewport array but does not hand it to the renderer; the drawing area is whatever `fbo` sets up, and `fbo` is not part of this model. Camera.RenderedPointLandsOnPinholePixel assumes it is `[0, 0, w, h]`.
- Depth testing. The aligner enables none; Camera.DepthOrderPreserved states only the depth ordering a depth-testing renderer would rely on.
- Align.AlignGl.SetEnabledOption: `ptr_option::set` is not part of this model. The range refusal and the write of the flag follow the range the option is constructed with. The float-to-int conversion of the written value is not modelled; the value is taken as an integer.
