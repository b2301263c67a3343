/**
 * The GLSL aligner `align_gl`: its GPU resource set and enable flag, the
 * extension it selects for output frames, the guarded render pass, and the
 * two alignment entry points that prepare the output frame and call it.
 *
 * GL calls are abstract effects: a `render` that completes appends a
 * `RenderCall` recording its arguments, the three matrices it hands to the
 * renderer (projection, view, transform) and the viewport it computes but
 * does not pass on; texture allocations update `textureStorage`. Whether a
 * guarded GL action completes or throws is a parameter (`GlOutcome`).
 */
module Align {
  import opened Wrappers
  import opened Matrices
  import opened Camera

  type Format = nat
  type SensorId = nat

  /** The frame classes the aligner tells apart with `dynamic_cast` and `is<>`. */
  datatype FrameKind = VideoFrame | DepthFrame | GpuVideoFrame | GpuDepthFrame {
    predicate IsDepth() {
      this == DepthFrame || this == GpuDepthFrame
    }
    predicate IsGpuAddon() {
      this == GpuVideoFrame || this == GpuDepthFrame
    }
  }

  /** `RS2_EXTENSION_VIDEO_FRAME_GL` and `RS2_EXTENSION_DEPTH_FRAME_GL`. */
  datatype Extension = VideoFrameGl | DepthFrameGl

  /** The frame class the constructor registers with the frame source for each extension. */
  function ExtensionFrameKind(e: Extension): FrameKind {
    match e
    case VideoFrameGl => GpuVideoFrame
    case DepthFrameGl => GpuDepthFrame
  }

  /**
   * `select_extension`: the output frame for an input is a GPU frame, and a
   * depth frame exactly when the input is one.
   */
  function SelectExtension(input: FrameKind): (r: Extension)
    ensures ExtensionFrameKind(r).IsGpuAddon()
    ensures ExtensionFrameKind(r).IsDepth() <==> input.IsDepth()
    ensures r == DepthFrameGl <==> input.IsDepth()
  {
    if input.IsDepth() then DepthFrameGl else VideoFrameGl
  }

  datatype StreamProfile = StreamProfile(uid: nat, format: Format, intrinsics: Intrinsics)

  /** A texture the GPU section of a frame outputs into: its GL name and pixel format. */
  datatype OutputTexture = OutputTexture(handle: nat, format: Format)

  class Frame {
    const kind: FrameKind
    const profile: StreamProfile
    const width: int
    const height: int
    /** `get_texture_id(0)`, meaningful for a frame already on the GPU. */
    const textureId: nat
    var sensor: SensorId
    /** The "original" back-reference held by a depth frame. */
    var original: Frame?
    var refCount: int
    /** The size of the frame's GPU section. */
    var gpuWidth: int
    var gpuHeight: int
    var texture: Option<OutputTexture>

    constructor (kind: FrameKind, profile: StreamProfile, width: int, height: int, textureId: nat, sensor: SensorId)
      ensures this.kind == kind && this.profile == profile && this.width == width && this.height == height
      ensures this.textureId == textureId && this.sensor == sensor
      ensures original == null && refCount == 1 && gpuWidth == 0 && gpuHeight == 0 && texture == None
    {
      this.kind, this.profile, this.width, this.height := kind, profile, width, height;
      this.textureId, this.sensor := textureId, sensor;
      original, refCount, gpuWidth, gpuHeight, texture := null, 1, 0, 0, None;
    }
  }

  /** What a point cloud computed by `_pc` stands for: `calculate(depth)` after `map_to(mappedTo)`. */
  datatype Points = Points(depth: Frame, mappedTo: Frame)

  /** Where `render` samples from: the input's own GPU texture, or `_other_texture` after an upload. */
  datatype TextureSource = FrameTexture(handle: nat) | UploadedTexture(format: Format)

  /** The storage `glTexImage2D` gives a texture. */
  datatype Storage = Storage(format: Format, width: int, height: int)

  /**
   * What one render pass computes: the projection, view and transform it sets
   * on the renderer, and the viewport `build_opengl_projection` fills, which
   * `render` never passes on.
   */
  datatype RenderMatrices = RenderMatrices(projection: Mat4, viewport: Viewport, view: Mat4, transform: Mat4)

  /** The arguments of one completed render pass and what it computed. */
  datatype RenderCall = RenderCall(model: Points, tex: Frame, source: TextureSource,
                                   intrinsics: Intrinsics, extrinsics: Extrinsics,
                                   outputTexture: nat, matrices: RenderMatrices)

  /** Whether a guarded GL action ran to completion or threw. */
  datatype GlOutcome = Completed | Failed

  datatype AlignError =
    | NotDepthOutput   // "Frame is not depth frame, cannot cast"
    | NotGpuOutput     // "... is not gpu_addon_interface ..."
    | NotDepthInput    // "Frame interface is not depth frame"
    | GlActionFailed   // the exception a failed guarded action lets through

  datatype OptionError = OutOfRange

  /** The range of an integer option: min, max, step and default. */
  datatype IntOptionRange = IntOptionRange(min: int, max: int, step: int, default: int)

  function TextureSourceOf(tex: Frame): TextureSource {
    if tex.kind.IsGpuAddon() then FrameTexture(tex.textureId) else UploadedTexture(tex.profile.format)
  }

  /** The call a completed `render(model, tex, intr, extr, output)` records. */
  function ExpectedRender(model: Points, tex: Frame, intr: Intrinsics, extr: Extrinsics, output: nat): RenderCall
    requires intr.width != 0 && intr.height != 0
  {
    RenderCall(model, tex, TextureSourceOf(tex), intr, extr, output,
               RenderMatrices(RenderProjection(intr), Viewport(0, 0, intr.width, intr.height),
                              ViewMatrix(), ExtrinsicsMatrix(extr)))
  }

  class AlignGl {
    /** `_enabled`: the GLSL-enabled flag, an int the option exposes as 0/1. */
    var enabled: int
    /** Presence of `_pc`, `_renderer`, `_upload`, `_other_texture` and `_viz`. */
    ghost var pc: bool
    ghost var renderer: bool
    ghost var upload: bool
    ghost var otherTexture: bool
    ghost var viz: bool
    /** The output extensions registered with the frame source. */
    const extensions: set<Extension>
    /** The range of the "GLSL enabled" option bound to `_enabled`. */
    const enabledOption: IntOptionRange
    /** Completed render passes, oldest first. */
    var renders: seq<RenderCall>
    /** Storage of the GL textures this aligner has specified, by GL name. */
    var textureStorage: map<nat, Storage>

    ghost predicate AllPresent()
      reads this
    {
      pc && renderer && upload && otherTexture && viz
    }

    ghost predicate AllAbsent()
      reads this
    {
      !pc && !renderer && !upload && !otherTexture && !viz
    }

    /** The resource set is all-or-nothing and the flag stays within the option's range. */
    ghost predicate Valid()
      reads this
    {
      (AllPresent() || AllAbsent()) && enabledOption.min <= enabled <= enabledOption.max
      && enabledOption == IntOptionRange(0, 1, 0, 1)
    }

    /** `align_gl(to_stream)`, before the base class's `initialize()`. */
    constructor ()
      ensures Valid() && AllAbsent() && enabled == 0
      ensures extensions == {VideoFrameGl, DepthFrameGl}
      ensures renders == [] && textureStorage == map[]
    {
      enabled := 0;
      pc, renderer, upload, otherTexture, viz := false, false, false, false, false;
      extensions := {VideoFrameGl, DepthFrameGl};
      enabledOption := IntOptionRange(0, 1, 0, 1);
      renders, textureStorage := [], map[];
    }

    /** `create_gpu_resources`: every handle present, the flag taken from `glsl_enabled()`. */
    method CreateGpuResources(glslEnabled: bool)
      requires Valid()
      modifies this
      ensures Valid() && AllPresent()
      ensures enabled == if glslEnabled then 1 else 0
      ensures renders == old(renders) && textureStorage == old(textureStorage)
    {
      renderer, pc, otherTexture, upload := true, true, true, true;
      enabled := if glslEnabled then 1 else 0;
      viz := true;
    }

    /** `cleanup_gpu_resources`: every handle reset and the flag forced to 0. */
    method CleanupGpuResources()
      requires Valid()
      modifies this
      ensures Valid() && AllAbsent() && enabled == 0
      ensures renders == old(renders) && textureStorage == old(textureStorage)
    {
      renderer, pc, otherTexture, upload := false, false, false, false;
      enabled := 0;
      viz := false;
    }

    /** Writing the "GLSL enabled" option: a value outside 0..1 is rejected. */
    method SetEnabledOption(value: int) returns (err: Option<OptionError>)
      requires Valid()
      modifies this`enabled
      ensures Valid()
      ensures enabledOption.min <= value <= enabledOption.max ==> err == None && enabled == value
      ensures !(enabledOption.min <= value <= enabledOption.max) ==> err == Some(OutOfRange) && enabled == old(enabled)
    {
      if value < enabledOption.min || value > enabledOption.max {
        return Some(OutOfRange);
      }
      enabled := value;
      err := None;
    }

    /**
     * `render`, run as a guarded GL action whose failure fallback clears the
     * flag. `ptr` is accepted and never read.
     */
    method Render(model: Points, tex: Frame, intr: Intrinsics, extr: Extrinsics, outputTexture: nat,
                  outcome: GlOutcome, ptr: Option<nat> := None)
      returns (err: Option<AlignError>)
      requires Valid() && AllPresent()
      requires intr.width != 0 && intr.height != 0
      modifies this`enabled, this`renders, this`textureStorage
      ensures Valid() && AllPresent()
      ensures outcome == Failed ==>
        && err == Some(GlActionFailed) && enabled == 0
        && renders == old(renders) && textureStorage == old(textureStorage)
      ensures outcome == Completed ==>
        && err == None && enabled == old(enabled)
        && renders == old(renders) + [ExpectedRender(model, tex, intr, extr, outputTexture)]
        && textureStorage == old(textureStorage)[outputTexture := Storage(tex.profile.format, intr.width, intr.height)]
    {
      if outcome == Failed {
        enabled := 0;
        return Some(GlActionFailed);
      }
      var source := if tex.kind.IsGpuAddon() then FrameTexture(tex.textureId) else UploadedTexture(tex.profile.format);
      textureStorage := textureStorage[outputTexture := Storage(tex.profile.format, intr.width, intr.height)];
      var projection, viewport, view, transform := SetUpRenderMatrices(intr, extr);
      renders := renders + [RenderCall(model, tex, source, intr, extr, outputTexture,
                                       RenderMatrices(projection, viewport, view, transform))];
      err := None;
    }

    /**
     * `align_z_to_other`: two type checks on the output before it is touched,
     * then its GPU section is sized, then the input is checked; the output
     * takes the depth frame's sensor and holds it, acquired, as its original,
     * and the depth frame is rendered with the other stream's intrinsics.
     * `zScale` is accepted and never read.
     */
    method AlignZToOther(aligned: Frame, depth: Frame, otherProfile: StreamProfile, zScale: real,
                         extrinsicsTo: (StreamProfile, StreamProfile) -> Extrinsics,
                         alignedTex: nat, outcome: GlOutcome)
      returns (err: Option<AlignError>)
      requires Valid() && AllPresent()
      requires aligned != depth && aligned.original != aligned
      requires otherProfile.intrinsics.width != 0 && otherProfile.intrinsics.height != 0
      modifies this`enabled, this`renders, this`textureStorage, aligned, depth`refCount
      modifies (if aligned.original == null then {} else {aligned.original})`refCount
      ensures Valid() && AllPresent()
      ensures !aligned.kind.IsDepth() || !aligned.kind.IsGpuAddon() ==>
        && err == Some(if !aligned.kind.IsDepth() then NotDepthOutput else NotGpuOutput)
        && unchanged(aligned) && unchanged(depth) && unchanged(this)
        && (old(aligned.original) != null ==> old(aligned.original).refCount == old(aligned.original.refCount))
      ensures aligned.kind.IsDepth() && aligned.kind.IsGpuAddon() ==>
        && aligned.gpuWidth == aligned.width && aligned.gpuHeight == aligned.height
      ensures aligned.kind.IsDepth() && aligned.kind.IsGpuAddon() && !depth.kind.IsDepth() ==>
        && err == Some(NotDepthInput)
        && aligned.sensor == old(aligned.sensor) && aligned.original == old(aligned.original)
        && aligned.refCount == old(aligned.refCount) && aligned.texture == old(aligned.texture)
        && unchanged(depth) && unchanged(this)
        && (old(aligned.original) != null ==> old(aligned.original).refCount == old(aligned.original.refCount))
      ensures aligned.kind.IsDepth() && aligned.kind.IsGpuAddon() && depth.kind.IsDepth() ==>
        && aligned.sensor == depth.sensor && aligned.original == depth
        && depth.sensor == old(depth.sensor)
        && depth.refCount == old(depth.refCount) + (if old(aligned.original) == depth then 0 else 1)
        && (old(aligned.original) != null && old(aligned.original) != depth ==>
              old(aligned.original).refCount == old(aligned.original.refCount) - 1)
        && aligned.refCount == old(aligned.refCount)
        && aligned.texture == Some(OutputTexture(alignedTex, depth.profile.format))
        && (outcome == Failed ==>
              && err == Some(GlActionFailed) && enabled == 0 && renders == old(renders)
              && textureStorage == old(textureStorage)[alignedTex := Storage(depth.profile.format, aligned.width, aligned.height)])
        && (outcome == Completed ==>
              var intr := otherProfile.intrinsics;
              && err == None && enabled == old(enabled)
              && renders == old(renders) + [ExpectedRender(Points(depth, depth), depth, intr,
                                                           extrinsicsTo(depth.profile, otherProfile), alignedTex)]
              && textureStorage == old(textureStorage)[alignedTex := Storage(depth.profile.format, intr.width, intr.height)])
    {
      var width, height := aligned.width, aligned.height;
      var p := Points(depth, depth);
      if !aligned.kind.IsDepth() {
        return Some(NotDepthOutput);
      }
      if !aligned.kind.IsGpuAddon() {
        return Some(NotGpuOutput);
      }
      aligned.gpuWidth, aligned.gpuHeight := width, height;
      if !depth.kind.IsDepth() {
        return Some(NotDepthInput);
      }
      aligned.sensor := depth.sensor;
      depth.refCount := depth.refCount + 1;
      var previous := aligned.original;
      aligned.original := depth;
      if previous != null {
        previous.refCount := previous.refCount - 1;
      }
      aligned.texture := Some(OutputTexture(alignedTex, depth.profile.format));
      textureStorage := textureStorage[alignedTex := Storage(depth.profile.format, width, height)];
      var intr := otherProfile.intrinsics;
      var extr := extrinsicsTo(depth.profile, otherProfile);
      err := Render(p, depth, intr, extr, alignedTex, outcome);
    }

    /**
     * `align_other_to_z`: the output must be a GPU frame; it gets a texture
     * in the other stream's format and a GPU section of its own size, and
     * the other frame is rendered with the depth intrinsics and the depth
     * profile's extrinsics to itself. `zScale` is accepted and never read.
     */
    method AlignOtherToZ(aligned: Frame, depth: Frame, other: Frame, zScale: real,
                         extrinsicsTo: (StreamProfile, StreamProfile) -> Extrinsics,
                         outputRgb: nat, outcome: GlOutcome)
      returns (err: Option<AlignError>)
      requires Valid() && AllPresent()
      requires depth.profile.intrinsics.width != 0 && depth.profile.intrinsics.height != 0
      modifies this`enabled, this`renders, this`textureStorage, aligned
      ensures Valid() && AllPresent()
      ensures !aligned.kind.IsGpuAddon() ==>
        err == Some(NotGpuOutput) && unchanged(aligned) && unchanged(this)
      ensures aligned.kind.IsGpuAddon() ==>
        && aligned.texture == Some(OutputTexture(outputRgb, other.profile.format))
        && aligned.gpuWidth == aligned.width && aligned.gpuHeight == aligned.height
        && aligned.sensor == old(aligned.sensor) && aligned.original == old(aligned.original)
        && aligned.refCount == old(aligned.refCount)
        && (outcome == Failed ==>
              && err == Some(GlActionFailed) && enabled == 0 && renders == old(renders)
              && textureStorage == old(textureStorage)[outputRgb := Storage(other.profile.format, aligned.width, aligned.height)])
        && (outcome == Completed ==>
              var intr := depth.profile.intrinsics;
              && err == None && enabled == old(enabled)
              && renders == old(renders) + [ExpectedRender(Points(depth, other), other, intr,
                                                           extrinsicsTo(depth.profile, depth.profile), outputRgb)]
              && textureStorage == old(textureStorage)[outputRgb := Storage(other.profile.format, intr.width, intr.height)])
    {
      var width, height := aligned.width, aligned.height;
      var p := Points(depth, other);
      if !aligned.kind.IsGpuAddon() {
        return Some(NotGpuOutput);
      }
      aligned.texture := Some(OutputTexture(outputRgb, other.profile.format));
      textureStorage := textureStorage[outputRgb := Storage(other.profile.format, width, height)];
      aligned.gpuWidth, aligned.gpuHeight := width, height;
      var intr := depth.profile.intrinsics;
      var extr := extrinsicsTo(depth.profile, depth.profile);
      err := Render(p, other, intr, extr, outputRgb, outcome);
    }

    /**
     * `~align_gl`: cleanup runs as a guarded action with an empty fallback
     * and every exception is caught, so there is no error to return.
     */
    method Destroy(outcome: GlOutcome)
      requires Valid()
      modifies this
      ensures Valid()
      ensures outcome == Completed ==> AllAbsent() && enabled == 0
      ensures outcome == Failed ==> unchanged(this)
      ensures renders == old(renders) && textureStorage == old(textureStorage)
    {
      if outcome == Completed {
        CleanupGpuResources();
      }
    }
  }
}
