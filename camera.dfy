/**
 * Camera calibration data and the matrices the GLSL aligner derives from it
 * on every render: the OpenGL frustum built from pinhole intrinsics, the
 * view matrix, and the transformation matrix built from extrinsics.
 * `float`/`double` values are modelled as `real`; the integer divisions of
 * the orthographic matrix are modelled as C++ integer division.
 */
module Camera {
  import opened Matrices

  /** `float rotation[9]` of `rs2_extrinsics`. */
  type Rotation = s: seq<real> | |s| == 9 witness seq(9, _ => 0.0)
  /** `float translation[3]` of `rs2_extrinsics`. */
  type Translation = s: seq<real> | |s| == 3 witness seq(3, _ => 0.0)

  /** The pinhole part of `rs2_intrinsics` (the distortion model is not used here). */
  datatype Intrinsics = Intrinsics(width: int, height: int, ppx: real, ppy: real, fx: real, fy: real)

  datatype Extrinsics = Extrinsics(rotation: Rotation, translation: Translation)

  /** `int viewport[4]`: x, y, width, height. */
  datatype Viewport = Viewport(x: int, y: int, width: int, height: int)

  /** The two out-parameters of `build_opengl_projection_for_intrinsics`. */
  datatype Projection = Projection(frustum: Mat4, viewport: Viewport)

  /** Clip planes `render` passes to the projection builder. */
  const NearClip: real := 0.001
  const FarClip: real := 100.0

  /** C++ `/` on `int`: the quotient is truncated toward zero. */
  function CDiv(a: int, b: int): int
    requires b != 0
  {
    var m := (if a < 0 then -a else a) / (if b < 0 then -b else b);
    if (a < 0) == (b < 0) then m else -m
  }

  /** `-(R+L)/(R-L)` with L = 0 is -1 whatever the sign of R. */
  lemma NegatedSelfQuotient(r: int)
    requires r != 0
    ensures CDiv(-r, r) == -1
  {
    var k := if r < 0 then -r else r;
    assert k / k == 1;
  }

  // ---------------------------------------------------------------------
  // build_opengl_projection_for_intrinsics

  /** Entry (i, j) of `ortho`, with L = 0, R = w, B = 0, T = h. */
  function OrthoEntry(w: int, h: int, n: real, f: real, i: int, j: int): real
    requires w != 0 && h != 0 && f != n
  {
    var (l, r, b, t) := (0, w, 0, h);
    if i == 0 && j == 0 then 2.0 / (r - l) as real
    else if i == 0 && j == 3 then CDiv(-(r + l), r - l) as real
    else if i == 1 && j == 1 then 2.0 / (t - b) as real
    else if i == 1 && j == 3 then CDiv(-(t + b), t - b) as real
    else if i == 2 && j == 2 then -2.0 / (f - n)
    else if i == 2 && j == 3 then -(f + n) / (f - n)
    else if i == 3 && j == 3 then 1.0
    else 0.0
  }

  /** Entry (i, j) of `tproj`, the camera matrix with a row added for depth. */
  function TProjEntry(alpha: real, beta: real, skew: real, u0: real, v0: real, n: real, f: real,
                      i: int, j: int): real
  {
    if i == 0 && j == 0 then alpha
    else if i == 0 && j == 1 then skew
    else if i == 0 && j == 2 then u0
    else if i == 1 && j == 1 then beta
    else if i == 1 && j == 2 then v0
    else if i == 2 && j == 2 then -(n + f)
    else if i == 2 && j == 3 then -n * f
    else if i == 3 && j == 2 then 1.0
    else 0.0
  }

  function Ortho(w: int, h: int, n: real, f: real): Mat4
    requires w != 0 && h != 0 && f != n
  {
    Tabulate((i, j) => OrthoEntry(w, h, n, f, i, j))
  }

  function TProj(alpha: real, beta: real, skew: real, u0: real, v0: real, n: real, f: real): Mat4 {
    Tabulate((i, j) => TProjEntry(alpha, beta, skew, u0, v0, n, f, i, j))
  }

  /**
   * `build_opengl_projection_for_intrinsics`: the viewport covers the whole
   * image and the frustum is `ortho * tproj`. The integer divisions need a
   * non-zero image size; the clip planes must differ.
   */
  function BuildProjection(alpha: real, beta: real, skew: real, u0: real, v0: real,
                           imgWidth: int, imgHeight: int, nearClip: real, farClip: real): Projection
    requires imgWidth != 0 && imgHeight != 0 && nearClip != farClip
  {
    Projection(Mul(Ortho(imgWidth, imgHeight, nearClip, farClip),
                   TProj(alpha, beta, skew, u0, v0, nearClip, farClip)),
               Viewport(0, 0, imgWidth - 0, imgHeight - 0))
  }

  /**
   * The viewport is the whole image, and every entry of the frustum in
   * closed form; in particular row 3 is exactly [0, 0, 1, 0].
   */
  lemma FrustumClosedForm(alpha: real, beta: real, skew: real, u0: real, v0: real, w: int, h: int, n: real, f: real)
    requires w != 0 && h != 0 && n != f
    ensures BuildProjection(alpha, beta, skew, u0, v0, w, h, n, f).viewport == Viewport(0, 0, w, h)
    ensures var p := BuildProjection(alpha, beta, skew, u0, v0, w, h, n, f).frustum;
      && At(p, 0, 0) == 2.0 * alpha / w as real && At(p, 0, 1) == 2.0 * skew / w as real
      && At(p, 0, 2) == 2.0 * u0 / w as real - 1.0 && At(p, 0, 3) == 0.0
      && At(p, 1, 0) == 0.0 && At(p, 1, 1) == 2.0 * beta / h as real
      && At(p, 1, 2) == 2.0 * v0 / h as real - 1.0 && At(p, 1, 3) == 0.0
      && At(p, 2, 0) == 0.0 && At(p, 2, 1) == 0.0
      && At(p, 2, 2) == (f + n) / (f - n) && At(p, 2, 3) == 2.0 * f * n / (f - n)
      && At(p, 3, 0) == 0.0 && At(p, 3, 1) == 0.0 && At(p, 3, 2) == 1.0 && At(p, 3, 3) == 0.0
  {
    FrustumRow0(alpha, beta, skew, u0, v0, w, h, n, f);
    FrustumRow1(alpha, beta, skew, u0, v0, w, h, n, f);
    FrustumRow2(alpha, beta, skew, u0, v0, w, h, n, f);
    FrustumRow3(alpha, beta, skew, u0, v0, w, h, n, f);
  }

  /** The closed form of `FrustumClosedForm`, entry by entry. */
  function FrustumEntry(alpha: real, beta: real, skew: real, u0: real, v0: real,
                        w: int, h: int, n: real, f: real, i: int, j: int): real
    requires w != 0 && h != 0 && n != f
  {
    if i == 0 && j == 0 then 2.0 * alpha / w as real
    else if i == 0 && j == 1 then 2.0 * skew / w as real
    else if i == 0 && j == 2 then 2.0 * u0 / w as real - 1.0
    else if i == 1 && j == 1 then 2.0 * beta / h as real
    else if i == 1 && j == 2 then 2.0 * v0 / h as real - 1.0
    else if i == 2 && j == 2 then (f + n) / (f - n)
    else if i == 2 && j == 3 then 2.0 * f * n / (f - n)
    else if i == 3 && j == 2 then 1.0
    else 0.0
  }

  lemma FrustumAt(alpha: real, beta: real, skew: real, u0: real, v0: real,
                  w: int, h: int, n: real, f: real, i: int, j: int)
    requires w != 0 && h != 0 && n != f && InRange(i, j)
    ensures At(BuildProjection(alpha, beta, skew, u0, v0, w, h, n, f).frustum, i, j)
         == FrustumEntry(alpha, beta, skew, u0, v0, w, h, n, f, i, j)
  {
    FrustumClosedForm(alpha, beta, skew, u0, v0, w, h, n, f);
    if i == 0 {
      if j == 0 {} else if j == 1 {} else if j == 2 {} else {}
    } else if i == 1 {
      if j == 0 {} else if j == 1 {} else if j == 2 {} else {}
    } else if i == 2 {
      if j == 0 {} else if j == 1 {} else if j == 2 {} else {}
    } else {
      if j == 0 {} else if j == 1 {} else if j == 2 {} else {}
    }
  }

  lemma FrustumRow0(alpha: real, beta: real, skew: real, u0: real, v0: real, w: int, h: int, n: real, f: real)
    requires w != 0 && h != 0 && n != f
    ensures var p := BuildProjection(alpha, beta, skew, u0, v0, w, h, n, f).frustum;
      && At(p, 0, 0) == 2.0 * alpha / w as real && At(p, 0, 1) == 2.0 * skew / w as real
      && At(p, 0, 2) == 2.0 * u0 / w as real - 1.0 && At(p, 0, 3) == 0.0
  {
    var p := BuildProjection(alpha, beta, skew, u0, v0, w, h, n, f).frustum;
    var o := Ortho(w, h, n, f);
    var t := TProj(alpha, beta, skew, u0, v0, n, f);
    OrthoAt(w, h, n, f);
    TProjAt(alpha, beta, skew, u0, v0, n, f);
    MulAt(o, t, 0, 0);
    MulAt(o, t, 0, 1);
    MulAt(o, t, 0, 2);
    MulAt(o, t, 0, 3);
  }

  lemma FrustumRow1(alpha: real, beta: real, skew: real, u0: real, v0: real, w: int, h: int, n: real, f: real)
    requires w != 0 && h != 0 && n != f
    ensures var p := BuildProjection(alpha, beta, skew, u0, v0, w, h, n, f).frustum;
      && At(p, 1, 0) == 0.0 && At(p, 1, 1) == 2.0 * beta / h as real
      && At(p, 1, 2) == 2.0 * v0 / h as real - 1.0 && At(p, 1, 3) == 0.0
  {
    var p := BuildProjection(alpha, beta, skew, u0, v0, w, h, n, f).frustum;
    var o := Ortho(w, h, n, f);
    var t := TProj(alpha, beta, skew, u0, v0, n, f);
    OrthoAt(w, h, n, f);
    TProjAt(alpha, beta, skew, u0, v0, n, f);
    MulAt(o, t, 1, 0);
    MulAt(o, t, 1, 1);
    MulAt(o, t, 1, 2);
    MulAt(o, t, 1, 3);
  }

  lemma FrustumRow2(alpha: real, beta: real, skew: real, u0: real, v0: real, w: int, h: int, n: real, f: real)
    requires w != 0 && h != 0 && n != f
    ensures var p := BuildProjection(alpha, beta, skew, u0, v0, w, h, n, f).frustum;
      && At(p, 2, 0) == 0.0 && At(p, 2, 1) == 0.0
      && At(p, 2, 2) == (f + n) / (f - n) && At(p, 2, 3) == 2.0 * f * n / (f - n)
  {
    var p := BuildProjection(alpha, beta, skew, u0, v0, w, h, n, f).frustum;
    var o := Ortho(w, h, n, f);
    var t := TProj(alpha, beta, skew, u0, v0, n, f);
    OrthoAt(w, h, n, f);
    TProjAt(alpha, beta, skew, u0, v0, n, f);
    MulAt(o, t, 2, 0);
    MulAt(o, t, 2, 1);
    MulAt(o, t, 2, 2);
    MulAt(o, t, 2, 3);
    assert At(p, 2, 2) == (-2.0 / (f - n)) * -(n + f) - (f + n) / (f - n);
    assert At(p, 2, 3) == (-2.0 / (f - n)) * (-n * f);
  }

  lemma FrustumRow3(alpha: real, beta: real, skew: real, u0: real, v0: real, w: int, h: int, n: real, f: real)
    requires w != 0 && h != 0 && n != f
    ensures var p := BuildProjection(alpha, beta, skew, u0, v0, w, h, n, f).frustum;
      && At(p, 3, 0) == 0.0 && At(p, 3, 1) == 0.0 && At(p, 3, 2) == 1.0 && At(p, 3, 3) == 0.0
  {
    var p := BuildProjection(alpha, beta, skew, u0, v0, w, h, n, f).frustum;
    var o := Ortho(w, h, n, f);
    var t := TProj(alpha, beta, skew, u0, v0, n, f);
    OrthoAt(w, h, n, f);
    TProjAt(alpha, beta, skew, u0, v0, n, f);
    MulAt(o, t, 3, 0);
    MulAt(o, t, 3, 1);
    MulAt(o, t, 3, 2);
    MulAt(o, t, 3, 3);
  }

  lemma OrthoAt(w: int, h: int, n: real, f: real)
    requires w != 0 && h != 0 && n != f
    ensures var o := Ortho(w, h, n, f);
      && At(o, 0, 0) == 2.0 / w as real && At(o, 0, 1) == 0.0 && At(o, 0, 2) == 0.0 && At(o, 0, 3) == -1.0
      && At(o, 1, 0) == 0.0 && At(o, 1, 1) == 2.0 / h as real && At(o, 1, 2) == 0.0 && At(o, 1, 3) == -1.0
      && At(o, 2, 0) == 0.0 && At(o, 2, 1) == 0.0 && At(o, 2, 2) == -2.0 / (f - n)
      && At(o, 2, 3) == -(f + n) / (f - n)
      && At(o, 3, 0) == 0.0 && At(o, 3, 1) == 0.0 && At(o, 3, 2) == 0.0 && At(o, 3, 3) == 1.0
  {
    NegatedSelfQuotient(w);
    NegatedSelfQuotient(h);
    forall i, j | InRange(i, j)
      ensures At(Ortho(w, h, n, f), i, j) == OrthoEntry(w, h, n, f, i, j)
    {
      TabulateAt((i, j) => OrthoEntry(w, h, n, f, i, j), i, j);
    }
  }

  lemma TProjAt(alpha: real, beta: real, skew: real, u0: real, v0: real, n: real, f: real)
    ensures var t := TProj(alpha, beta, skew, u0, v0, n, f);
      && At(t, 0, 0) == alpha && At(t, 0, 1) == skew && At(t, 0, 2) == u0 && At(t, 0, 3) == 0.0
      && At(t, 1, 0) == 0.0 && At(t, 1, 1) == beta && At(t, 1, 2) == v0 && At(t, 1, 3) == 0.0
      && At(t, 2, 0) == 0.0 && At(t, 2, 1) == 0.0 && At(t, 2, 2) == -(n + f) && At(t, 2, 3) == -n * f
      && At(t, 3, 0) == 0.0 && At(t, 3, 1) == 0.0 && At(t, 3, 2) == 1.0 && At(t, 3, 3) == 0.0
  {
    forall i, j | InRange(i, j)
      ensures At(TProj(alpha, beta, skew, u0, v0, n, f), i, j) == TProjEntry(alpha, beta, skew, u0, v0, n, f, i, j)
    {
      TabulateAt((i, j) => TProjEntry(alpha, beta, skew, u0, v0, n, f, i, j), i, j);
    }
  }

  // ---------------------------------------------------------------------
  // The matrix set-up in align_gl::render

  /**
   * The projection `render` hands to the renderer, in closed form: the
   * frustum for skew 0, `u0 = width - ppx`, `v0 = height - ppy` and the fixed
   * clip planes, with entries (3,2), (2,3) and (2,2) negated.
   */
  function RenderProjectionEntry(intr: Intrinsics, i: int, j: int): real
    requires intr.width != 0 && intr.height != 0
  {
    var (w, h) := (intr.width as real, intr.height as real);
    var (n, f) := (NearClip, FarClip);
    if i == 0 && j == 0 then 2.0 * intr.fx / w
    else if i == 0 && j == 2 then 2.0 * (w - intr.ppx) / w - 1.0
    else if i == 1 && j == 1 then 2.0 * intr.fy / h
    else if i == 1 && j == 2 then 2.0 * (h - intr.ppy) / h - 1.0
    else if i == 2 && j == 2 then -(f + n) / (f - n)
    else if i == 2 && j == 3 then -2.0 * f * n / (f - n)
    else if i == 3 && j == 2 then -1.0
    else 0.0
  }

  function RenderProjection(intr: Intrinsics): Mat4
    requires intr.width != 0 && intr.height != 0
  {
    Tabulate((i, j) => RenderProjectionEntry(intr, i, j))
  }

  lemma RenderProjectionAt(intr: Intrinsics, i: int, j: int)
    requires intr.width != 0 && intr.height != 0 && InRange(i, j)
    ensures At(RenderProjection(intr), i, j) == RenderProjectionEntry(intr, i, j)
  {
    TabulateAt((i, j) => RenderProjectionEntry(intr, i, j), i, j);
    assert -((NearClip + FarClip) / (FarClip - NearClip)) == -(FarClip + NearClip) / (FarClip - NearClip);
  }

  /** `m(3,2) *= -1; m(2,3) *= -1; m(2,2) *= -1`, as `render` applies them in place. */
  function FlipDepthSign(m: Mat4): Mat4 {
    var m1 := Set(m, 3, 2, At(m, 3, 2) * -1.0);
    var m2 := Set(m1, 2, 3, At(m1, 2, 3) * -1.0);
    Set(m2, 2, 2, At(m2, 2, 2) * -1.0)
  }

  lemma FlipDepthSignAt(m: Mat4, i: int, j: int)
    requires InRange(i, j)
    ensures At(FlipDepthSign(m), i, j)
         == if (i == 3 && j == 2) || (i == 2 && j == 3) || (i == 2 && j == 2) then -At(m, i, j) else At(m, i, j)
  {
  }

  /** The frustum `render` requests, before the sign fix-up. */
  function RequestedProjection(intr: Intrinsics): Projection
    requires intr.width != 0 && intr.height != 0
  {
    BuildProjection(intr.fx, intr.fy, 0.0, intr.width as real - intr.ppx, intr.height as real - intr.ppy,
                    intr.width, intr.height, NearClip, FarClip)
  }

  /** Negating entries (3,2), (2,3) and (2,2) of the requested frustum gives the closed form above. */
  lemma SignFixUpGivesRenderProjection(intr: Intrinsics)
    requires intr.width != 0 && intr.height != 0
    ensures FlipDepthSign(RequestedProjection(intr).frustum) == RenderProjection(intr)
  {
    SignFixUpRow0(intr);
    SignFixUpRow1(intr);
    SignFixUpRow2(intr);
    SignFixUpRow3(intr);
    EqualEntries(FlipDepthSign(RequestedProjection(intr).frustum), RenderProjection(intr));
  }

  lemma SignFixUpRow0(intr: Intrinsics)
    requires intr.width != 0 && intr.height != 0
    ensures var (m, r) := (FlipDepthSign(RequestedProjection(intr).frustum), RenderProjection(intr));
      At(m, 0, 0) == At(r, 0, 0) && At(m, 0, 1) == At(r, 0, 1) && At(m, 0, 2) == At(r, 0, 2) && At(m, 0, 3) == At(r, 0, 3)
  {
    var p := RequestedProjection(intr).frustum;
    var r := RenderProjection(intr);
    FrustumAt(intr.fx, intr.fy, 0.0, intr.width as real - intr.ppx, intr.height as real - intr.ppy,
              intr.width, intr.height, NearClip, FarClip, 0, 0);
    RenderProjectionAt(intr, 0, 0);
    FlipEntry(p, r, intr, 0, 0);
    FrustumAt(intr.fx, intr.fy, 0.0, intr.width as real - intr.ppx, intr.height as real - intr.ppy,
              intr.width, intr.height, NearClip, FarClip, 0, 1);
    RenderProjectionAt(intr, 0, 1);
    FlipEntry(p, r, intr, 0, 1);
    FrustumAt(intr.fx, intr.fy, 0.0, intr.width as real - intr.ppx, intr.height as real - intr.ppy,
              intr.width, intr.height, NearClip, FarClip, 0, 2);
    RenderProjectionAt(intr, 0, 2);
    FlipEntry(p, r, intr, 0, 2);
    FrustumAt(intr.fx, intr.fy, 0.0, intr.width as real - intr.ppx, intr.height as real - intr.ppy,
              intr.width, intr.height, NearClip, FarClip, 0, 3);
    RenderProjectionAt(intr, 0, 3);
    FlipEntry(p, r, intr, 0, 3);
  }

  lemma SignFixUpRow1(intr: Intrinsics)
    requires intr.width != 0 && intr.height != 0
    ensures var (m, r) := (FlipDepthSign(RequestedProjection(intr).frustum), RenderProjection(intr));
      At(m, 1, 0) == At(r, 1, 0) && At(m, 1, 1) == At(r, 1, 1) && At(m, 1, 2) == At(r, 1, 2) && At(m, 1, 3) == At(r, 1, 3)
  {
    var p := RequestedProjection(intr).frustum;
    var r := RenderProjection(intr);
    FrustumAt(intr.fx, intr.fy, 0.0, intr.width as real - intr.ppx, intr.height as real - intr.ppy,
              intr.width, intr.height, NearClip, FarClip, 1, 0);
    RenderProjectionAt(intr, 1, 0);
    FlipEntry(p, r, intr, 1, 0);
    FrustumAt(intr.fx, intr.fy, 0.0, intr.width as real - intr.ppx, intr.height as real - intr.ppy,
              intr.width, intr.height, NearClip, FarClip, 1, 1);
    RenderProjectionAt(intr, 1, 1);
    FlipEntry(p, r, intr, 1, 1);
    FrustumAt(intr.fx, intr.fy, 0.0, intr.width as real - intr.ppx, intr.height as real - intr.ppy,
              intr.width, intr.height, NearClip, FarClip, 1, 2);
    RenderProjectionAt(intr, 1, 2);
    FlipEntry(p, r, intr, 1, 2);
    FrustumAt(intr.fx, intr.fy, 0.0, intr.width as real - intr.ppx, intr.height as real - intr.ppy,
              intr.width, intr.height, NearClip, FarClip, 1, 3);
    RenderProjectionAt(intr, 1, 3);
    FlipEntry(p, r, intr, 1, 3);
  }

  lemma SignFixUpRow2(intr: Intrinsics)
    requires intr.width != 0 && intr.height != 0
    ensures var (m, r) := (FlipDepthSign(RequestedProjection(intr).frustum), RenderProjection(intr));
      At(m, 2, 0) == At(r, 2, 0) && At(m, 2, 1) == At(r, 2, 1) && At(m, 2, 2) == At(r, 2, 2) && At(m, 2, 3) == At(r, 2, 3)
  {
    var p := RequestedProjection(intr).frustum;
    var r := RenderProjection(intr);
    FrustumAt(intr.fx, intr.fy, 0.0, intr.width as real - intr.ppx, intr.height as real - intr.ppy,
              intr.width, intr.height, NearClip, FarClip, 2, 0);
    RenderProjectionAt(intr, 2, 0);
    FlipEntry(p, r, intr, 2, 0);
    FrustumAt(intr.fx, intr.fy, 0.0, intr.width as real - intr.ppx, intr.height as real - intr.ppy,
              intr.width, intr.height, NearClip, FarClip, 2, 1);
    RenderProjectionAt(intr, 2, 1);
    FlipEntry(p, r, intr, 2, 1);
    FrustumAt(intr.fx, intr.fy, 0.0, intr.width as real - intr.ppx, intr.height as real - intr.ppy,
              intr.width, intr.height, NearClip, FarClip, 2, 2);
    RenderProjectionAt(intr, 2, 2);
    FlipEntry(p, r, intr, 2, 2);
    FrustumAt(intr.fx, intr.fy, 0.0, intr.width as real - intr.ppx, intr.height as real - intr.ppy,
              intr.width, intr.height, NearClip, FarClip, 2, 3);
    RenderProjectionAt(intr, 2, 3);
    FlipEntry(p, r, intr, 2, 3);
  }

  lemma SignFixUpRow3(intr: Intrinsics)
    requires intr.width != 0 && intr.height != 0
    ensures var (m, r) := (FlipDepthSign(RequestedProjection(intr).frustum), RenderProjection(intr));
      At(m, 3, 0) == At(r, 3, 0) && At(m, 3, 1) == At(r, 3, 1) && At(m, 3, 2) == At(r, 3, 2) && At(m, 3, 3) == At(r, 3, 3)
  {
    var p := RequestedProjection(intr).frustum;
    var r := RenderProjection(intr);
    FrustumAt(intr.fx, intr.fy, 0.0, intr.width as real - intr.ppx, intr.height as real - intr.ppy,
              intr.width, intr.height, NearClip, FarClip, 3, 0);
    RenderProjectionAt(intr, 3, 0);
    FlipEntry(p, r, intr, 3, 0);
    FrustumAt(intr.fx, intr.fy, 0.0, intr.width as real - intr.ppx, intr.height as real - intr.ppy,
              intr.width, intr.height, NearClip, FarClip, 3, 1);
    RenderProjectionAt(intr, 3, 1);
    FlipEntry(p, r, intr, 3, 1);
    FrustumAt(intr.fx, intr.fy, 0.0, intr.width as real - intr.ppx, intr.height as real - intr.ppy,
              intr.width, intr.height, NearClip, FarClip, 3, 2);
    RenderProjectionAt(intr, 3, 2);
    FlipEntry(p, r, intr, 3, 2);
    FrustumAt(intr.fx, intr.fy, 0.0, intr.width as real - intr.ppx, intr.height as real - intr.ppy,
              intr.width, intr.height, NearClip, FarClip, 3, 3);
    RenderProjectionAt(intr, 3, 3);
    FlipEntry(p, r, intr, 3, 3);
  }

  /** The sign fix-up at one entry, for any matrices holding the two closed forms there. */
  lemma FlipEntry(m: Mat4, r: Mat4, intr: Intrinsics, i: int, j: int)
    requires intr.width != 0 && intr.height != 0 && InRange(i, j)
    requires At(m, i, j) == FrustumEntry(intr.fx, intr.fy, 0.0, intr.width as real - intr.ppx,
                                         intr.height as real - intr.ppy, intr.width, intr.height, NearClip, FarClip, i, j)
    requires At(r, i, j) == RenderProjectionEntry(intr, i, j)
    ensures At(FlipDepthSign(m), i, j) == At(r, i, j)
  {
    FlipDepthSignAt(m, i, j);
    SignFixUpEntry(intr, i, j);
  }

  /** The entry-wise form of the sign fix-up, with no matrix in sight. */
  lemma SignFixUpEntry(intr: Intrinsics, i: int, j: int)
    requires intr.width != 0 && intr.height != 0 && InRange(i, j)
    ensures var e := FrustumEntry(intr.fx, intr.fy, 0.0, intr.width as real - intr.ppx, intr.height as real - intr.ppy,
                                  intr.width, intr.height, NearClip, FarClip, i, j);
      (if (i == 3 && j == 2) || (i == 2 && j == 3) || (i == 2 && j == 2) then -e else e)
      == RenderProjectionEntry(intr, i, j)
  {
    if i == 0 {
      if j == 0 {} else if j == 1 {} else if j == 2 {} else {}
    } else if i == 1 {
      if j == 0 {} else if j == 1 {} else if j == 2 {} else {}
    } else if i == 2 {
      if j == 0 {} else if j == 1 {} else if j == 2 {} else {}
    } else {
      if j == 0 {} else if j == 1 {} else if j == 2 {} else {}
    }
  }

  /** The camera matrix `render` hands to the renderer: the identity with (2,2) = -1. */
  function ViewMatrix(): Mat4 {
    Tabulate(ViewEntry)
  }

  function ViewEntry(i: int, j: int): real {
    if i == 2 && j == 2 then -1.0 else IdentityEntry(i, j)
  }

  lemma ViewAt(i: int, j: int)
    requires InRange(i, j)
    ensures At(ViewMatrix(), i, j) == ViewEntry(i, j)
  {
    TabulateAt(ViewEntry, i, j);
  }

  /** Entry (i, j) of the transformation matrix built from extrinsics. */
  function TransformEntry(e: Extrinsics, i: int, j: int): real {
    if 0 <= i < 3 && 0 <= j < 3 then e.rotation[3 * i + j]
    else if i == 3 && 0 <= j < 3 then e.translation[j]
    else IdentityEntry(i, j)
  }

  /** The identity with the rotation in the upper-left block and the translation in row 3. */
  function ExtrinsicsMatrix(e: Extrinsics): Mat4 {
    Tabulate((i, j) => TransformEntry(e, i, j))
  }

  lemma ExtrinsicsMatrixAt(e: Extrinsics, i: int, j: int)
    requires InRange(i, j)
    ensures At(ExtrinsicsMatrix(e), i, j) == TransformEntry(e, i, j)
  {
    TabulateAt((i, j) => TransformEntry(e, i, j), i, j);
  }

  /**
   * The matrix set-up of `render`: requests the projection, negates three of
   * its entries in place, builds the view matrix and the transformation.
   */
  method SetUpRenderMatrices(intr: Intrinsics, extr: Extrinsics)
    returns (projection: Mat4, viewport: Viewport, view: Mat4, transform: Mat4)
    requires intr.width != 0 && intr.height != 0
    ensures viewport == Viewport(0, 0, intr.width, intr.height)
    ensures projection == RenderProjection(intr)
    ensures view == ViewMatrix()
    ensures transform == ExtrinsicsMatrix(extr)
  {
    var requested := RequestedProjection(intr);
    viewport := requested.viewport;
    projection := NegateDepthEntries(requested.frustum);
    SignFixUpGivesRenderProjection(intr);
    view := BuildViewMatrix();
    transform := BuildTransformMatrix(extr);
  }

  /** `projection(3, 2) *= -1; projection(2, 3) *= -1; projection(2, 2) *= -1;`, one write at a time. */
  method NegateDepthEntries(m: Mat4) returns (projection: Mat4)
    ensures projection == FlipDepthSign(m)
  {
    projection := m;
    projection := Set(projection, 3, 2, At(projection, 3, 2) * -1.0);
    projection := Set(projection, 2, 3, At(projection, 2, 3) * -1.0);
    projection := Set(projection, 2, 2, At(projection, 2, 2) * -1.0);
  }

  /** `matrix4 view = matrix4::identity(); view(2, 2) = -1.f;` */
  method BuildViewMatrix() returns (view: Mat4)
    ensures view == ViewMatrix()
  {
    view := Set(Identity(), 2, 2, -1.0);
    forall i, j | InRange(i, j)
      ensures At(view, i, j) == At(ViewMatrix(), i, j)
    {
      IdentityAt(i, j);
      ViewAt(i, j);
    }
    Extensionality(view, ViewMatrix());
  }

  /**
   * Starts from the identity and, row by row, writes the rotation into the
   * upper-left block and the translation into row 3.
   */
  method BuildTransformMatrix(extr: Extrinsics) returns (transform: Mat4)
    ensures transform == ExtrinsicsMatrix(extr)
  {
    transform := Identity();
    forall p, q | InRange(p, q)
      ensures At(transform, p, q) == IdentityEntry(p, q)
    {
      IdentityAt(p, q);
    }
    var i := 0;
    while i < 3
      invariant 0 <= i <= 3
      invariant forall p, q | InRange(p, q) ::
        At(transform, p, q) == if p < i || (p == 3 && q < i) then TransformEntry(extr, p, q) else IdentityEntry(p, q)
    {
      var j := 0;
      while j < 3
        invariant 0 <= j <= 3
        invariant forall p, q | InRange(p, q) ::
          At(transform, p, q) ==
            if p < i || (p == 3 && q < i) || (p == i && q < j) then TransformEntry(extr, p, q)
            else IdentityEntry(p, q)
      {
        transform := Set(transform, i, j, extr.rotation[i * 3 + j]);
        j := j + 1;
      }
      transform := Set(transform, 3, i, extr.translation[i]);
      i := i + 1;
    }
    forall p, q | InRange(p, q)
      ensures At(transform, p, q) == At(ExtrinsicsMatrix(extr), p, q)
    {
      ExtrinsicsMatrixAt(extr, p, q);
    }
    Extensionality(transform, ExtrinsicsMatrix(extr));
  }

  // ---------------------------------------------------------------------
  // What the render matrices mean

  const IdentityRotation: Rotation := [1.0, 0.0, 0.0, 0.0, 1.0, 0.0, 0.0, 0.0, 1.0]
  const ZeroTranslation: Translation := [0.0, 0.0, 0.0]

  /** Identity extrinsics give exactly the identity transformation. */
  lemma IdentityExtrinsicsGiveIdentity()
    ensures ExtrinsicsMatrix(Extrinsics(IdentityRotation, ZeroTranslation)) == Identity()
  {
    var e := Extrinsics(IdentityRotation, ZeroTranslation);
    forall i, j | InRange(i, j)
      ensures At(ExtrinsicsMatrix(e), i, j) == At(Identity(), i, j)
    {
      ExtrinsicsMatrixAt(e, i, j);
      IdentityAt(i, j);
    }
    Extensionality(ExtrinsicsMatrix(e), Identity());
  }

  datatype Vec4 = Vec4(x: real, y: real, z: real, w: real)

  /** The matrix times a column vector, as the vertex stage applies it. */
  function Apply(m: Mat4, v: Vec4): Vec4 {
    Vec4(At(m, 0, 0) * v.x + At(m, 0, 1) * v.y + At(m, 0, 2) * v.z + At(m, 0, 3) * v.w,
         At(m, 1, 0) * v.x + At(m, 1, 1) * v.y + At(m, 1, 2) * v.z + At(m, 1, 3) * v.w,
         At(m, 2, 0) * v.x + At(m, 2, 1) * v.y + At(m, 2, 2) * v.z + At(m, 2, 3) * v.w,
         At(m, 3, 0) * v.x + At(m, 3, 1) * v.y + At(m, 3, 2) * v.z + At(m, 3, 3) * v.w)
  }

  /** OpenGL's viewport transform of a clip-space position to window x and y. */
  function WindowXY(vp: Viewport, clip: Vec4): (real, real)
    requires clip.w != 0.0
  {
    (vp.x as real + (clip.x / clip.w + 1.0) * vp.width as real / 2.0,
     vp.y as real + (clip.y / clip.w + 1.0) * vp.height as real / 2.0)
  }

  /** The clip-space position of camera-space point (x, y, z) under the render matrices. */
  function ClipPosition(intr: Intrinsics, x: real, y: real, z: real): Vec4
    requires intr.width != 0 && intr.height != 0
  {
    Apply(RenderProjection(intr), Apply(ViewMatrix(), Vec4(x, y, z, 1.0)))
  }

  /** ClipPosition written out entry by entry. */
  lemma ClipPositionClosedForm(intr: Intrinsics, x: real, y: real, z: real)
    requires intr.width != 0 && intr.height != 0
    ensures var (w, h) := (intr.width as real, intr.height as real);
      var c := ClipPosition(intr, x, y, z);
      && c.x == 2.0 * intr.fx / w * x + (2.0 * (w - intr.ppx) / w - 1.0) * -z
      && c.y == 2.0 * intr.fy / h * y + (2.0 * (h - intr.ppy) / h - 1.0) * -z
      && c.z == -(FarClip + NearClip) / (FarClip - NearClip) * -z - 2.0 * FarClip * NearClip / (FarClip - NearClip)
      && c.w == z
  {
    ViewAt(0, 0);
    RenderProjectionAt(intr, 0, 0);
    ViewAt(0, 1);
    RenderProjectionAt(intr, 0, 1);
    ViewAt(0, 2);
    RenderProjectionAt(intr, 0, 2);
    ViewAt(0, 3);
    RenderProjectionAt(intr, 0, 3);
    ViewAt(1, 0);
    RenderProjectionAt(intr, 1, 0);
    ViewAt(1, 1);
    RenderProjectionAt(intr, 1, 1);
    ViewAt(1, 2);
    RenderProjectionAt(intr, 1, 2);
    ViewAt(1, 3);
    RenderProjectionAt(intr, 1, 3);
    ViewAt(2, 0);
    RenderProjectionAt(intr, 2, 0);
    ViewAt(2, 1);
    RenderProjectionAt(intr, 2, 1);
    ViewAt(2, 2);
    RenderProjectionAt(intr, 2, 2);
    ViewAt(2, 3);
    RenderProjectionAt(intr, 2, 3);
    ViewAt(3, 0);
    RenderProjectionAt(intr, 3, 0);
    ViewAt(3, 1);
    RenderProjectionAt(intr, 3, 1);
    ViewAt(3, 2);
    RenderProjectionAt(intr, 3, 2);
    ViewAt(3, 3);
    RenderProjectionAt(intr, 3, 3);
    assert Apply(ViewMatrix(), Vec4(x, y, z, 1.0)) == Vec4(x, y, -z, 1.0);
  }

  /** The undistorted pinhole projection of (x, y, z) onto the image, in pixels. */
  function PinholePixel(intr: Intrinsics, x: real, y: real, z: real): (real, real)
    requires z != 0.0
  {
    (intr.fx * x / z + intr.ppx, intr.fy * y / z + intr.ppy)
  }

  /** One axis of the viewport transform undoes the normalisation of the projection. */
  lemma AxisToPixel(focal: real, pp: real, size: real, c: real, z: real)
    requires size != 0.0 && z != 0.0
    ensures ((2.0 * focal / size * c + (2.0 * (size - pp) / size - 1.0) * -z) / z + 1.0) * size / 2.0
         == focal * c / z + pp
  {
    var k := 2.0 * focal / size * c;
    var r := 2.0 * (size - pp) / size - 1.0;
    assert (k + r * -z) / z == k / z - r;
    assert k * size == 2.0 * focal * c;
    assert (k / z) * size / 2.0 == focal * c / z;
    assert r * size == 2.0 * (size - pp) - size;
    assert (1.0 - r) * size / 2.0 == pp;
  }

  /**
   * A point in front of the camera is rasterised exactly at its pinhole
   * pixel: the projection, the view matrix and the viewport together
   * reproduce the intrinsics.
   */
  lemma RenderedPointLandsOnPinholePixel(intr: Intrinsics, x: real, y: real, z: real)
    requires intr.width != 0 && intr.height != 0 && z != 0.0
    ensures ClipPosition(intr, x, y, z).w == z
    ensures WindowXY(Viewport(0, 0, intr.width, intr.height), ClipPosition(intr, x, y, z))
         == PinholePixel(intr, x, y, z)
  {
    ClipPositionClosedForm(intr, x, y, z);
    WindowX(intr, x, y, z);
    WindowY(intr, x, y, z);
    var window := WindowXY(Viewport(0, 0, intr.width, intr.height), ClipPosition(intr, x, y, z));
    var pixel := PinholePixel(intr, x, y, z);
    assert pixel.0 == window.0;
    assert pixel.1 == window.1;
  }

  lemma WindowX(intr: Intrinsics, x: real, y: real, z: real)
    requires intr.width != 0 && intr.height != 0 && z != 0.0
    ensures ClipPosition(intr, x, y, z).w == z
    ensures WindowXY(Viewport(0, 0, intr.width, intr.height), ClipPosition(intr, x, y, z)).0
         == intr.fx * x / z + intr.ppx
  {
    ClipPositionClosedForm(intr, x, y, z);
    ViewportX(ClipPosition(intr, x, y, z), intr.fx, intr.ppx, intr.width, intr.height, x, z);
  }

  lemma WindowY(intr: Intrinsics, x: real, y: real, z: real)
    requires intr.width != 0 && intr.height != 0 && z != 0.0
    ensures ClipPosition(intr, x, y, z).w == z
    ensures WindowXY(Viewport(0, 0, intr.width, intr.height), ClipPosition(intr, x, y, z)).1
         == intr.fy * y / z + intr.ppy
  {
    ClipPositionClosedForm(intr, x, y, z);
    ViewportY(ClipPosition(intr, x, y, z), intr.fy, intr.ppy, intr.width, intr.height, y, z);
  }

  /** The viewport's x transform of a clip position in the closed form above. */
  lemma ViewportX(c: Vec4, focal: real, pp: real, w: int, h: int, x: real, z: real)
    requires w != 0 && z != 0.0 && c.w == z
    requires c.x == 2.0 * focal / w as real * x + (2.0 * (w as real - pp) / w as real - 1.0) * -z
    ensures WindowXY(Viewport(0, 0, w, h), c).0 == focal * x / z + pp
  {
    AxisToPixel(focal, pp, w as real, x, z);
  }

  /** The viewport's y transform of a clip position in the closed form above. */
  lemma ViewportY(c: Vec4, focal: real, pp: real, w: int, h: int, y: real, z: real)
    requires h != 0 && z != 0.0 && c.w == z
    requires c.y == 2.0 * focal / h as real * y + (2.0 * (h as real - pp) / h as real - 1.0) * -z
    ensures WindowXY(Viewport(0, 0, w, h), c).1 == focal * y / z + pp
  {
    AxisToPixel(focal, pp, h as real, y, z);
  }

  /** Normalised device depth of a point at distance z in front of the camera. */
  function NdcDepth(intr: Intrinsics, z: real): real
    requires intr.width != 0 && intr.height != 0 && z != 0.0
  {
    ClipPositionClosedForm(intr, 0.0, 0.0, z);
    ClipPosition(intr, 0.0, 0.0, z).z / ClipPosition(intr, 0.0, 0.0, z).w
  }

  /**
   * With the sign fix-up the near plane maps to depth -1, the far plane to
   * +1, and nearer points get smaller depth, so the depth test keeps the
   * nearest point.
   */
  lemma DepthOrderPreserved(intr: Intrinsics, z1: real, z2: real)
    requires intr.width != 0 && intr.height != 0
    requires 0.0 < z1 < z2
    ensures NdcDepth(intr, NearClip) == -1.0 && NdcDepth(intr, FarClip) == 1.0
    ensures NdcDepth(intr, z1) < NdcDepth(intr, z2)
  {
    var (n, f) := (NearClip, FarClip);
    forall z | z > 0.0
      ensures NdcDepth(intr, z) == (f + n) / (f - n) - 2.0 * f * n / ((f - n) * z)
    {
      ClipPositionClosedForm(intr, 0.0, 0.0, z);
    }
    assert 2.0 * f * n / ((f - n) * z1) > 2.0 * f * n / ((f - n) * z2);
  }
}
