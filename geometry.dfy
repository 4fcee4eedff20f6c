/**
 * The two pieces of arithmetic of the video stream component: the fixed-width downsample of
 * a captured frame, and the scale from native video pixels to displayed pixels applied to a
 * bounding box before it is stroked on the overlay.
 */
module Geometry {

  /** Width, in pixels, of every frame sent to the server. */
  const TargetWidth: nat := 320

  /** A rectangle: top-left corner, width and height. */
  datatype Rect = Rect(x: real, y: real, w: real, h: real)

  /** `(originalHeight / originalWidth) * targetWidth`: the height that keeps the aspect ratio. */
  function TargetHeight(originalWidth: nat, originalHeight: nat): (h: real)
    requires originalWidth != 0
    ensures h * originalWidth as real == originalHeight as real * TargetWidth as real
    ensures h >= 0.0
  {
    (originalHeight as real / originalWidth as real) * TargetWidth as real
  }

  /** The downsampled frame has the aspect ratio of the original one. */
  lemma AspectPreserved(originalWidth: nat, originalHeight: nat)
    requires originalWidth != 0
    ensures TargetHeight(originalWidth, originalHeight) / TargetWidth as real
            == originalHeight as real / originalWidth as real
  {
  }

  /** A frame that is already 320 pixels wide keeps its height. */
  lemma DownsampleOfTargetWidth(originalHeight: nat)
    ensures TargetHeight(TargetWidth, originalHeight) == originalHeight as real
  {
  }

  /**
   * The box in displayed pixels: x and w scale by `displayWidth / videoWidth`, y and h by
   * `displayHeight / videoHeight`, independently.
   */
  function ScaleBox(b: Rect, displayWidth: nat, displayHeight: nat, videoWidth: nat, videoHeight: nat): (r: Rect)
    requires videoWidth != 0 && videoHeight != 0
    ensures r.x * videoWidth as real == b.x * displayWidth as real
    ensures r.w * videoWidth as real == b.w * displayWidth as real
    ensures r.y * videoHeight as real == b.y * displayHeight as real
    ensures r.h * videoHeight as real == b.h * displayHeight as real
  {
    var scaleX := displayWidth as real / videoWidth as real;
    var scaleY := displayHeight as real / videoHeight as real;
    Rect(b.x * scaleX, b.y * scaleY, b.w * scaleX, b.h * scaleY)
  }

  /** Native 640x480 shown at 320x240 maps {100, 50, 40, 20} to {50, 25, 20, 10}. */
  lemma ScaleExample()
    ensures ScaleBox(Rect(100.0, 50.0, 40.0, 20.0), 320, 240, 640, 480) == Rect(50.0, 25.0, 20.0, 10.0)
  {
    var r := ScaleBox(Rect(100.0, 50.0, 40.0, 20.0), 320, 240, 640, 480);
    assert r.x * 640.0 == 100.0 * 320.0;
    assert r.y * 480.0 == 50.0 * 240.0;
  }

  /** Shown at native size, the box is unchanged. */
  lemma ScaleIdentity(b: Rect, videoWidth: nat, videoHeight: nat)
    requires videoWidth != 0 && videoHeight != 0
    ensures ScaleBox(b, videoWidth, videoHeight, videoWidth, videoHeight) == b
  {
  }

  /** Scaling back from the display to native pixels recovers the box. */
  lemma ScaleRoundTrip(b: Rect, displayWidth: nat, displayHeight: nat, videoWidth: nat, videoHeight: nat)
    requires videoWidth != 0 && videoHeight != 0
    requires displayWidth != 0 && displayHeight != 0
    ensures ScaleBox(ScaleBox(b, displayWidth, displayHeight, videoWidth, videoHeight),
                     videoWidth, videoHeight, displayWidth, displayHeight) == b
  {
    var r := ScaleBox(b, displayWidth, displayHeight, videoWidth, videoHeight);
    var q := ScaleBox(r, videoWidth, videoHeight, displayWidth, displayHeight);
    var dw, dh, vw, vh := displayWidth as real, displayHeight as real, videoWidth as real, videoHeight as real;
    assert q.x * dw * vw == b.x * dw * vw;
    assert q.w * dw * vw == b.w * dw * vw;
    assert q.y * dh * vh == b.y * dh * vh;
    assert q.h * dh * vh == b.h * dh * vh;
  }

  /** A box inside the native frame lands inside the displayed frame. */
  lemma ScaleStaysInside(b: Rect, displayWidth: nat, displayHeight: nat, videoWidth: nat, videoHeight: nat)
    requires videoWidth != 0 && videoHeight != 0
    requires 0.0 <= b.x && 0.0 <= b.w && b.x + b.w <= videoWidth as real
    requires 0.0 <= b.y && 0.0 <= b.h && b.y + b.h <= videoHeight as real
    ensures var r := ScaleBox(b, displayWidth, displayHeight, videoWidth, videoHeight);
      0.0 <= r.x && 0.0 <= r.w && r.x + r.w <= displayWidth as real &&
      0.0 <= r.y && 0.0 <= r.h && r.y + r.h <= displayHeight as real
  {
    var sx := displayWidth as real / videoWidth as real;
    var sy := displayHeight as real / videoHeight as real;
    assert sx >= 0.0 && sy >= 0.0;
    assert (b.x + b.w) * sx <= videoWidth as real * sx;
    assert (b.y + b.h) * sy <= videoHeight as real * sy;
  }
}
