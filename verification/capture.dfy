/**
 * The digital-zoom capture crop. The preview is magnified by `zoom` about its
 * centre, so the capture takes the centred sub-rectangle of the native frame
 * that the magnified preview shows, and the canvas resamples it to 240 x 282.
 */
module Capture {

  const CANVAS_WIDTH: nat := 240
  const CANVAS_HEIGHT: nat := 282

  /** A source rectangle in native video pixels. */
  datatype Rect = Rect(x: real, y: real, width: real, height: real)

  /** The `drawImage` call a capture makes: source rectangle onto the whole canvas. */
  datatype DrawCall = DrawCall(source: Rect, destWidth: nat, destHeight: nat)

  /** The magnification for a zoom level held in tenths. */
  function ZoomFactor(tenths: int): (f: real)
    ensures 10 <= tenths <= 30 ==> 1.0 <= f <= 3.0
  {
    tenths as real / 10.0
  }

  /**
   * `srcWidth = W / zoom`, `srcHeight = H / zoom`, and the rectangle is
   * centred: `srcX = (W - srcWidth) / 2`, `srcY = (H - srcHeight) / 2`.
   */
  function CropFor(videoWidth: nat, videoHeight: nat, zoom: real): (r: Rect)
    requires zoom > 0.0
    ensures r.width * zoom == videoWidth as real
    ensures r.height * zoom == videoHeight as real
    ensures r.x + r.width + r.x == videoWidth as real
    ensures r.y + r.height + r.y == videoHeight as real
  {
    var w := videoWidth as real / zoom;
    var h := videoHeight as real / zoom;
    Rect((videoWidth as real - w) / 2.0, (videoHeight as real - h) / 2.0, w, h)
  }

  /** At any zoom of at least 1.0 the crop lies inside the frame. */
  lemma CropInsideFrame(videoWidth: nat, videoHeight: nat, zoom: real)
    requires zoom >= 1.0
    ensures var r := CropFor(videoWidth, videoHeight, zoom);
      && 0.0 <= r.x && r.x + r.width <= videoWidth as real
      && 0.0 <= r.y && r.y + r.height <= videoHeight as real
      && 0.0 <= r.width && 0.0 <= r.height
  {
  }

  /** At zoom 1.0 the crop is the whole frame. */
  lemma CropAtUnitZoom(videoWidth: nat, videoHeight: nat)
    ensures CropFor(videoWidth, videoHeight, 1.0)
         == Rect(0.0, 0.0, videoWidth as real, videoHeight as real)
  {
  }

  /** More zoom takes a smaller crop, still about the same centre. */
  lemma CropShrinksWithZoom(videoWidth: nat, videoHeight: nat, z1: real, z2: real)
    requires 0.0 < z1 <= z2
    ensures var a, b := CropFor(videoWidth, videoHeight, z1), CropFor(videoWidth, videoHeight, z2);
      && b.width <= a.width && b.height <= a.height
      && a.x <= b.x && a.y <= b.y
      && b.x + b.width <= a.x + a.width && b.y + b.height <= a.y + a.height
  {
    var a, b := CropFor(videoWidth, videoHeight, z1), CropFor(videoWidth, videoHeight, z2);
    ShorterSide(videoWidth, z1, z2, a.width, b.width);
    ShorterSide(videoHeight, z1, z2, a.height, b.height);
  }

  /** A side of length `side / z` shrinks as `z` grows. */
  lemma ShorterSide(side: nat, z1: real, z2: real, l1: real, l2: real)
    requires 0.0 < z1 <= z2 && l1 * z1 == side as real && l2 * z2 == side as real
    ensures l2 <= l1
  {
    assert 0.0 <= l2;
    assert l2 * z1 <= l2 * z2;
    assert (l1 - l2) * z1 >= 0.0;
  }
}
