/**
 * The viewport of the editor: a uniform scale and a translation that map
 * image space (the background photo's pixels) to canvas space (what pointer
 * events report), canvas = image * scale + offset.
 */
module Transform {

  /** A point; whether it is in canvas or image space is said by its use. */
  datatype Point = Point(x: real, y: real)

  /** The module-level `scale`, `offsetX` and `offsetY` of the editor. */
  datatype View = View(scale: real, offsetX: real, offsetY: real)

  /** Bounds of the wheel zoom. */
  const MinScale: real := 0.5
  const MaxScale: real := 5.0

  /** Math.min and Math.max on reals. */
  function Min(a: real, b: real): real { if a <= b then a else b }
  function Max(a: real, b: real): real { if a >= b then a else b }

  /** Image space to canvas space: the transform the renderer applies. */
  function ToCanvas(v: View, q: Point): Point {
    Point(q.x * v.scale + v.offsetX, q.y * v.scale + v.offsetY)
  }

  /** Dividing by a non-zero k and multiplying back gives the original value. */
  lemma DivCancel(a: real, k: real)
    requires k != 0.0
    ensures (a / k) * k == a
  {
  }

  /** canvasToImageCoords: the inverse of ToCanvas. */
  function ToImage(v: View, p: Point): (q: Point)
    requires v.scale != 0.0
    ensures ToCanvas(v, q) == p
  {
    DivCancel(p.x - v.offsetX, v.scale);
    DivCancel(p.y - v.offsetY, v.scale);
    Point((p.x - v.offsetX) / v.scale, (p.y - v.offsetY) / v.scale)
  }

  /** The other direction of the round trip. */
  lemma ImageRoundTrip(v: View, q: Point)
    requires v.scale != 0.0
    ensures ToImage(v, ToCanvas(v, q)) == q
  {
  }

  /**
   * The view that zoomAtPoint installs: the requested scale, with the offset
   * chosen so that the image point under `anchor` stays under it.
   */
  function ZoomedView(v: View, newScale: real, anchor: Point): (r: View)
    requires v.scale != 0.0
    ensures r.scale == newScale
    ensures newScale != 0.0 ==> ToImage(r, anchor) == ToImage(v, anchor)
  {
    var q := ToImage(v, anchor);
    View(newScale, anchor.x - q.x * newScale, anchor.y - q.y * newScale)
  }

  /** Scale and anchor determine the zoomed view: no other view keeps the anchor. */
  lemma ZoomedViewUnique(v: View, newScale: real, anchor: Point, w: View)
    requires v.scale != 0.0 && newScale != 0.0
    requires w.scale == newScale && ToImage(w, anchor) == ToImage(v, anchor)
    ensures w == ZoomedView(v, newScale, anchor)
  {
    var q := ToImage(v, anchor);
    assert ToCanvas(w, q) == anchor;
  }

  /** The scale a wheel event asks for: scale - deltaY / 1000, clamped to [0.5, 5]. */
  function WheelScale(scale: real, deltaY: real): (r: real)
    ensures MinScale <= r <= MaxScale
    ensures MinScale <= scale - deltaY / 1000.0 <= MaxScale ==> r == scale - deltaY / 1000.0
    ensures scale - deltaY / 1000.0 < MinScale ==> r == MinScale
    ensures scale - deltaY / 1000.0 > MaxScale ==> r == MaxScale
  {
    var scaleAmount := -deltaY * 0.001;
    Min(Max(scale + scaleAmount, MinScale), MaxScale)
  }

  /**
   * The view that fits an image of imageW x imageH inside a canvas of
   * canvasW x canvasH and centres it (resetImageTransform). The scale is the
   * smaller of the two ratios and is not clamped to [MinScale, MaxScale].
   */
  function FittedView(canvasW: real, canvasH: real, imageW: real, imageH: real): (r: View)
    requires imageW > 0.0 && imageH > 0.0
    ensures r.scale <= canvasW / imageW && r.scale <= canvasH / imageH
    ensures r.scale == canvasW / imageW || r.scale == canvasH / imageH
    ensures imageW * r.scale <= canvasW && imageH * r.scale <= canvasH
    ensures r.offsetX == canvasW - (r.offsetX + imageW * r.scale)
    ensures r.offsetY == canvasH - (r.offsetY + imageH * r.scale)
  {
    var hRatio := canvasW / imageW;
    var vRatio := canvasH / imageH;
    var s := Min(hRatio, vRatio);
    assert imageW * hRatio == canvasW && imageH * vRatio == canvasH;
    View(s, (canvasW - imageW * s) / 2.0, (canvasH - imageH * s) / 2.0)
  }

  /**
   * On a non-empty canvas the fitted view is a proper zoom and shows the
   * whole image: the canvas corner (0, 0) maps to an image point at or above
   * and left of the image's origin, and the opposite corner to one at or
   * beyond its far corner, so nothing is cropped.
   */
  lemma FitShowsWholeImage(canvasW: real, canvasH: real, imageW: real, imageH: real)
    requires canvasW > 0.0 && canvasH > 0.0 && imageW > 0.0 && imageH > 0.0
    ensures var v := FittedView(canvasW, canvasH, imageW, imageH);
      v.scale > 0.0 && v.offsetX >= 0.0 && v.offsetY >= 0.0 &&
      ToImage(v, Point(0.0, 0.0)).x <= 0.0 && ToImage(v, Point(0.0, 0.0)).y <= 0.0 &&
      ToImage(v, Point(canvasW, canvasH)).x >= imageW &&
      ToImage(v, Point(canvasW, canvasH)).y >= imageH
  {
    var v := FittedView(canvasW, canvasH, imageW, imageH);
    assert v.scale > 0.0 by {
      assert canvasW / imageW > 0.0 && canvasH / imageH > 0.0;
    }
    var lo := ToImage(v, Point(0.0, 0.0));
    var hi := ToImage(v, Point(canvasW, canvasH));
    assert lo.x * v.scale == -v.offsetX && lo.y * v.scale == -v.offsetY;
    assert hi.x * v.scale == imageW * v.scale + v.offsetX;
    assert hi.y * v.scale == imageH * v.scale + v.offsetY;
    ScaledOrder(lo.x, 0.0, v.scale);
    ScaledOrder(lo.y, 0.0, v.scale);
    ScaledOrder(imageW, hi.x, v.scale);
    ScaledOrder(imageH, hi.y, v.scale);
  }

  /** Multiplying by a positive factor keeps the order of two reals. */
  lemma ScaledOrder(a: real, b: real, k: real)
    requires k > 0.0 && a * k <= b * k
    ensures a <= b
  {
  }

  /** The view after panning by (dx, dy) canvas pixels. */
  function Panned(v: View, dx: real, dy: real): (r: View)
    ensures r.scale == v.scale
    ensures forall q :: ToCanvas(r, q) == Point(ToCanvas(v, q).x + dx, ToCanvas(v, q).y + dy)
  {
    View(v.scale, v.offsetX + dx, v.offsetY + dy)
  }

  /** Panning moves the image with the pointer: the point that was under p is now under p + d. */
  lemma PanFollowsPointer(v: View, p: Point, dx: real, dy: real)
    requires v.scale != 0.0
    ensures ToImage(Panned(v, dx, dy), Point(p.x + dx, p.y + dy)) == ToImage(v, p)
  {
  }
}
