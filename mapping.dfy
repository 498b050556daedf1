/**
 * Pointer mapping and canvas sizing (project/src/components/DrawingBoard.tsx,
 * lines 32-39, 103-105 and 198-200).
 *
 * The canvas element is laid out at the container's CSS size and its backing
 * store holds floor(CSS size * devicePixelRatio) pixels.  A pointer position
 * in client coordinates is mapped into backing-store pixels by scaling its
 * offset from the element's bounding box.
 */
module Mapping {
  import opened Geometry

  /** The canvas element's getBoundingClientRect(), in CSS pixels. */
  datatype BoundingBox = BoundingBox(left: real, top: real, width: real, height: real)

  /** A box a pointer event can land on: it has a positive area. */
  predicate Hittable(box: BoundingBox)
  {
    box.width > 0.0 && box.height > 0.0
  }

  /**
   * Number of backing-store pixels along one axis: Math.floor(logical * scale).
   * The result is the largest whole number of pixels that fits in the scaled size.
   */
  function PhysicalSize(logical: nat, scale: real): (n: nat)
    requires scale > 0.0
    ensures n as real <= logical as real * scale < n as real + 1.0
    ensures n == 0 <==> logical as real * scale < 1.0
  {
    (logical as real * scale).Floor
  }

  /** (clientX - rect.left) * (canvas.width / rect.width): one axis of the pointer mapping. */
  function ToCanvasAxis(client: real, origin: real, extent: real, pixels: int): (v: real)
    requires extent > 0.0
    ensures v * extent == (client - origin) * pixels as real
    ensures client == origin ==> v == 0.0
    ensures client == origin + extent ==> v == pixels as real
  {
    (client - origin) * (pixels as real / extent)
  }

  /**
   * The canvas point a pointer event at (clientX, clientY) denotes; mouse-down and mouse-move
   * both use exactly this mapping.
   */
  function ToCanvasPoint(clientX: real, clientY: real, box: BoundingBox, width: int, height: int): (p: Point)
    requires Hittable(box)
    ensures p.x * box.width == (clientX - box.left) * width as real
    ensures p.y * box.height == (clientY - box.top) * height as real
  {
    Point(ToCanvasAxis(clientX, box.left, box.width, width),
          ToCanvasAxis(clientY, box.top, box.height, height))
  }

  /** The inverse mapping, from a canvas point back to the client position that denotes it. */
  function ToClientAxis(v: real, origin: real, extent: real, pixels: int): real
    requires pixels > 0
  {
    origin + v * (extent / pixels as real)
  }

  lemma AxisRoundTrip(client: real, v: real, origin: real, extent: real, pixels: int)
    requires extent > 0.0 && pixels > 0
    ensures ToClientAxis(ToCanvasAxis(client, origin, extent, pixels), origin, extent, pixels) == client
    ensures ToCanvasAxis(ToClientAxis(v, origin, extent, pixels), origin, extent, pixels) == v
  {
  }

  /**
   * On a canvas with a non-empty backing store the mapping is a bijection: every canvas point
   * is reached by exactly one client position, and mapping back recovers the pointer.
   */
  lemma MappingIsBijective(clientX: real, clientY: real, p: Point, box: BoundingBox, width: int, height: int)
    requires Hittable(box) && width > 0 && height > 0
    ensures var q := ToCanvasPoint(clientX, clientY, box, width, height);
      ToClientAxis(q.x, box.left, box.width, width) == clientX &&
      ToClientAxis(q.y, box.top, box.height, height) == clientY
    ensures ToCanvasPoint(ToClientAxis(p.x, box.left, box.width, width),
                          ToClientAxis(p.y, box.top, box.height, height), box, width, height) == p
  {
    AxisRoundTrip(clientX, p.x, box.left, box.width, width);
    AxisRoundTrip(clientY, p.y, box.top, box.height, height);
  }

  /**
   * The mapping is increasing along each axis when the backing store is non-empty, and the
   * element's edges map to the edges of the backing store: the top-left corner to (0, 0) and
   * the bottom-right corner to (canvas.width, canvas.height).
   */
  lemma MappingIsMonotoneAndEdgeExact(a: real, b: real, box: BoundingBox, width: int, height: int)
    requires Hittable(box) && width > 0 && height > 0
    requires a < b
    ensures ToCanvasAxis(a, box.left, box.width, width) < ToCanvasAxis(b, box.left, box.width, width)
    ensures ToCanvasPoint(box.left, box.top, box, width, height) == Point(0.0, 0.0)
    ensures ToCanvasPoint(box.left + box.width, box.top + box.height, box, width, height)
            == Point(width as real, height as real)
  {
    var k := width as real / box.width;
    var va := ToCanvasAxis(a, box.left, box.width, width);
    var vb := ToCanvasAxis(b, box.left, box.width, width);
    assert va == (a - box.left) * k && vb == (b - box.left) * k;
    ProductIsPositive(b - a, k);
    assert vb - va == (b - a) * k;
  }

  lemma ProductIsPositive(d: real, k: real)
    requires d > 0.0 && k > 0.0
    ensures d * k > 0.0
  {
  }

  /**
   * A 300 x 300 container on a display with devicePixelRatio 2 gets a 600 x 600 backing
   * store; its top-left corner maps to (0, 0) and its bottom-right corner to (600, 600).
   */
  lemma HighDensityExample(left: real, top: real)
    ensures PhysicalSize(300, 2.0) == 600
    ensures var box := BoundingBox(left, top, 300.0, 300.0);
      ToCanvasPoint(left, top, box, 600, 600) == Point(0.0, 0.0) &&
      ToCanvasPoint(left + 300.0, top + 300.0, box, 600, 600) == Point(600.0, 600.0)
  {
  }
}
