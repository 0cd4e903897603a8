/**
 * The geometry of the chart-editor canvas: resize-edge detection, the drag
 * step, the per-edge resize step, the fit of a box into the canvas and the
 * per-button reflow. Every coordinate is an integer pixel; the operations
 * use only `+`, `-`, `Math.min` and `Math.max`, as the editor does.
 */
module Geometry {
  import opened Common

  /** Smallest width or height a button is given by a resize or a reflow. */
  const MinButtonDimension: int := 5
  /** Width of the band along each edge of a button that starts a resize. */
  const ResizeTolerance: int := 8

  datatype Point = Point(x: int, y: int)
  /** A bounding client rectangle, as `getBoundingClientRect` reports it. */
  datatype Rect = Rect(left: int, top: int, width: int, height: int)
  /** A button's geometry in canvas-local coordinates. */
  datatype Box = Box(x: int, y: int, width: int, height: int)

  datatype Direction = N | S | E | W | NE | NW | SE | SW

  /** `Math.max(lo, Math.min(v, hi))`: when `hi < lo` the lower bound wins. */
  function Clamp(v: int, lo: int, hi: int): (r: int)
    ensures lo <= hi ==> lo <= r <= hi
    ensures hi < lo ==> r == lo
    ensures lo <= v <= hi ==> r == v
    ensures v < lo ==> r == lo
    ensures lo <= hi < v ==> r == hi
  {
    Max(lo, Min(v, hi))
  }

  // ---------------------------------------------------------------- edges

  /** The four tolerance bands, measured from the element's own top-left corner. */
  predicate NearLeft(x: int) { x < ResizeTolerance }
  predicate NearRight(x: int, width: int) { x > width - ResizeTolerance }
  predicate NearTop(y: int) { y < ResizeTolerance }
  predicate NearBottom(y: int, height: int) { y > height - ResizeTolerance }

  /**
   * The resize direction for a pointer at (x, y) relative to an element of the
   * given size, or None for the inner drag zone. Corners are tested first, then
   * the left, right, top and bottom sides, in that order.
   */
  function DetectEdge(x: int, y: int, width: int, height: int): (r: Option<Direction>)
    ensures r.None? <==> (ResizeTolerance <= x <= width - ResizeTolerance
                          && ResizeTolerance <= y <= height - ResizeTolerance)
    ensures NearLeft(x) && NearTop(y) ==> r == Some(NW)
  {
    if NearLeft(x) && NearTop(y) then Some(NW)
    else if NearRight(x, width) && NearTop(y) then Some(NE)
    else if NearLeft(x) && NearBottom(y, height) then Some(SW)
    else if NearRight(x, width) && NearBottom(y, height) then Some(SE)
    else if NearLeft(x) then Some(W)
    else if NearRight(x, width) then Some(E)
    else if NearTop(y) then Some(N)
    else if NearBottom(y, height) then Some(S)
    else None
  }

  /**
   * The zone of every direction, stated without the test order: a side zone
   * excludes both corner bands that touch it, and a corner yields to the
   * corners tested before it (so on an element narrower than twice the
   * tolerance the left corners win over the right ones).
   */
  lemma DetectEdgeZones(x: int, y: int, width: int, height: int)
    ensures var r := DetectEdge(x, y, width, height);
      && (r == Some(NW) <==> NearLeft(x) && NearTop(y))
      && (r == Some(NE) <==> !NearLeft(x) && NearRight(x, width) && NearTop(y))
      && (r == Some(SW) <==> NearLeft(x) && !NearTop(y) && NearBottom(y, height))
      && (r == Some(SE) <==> !NearLeft(x) && NearRight(x, width) && !NearTop(y) && NearBottom(y, height))
      && (r == Some(W) <==> NearLeft(x) && !NearTop(y) && !NearBottom(y, height))
      && (r == Some(E) <==> !NearLeft(x) && NearRight(x, width) && !NearTop(y) && !NearBottom(y, height))
      && (r == Some(N) <==> !NearLeft(x) && !NearRight(x, width) && NearTop(y))
      && (r == Some(S) <==> !NearLeft(x) && !NearRight(x, width) && !NearTop(y) && NearBottom(y, height))
  {
  }

  // ----------------------------------------------------------------- drag

  /**
   * The drag step: the pointer minus the grab offset, in canvas coordinates,
   * clamped so that the element of the given size stays on the canvas.
   */
  function DragTo(pointer: Point, offset: Point, canvas: Rect, width: int, height: int): (r: Point)
    ensures 0 <= r.x && 0 <= r.y
    ensures width <= canvas.width ==> r.x + width <= canvas.width
    ensures height <= canvas.height ==> r.y + height <= canvas.height
    ensures canvas.width < width ==> r.x == 0
    ensures canvas.height < height ==> r.y == 0
    ensures var want := pointer.x - offset.x - canvas.left;
      0 <= want <= canvas.width - width ==> r.x == want
    ensures var want := pointer.y - offset.y - canvas.top;
      0 <= want <= canvas.height - height ==> r.y == want
  {
    Point(Clamp(pointer.x - offset.x - canvas.left, 0, canvas.width - width),
          Clamp(pointer.y - offset.y - canvas.top, 0, canvas.height - height))
  }

  // ------------------------------------------------------------- resizing

  predicate MovesWest(d: Direction) { d == W || d == NW || d == SW }
  predicate MovesEast(d: Direction) { d == E || d == NE || d == SE }
  predicate MovesNorth(d: Direction) { d == N || d == NW || d == NE }
  predicate MovesSouth(d: Direction) { d == S || d == SW || d == SE }

  /**
   * The per-edge step of a resize, before the canvas clamp. `px` and `py` are
   * the pointer's client coordinates; `canvas` is the canvas's client rectangle.
   * One branch per direction, as the editor's switch has them. An axis the
   * edge moves gets a size of at least 5; an axis it does not move keeps its
   * position and size; only a west or north edge moves the position.
   */
  function ResizeRaw(d: Direction, b: Box, px: int, py: int, canvas: Rect): (r: Box)
    ensures MovesEast(d) || MovesWest(d) ==> r.width >= MinButtonDimension
    ensures MovesNorth(d) || MovesSouth(d) ==> r.height >= MinButtonDimension
    ensures !MovesEast(d) && !MovesWest(d) ==> r.x == b.x && r.width == b.width
    ensures !MovesNorth(d) && !MovesSouth(d) ==> r.y == b.y && r.height == b.height
    ensures !MovesWest(d) ==> r.x == b.x
    ensures !MovesNorth(d) ==> r.y == b.y
  {
    var dx := px - (b.x + canvas.left);
    var dy := py - (b.y + canvas.top);
    match d
    case E => Box(b.x, b.y, Max(MinButtonDimension, dx), b.height)
    case S => Box(b.x, b.y, b.width, Max(MinButtonDimension, dy))
    case W => Box(b.x + dx, b.y, Max(MinButtonDimension, b.width - dx), b.height)
    case N => Box(b.x, b.y + dy, b.width, Max(MinButtonDimension, b.height - dy))
    case SE => Box(b.x, b.y, Max(MinButtonDimension, dx), Max(MinButtonDimension, dy))
    case SW => Box(b.x + dx, b.y, Max(MinButtonDimension, b.width - dx), Max(MinButtonDimension, dy))
    case NE => Box(b.x, b.y + dy, Max(MinButtonDimension, dx), Max(MinButtonDimension, b.height - dy))
    case NW => Box(b.x + dx, b.y + dy, Max(MinButtonDimension, b.width - dx), Max(MinButtonDimension, b.height - dy))
  }

  /** The rule for one axis: the far edge follows the pointer, or the near edge does, or neither. */
  function AxisRule(far: bool, near: bool, pos: int, size: int, delta: int): (int, int) {
    if far then (pos, Max(MinButtonDimension, delta))
    else if near then (pos + delta, Max(MinButtonDimension, size - delta))
    else (pos, size)
  }

  /**
   * Every direction, corners included, is the two axis rules applied
   * independently: east/west decide x and width, north/south decide y and
   * height.
   */
  lemma ResizeRawIsPerAxis(d: Direction, b: Box, px: int, py: int, canvas: Rect)
    ensures var r := ResizeRaw(d, b, px, py, canvas);
      var h := AxisRule(MovesEast(d), MovesWest(d), b.x, b.width, px - (b.x + canvas.left));
      var v := AxisRule(MovesSouth(d), MovesNorth(d), b.y, b.height, py - (b.y + canvas.top));
      r == Box(h.0, v.0, h.1, v.1)
  {
  }

  /**
   * Dragging a west-type edge moves x with the pointer and keeps the right
   * edge where it was, as long as the width has not reached the floor.
   */
  lemma WestEdgeKeepsRightEdge(d: Direction, b: Box, px: int, py: int, canvas: Rect)
    requires MovesWest(d)
    requires b.width - (px - (b.x + canvas.left)) >= MinButtonDimension
    ensures var r := ResizeRaw(d, b, px, py, canvas);
      r.x == px - canvas.left && r.x + r.width == b.x + b.width
  {
  }

  /**
   * Past the floor the west edge keeps following the pointer: the width stays
   * at the minimum and x is still `x + diff`, so the right edge moves right.
   * (A 120-wide button at x = 50, pointer 300 px right of the canvas's left.)
   */
  lemma WestEdgeOvershootMovesRightEdge()
    ensures var r := ResizeRaw(W, Box(50, 50, 120, 40), 300, 60, Rect(0, 0, 800, 500));
      r == Box(300, 50, MinButtonDimension, 40) && r.x + r.width > 50 + 120
  {
  }

  /**
   * The second clamp of a resize, and the core of a reflow: position into
   * `[0, canvas - size]`, then size down to `canvas - position`.
   */
  function FitToCanvas(b: Box, canvasWidth: int, canvasHeight: int): (r: Box)
    ensures 0 <= r.x && r.x + r.width <= canvasWidth
    ensures 0 <= r.y && r.y + r.height <= canvasHeight
    ensures r.width <= b.width && r.height <= b.height
    ensures MinButtonDimension <= canvasWidth && MinButtonDimension <= b.width ==> MinButtonDimension <= r.width
    ensures MinButtonDimension <= canvasHeight && MinButtonDimension <= b.height ==> MinButtonDimension <= r.height
    ensures b.width <= canvasWidth ==> r.width == b.width
    ensures b.height <= canvasHeight ==> r.height == b.height
    ensures InCanvas(b, canvasWidth, canvasHeight) ==> r == b
  {
    var x := Clamp(b.x, 0, canvasWidth - b.width);
    var y := Clamp(b.y, 0, canvasHeight - b.height);
    Box(x, y, Min(b.width, canvasWidth - x), Min(b.height, canvasHeight - y))
  }

  /** The box lies inside a canvas of the given size. */
  predicate InCanvas(b: Box, canvasWidth: int, canvasHeight: int) {
    0 <= b.x && b.x + b.width <= canvasWidth && 0 <= b.y && b.y + b.height <= canvasHeight
  }

  /** The editor's invariant for one button: inside the canvas and at least 5 x 5. */
  predicate WellPlaced(b: Box, canvasWidth: int, canvasHeight: int) {
    InCanvas(b, canvasWidth, canvasHeight) && b.width >= MinButtonDimension && b.height >= MinButtonDimension
  }

  /** A full resize step: the per-edge rule, then the clamp against the canvas rectangle. */
  function Resize(d: Direction, b: Box, px: int, py: int, canvas: Rect): (r: Box)
    ensures InCanvas(r, canvas.width, canvas.height)
    ensures MinButtonDimension <= canvas.width && (MovesEast(d) || MovesWest(d) || MinButtonDimension <= b.width)
            ==> MinButtonDimension <= r.width
    ensures MinButtonDimension <= canvas.height && (MovesNorth(d) || MovesSouth(d) || MinButtonDimension <= b.height)
            ==> MinButtonDimension <= r.height
  {
    FitToCanvas(ResizeRaw(d, b, px, py, canvas), canvas.width, canvas.height)
  }

  /** An east resize touches only the width, and inside the canvas it follows the pointer. */
  lemma EastResizeChangesOnlyWidth(b: Box, px: int, py: int, canvas: Rect)
    requires InCanvas(b, canvas.width, canvas.height)
    requires MinButtonDimension <= px - (b.x + canvas.left) <= canvas.width - b.x
    ensures Resize(E, b, px, py, canvas) == Box(b.x, b.y, px - (b.x + canvas.left), b.height)
  {
  }

  /** A resize step never leaves a well-placed button badly placed. */
  lemma ResizeKeepsWellPlaced(d: Direction, b: Box, px: int, py: int, canvas: Rect)
    requires WellPlaced(b, canvas.width, canvas.height)
    ensures WellPlaced(Resize(d, b, px, py, canvas), canvas.width, canvas.height)
  {
  }

  // --------------------------------------------------------------- reflow

  /** The reflow of one button's geometry: floor the size at 5, then fit it into the canvas. */
  function ReflowBox(b: Box, canvasWidth: int, canvasHeight: int): (r: Box)
    ensures InCanvas(r, canvasWidth, canvasHeight)
    ensures MinButtonDimension <= canvasWidth && MinButtonDimension <= canvasHeight
            ==> WellPlaced(r, canvasWidth, canvasHeight)
    ensures WellPlaced(b, canvasWidth, canvasHeight) ==> r == b
  {
    FitToCanvas(Box(b.x, b.y, Max(MinButtonDimension, b.width), Max(MinButtonDimension, b.height)),
                canvasWidth, canvasHeight)
  }

  /**
   * Reflowing twice is reflowing once, for every canvas size, including
   * canvases narrower than the 5-pixel floor (there the button ends at
   * x = 0 with the canvas's own width, and stays so).
   */
  lemma ReflowBoxIdempotent(b: Box, canvasWidth: int, canvasHeight: int)
    ensures ReflowBox(ReflowBox(b, canvasWidth, canvasHeight), canvasWidth, canvasHeight)
            == ReflowBox(b, canvasWidth, canvasHeight)
  {
    var r := ReflowBox(b, canvasWidth, canvasHeight);
    if canvasWidth < MinButtonDimension {
      assert r.x == 0 && r.width == canvasWidth;
    }
    if canvasHeight < MinButtonDimension {
      assert r.y == 0 && r.height == canvasHeight;
    }
  }

  /** A canvas shrink moves a button left just enough to fit and keeps its size. */
  lemma ReflowShrinkExample()
    ensures ReflowBox(Box(700, 50, 120, 40), 600, 500) == Box(480, 50, 120, 40)
  {
  }
}
