/**
 * The reflow effect over JavaScript numbers. The canvas-size fields hold
 * `parseInt` of their text, so an emptied field makes the canvas size NaN
 * until the field loses focus. `Math.max`, `Math.min` and subtraction
 * propagate NaN, and the reflow then writes NaN into the buttons' geometry.
 * `ReflowBoxAsWritten` is the effect as the code has it;
 * `ReflowBoxCorrected` skips the reflow while a size is NaN, which keeps
 * the geometry the blur is meant to restore.
 */
module ReflowNumbers {
  import opened Common
  import opened Geometry

  /** `Math.max` on numbers: NaN when either argument is NaN. */
  function JsMax(a: Numeric, b: Numeric): (r: Numeric)
    ensures r.NaN? <==> a.NaN? || b.NaN?
    ensures r.Num? ==> r.n == Max(a.n, b.n)
  {
    if a.NaN? || b.NaN? then NaN else Num(Max(a.n, b.n))
  }

  /** `Math.min` on numbers: NaN when either argument is NaN. */
  function JsMin(a: Numeric, b: Numeric): (r: Numeric)
    ensures r.NaN? <==> a.NaN? || b.NaN?
    ensures r.Num? ==> r.n == Min(a.n, b.n)
  {
    if a.NaN? || b.NaN? then NaN else Num(Min(a.n, b.n))
  }

  /** Subtraction on numbers: NaN when either operand is NaN. */
  function JsSub(a: Numeric, b: Numeric): (r: Numeric)
    ensures r.NaN? <==> a.NaN? || b.NaN?
    ensures r.Num? ==> r.n == a.n - b.n
  {
    if a.NaN? || b.NaN? then NaN else Num(a.n - b.n)
  }

  /** A button's geometry as JavaScript numbers. */
  datatype NumBox = NumBox(x: Numeric, y: Numeric, width: Numeric, height: Numeric)

  function ToNumBox(b: Box): NumBox {
    NumBox(Num(b.x), Num(b.y), Num(b.width), Num(b.height))
  }

  /** No coordinate or size is NaN. */
  predicate AllNumbers(b: NumBox) {
    b.x.Num? && b.y.Num? && b.width.Num? && b.height.Num?
  }

  /**
   * The reflow of one button as written: floor the size at 5, clamp the
   * position, then cap the size by what is left of the canvas.
   */
  function ReflowBoxAsWritten(b: NumBox, canvasWidth: Numeric, canvasHeight: Numeric): (r: NumBox)
    ensures canvasWidth.NaN? || b.x.NaN? || b.width.NaN? ==> r.x.NaN? && r.width.NaN?
    ensures canvasHeight.NaN? || b.y.NaN? || b.height.NaN? ==> r.y.NaN? && r.height.NaN?
  {
    var floor := Num(MinButtonDimension);
    var width := JsMax(floor, b.width);
    var height := JsMax(floor, b.height);
    var x := JsMax(Num(0), JsMin(b.x, JsSub(canvasWidth, width)));
    var y := JsMax(Num(0), JsMin(b.y, JsSub(canvasHeight, height)));
    NumBox(x, y, JsMin(width, JsSub(canvasWidth, x)), JsMin(height, JsSub(canvasHeight, y)))
  }

  /** On numbers the effect as written is the integer reflow. */
  lemma AsWrittenAgreesOnNumbers(b: Box, canvasWidth: int, canvasHeight: int)
    ensures ReflowBoxAsWritten(ToNumBox(b), Num(canvasWidth), Num(canvasHeight))
            == ToNumBox(ReflowBox(b, canvasWidth, canvasHeight))
  {
  }

  /**
   * Emptying the width field and leaving it loses the button's horizontal
   * geometry: the NaN size makes x and width NaN, and the reflow at the
   * restored width of 100 keeps them NaN.
   */
  lemma EmptiedWidthLosesGeometry(b: Box, canvasHeight: int)
    ensures var emptied := ReflowBoxAsWritten(ToNumBox(b), NaN, Num(canvasHeight));
      && emptied.x.NaN? && emptied.width.NaN?
      && var blurred := ReflowBoxAsWritten(emptied, Num(100), Num(canvasHeight));
      blurred.x.NaN? && blurred.width.NaN?
  {
  }

  /** The reflow as it is evidently meant: a NaN size leaves the button as it is. */
  function ReflowBoxCorrected(b: NumBox, canvasWidth: Numeric, canvasHeight: Numeric): (r: NumBox)
    ensures canvasWidth.NaN? || canvasHeight.NaN? ==> r == b
    ensures AllNumbers(b) ==> AllNumbers(r)
  {
    if canvasWidth.NaN? || canvasHeight.NaN? then b
    else ReflowBoxAsWritten(b, canvasWidth, canvasHeight)
  }

  /** On numbers the corrected reflow is the integer reflow the editor uses. */
  lemma CorrectedAgreesOnNumbers(b: Box, canvasWidth: int, canvasHeight: int)
    ensures ReflowBoxCorrected(ToNumBox(b), Num(canvasWidth), Num(canvasHeight))
            == ToNumBox(ReflowBox(b, canvasWidth, canvasHeight))
  {
    AsWrittenAgreesOnNumbers(b, canvasWidth, canvasHeight);
  }

  /** The reflows run for a sequence of canvas sizes, in order. */
  function ReflowThrough(b: NumBox, sizes: seq<(Numeric, Numeric)>): (r: NumBox)
    ensures AllNumbers(b) ==> AllNumbers(r)
    decreases |sizes|
  {
    if sizes == [] then b
    else ReflowThrough(ReflowBoxCorrected(b, sizes[0].0, sizes[0].1), sizes[1..])
  }

  /**
   * Whatever the fields held in between, once the sizes are numbers of at
   * least 5 again the button is a well-placed box of integers: the
   * corrected reflow never loses a button's geometry.
   */
  lemma {:induction false} ReflowThroughEndsWellPlaced(b: Box, sizes: seq<(Numeric, Numeric)>, canvasWidth: int, canvasHeight: int)
    requires MinButtonDimension <= canvasWidth && MinButtonDimension <= canvasHeight
    ensures exists r :: ReflowThrough(ToNumBox(b), sizes + [(Num(canvasWidth), Num(canvasHeight))]) == ToNumBox(r)
                        && WellPlaced(r, canvasWidth, canvasHeight)
    decreases |sizes|
  {
    var last := (Num(canvasWidth), Num(canvasHeight));
    if sizes == [] {
      CorrectedAgreesOnNumbers(b, canvasWidth, canvasHeight);
      assert ReflowThrough(ToNumBox(b), [last]) == ToNumBox(ReflowBox(b, canvasWidth, canvasHeight));
    } else {
      var first := ReflowBoxCorrected(ToNumBox(b), sizes[0].0, sizes[0].1);
      var b' := Box(first.x.n, first.y.n, first.width.n, first.height.n);
      assert first == ToNumBox(b');
      assert (sizes + [last])[1..] == sizes[1..] + [last];
      ReflowThroughEndsWellPlaced(b', sizes[1..], canvasWidth, canvasHeight);
    }
  }

  /** The same steps through the effect as written: emptying the width field loses the geometry for good. */
  lemma AsWrittenThroughEmptiedWidth(b: Box, canvasHeight: int)
    ensures var emptied := ReflowBoxAsWritten(ToNumBox(b), NaN, Num(canvasHeight));
      forall sizes: seq<(Numeric, Numeric)> :: AsWrittenThrough(emptied, sizes).x.NaN?
  {
    EmptiedWidthLosesGeometry(b, canvasHeight);
    var emptied := ReflowBoxAsWritten(ToNumBox(b), NaN, Num(canvasHeight));
    forall sizes: seq<(Numeric, Numeric)> ensures AsWrittenThrough(emptied, sizes).x.NaN? {
      AsWrittenThroughKeepsNaN(emptied, sizes);
    }
  }

  /** The reflows as written for a sequence of canvas sizes, in order. */
  function AsWrittenThrough(b: NumBox, sizes: seq<(Numeric, Numeric)>): (r: NumBox)
    ensures AllNumbers(b) && (forall k :: 0 <= k < |sizes| ==> sizes[k].0.Num? && sizes[k].1.Num?) ==> AllNumbers(r)
    decreases |sizes|
  {
    if sizes == [] then b
    else AsWrittenThrough(ReflowBoxAsWritten(b, sizes[0].0, sizes[0].1), sizes[1..])
  }

  /** A NaN x and width stay NaN through every later reflow as written. */
  lemma {:induction false} AsWrittenThroughKeepsNaN(b: NumBox, sizes: seq<(Numeric, Numeric)>)
    requires b.x.NaN? && b.width.NaN?
    ensures AsWrittenThrough(b, sizes).x.NaN? && AsWrittenThrough(b, sizes).width.NaN?
    decreases |sizes|
  {
    if sizes != [] {
      AsWrittenThroughKeepsNaN(ReflowBoxAsWritten(b, sizes[0].0, sizes[0].1), sizes[1..]);
    }
  }
}
