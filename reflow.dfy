/**
 * The canvas reflow: whenever the canvas width or height changes, every
 * button is re-clamped into the canvas; the list is handed back unchanged
 * when no button moved, so that nothing re-renders.
 */
module Reflow {
  import opened Geometry
  import opened ChartModel

  /** One button after the reflow: the same record when its geometry did not change. */
  function ReflowButton(b: Button, canvasWidth: int, canvasHeight: int): (r: Button)
    ensures SameButInGeometry(r, b)
    ensures BoxOf(r) == ReflowBox(BoxOf(b), canvasWidth, canvasHeight)
  {
    var box := ReflowBox(BoxOf(b), canvasWidth, canvasHeight);
    if box == BoxOf(b) then b else WithBox(b, box)
  }

  /** The reflow of a whole list, element by element. */
  function ReflowAll(buttons: seq<Button>, canvasWidth: int, canvasHeight: int): (r: seq<Button>)
    ensures |r| == |buttons|
    ensures forall i :: 0 <= i < |r| ==> r[i] == ReflowButton(buttons[i], canvasWidth, canvasHeight)
  {
    seq(|buttons|, i requires 0 <= i < |buttons| => ReflowButton(buttons[i], canvasWidth, canvasHeight))
  }

  /**
   * The reflow as the editor runs it: map every button, raising `changed`
   * when one of them moved or was resized, and return the original list when
   * `changed` stayed false.
   */
  method ReflowButtons(prev: seq<Button>, canvasWidth: int, canvasHeight: int)
    returns (next: seq<Button>, changed: bool)
    ensures next == ReflowAll(prev, canvasWidth, canvasHeight)
    ensures changed <==> exists i :: 0 <= i < |prev| && ReflowButton(prev[i], canvasWidth, canvasHeight) != prev[i]
    ensures !changed ==> next == prev
  {
    changed := false;
    var updated: seq<Button> := [];
    var i := 0;
    while i < |prev|
      invariant 0 <= i <= |prev|
      invariant |updated| == i
      invariant forall k :: 0 <= k < i ==> updated[k] == ReflowButton(prev[k], canvasWidth, canvasHeight)
      invariant changed <==> exists k :: 0 <= k < i && ReflowButton(prev[k], canvasWidth, canvasHeight) != prev[k]
    {
      var b := prev[i];
      var box := ReflowBox(BoxOf(b), canvasWidth, canvasHeight);
      if box != BoxOf(b) {
        changed := true;
        updated := updated + [WithBox(b, box)];
      } else {
        updated := updated + [b];
      }
      i := i + 1;
    }
    if changed {
      next := updated;
    } else {
      next := prev;
      assert forall k :: 0 <= k < |prev| ==> ReflowButton(prev[k], canvasWidth, canvasHeight) == prev[k];
    }
  }

  /** After a reflow onto a canvas of at least 5 x 5 every button is well placed. */
  lemma ReflowAllWellPlaced(buttons: seq<Button>, canvasWidth: int, canvasHeight: int, i: int)
    requires MinButtonDimension <= canvasWidth && MinButtonDimension <= canvasHeight
    requires 0 <= i < |buttons|
    ensures WellPlaced(BoxOf(ReflowAll(buttons, canvasWidth, canvasHeight)[i]), canvasWidth, canvasHeight)
  {
  }

  /** The reflow keeps the list's length and order, every id and every non-geometry field. */
  lemma ReflowAllKeepsIdentity(buttons: seq<Button>, canvasWidth: int, canvasHeight: int)
    ensures var r := ReflowAll(buttons, canvasWidth, canvasHeight);
      |r| == |buttons| && forall i :: 0 <= i < |r| ==> r[i].id == buttons[i].id && SameButInGeometry(r[i], buttons[i])
  {
  }

  /** A list of well-placed buttons comes back unchanged. */
  lemma ReflowAllKeepsWellPlaced(buttons: seq<Button>, canvasWidth: int, canvasHeight: int)
    requires forall i :: 0 <= i < |buttons| ==> WellPlaced(BoxOf(buttons[i]), canvasWidth, canvasHeight)
    ensures ReflowAll(buttons, canvasWidth, canvasHeight) == buttons
  {
    var r := ReflowAll(buttons, canvasWidth, canvasHeight);
    assert forall i :: 0 <= i < |r| ==> r[i] == buttons[i];
  }

  /** Reflowing twice onto the same canvas changes nothing the second time. */
  lemma ReflowAllIdempotent(buttons: seq<Button>, canvasWidth: int, canvasHeight: int)
    ensures var once := ReflowAll(buttons, canvasWidth, canvasHeight);
      ReflowAll(once, canvasWidth, canvasHeight) == once
  {
    var once := ReflowAll(buttons, canvasWidth, canvasHeight);
    var twice := ReflowAll(once, canvasWidth, canvasHeight);
    forall i | 0 <= i < |once| ensures twice[i] == once[i] {
      ReflowBoxIdempotent(BoxOf(buttons[i]), canvasWidth, canvasHeight);
    }
  }
}
