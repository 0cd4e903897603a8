/**
 * One pointer-move step of a gesture, over the button list: find the active
 * button, compute its new geometry (drag or resize) and write it into every
 * entry that carries the active id. Mouse and touch moves both reduce to
 * this step; they differ only in where the client coordinates come from.
 */
module Gesture {
  import opened Common
  import opened Geometry
  import opened ChartModel

  /** The first button with the id (`buttons.find`). */
  function FindById(buttons: seq<Button>, id: string): (r: Option<Button>)
    ensures r.None? <==> id !in Ids(buttons)
    ensures r.Some? ==> r.value in buttons && r.value.id == id
  {
    if buttons == [] then None
    else if buttons[0].id == id then Some(buttons[0])
    else
      assert Ids(buttons) == {buttons[0].id} + Ids(buttons[1..]) by {
        assert forall i :: 0 < i < |buttons| ==> buttons[i] == buttons[1..][i - 1];
      }
      FindById(buttons[1..], id)
  }

  /** The lookup returns the first button with the id, as `find` does. */
  lemma {:induction false} FindByIdFindsFirst(buttons: seq<Button>, id: string, i: int)
    requires 0 <= i < |buttons| && buttons[i].id == id
    requires forall j :: 0 <= j < i ==> buttons[j].id != id
    ensures FindById(buttons, id) == Some(buttons[i])
  {
    if i > 0 {
      var tail := buttons[1..];
      assert tail[i - 1] == buttons[i];
      forall j | 0 <= j < i - 1 ensures tail[j].id != id {
        assert tail[j] == buttons[j + 1];
      }
      FindByIdFindsFirst(tail, id, i - 1);
    }
  }

  /** The drag update: every entry with the id gets the new position and keeps everything else. */
  function MoveWhere(buttons: seq<Button>, id: string, p: Point): (r: seq<Button>)
    ensures |r| == |buttons|
    ensures forall i :: 0 <= i < |r| ==>
      r[i] == if buttons[i].id == id then buttons[i].(x := p.x, y := p.y) else buttons[i]
  {
    seq(|buttons|, i requires 0 <= i < |buttons| =>
      if buttons[i].id == id then buttons[i].(x := p.x, y := p.y) else buttons[i])
  }

  /** The resize update: every entry with the id gets the new box and keeps everything else. */
  function ReshapeWhere(buttons: seq<Button>, id: string, box: Box): (r: seq<Button>)
    ensures |r| == |buttons|
    ensures forall i :: 0 <= i < |r| ==>
      r[i] == if buttons[i].id == id then WithBox(buttons[i], box) else buttons[i]
  {
    seq(|buttons|, i requires 0 <= i < |buttons| =>
      if buttons[i].id == id then WithBox(buttons[i], box) else buttons[i])
  }

  /**
   * The move handler. `active`, `dragging`, `resizing`, `direction` and
   * `offset` are the gesture state; `pointer` is the event's client position;
   * `canvas` is the canvas's client rectangle, None when the canvas element is
   * not mounted. A move without an active id (an empty id counts as none, as
   * any falsy value does), without a canvas, or whose id is
   * no longer in the list changes nothing; otherwise only the entries with the
   * active id change: a drag moves them and keeps their size, a resize gives
   * them a box that lies inside the canvas. The new geometry is computed
   * from the first button with the id (`find`) and written into every entry
   * with that id.
   */
  function MoveStep(buttons: seq<Button>, active: Option<string>, dragging: bool, resizing: bool,
                    direction: Option<Direction>, offset: Point, pointer: Point, canvas: Option<Rect>): (r: seq<Button>)
    ensures |r| == |buttons|
    ensures forall i :: 0 <= i < |r| ==> r[i].id == buttons[i].id && SameButInGeometry(r[i], buttons[i])
    ensures forall i :: 0 <= i < |r| && (active.None? || buttons[i].id != active.value) ==> r[i] == buttons[i]
    ensures active.None? || active.value == "" || canvas.None? || active.value !in Ids(buttons) ==> r == buttons
    ensures dragging ==> forall i :: 0 <= i < |r| ==> r[i].width == buttons[i].width && r[i].height == buttons[i].height
    ensures !dragging && resizing && direction.Some? && active.Some? && active.value != "" && canvas.Some? ==>
      forall i :: 0 <= i < |r| && buttons[i].id == active.value ==>
        InCanvas(BoxOf(r[i]), canvas.value.width, canvas.value.height)
    ensures active.Some? && active.value != "" && canvas.Some? && active.value in Ids(buttons) && dragging ==>
      var cur := FindById(buttons, active.value).value;
      var p := DragTo(pointer, offset, canvas.value, cur.width, cur.height);
      forall i :: 0 <= i < |r| && buttons[i].id == active.value ==> r[i] == buttons[i].(x := p.x, y := p.y)
    ensures active.Some? && active.value != "" && canvas.Some? && active.value in Ids(buttons)
            && !dragging && resizing && direction.Some? ==>
      var cur := FindById(buttons, active.value).value;
      var box := Resize(direction.value, BoxOf(cur), pointer.x, pointer.y, canvas.value);
      forall i :: 0 <= i < |r| && buttons[i].id == active.value ==> r[i] == WithBox(buttons[i], box)
    ensures active.Some? && active.value in Ids(buttons) && !dragging && !(resizing && direction.Some?) ==> r == buttons
  {
    if active.None? || active.value == "" || canvas.None? then buttons
    else
      var id := active.value;
      var rect := canvas.value;
      match FindById(buttons, id)
      case None => buttons
      case Some(current) =>
        if dragging then
          MoveWhere(buttons, id, DragTo(pointer, offset, rect, current.width, current.height))
        else if resizing && direction.Some? then
          ReshapeWhere(buttons, id, Resize(direction.value, BoxOf(current), pointer.x, pointer.y, rect))
        else buttons
  }

  /** Every button's geometry satisfies the editor's invariant. */
  predicate AllWellPlaced(buttons: seq<Button>, canvasWidth: int, canvasHeight: int) {
    forall i :: 0 <= i < |buttons| ==> WellPlaced(BoxOf(buttons[i]), canvasWidth, canvasHeight)
  }

  /**
   * A drag or resize step keeps every button well placed when the canvas
   * rectangle has the canvas's size and ids are unique (a repeated id would
   * give its second entry a position computed from the first entry's size).
   */
  lemma MoveStepKeepsWellPlaced(buttons: seq<Button>, active: Option<string>, dragging: bool, resizing: bool,
                                direction: Option<Direction>, offset: Point, pointer: Point, canvas: Rect)
    requires UniqueIds(buttons)
    requires AllWellPlaced(buttons, canvas.width, canvas.height)
    ensures AllWellPlaced(MoveStep(buttons, active, dragging, resizing, direction, offset, pointer, Some(canvas)),
                          canvas.width, canvas.height)
  {
    var r := MoveStep(buttons, active, dragging, resizing, direction, offset, pointer, Some(canvas));
    if active.Some? && active.value != "" && active.value in Ids(buttons) {
      var id := active.value;
      var current := FindById(buttons, id).value;
      forall i | 0 <= i < |r| ensures WellPlaced(BoxOf(r[i]), canvas.width, canvas.height) {
        if buttons[i].id == id {
          var k :| 0 <= k < |buttons| && buttons[k] == current;
          assert k == i;
          if !dragging && resizing && direction.Some? {
            ResizeKeepsWellPlaced(direction.value, BoxOf(current), pointer.x, pointer.y, canvas);
          }
        }
      }
    }
  }

  /** The drag example: a 120 x 40 button pushed past the corner of an 800 x 500 canvas stops at (680, 460). */
  lemma DragClampExample()
    ensures DragTo(Point(790, 490), Point(0, 0), Rect(0, 0, 800, 500), 120, 40) == Point(680, 460)
  {
  }
}
