/**
 * The state of the chart editor and its handlers. Each handler changes the
 * fields it names and no others; the geometry and list updates it performs
 * are the functions of Geometry, Reflow, Gesture, EditorOps and
 * ButtonSettings. DOM readings (client rectangles, whether the pointer went
 * down on the settings icon, the pointer's client position) and `Date.now()`
 * ids are parameters.
 */
module EditorLogic {
  import opened Common
  import opened Geometry
  import opened ChartModel
  import opened Reflow
  import opened Gesture
  import opened EditorOps
  import ButtonSettings

  const DefaultCanvasWidth: int := 800
  const DefaultCanvasHeight: int := 500

  /** `value || fallback` on a stored canvas size: a missing size or 0 gives the fallback. */
  function DefaultDimension(value: Option<int>, fallback: int): (r: int)
    ensures value.Some? && value.value != 0 ==> r == value.value
    ensures value.None? || value.value == 0 ==> r == fallback
  {
    if value.Some? && value.value != 0 then value.value else fallback
  }

  /** A size saved by the editor is read back as that size, unless it is 0. */
  lemma DefaultDimensionRoundTrip(size: int, fallback: int)
    requires size != 0
    ensures DefaultDimension(Some(size), fallback) == size
  {
  }

  class ChartEditorLogic {
    /** The chart the editor was opened with (cancel asks whether a draft was in it). */
    var chart: StoredChart
    var chartName: string
    var buttons: seq<Button>
    var canvasWidth: int
    var canvasHeight: int

    var isButtonModalOpen: bool
    var editingButton: Option<Button>
    var isLegendPreviewOpen: bool
    var tempLegendOverrides: map<string, string>
    var selectedFolderIdForModal: Option<string>
    /** The folders of the range catalogue, as the range context provides them. */
    var folders: seq<Folder>

    var activeButtonId: Option<string>
    var isDragging: bool
    var isResizing: bool
    var dragOffset: Point
    var resizeDirection: Option<Direction>

    /** The window-level move and release listeners are attached exactly while a gesture runs. */
    predicate Listening()
      reads this
    {
      isDragging || isResizing
    }

    /**
     * A gesture is running exactly when a button is active, and a resize
     * always knows its direction.
     */
    predicate GestureConsistent()
      reads this
    {
      && (isDragging || isResizing <==> activeButtonId.Some?)
      && (isResizing ==> resizeDirection.Some?)
    }

    /** While the dialog is open on a draft, the chosen folder is the one that holds the draft's link. */
    predicate FolderInStep()
      reads this
    {
      isButtonModalOpen && editingButton.Some? ==>
        selectedFolderIdForModal == ButtonSettings.ParentFolderId(editingButton.value, folders)
    }

    /**
     * The effect that runs after a render in which the dialog's state, the
     * draft or the folders changed: while the dialog is open on a draft it
     * re-derives the chosen folder from the draft's link, overwriting what
     * a handler set; otherwise it does nothing.
     */
    method SyncFolderWithDraft()
      modifies this`selectedFolderIdForModal
      ensures FolderInStep()
      ensures !(isButtonModalOpen && editingButton.Some?) ==> selectedFolderIdForModal == old(selectedFolderIdForModal)
    {
      if isButtonModalOpen && editingButton.Some? {
        selectedFolderIdForModal := ButtonSettings.ParentFolderId(editingButton.value, folders);
      }
    }

    /**
     * Mount: the chart's name, buttons and canvas size (800 x 500 when
     * missing or 0) are loaded, and the first run of the reflow effect
     * re-clamps the buttons into that canvas. No dialog is open and no
     * gesture runs.
     */
    constructor(c: StoredChart, catalogue: seq<Folder>)
      ensures chart == c && chartName == c.name && folders == catalogue
      ensures canvasWidth == DefaultDimension(c.canvasWidth, DefaultCanvasWidth)
      ensures canvasHeight == DefaultDimension(c.canvasHeight, DefaultCanvasHeight)
      ensures buttons == ReflowAll(c.buttons, canvasWidth, canvasHeight)
      ensures !isButtonModalOpen && editingButton.None? && !isLegendPreviewOpen
      ensures tempLegendOverrides == map[] && selectedFolderIdForModal.None?
      ensures activeButtonId.None? && !isDragging && !isResizing
      ensures dragOffset == Point(0, 0) && resizeDirection.None?
      ensures GestureConsistent() && FolderInStep()
    {
      var w := DefaultDimension(c.canvasWidth, DefaultCanvasWidth);
      var h := DefaultDimension(c.canvasHeight, DefaultCanvasHeight);
      var reflowed, _ := ReflowButtons(c.buttons, w, h);
      chart := c;
      chartName := c.name;
      buttons := reflowed;
      canvasWidth := w;
      canvasHeight := h;
      isButtonModalOpen := false;
      editingButton := None;
      isLegendPreviewOpen := false;
      tempLegendOverrides := map[];
      selectedFolderIdForModal := None;
      folders := catalogue;
      activeButtonId := None;
      isDragging := false;
      isResizing := false;
      dragOffset := Point(0, 0);
      resizeDirection := None;
    }

    /**
     * A new chart prop: name, buttons and canvas size are reloaded; the
     * reflow effect runs again only when the canvas size changed.
     */
    method LoadChart(c: StoredChart)
      modifies this`chart, this`chartName, this`buttons, this`canvasWidth, this`canvasHeight
      ensures chart == c && chartName == c.name
      ensures canvasWidth == DefaultDimension(c.canvasWidth, DefaultCanvasWidth)
      ensures canvasHeight == DefaultDimension(c.canvasHeight, DefaultCanvasHeight)
      ensures canvasWidth == old(canvasWidth) && canvasHeight == old(canvasHeight) ==> buttons == c.buttons
      ensures canvasWidth != old(canvasWidth) || canvasHeight != old(canvasHeight) ==>
        buttons == ReflowAll(c.buttons, canvasWidth, canvasHeight)
    {
      var w := DefaultDimension(c.canvasWidth, DefaultCanvasWidth);
      var h := DefaultDimension(c.canvasHeight, DefaultCanvasHeight);
      chart := c;
      chartName := c.name;
      buttons := c.buttons;
      if w != canvasWidth || h != canvasHeight {
        canvasWidth, canvasHeight := w, h;
        var reflowed, _ := ReflowButtons(buttons, w, h);
        buttons := reflowed;
      }
    }

    /** The range catalogue changes: the folder effect runs again. */
    method SetFolders(catalogue: seq<Folder>)
      modifies this`folders, this`selectedFolderIdForModal
      ensures folders == catalogue
      ensures FolderInStep()
      ensures !(isButtonModalOpen && editingButton.Some?) ==> selectedFolderIdForModal == old(selectedFolderIdForModal)
    {
      folders := catalogue;
      SyncFolderWithDraft();
    }

    /**
     * A new canvas width (already parsed). Setting the same width again
     * changes nothing; a different width re-clamps every button into the
     * new canvas.
     */
    method SetCanvasWidth(w: int)
      modifies this`canvasWidth, this`buttons
      ensures canvasWidth == w
      ensures w == old(canvasWidth) ==> buttons == old(buttons)
      ensures w != old(canvasWidth) ==> buttons == ReflowAll(old(buttons), w, canvasHeight)
      ensures MinButtonDimension <= w && MinButtonDimension <= canvasHeight && w != old(canvasWidth) ==>
        AllWellPlaced(buttons, canvasWidth, canvasHeight)
    {
      if w != canvasWidth {
        canvasWidth := w;
        var reflowed, _ := ReflowButtons(buttons, canvasWidth, canvasHeight);
        buttons := reflowed;
        forall i | 0 <= i < |buttons| && MinButtonDimension <= w && MinButtonDimension <= canvasHeight
          ensures WellPlaced(BoxOf(buttons[i]), canvasWidth, canvasHeight)
        {
          ReflowAllWellPlaced(old(buttons), canvasWidth, canvasHeight, i);
        }
      }
    }

    /** A new canvas height; the mirror image of SetCanvasWidth. */
    method SetCanvasHeight(h: int)
      modifies this`canvasHeight, this`buttons
      ensures canvasHeight == h
      ensures h == old(canvasHeight) ==> buttons == old(buttons)
      ensures h != old(canvasHeight) ==> buttons == ReflowAll(old(buttons), canvasWidth, h)
      ensures MinButtonDimension <= canvasWidth && MinButtonDimension <= h && h != old(canvasHeight) ==>
        AllWellPlaced(buttons, canvasWidth, canvasHeight)
    {
      if h != canvasHeight {
        canvasHeight := h;
        var reflowed, _ := ReflowButtons(buttons, canvasWidth, canvasHeight);
        buttons := reflowed;
        forall i | 0 <= i < |buttons| && MinButtonDimension <= canvasWidth && MinButtonDimension <= h
          ensures WellPlaced(BoxOf(buttons[i]), canvasWidth, canvasHeight)
        {
          ReflowAllWellPlaced(old(buttons), canvasWidth, canvasHeight, i);
        }
      }
    }

    /** Leaving the width field: a width under 100 is raised to 100, which reflows the buttons. */
    method BlurCanvasWidth()
      modifies this`canvasWidth, this`buttons
      ensures old(canvasWidth) >= MinCanvasDimension ==> canvasWidth == old(canvasWidth) && buttons == old(buttons)
      ensures old(canvasWidth) < MinCanvasDimension ==>
        canvasWidth == MinCanvasDimension && buttons == ReflowAll(old(buttons), MinCanvasDimension, canvasHeight)
    {
      var blurred := DimensionBlur(Num(canvasWidth));
      if blurred.Some? {
        SetCanvasWidth(blurred.value);
      }
    }

    /** Leaving the height field: a height under 100 is raised to 100, which reflows the buttons. */
    method BlurCanvasHeight()
      modifies this`canvasHeight, this`buttons
      ensures old(canvasHeight) >= MinCanvasDimension ==> canvasHeight == old(canvasHeight) && buttons == old(buttons)
      ensures old(canvasHeight) < MinCanvasDimension ==>
        canvasHeight == MinCanvasDimension && buttons == ReflowAll(old(buttons), canvasWidth, MinCanvasDimension)
    {
      var blurred := DimensionBlur(Num(canvasHeight));
      if blurred.Some? {
        SetCanvasHeight(blurred.value);
      }
    }

    // ------------------------------------------------------ edit lifecycle

    /**
     * "Add": a new text label is appended and opened in the settings dialog;
     * the folder effect then clears the chosen folder (a text label has none).
     */
    method AddButton(freshId: string)
      modifies this`buttons, this`editingButton, this`isButtonModalOpen, this`selectedFolderIdForModal
      ensures buttons == old(buttons) + [NewLabelButton(freshId)]
      ensures editingButton == Some(NewLabelButton(freshId)) && isButtonModalOpen
      ensures selectedFolderIdForModal.None? && FolderInStep()
    {
      var added := NewLabelButton(freshId);
      buttons := buttons + [added];
      editingButton := Some(added);
      isButtonModalOpen := true;
      SyncFolderWithDraft();
    }

    /**
     * The settings icon of a button opens the dialog on that button; the
     * folder effect chooses the folder holding the button's link.
     */
    method SettingsClick(b: Button)
      modifies this`editingButton, this`isButtonModalOpen, this`selectedFolderIdForModal
      ensures editingButton == Some(b) && isButtonModalOpen
      ensures selectedFolderIdForModal == ButtonSettings.ParentFolderId(b, folders) && FolderInStep()
    {
      editingButton := Some(b);
      isButtonModalOpen := true;
      SyncFolderWithDraft();
    }

    /**
     * "Save" in the dialog: the draft replaces every entry with its id and
     * the dialog closes; with no draft nothing happens.
     */
    method SaveButtonProperties()
      modifies this`buttons, this`editingButton, this`isButtonModalOpen
      ensures old(editingButton).None? ==>
        buttons == old(buttons) && editingButton.None? && isButtonModalOpen == old(isButtonModalOpen)
      ensures old(editingButton).Some? ==>
        buttons == ReplaceById(old(buttons), old(editingButton).value) && editingButton.None? && !isButtonModalOpen
      ensures |buttons| == |old(buttons)| && Ids(buttons) == Ids(old(buttons))
    {
      if editingButton.Some? {
        buttons := ReplaceById(buttons, editingButton.value);
        isButtonModalOpen := false;
        editingButton := None;
      }
    }

    /**
     * "Cancel" in the dialog: a draft that was not in the chart as loaded is
     * removed from the list; the dialog closes in every case.
     */
    method CancelButtonProperties()
      modifies this`buttons, this`editingButton, this`isButtonModalOpen
      ensures buttons == CancelEdit(old(buttons), chart.buttons, old(editingButton))
      ensures editingButton.None? && !isButtonModalOpen
    {
      buttons := CancelEdit(buttons, chart.buttons, editingButton);
      isButtonModalOpen := false;
      editingButton := None;
    }

    /**
     * "Copy" in the dialog: the draft, with a fresh id and moved by
     * (10, 10), is appended and the dialog closes; no existing entry changes.
     */
    method CopyButton(freshId: string)
      modifies this`buttons, this`editingButton, this`isButtonModalOpen
      ensures old(editingButton).None? ==>
        buttons == old(buttons) && editingButton.None? && isButtonModalOpen == old(isButtonModalOpen)
      ensures old(editingButton).Some? ==>
        && buttons == old(buttons) + [CopyOf(old(editingButton).value, freshId)]
        && editingButton.None? && !isButtonModalOpen
    {
      if editingButton.Some? {
        buttons := buttons + [CopyOf(editingButton.value, freshId)];
        isButtonModalOpen := false;
        editingButton := None;
      }
    }

    /**
     * One field control of the settings dialog. A disabled control does
     * nothing; an enabled one updates the draft, and the new draft makes the
     * folder effect run (picking a range chooses its folder).
     */
    method EditDraft(e: ButtonSettings.FieldEdit)
      modifies this`editingButton, this`selectedFolderIdForModal
      ensures var on := ButtonSettings.Enabled(old(editingButton), old(selectedFolderIdForModal), ButtonSettings.Field(e));
        && (on ==> editingButton == ButtonSettings.ApplyEdit(old(editingButton), e) && FolderInStep())
        && (!on ==> editingButton == old(editingButton))
        && (!on || !(isButtonModalOpen && editingButton.Some?) ==> selectedFolderIdForModal == old(selectedFolderIdForModal))
      ensures isButtonModalOpen && old(editingButton).Some? ==>
        (editingButton, selectedFolderIdForModal)
          == ButtonSettings.Operate(old(editingButton), old(selectedFolderIdForModal), ButtonSettings.Field(e), folders)
    {
      if ButtonSettings.Enabled(editingButton, selectedFolderIdForModal, ButtonSettings.Field(e)) {
        editingButton := ButtonSettings.ApplyEdit(editingButton, e);
        SyncFolderWithDraft();
      }
    }

    /**
     * The type radio of the dialog, disabled for an exit draft: the handler
     * updates the draft and the chosen folder; while the dialog is open on a
     * draft the folder effect then replaces that folder by the one holding
     * the new link.
     */
    method ChooseType(choice: ButtonSettings.TypeChoice)
      modifies this`editingButton, this`selectedFolderIdForModal
      ensures ButtonSettings.RadioDisabled(old(editingButton)) ==>
        editingButton == old(editingButton) && selectedFolderIdForModal == old(selectedFolderIdForModal)
      ensures !ButtonSettings.RadioDisabled(old(editingButton)) ==>
        var r := ButtonSettings.ChooseType(old(editingButton), choice, folders, old(selectedFolderIdForModal));
        && editingButton == r.0
        && FolderInStep()
        && (!(isButtonModalOpen && editingButton.Some?) ==> selectedFolderIdForModal == r.1)
      ensures isButtonModalOpen && old(editingButton).Some? ==>
        (editingButton, selectedFolderIdForModal)
          == ButtonSettings.Operate(old(editingButton), old(selectedFolderIdForModal), ButtonSettings.TypeRadio(choice), folders)
    {
      if !ButtonSettings.RadioDisabled(editingButton) {
        var r := ButtonSettings.ChooseType(editingButton, choice, folders, selectedFolderIdForModal);
        editingButton, selectedFolderIdForModal := r.0, r.1;
        SyncFolderWithDraft();
      }
    }

    /**
     * The folder select of the dialog, shown only for a range button: the
     * handler chooses the folder and links the draft to its first range;
     * while the dialog is open on a draft the folder effect then re-derives
     * the folder from that link.
     */
    method ChooseFolder(folderId: string)
      modifies this`editingButton, this`selectedFolderIdForModal
      ensures var shown := old(editingButton).Some? && old(editingButton).value.kind == Normal;
        && (!shown ==> editingButton == old(editingButton) && selectedFolderIdForModal == old(selectedFolderIdForModal))
        && (shown ==>
              var r := ButtonSettings.ChooseFolder(old(editingButton), folderId, folders);
              && editingButton == r.0
              && FolderInStep()
              && (!isButtonModalOpen ==> selectedFolderIdForModal == r.1))
      ensures isButtonModalOpen && old(editingButton).Some? ==>
        (editingButton, selectedFolderIdForModal)
          == ButtonSettings.Operate(old(editingButton), old(selectedFolderIdForModal), ButtonSettings.FolderSelect(folderId), folders)
    {
      if editingButton.Some? && editingButton.value.kind == Normal {
        var r := ButtonSettings.ChooseFolder(editingButton, folderId, folders);
        editingButton, selectedFolderIdForModal := r.0, r.1;
        SyncFolderWithDraft();
      }
    }

    /** The legend preview opens on a copy of the draft's overrides (empty when it has none). */
    method OpenLegendPreview()
      modifies this`tempLegendOverrides, this`isLegendPreviewOpen
      ensures old(editingButton).None? ==>
        tempLegendOverrides == old(tempLegendOverrides) && isLegendPreviewOpen == old(isLegendPreviewOpen)
      ensures old(editingButton).Some? ==>
        tempLegendOverrides == editingButton.value.legendOverrides.GetOr(map[]) && isLegendPreviewOpen
    {
      if editingButton.Some? {
        tempLegendOverrides := editingButton.value.legendOverrides.GetOr(map[]);
        isLegendPreviewOpen := true;
      }
    }

    /**
     * "Save" in the legend preview: the draft gets the cleaned overrides
     * (blank entries dropped, the rest trimmed) and nothing else; the preview
     * closes.
     */
    method SaveLegendOverrides()
      modifies this`editingButton, this`isLegendPreviewOpen, this`selectedFolderIdForModal
      ensures editingButton.Some? <==> old(editingButton).Some?
      ensures editingButton.Some? ==>
        editingButton.value == old(editingButton).value.(legendOverrides := Some(CleanedOverrides(tempLegendOverrides)))
      ensures !isLegendPreviewOpen
      ensures FolderInStep()
      ensures !(isButtonModalOpen && editingButton.Some?) ==> selectedFolderIdForModal == old(selectedFolderIdForModal)
    {
      var cleaned := CleanOverrides(tempLegendOverrides);
      if editingButton.Some? {
        editingButton := Some(editingButton.value.(legendOverrides := Some(cleaned)));
      }
      isLegendPreviewOpen := false;
      SyncFolderWithDraft();
    }

    // ------------------------------------------------------------- gesture

    /**
     * Mouse-down or touch-start on a button. On the settings icon nothing
     * starts. Otherwise the button becomes active; a pointer within 8 px of
     * an edge of the pressed element starts a resize in that direction, any
     * other position starts a drag; the grab offset is the pointer's
     * position inside the button. `target` is the pressed element's client
     * rectangle, `current` the button's; for a touch, `pointer` is the first
     * touch.
     */
    method PointerDown(buttonId: string, onSettingsIcon: bool, pointer: Point, target: Rect, current: Rect)
      requires GestureConsistent()
      modifies this`activeButtonId, this`isDragging, this`isResizing, this`resizeDirection, this`dragOffset
      ensures GestureConsistent()
      ensures onSettingsIcon ==>
        && activeButtonId == old(activeButtonId) && isDragging == old(isDragging) && isResizing == old(isResizing)
        && resizeDirection == old(resizeDirection) && dragOffset == old(dragOffset)
      ensures !onSettingsIcon ==>
        var direction := DetectEdge(pointer.x - target.left, pointer.y - target.top, target.width, target.height);
        && activeButtonId == Some(buttonId)
        && (direction.Some? ==> isResizing && resizeDirection == direction && isDragging == old(isDragging))
        && (direction.None? ==> isDragging && isResizing == old(isResizing) && resizeDirection == old(resizeDirection))
        && dragOffset == Point(pointer.x - current.left, pointer.y - current.top)
      ensures !onSettingsIcon ==> Listening()
    {
      if onSettingsIcon {
        return;
      }
      activeButtonId := Some(buttonId);
      var direction := DetectEdge(pointer.x - target.left, pointer.y - target.top, target.width, target.height);
      if direction.Some? {
        isResizing := true;
        resizeDirection := direction;
      } else {
        isDragging := true;
      }
      dragOffset := Point(pointer.x - current.left, pointer.y - current.top);
    }

    /**
     * A mouse move on the window: the active button is dragged or resized
     * (Gesture.MoveStep). Only the active button's geometry changes, and a
     * canvas whose rectangle has the editor's canvas size keeps every button
     * well placed.
     */
    method MouseMove(pointer: Point, canvas: Option<Rect>)
      modifies this`buttons
      ensures buttons == MoveStep(old(buttons), activeButtonId, isDragging, isResizing, resizeDirection,
                                  dragOffset, pointer, canvas)
      ensures !Listening() ==> buttons == old(buttons)
      ensures canvas.Some? && canvas.value.width == canvasWidth && canvas.value.height == canvasHeight
              && UniqueIds(old(buttons)) && AllWellPlaced(old(buttons), canvasWidth, canvasHeight) ==>
        AllWellPlaced(buttons, canvasWidth, canvasHeight)
    {
      if canvas.Some? && canvas.value.width == canvasWidth && canvas.value.height == canvasHeight
         && UniqueIds(buttons) && AllWellPlaced(buttons, canvasWidth, canvasHeight) {
        MoveStepKeepsWellPlaced(buttons, activeButtonId, isDragging, isResizing, resizeDirection,
                                dragOffset, pointer, canvas.value);
      }
      buttons := MoveStep(buttons, activeButtonId, isDragging, isResizing, resizeDirection,
                          dragOffset, pointer, canvas);
    }

    /**
     * A touch move on the window: the same step as a mouse move, at the
     * first touch; a move with no touch changes nothing.
     */
    method TouchMove(touches: seq<Point>, canvas: Option<Rect>)
      modifies this`buttons
      ensures touches == [] ==> buttons == old(buttons)
      ensures touches != [] ==>
        buttons == MoveStep(old(buttons), activeButtonId, isDragging, isResizing, resizeDirection,
                            dragOffset, touches[0], canvas)
    {
      if |touches| > 0 {
        MouseMove(touches[0], canvas);
      }
    }

    /** Mouse-up or touch-end: the gesture ends; the grab offset is kept. */
    method MouseUp()
      modifies this`isDragging, this`isResizing, this`activeButtonId, this`resizeDirection
      ensures !isDragging && !isResizing && activeButtonId.None? && resizeDirection.None?
      ensures GestureConsistent() && !Listening()
    {
      isDragging := false;
      isResizing := false;
      activeButtonId := None;
      resizeDirection := None;
    }

    /** The chart the back button saves: the loaded chart with the edited name, buttons and canvas size. */
    function SavedChart(): (r: StoredChart)
      reads this
      ensures r.id == chart.id && r.name == chartName && r.buttons == buttons
      ensures r.canvasWidth == Some(canvasWidth) && r.canvasHeight == Some(canvasHeight)
      ensures DefaultDimension(r.canvasWidth, DefaultCanvasWidth) == canvasWidth || canvasWidth == 0
      ensures DefaultDimension(r.canvasHeight, DefaultCanvasHeight) == canvasHeight || canvasHeight == 0
    {
      chart.(name := chartName, buttons := buttons, canvasWidth := Some(canvasWidth), canvasHeight := Some(canvasHeight))
    }
  }

  /**
   * Reopening a saved chart restores the editor's state: the same name and
   * canvas size, and, when every button was well placed, the same buttons
   * after the mount reflow.
   */
  lemma SavedChartReopens(e: ChartEditorLogic)
    requires e.canvasWidth != 0 && e.canvasHeight != 0
    requires AllWellPlaced(e.buttons, e.canvasWidth, e.canvasHeight)
    ensures var saved := e.SavedChart();
      && saved.name == e.chartName
      && DefaultDimension(saved.canvasWidth, DefaultCanvasWidth) == e.canvasWidth
      && DefaultDimension(saved.canvasHeight, DefaultCanvasHeight) == e.canvasHeight
      && ReflowAll(saved.buttons, e.canvasWidth, e.canvasHeight) == e.buttons
  {
    ReflowAllKeepsWellPlaced(e.buttons, e.canvasWidth, e.canvasHeight);
  }

  /**
   * The editor does not keep every button well placed: a button added to a
   * 100 x 100 canvas overhangs it, and a width field emptied in the dialog
   * saves a width of 0. Only the reflow and the gesture steps re-establish
   * the invariant.
   */
  lemma ButtonsCanLeaveTheInvariant(id: string, b: Button)
    ensures !WellPlaced(BoxOf(NewLabelButton(id)), MinCanvasDimension, MinCanvasDimension)
    ensures var edited := ButtonSettings.ApplyEdit(Some(b), ButtonSettings.SetWidth(NaN)).value;
      forall w, h :: !WellPlaced(BoxOf(edited), w, h)
  {
  }
}
