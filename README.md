# Chart editor for poker ranges — a verified model

This project is a Dafny model of the core of a chart editor for poker
ranges. A *chart* is a named canvas. It holds rectangular *buttons*, and each
button either opens a linked range, shows text only, or leaves the chart. The
model covers:

- The canvas engine of the editor:
  - resize-edge detection (eight zones of 8 px, corners first);
  - the drag step (pointer minus grab offset, clamped into the canvas);
  - the per-edge resize step (size floored at 5 px, then a second clamp against the canvas);
  - the reflow that re-clamps every button when the canvas size changes;
  - the gesture state (active id, drag/resize flags, direction, offset);
  - the edit lifecycle of a button (add, save, cancel, copy, canvas-size blur, legend-override cleaning).
- The updaters of the button settings dialog (type radio, folder and range selects, the other fields).
- The 13 x 13 poker hand matrix:
  - its construction;
  - the combination count of each hand and the 1326 total;
  - its select/deselect drag rule.
- The Russian plural of "button" in the chart list, proved against the integer rules for Russian in the Unicode CLDR plural rules.
- The chart-list operations (create, delete, save, selection, layout choice).
- The "create training" dialog (range checklist, validation, record, reset).

## Layout

- `common.dfy` (`Common`): `Option`, `Min`, `Max`, and `Numeric` for the result of `parseInt` (a number or NaN).
- `strings.dfy` (`Strings`): JavaScript's `trim`.
- `geometry.dfy` (`Geometry`): the pure geometry that both editor copies share.
- `chart.dfy` (`ChartModel`): the chart records, the plural label and the chart-list create guard.
- `reflow.dfy` (`Reflow`): the reflow of a button list. It is a loop with a `changed` flag, proved against `ReflowAll`.
- `gesture.dfy` (`Gesture`): one pointer-move step over the button list.
- `editor_ops.dfy` (`EditorOps`): the edit lifecycle as functions of the previous state. It includes the cleaning loop of the legend overrides.
- `editor.dfy` (`EditorLogic`): the class `ChartEditorLogic`. It holds the editor's state, and its handlers update fields in place.
- `settings.dfy` (`ButtonSettings`): the dialog's draft updaters and which of its controls are enabled.
- `reflow_numbers.dfy` (`ReflowNumbers`): the reflow over JavaScript numbers, where a canvas size can be NaN.
- `poker.dfy` (`PokerMatrix`): the hand matrix, the combination counts, and the drag class `MatrixDrag`.
- `index.dfy` (`ChartIndex`): the chart list.
- `training.dfy` (`CreateTraining`): the training dialog, with the class `CreateTrainingForm`.

Coordinates are integers.

In two places the code behaves in a way one might not expect; the model follows the code.

- **West and north edges.** Dragging a west or north edge past the minimum size keeps moving the button: x becomes `x + diff` even after the width has been floored at 5. Only the final canvas clamp bounds it. `Geometry.WestEdgeOvershootMovesRightEdge` exhibits this. `Geometry.WestEdgeKeepsRightEdge` states when the right edge does stay put.
- **Empty active id.** A falsy active id, including the empty string, makes a move a no-op.

Buttons do not always stay inside the canvas and at least 5 x 5:

- "Add" puts a 120 x 40 button at (50, 50) even on a 100 x 100 canvas.
- "Save" in the dialog stores the draft unclamped, so an emptied width field saves a width of 0.

`EditorLogic.ButtonsCanLeaveTheInvariant` exhibits both. The model therefore proves the invariant per step: a reflow establishes it (`Reflow.ReflowAllWellPlaced`), and drag and resize steps preserve it (`Gesture.MoveStepKeepsWellPlaced`). The editor class has no invariant that every button is well placed.

The dialog's chosen folder is written twice. First the handler sets it. Then the effect at src/hooks/useChartEditorLogic.ts:42-49 runs after the render and replaces it with the folder holding the draft's link. `ChartEditorLogic.SyncFolderWithDraft` is that effect. Every handler that changes the draft or opens the dialog ends with it.

## Model

| member | source | states |
|---|---|---|
| Strings.TrimStart | src/hooks/useChartEditorLogic.ts:341-342 | the result is a suffix of the input and does not start with white space |
| Strings.TrimEnd | src/hooks/useChartEditorLogic.ts:341-342 | the result is a prefix of the input and does not end with white space |
| Strings.Trim | src/hooks/useChartEditorLogic.ts:341-342 | the trimmed string is no longer than the input and has no white space at either end |
| Strings.TrimStartDropsWhitespace | src/hooks/useChartEditorLogic.ts:341-342 | everything dropped at the front is white space |
| Strings.TrimEndDropsWhitespace | src/hooks/useChartEditorLogic.ts:341-342 | everything dropped at the back is white space |
| Strings.TrimEmptyIff | src/hooks/useChartEditorLogic.ts:341 | the trimmed string is empty (falsy) exactly when the input is all white space |
| Strings.TrimIdempotent | components/CreateTrainingDialog.tsx:45 | trimming a trimmed string changes nothing |
| Geometry.Clamp | src/hooks/useChartEditorLogic.ts:208-209 | `max(lo, min(v, hi))` lies in [lo, hi] when lo <= hi, is lo when hi < lo, and is v when v is already in range |
| Geometry.DetectEdge | src/hooks/useChartEditorLogic.ts:156-165 | no direction exactly when 8 <= x <= w-8 and 8 <= y <= h-8; the top-left band gives NW |
| Geometry.DetectEdgeZones | src/hooks/useChartEditorLogic.ts:156-165 | the exact zone of each of the eight directions: sides exclude the corner bands, corners tested first win |
| Geometry.ResizeRaw | src/hooks/useChartEditorLogic.ts:213-222 | each edge's branch floors the size of every axis it moves at 5, leaves an unmoved axis alone, and moves the position only for a west or north edge |
| Geometry.DragTo | src/hooks/useChartEditorLogic.ts:205-209 | the dragged position is >= 0, keeps a button that fits inside the canvas, is 0 on an axis where the canvas is smaller than the button, and equals pointer - offset - canvas origin when that is in range |
| Geometry.ResizeRawIsPerAxis | src/hooks/useChartEditorLogic.ts:213-222 | every direction, corners included, applies the horizontal and the vertical edge rule independently |
| Geometry.WestEdgeKeepsRightEdge | src/hooks/useChartEditorLogic.ts:216 | a west-type edge puts x at the pointer and keeps x + width, while w - diff >= 5 |
| Geometry.WestEdgeOvershootMovesRightEdge | components/ChartEditor.tsx:277-279 | past the floor x still moves by diff with width 5, so the right edge moves (the code as written) |
| Geometry.FitToCanvas | src/hooks/useChartEditorLogic.ts:223-226 | the clamped box lies inside the canvas, never grows, keeps a size of at least 5 when canvas and box allow it, keeps the size when it fits, and leaves an inside box unchanged |
| Geometry.Resize | src/hooks/useChartEditorLogic.ts:211-227 | a resize result lies inside the canvas and is at least 5 on every axis the edge moves (or that was already >= 5) when the canvas is >= 5 |
| Geometry.EastResizeChangesOnlyWidth | src/hooks/useChartEditorLogic.ts:214 | an east resize inside the canvas changes only the width, to pointer x - (x + canvas left) |
| Geometry.ResizeKeepsWellPlaced | src/hooks/useChartEditorLogic.ts:211-227 | a resize keeps an in-canvas button of at least 5 x 5 in-canvas and at least 5 x 5 |
| Geometry.ReflowBox | src/hooks/useChartEditorLogic.ts:61-73 | a reflowed box lies inside the canvas, is at least 5 x 5 on a canvas of at least 5 x 5, and a well-placed box is left as it is |
| Geometry.ReflowBoxIdempotent | src/hooks/useChartEditorLogic.ts:66-73 | reflowing a box twice equals reflowing it once, for every canvas size |
| Geometry.ReflowShrinkExample | components/ChartEditor.tsx:103-112 | a 120-wide button at x = 700 on a 600-wide canvas moves to x = 480 and keeps its size |
| ReflowNumbers.JsMax | src/hooks/useChartEditorLogic.ts:66-69 | the larger number, or NaN when either argument is NaN |
| ReflowNumbers.JsMin | src/hooks/useChartEditorLogic.ts:69-73 | the smaller number, or NaN when either argument is NaN |
| ReflowNumbers.JsSub | src/hooks/useChartEditorLogic.ts:69-73 | the difference, or NaN when either operand is NaN |
| ReflowNumbers.ReflowBoxAsWritten | src/hooks/useChartEditorLogic.ts:66-73 | a NaN canvas width, x or width makes the new x and width NaN; the same for the height, y and height |
| ReflowNumbers.AsWrittenAgreesOnNumbers | src/hooks/useChartEditorLogic.ts:66-73 | on numbers the effect over JavaScript numbers is `Geometry.ReflowBox` |
| ReflowNumbers.EmptiedWidthLosesGeometry | src/hooks/useChartEditorLogic.ts:311-319 | an emptied width field makes a button's x and width NaN, and the reflow after the blur to 100 keeps them NaN |
| ReflowNumbers.AsWrittenThrough | src/hooks/useChartEditorLogic.ts:57-87 | the reflow as written, run once per canvas size in order; while every size is a number a button of numbers stays one |
| ReflowNumbers.AsWrittenThroughKeepsNaN | src/hooks/useChartEditorLogic.ts:57-87 | a button whose x and width are NaN keeps them NaN through every later reflow |
| ReflowNumbers.AsWrittenThroughEmptiedWidth | src/hooks/useChartEditorLogic.ts:311-319 | after an emptied width field, no later sequence of canvas sizes gives a button its x back |
| ReflowNumbers.ReflowBoxCorrected | src/hooks/useChartEditorLogic.ts:57-87 | a NaN canvas size leaves the button as it is, and a button of numbers stays one |
| ReflowNumbers.CorrectedAgreesOnNumbers | src/hooks/useChartEditorLogic.ts:66-73 | on numbers the corrected reflow is `Geometry.ReflowBox` |
| ReflowNumbers.ReflowThrough | src/hooks/useChartEditorLogic.ts:57-87 | a button of numbers stays one through any sequence of canvas sizes, NaN included |
| ReflowNumbers.ReflowThroughEndsWellPlaced | src/hooks/useChartEditorLogic.ts:311-319 | whatever sizes the fields held in between, once both are numbers of at least 5 the button is a well-placed box of integers |
| Reflow.ReflowButton | src/hooks/useChartEditorLogic.ts:60-79 | only x, y, width and height of a button change, to the reflowed box |
| Reflow.ReflowAll | src/hooks/useChartEditorLogic.ts:59-79 | the reflowed list has the same length and each entry is the reflow of the entry at the same place |
| Reflow.ReflowButtons | src/hooks/useChartEditorLogic.ts:57-87 | the loop returns the element-wise reflow, raises `changed` exactly when some button moved, and returns the original list when none did |
| Reflow.ReflowAllWellPlaced | src/hooks/useChartEditorLogic.ts:66-73 | after a reflow onto a canvas of at least 5 x 5 every button is inside it and at least 5 x 5 |
| Reflow.ReflowAllKeepsIdentity | src/hooks/useChartEditorLogic.ts:58-86 | a reflow never adds, removes or reorders buttons and changes only geometry |
| Reflow.ReflowAllKeepsWellPlaced | src/hooks/useChartEditorLogic.ts:75-85 | a list of well-placed buttons comes back unchanged |
| Reflow.ReflowAllIdempotent | components/ChartEditor.tsx:93-126 | reflowing a list twice equals reflowing it once |
| Gesture.FindById | src/hooks/useChartEditorLogic.ts:202-203 | the lookup fails exactly when no button has the id, and otherwise returns a button with that id |
| Gesture.FindByIdFindsFirst | src/hooks/useChartEditorLogic.ts:202-203 | when several buttons share the id, the lookup returns the first of them |
| Gesture.MoveWhere | src/hooks/useChartEditorLogic.ts:210 | entries with the id get the new position and keep all else; the others are untouched |
| Gesture.ReshapeWhere | src/hooks/useChartEditorLogic.ts:227 | entries with the id get the new box and keep all else; the others are untouched |
| Gesture.MoveStep | src/hooks/useChartEditorLogic.ts:199-229 | a drag writes the clamped pointer position computed from the first button with the active id into every entry with that id; a resize writes the canvas-clamped box of that first button's resize; no other entry and no other field changes; no active id, no canvas, no matching button or no gesture changes nothing; a resized box lies inside the canvas |
| Gesture.MoveStepKeepsWellPlaced | components/ChartEditor.tsx:243-325 | with unique ids, a drag or resize step keeps every button inside the canvas and at least 5 x 5 |
| Gesture.DragClampExample | src/hooks/useChartEditorLogic.ts:208-209 | a 120 x 40 button dragged past the corner of an 800 x 500 canvas stops at (680, 460) |
| EditorOps.NewLabelButton | src/hooks/useChartEditorLogic.ts:90-105 | the added button is a text label linked to "label-only", 120 x 40 at (50, 50), with empty overrides |
| EditorOps.NewDefaultButton | components/ChartEditor.tsx:128-148 | the older editor's added button is a range button linked to the first range when one exists, else a text label linked to "label-only"; 120 x 40 at (50, 50) |
| EditorOps.ReplaceById | components/ChartEditor.tsx:156-164 | save replaces exactly the entries with the draft's id and keeps length, order and ids |
| EditorOps.RemoveId | components/ChartEditor.tsx:169 | the filtered list holds exactly the buttons without the id, and is the list itself when no button has the id |
| EditorOps.RemoveIdAppend | components/ChartEditor.tsx:169 | the filter distributes over concatenation, so the kept buttons keep their order and multiplicity |
| EditorOps.CancelEdit | components/ChartEditor.tsx:166-173 | cancel removes the draft's id iff that id is absent from the chart as loaded; otherwise the list is unchanged |
| EditorOps.AddThenCancelRestores | src/hooks/useChartEditorLogic.ts:127-133 | adding a button and cancelling its draft gives back the list as it was |
| EditorOps.CopyOf | src/hooks/useChartEditorLogic.ts:137-142 | the copy equals the draft except a fresh id and x + 10, y + 10 |
| EditorOps.DimensionBlur | components/ChartEditor.tsx:482-489 | a NaN value or one under 100 becomes exactly 100; any value >= 100 is left alone |
| EditorOps.DimensionBlurSettles | src/hooks/useChartEditorLogic.ts:315-319 | after a blur the value is >= 100 and a second blur changes nothing |
| EditorOps.CleanedOverridesMeaning | components/ChartEditor.tsx:521-528 | the cleaned map keeps exactly the keys whose value is not blank, each with its trimmed, non-empty value |
| EditorOps.NonEmptyOnStep | src/hooks/useChartEditorLogic.ts:339-344 | visiting one more key adds it to the cleaned map exactly when its trimmed value is not empty |
| EditorOps.CleanOverrides | src/hooks/useChartEditorLogic.ts:339-344 | the key-by-key loop builds exactly the cleaned map |
| EditorOps.LinkedItemChange | components/ChartEditor.tsx:491-499 | "label-only" makes the draft a text label, any other value a range button linked to it; only link and kind change; no draft stays none |
| EditorLogic.DefaultDimension | src/hooks/useChartEditorLogic.ts:19-20 | a missing or zero stored size gives the default, any other stored size is kept |
| EditorLogic.DefaultDimensionRoundTrip | src/hooks/useChartEditorLogic.ts:19-20 | a non-zero stored size is read back unchanged |
| EditorLogic.ChartEditorLogic.constructor | src/hooks/useChartEditorLogic.ts:14-32 | mount loads name, buttons, size (800 x 500 by default) and the folder catalogue, reflows the buttons, and starts with no dialog, no chosen folder and no gesture |
| EditorLogic.ChartEditorLogic.SyncFolderWithDraft | src/hooks/useChartEditorLogic.ts:42-49 | while the dialog is open on a draft the chosen folder becomes the folder holding the draft's link; otherwise it is left alone |
| EditorLogic.ChartEditorLogic.SetFolders | src/hooks/useChartEditorLogic.ts:42-49 | a new catalogue re-runs the folder effect |
| EditorLogic.ChartEditorLogic.LoadChart | src/hooks/useChartEditorLogic.ts:35-40 | a new chart reloads name, buttons and size; the buttons are reflowed only when the size changed |
| EditorLogic.ChartEditorLogic.SetCanvasWidth | src/hooks/useChartEditorLogic.ts:57-87 | a new width reflows the buttons, and leaves them all well placed on a canvas of at least 5 x 5; the same width changes nothing |
| EditorLogic.ChartEditorLogic.SetCanvasHeight | src/hooks/useChartEditorLogic.ts:57-87 | as SetCanvasWidth, for the height |
| EditorLogic.ChartEditorLogic.BlurCanvasWidth | src/hooks/useChartEditorLogic.ts:315-319 | a width under 100 becomes 100 and reflows the buttons; any other width stays |
| EditorLogic.ChartEditorLogic.BlurCanvasHeight | src/hooks/useChartEditorLogic.ts:315-319 | a height under 100 becomes 100 and reflows the buttons; any other height stays |
| EditorLogic.ChartEditorLogic.AddButton | src/hooks/useChartEditorLogic.ts:89-109 | add appends exactly one new text label and opens it in the dialog; the folder effect clears the chosen folder |
| EditorLogic.ChartEditorLogic.SettingsClick | src/hooks/useChartEditorLogic.ts:111-115 | the dialog opens on the clicked button, and the folder effect chooses the folder holding its link |
| EditorLogic.ChartEditorLogic.SaveButtonProperties | src/hooks/useChartEditorLogic.ts:117-125 | with a draft, it replaces the entries with its id and closes the dialog; length and ids are kept; with none nothing changes |
| EditorLogic.ChartEditorLogic.CancelButtonProperties | src/hooks/useChartEditorLogic.ts:127-133 | a draft not in the loaded chart is removed; the dialog closes |
| EditorLogic.ChartEditorLogic.CopyButton | src/hooks/useChartEditorLogic.ts:135-147 | exactly one copy of the draft is appended, the earlier entries are untouched, the dialog closes |
| EditorLogic.ChartEditorLogic.EditDraft | src/components/chart-editor/ButtonSettingsDialog.tsx:76-253 | a disabled control changes nothing; an enabled one makes the draft the control's update of it, and the folder effect keeps the chosen folder in step with the new link; with the dialog open on a draft this is `ButtonSettings.Operate` |
| EditorLogic.ChartEditorLogic.ChooseType | src/components/chart-editor/ButtonSettingsDialog.tsx:110-124 | for an exit draft the radio is disabled and nothing changes; otherwise the draft follows the type radio, and with the dialog open the chosen folder is then the one holding the new link, otherwise the handler's own choice stays |
| EditorLogic.ChartEditorLogic.ChooseFolder | src/components/chart-editor/ButtonSettingsDialog.tsx:137-148 | the select exists only for a range button, so for any other draft nothing changes; otherwise the draft is linked to the folder's first range, and with the dialog open the chosen folder is then the one holding that range (none for an empty folder), otherwise the chosen id stays |
| EditorLogic.ChartEditorLogic.OpenLegendPreview | src/hooks/useChartEditorLogic.ts:331-336 | the preview opens on the draft's overrides (empty when it has none); with no draft nothing changes |
| EditorLogic.ChartEditorLogic.SaveLegendOverrides | src/hooks/useChartEditorLogic.ts:338-347 | the draft gets the cleaned overrides and no other change; the preview closes; the chosen folder stays in step with the draft |
| EditorLogic.ChartEditorLogic.PointerDown | src/hooks/useChartEditorLogic.ts:168-197 | on the settings icon nothing starts; otherwise the button becomes active, a detected edge starts a resize in that direction, none starts a drag, and the offset is the pointer inside the button |
| EditorLogic.ChartEditorLogic.MouseMove | src/hooks/useChartEditorLogic.ts:199-229 | the list becomes the move step of the current gesture; nothing moves outside a gesture; well-placed buttons stay well placed |
| EditorLogic.ChartEditorLogic.TouchMove | src/hooks/useChartEditorLogic.ts:231-264 | the same step at the first touch; no touch changes nothing |
| EditorLogic.ChartEditorLogic.MouseUp | src/hooks/useChartEditorLogic.ts:266-271 | the active id, both flags and the direction are cleared |
| EditorLogic.ChartEditorLogic.SavedChart | src/hooks/useChartEditorLogic.ts:299-309 | the saved chart keeps the chart's id and carries the edited name, buttons and canvas size; a non-zero size reads back as itself |
| EditorLogic.SavedChartReopens | src/hooks/useChartEditorLogic.ts:300-306 | the chart the editor saves reopens with the editor's name and size, and well-placed buttons come back unchanged from the mount reflow |
| EditorLogic.ButtonsCanLeaveTheInvariant | src/hooks/useChartEditorLogic.ts:89-105 | a button added to a 100 x 100 canvas is not inside it, and a width field emptied in the dialog gives a width of 0, so neither is well placed |
| ButtonSettings.RadioValue | src/components/chart-editor/ButtonSettingsDialog.tsx:109 | the radio shows "normal" exactly for a range button; exit buttons show as "label" |
| ButtonSettings.RadioDisabled | src/components/chart-editor/ButtonSettingsDialog.tsx:124 | the radio is disabled exactly for an exit button |
| ButtonSettings.RadioShowsChosenType | src/components/chart-editor/ButtonSettingsDialog.tsx:109-124 | after a choice on the radio, the radio shows that choice and stays enabled |
| ButtonSettings.Enabled | src/components/chart-editor/ButtonSettingsDialog.tsx:124-267 | the type radio is enabled exactly when the draft is not an exit button; the folder select, the range select and the legend switch only for a range button, the range select only with a chosen folder; font size and colour only when adaptive fonts are explicitly off; name, colour, adaptive switch, width and height always; for an exit draft only field controls |
| ButtonSettings.Operate | src/components/chart-editor/ButtonSettingsDialog.tsx:76-253 | a disabled control changes nothing; an enabled one gives the draft its handler's result, keeps a draft present or absent, re-derives the chosen folder from the new link, and leaves an exit draft an exit draft with its id and link |
| ButtonSettings.Session | src/components/chart-editor/ButtonSettingsDialog.tsx:76-253 | the controls used in order never create or drop the draft |
| ButtonSettings.ExitDraftStaysExit | src/components/chart-editor/ButtonSettingsDialog.tsx:109-165 | over every sequence of dialog controls an exit draft keeps its id, kind and link, so the radio stays disabled on "label" |
| ButtonSettings.FirstRangeId | src/components/chart-editor/ButtonSettingsDialog.tsx:146 | the first range's id of a listed, non-empty folder, and "" for an unknown or empty one |
| ButtonSettings.FindFolder | src/components/chart-editor/ButtonSettingsDialog.tsx:145 | the lookup returns a listed folder with the id, and fails exactly when none has it |
| ButtonSettings.FindFolderFindsFirst | src/components/chart-editor/ButtonSettingsDialog.tsx:145 | when several folders share the id, the lookup returns the first of them |
| ButtonSettings.FolderHolding | src/hooks/useChartEditorLogic.ts:44-46 | the lookup returns a listed folder holding the range, and fails exactly when none holds it |
| ButtonSettings.FolderHoldingFindsFirst | src/hooks/useChartEditorLogic.ts:44-46 | when several folders hold the range, the lookup returns the first of them |
| ButtonSettings.ParentFolderIdFindsFirst | src/hooks/useChartEditorLogic.ts:42-49 | for a linked range button, the folder shown is the first folder holding the linked range when its id is non-empty |
| ButtonSettings.ParentFolderId | src/hooks/useChartEditorLogic.ts:42-49 | a folder is chosen only for a range button with a link, and it is a listed folder with a non-empty id that holds the linked range; a text or exit draft, an empty link or a link no folder holds gives none |
| ButtonSettings.ChosenFolderAfterSync | src/hooks/useChartEditorLogic.ts:42-49 | after the folder select and the effect, an empty folder leaves no folder chosen and a folder whose first range no earlier folder holds stays chosen |
| ButtonSettings.ChooseType | src/components/chart-editor/ButtonSettingsDialog.tsx:110-122 | "label" gives a text label linked to "label-only" and no folder; "normal" gives a range button linked to the first folder's first range (or "") and chooses that folder; no draft changes nothing |
| ButtonSettings.ChooseFolder | src/components/chart-editor/ButtonSettingsDialog.tsx:143-148 | the folder is chosen; the draft's link becomes that folder's first range, or "" when it is empty or unknown; nothing else changes |
| ButtonSettings.ApplyEdit | src/components/chart-editor/ButtonSettingsDialog.tsx:76-253 | every control changes only its own field, to the value it carries; a NaN or zero font size becomes 16; a NaN width or height becomes 0; no draft stays none |
| ButtonSettings.ApplyEditKeepsIdentity | src/components/chart-editor/ButtonSettingsDialog.tsx:76-253 | no field control changes the draft's id or kind |
| ButtonSettings.ChooseTypeLinkIsCoherent | src/components/chart-editor/ButtonSettingsDialog.tsx:113-119 | after the type radio a button is a text label exactly when it is linked to "label-only" |
| ChartModel.AllRanges | src/hooks/useChartEditorLogic.ts:15 | the flattened catalogue is empty iff every folder is, and starts with the first folder's first range |
| ChartModel.ButtonLabel | src/components/Chart.tsx:53-67 | the label is the word of the CLDR Russian plural category of the count, for every count |
| ChartModel.ButtonLabelDependsOnLastTwoDigits | src/components/Chart.tsx:54-55 | the label depends only on the count mod 100 |
| ChartModel.ButtonLabelSeparatesCategories | src/components/Chart.tsx:57-66 | two counts get the same word iff they are in the same plural category |
| ChartModel.CreateChartRequest | src/components/Chart.tsx:81-87 | a blank name does nothing; any other name is passed on trimmed and non-empty |
| ChartIndex.ExitButton | pages/Index.tsx:67-77 | the exit button has id "exit-" + chart id, kind exit, empty link, 150 x 40 at (10, 10), no optional fields |
| ChartIndex.NewChart | pages/Index.tsx:62-81 | the new chart has the trimmed name, an 800 x 500 canvas and only its exit button |
| ChartIndex.CreateChart | pages/Index.tsx:82 | create appends exactly one chart and keeps the others |
| ChartIndex.CreateFromDialogNamesChart | pages/Index.tsx:65 | a chart created from the dialog has a non-empty name without surrounding white space |
| ChartIndex.DeleteChart | pages/Index.tsx:86-88 | delete keeps exactly the charts with another id |
| ChartIndex.DeleteChartAppend | pages/Index.tsx:87 | delete distributes over concatenation, so the kept charts keep their order |
| ChartIndex.DeleteUndoesCreate | pages/Index.tsx:61-88 | deleting a just-created chart gives back the list |
| ChartIndex.SaveChart | pages/Index.tsx:91-96 | save replaces exactly the charts with the saved id; the length is kept |
| ChartIndex.SaveChartIdempotent | pages/Index.tsx:92-96 | saving twice equals saving once, and no id changes |
| ChartIndex.SaveUnknownChartChangesNothing | pages/Index.tsx:93-95 | saving a chart that is not in the list changes nothing |
| ChartIndex.SelectedAfterSave | pages/Index.tsx:98-102 | the selected chart is replaced only when its id is the saved chart's |
| ChartIndex.SelectionFollowsSave | pages/Index.tsx:91-102 | a selected chart that is in the list is still in the list after a save, in its saved form |
| ChartIndex.IsMobileLayout | pages/Index.tsx:45 | a mobile device uses the mobile layout unless desktop is forced; a desktop uses it only when asked |
| ChartIndex.ToggleLayout | pages/Index.tsx:148-154 | the layout button flips the forced-desktop flag on a mobile device and the forced-mobile flag on a desktop, and nothing else |
| ChartIndex.ToggleLayoutSwitches | pages/Index.tsx:45-154 | every press of the layout button switches the layout, and two presses restore both flags |
| PokerMatrix.HandAt | components/PokerMatrix.tsx:17-26 | cell (i, j) is a pair iff i = j, suited iff i < j, offsuit iff i > j, and names the higher rank first |
| PokerMatrix.HandsGrid | components/PokerMatrix.tsx:10-29 | the matrix has 13 rows of 13 cells and no hand in two cells |
| PokerMatrix.BuildHands | components/PokerMatrix.tsx:10-29 | the nested loops build 13 rows of 13 cells, cell (i, j) being the hand of row i and column j |
| PokerMatrix.MirrorCellsShareRanks | components/PokerMatrix.tsx:22-25 | cells (i, j) and (j, i) off the diagonal share their two ranks and differ in the suited/offsuit mark |
| PokerMatrix.HandAtInjective | components/PokerMatrix.tsx:10-29 | no hand appears in two cells |
| PokerMatrix.Combinations | components/PokerMatrix.tsx:237-248 | 6 exactly for a pair, 4 exactly for another name ending in "s", 12 exactly for one ending in "o", else 0 |
| PokerMatrix.CellCombinations | components/PokerMatrix.tsx:237-248 | every diagonal cell counts 6, every cell above 4, every cell below 12 |
| PokerMatrix.TotalCombinationsIs1326 | components/PokerMatrix.tsx:250-251 | the sum over the flattened matrix is 1326 |
| PokerMatrix.DragModeFor | components/PokerMatrix.tsx:93-94 | the drag deselects exactly when the hand already holds the active action |
| PokerMatrix.ApplyMode | components/PokerMatrix.tsx:33 | a reported "select" gives the hand the active action, a "deselect" clears its entry |
| PokerMatrix.DragStartFlipsHand | components/PokerMatrix.tsx:91-98 | the hand a drag starts on holds the active action afterwards exactly when it did not before |
| PokerMatrix.DragModeIsUniform | components/PokerMatrix.tsx:102-110 | every hand entered during the drag ends holding the action exactly when the drag selects, and other hands keep their entries |
| PokerMatrix.MatrixDrag.constructor | components/PokerMatrix.tsx:56-58 | the matrix starts with no drag, no mode and no last hand |
| PokerMatrix.MatrixDrag.PointerDown | components/PokerMatrix.tsx:87-100 | read-only or background mode does nothing; otherwise a drag starts in the hand's mode and the hand is reported at once |
| PokerMatrix.MatrixDrag.PointerEnter | components/PokerMatrix.tsx:102-110 | during a drag a hand is reported, in the drag's mode, exactly when it differs from the last one reported |
| PokerMatrix.MatrixDrag.TouchMove | components/PokerMatrix.tsx:112-123 | a hand is reported, in the drag's mode, exactly when a drag with a mode runs outside background and read-only mode, the finger is over a hand and that hand is not the last one reported; it then becomes the last hand |
| PokerMatrix.MatrixDrag.DragEnd | components/PokerMatrix.tsx:70-73 | the drag and its mode are cleared |
| PokerMatrix.MatrixDrag.EnterBackgroundMode | components/PokerMatrix.tsx:63-68 | background mode ends any drag |
| CreateTraining.RemoveAll | components/CreateTrainingDialog.tsx:35 | the filtered list holds exactly the other ids, and is the list itself when the id is absent |
| CreateTraining.RemoveAllAppend | components/CreateTrainingDialog.tsx:35 | the filter distributes over concatenation, so the kept ids keep their order |
| CreateTraining.Toggle | components/CreateTrainingDialog.tsx:32-38 | a checked id is removed and an unchecked one appended; no other id changes membership |
| CreateTraining.ToggleKeepsNoDuplicates | components/CreateTrainingDialog.tsx:33-37 | a list without repetitions stays without repetitions |
| CreateTraining.ToggleTwiceRestoresAbsent | components/CreateTrainingDialog.tsx:33-37 | checking and unchecking an id restores the list exactly |
| CreateTraining.ToggleTwiceKeepsRanges | components/CreateTrainingDialog.tsx:33-37 | unchecking and rechecking an id keeps the same ranges |
| CreateTraining.TrainingRecord | components/CreateTrainingDialog.tsx:43-54 | the record has the trimmed name and exactly the selected ranges; a subtype only for classic, a level only for classic border check |
| CreateTraining.CreateTrainingForm.constructor | components/CreateTrainingDialog.tsx:22-26 | the form starts with every field at its default |
| CreateTraining.CreateTrainingForm.SetName | components/CreateTrainingDialog.tsx:100 | the name field takes the typed text |
| CreateTraining.CreateTrainingForm.SetTrainingType | components/CreateTrainingDialog.tsx:112 | the training type takes the chosen value |
| CreateTraining.CreateTrainingForm.SetClassicSubtype | components/CreateTrainingDialog.tsx:121 | the classic subtype takes the chosen value |
| CreateTraining.CreateTrainingForm.SetBorderExpansionLevel | components/CreateTrainingDialog.tsx:138 | the level takes the chosen value, one of 0, 1 and 2 |
| CreateTraining.CreateTrainingForm.ToggleRange | components/CreateTrainingDialog.tsx:32-38 | the checklist becomes its toggle and stays without repetitions |
| CreateTraining.CreateTrainingForm.Create | components/CreateTrainingDialog.tsx:40-65 | nothing happens iff the trimmed name is empty, no range is checked or no folder has ranges; otherwise the record is produced and every field returns to its default |
| CreateTraining.CreatedTrainingIsValid | components/CreateTrainingDialog.tsx:41-51 | a created training has a non-empty trimmed name and at least one range |

## Left out

- Rendering, styling, zoom levels, cursor shapes, `preventDefault` and `stopPropagation` are DOM effects with no state of the model.
- Window listeners are not modelled as attach and detach. `ChartEditorLogic.Listening` states when they are attached.
- `getBoundingClientRect`, `closest('.settings-icon')` and `document.elementFromPoint` are parameters. So are the ids made from `Date.now()` and the creation time.
- Coordinates are integers. Browser layouts can report fractional pixels, and those are not modelled.
- The maximize button scales the window size by 0.97 and 0.91 and rounds. That is floating point over browser globals, so it is not modelled.
- EditorLogic.ChartEditorLogic.SetCanvasWidth: takes a number, so the class follows the corrected reflow of the finding below. The NaN canvas size of an emptied field is modelled only in `ReflowNumbers`. There the reflow as written gives every button a NaN x and width, and the blur to 100 cannot repair them, because `Math.max` and `Math.min` return NaN for a NaN argument. The geometry of every button is then lost. The same holds for SetCanvasHeight (y and height), BlurCanvasWidth and BlurCanvasHeight. Their blur rule is modelled on `Numeric` by `EditorOps.DimensionBlur`.
- The derived lists for the range select and the legend preview (`rangesForSelectedFolder`, `linkedRangeForPreview`, `actionsInPreviewedRange`) are not modelled. They are read-only views computed from the state.
- The effect runs in the model at the end of each handler that changes the draft, opens the dialog or changes the catalogue. React runs it only when one of those dependencies changed, which is the same set of cases.
- `Strings.IsWhitespace` is the full set that JavaScript's `trim` removes: the space separators (Zs), TAB, VT, FF, LF, CR, U+FEFF, U+2028 and U+2029. Strings are sequences of code points, not of UTF-16 code units.
- The older editor (components/ChartEditor.tsx) shares the geometry, reflow, gesture, save, cancel, blur and legend rules with the hook. Only its add default and its link select have their own members.
- The chart name is only written by the chart-load effect (`ChartEditorLogic.LoadChart`). Neither editor has a control that renames the chart.
- The selection callback belongs to the range editor, which is not modelled; `PokerMatrix.ApplyMode` states what its two modes ask for.
- Local storage, import and export, the chart viewer's scaling, and the range editor are not part of this model.
- The statistics field of a created training, always empty on creation, is not modelled.

## Findings

| source | as written | input that shows it | evidently intended | confidence | as-written member | corrected member |
|---|---|---|---|---|---|---|
| src/hooks/useChartEditorLogic.ts:57-87, 311-319 | the reflow effect runs on the NaN canvas size that `parseInt` gives an emptied size field, and `Math.max` and `Math.min` turn every button's x and width (or y and height) into NaN | any button, with the width field emptied and then left: the size becomes NaN, then 100, and x and width stay NaN | the blur restores the canvas size to 100 and the buttons keep a geometry the reflow can fit into it | high, not executed | ReflowNumbers.AsWrittenThroughEmptiedWidth | ReflowNumbers.ReflowThroughEndsWellPlaced |
