/**
 * The button settings dialog: every control updates the draft of the button
 * being edited by copying it and changing the fields it names; with no
 * draft, the draft stays absent. The type radio and the folder select also
 * set the folder chosen in the dialog.
 */
module ButtonSettings {
  import opened Common
  import opened ChartModel

  /** The two values of the type radio. */
  datatype TypeChoice = NormalChoice | LabelChoice

  /** The radio shows "normal" only for a range button: text and exit buttons both show as "label". */
  function RadioValue(draft: Option<Button>): (r: TypeChoice)
    ensures r == NormalChoice <==> draft.Some? && draft.value.kind == Normal
    ensures draft.Some? && draft.value.kind == Exit ==> r == LabelChoice
  {
    if draft.Some? && draft.value.kind == Normal then NormalChoice else LabelChoice
  }

  /** The radio is disabled for an exit button. */
  function RadioDisabled(draft: Option<Button>): (r: bool)
    ensures r <==> draft.Some? && draft.value.kind == Exit
  {
    draft.Some? && draft.value.kind == Exit
  }

  /** `folder?.ranges[0]?.id || ''`: the first range's id, or the empty string. */
  function FirstRangeId(folder: Option<Folder>): (r: string)
    ensures folder.Some? && folder.value.ranges != [] ==> r == folder.value.ranges[0].id
    ensures folder.None? || folder.value.ranges == [] ==> r == ""
  {
    if folder.Some? && |folder.value.ranges| > 0 then folder.value.ranges[0].id else ""
  }

  /** `folders.find(f => f.id === id)`. */
  function FindFolder(folders: seq<Folder>, id: string): (r: Option<Folder>)
    ensures r.Some? ==> r.value in folders && r.value.id == id
    ensures r.None? <==> forall f :: f in folders ==> f.id != id
  {
    if folders == [] then None
    else if folders[0].id == id then Some(folders[0])
    else FindFolder(folders[1..], id)
  }

  /** The lookup returns the first folder with the id. */
  lemma {:induction false} FindFolderFindsFirst(folders: seq<Folder>, id: string, i: int)
    requires 0 <= i < |folders| && folders[i].id == id && FirstWithId(folders, id, i)
    ensures FindFolder(folders, id) == Some(folders[i])
  {
    if i > 0 {
      var tail := folders[1..];
      assert tail[i - 1] == folders[i];
      assert FirstWithId(tail, id, i - 1) by {
        forall j | 0 <= j < i - 1 ensures tail[j].id != id {
          assert tail[j] == folders[j + 1];
        }
      }
      FindFolderFindsFirst(tail, id, i - 1);
    }
  }

  /**
   * The type radio. Choosing "label" makes the draft a text label with the
   * label-only link and clears the chosen folder; choosing "normal" makes it a
   * range button linked to the first range of the first folder (or to "") and
   * chooses that folder (none when there is no folder or its id is empty).
   * The folder is set inside the draft updater, so with no draft neither
   * changes. Result: the new draft and the new chosen folder.
   */
  function ChooseType(draft: Option<Button>, choice: TypeChoice, folders: seq<Folder>,
                      selectedFolder: Option<string>): (r: (Option<Button>, Option<string>))
    ensures draft.None? ==> r == (None, selectedFolder)
    ensures draft.Some? && choice == LabelChoice ==>
      r.0 == Some(draft.value.(kind := Label, linkedItem := LabelOnly)) && r.1 == None
    ensures draft.Some? && choice == NormalChoice ==>
      && r.0.Some? && r.0.value.kind == Normal
      && r.0.value == draft.value.(kind := Normal, linkedItem := r.0.value.linkedItem)
      && (folders != [] && folders[0].ranges != [] ==> r.0.value.linkedItem == folders[0].ranges[0].id)
      && (folders == [] || folders[0].ranges == [] ==> r.0.value.linkedItem == "")
      && (r.1.Some? <==> folders != [] && folders[0].id != "")
      && (r.1.Some? ==> r.1.value == folders[0].id)
  {
    match draft
    case None => (None, selectedFolder)
    case Some(prev) =>
      if choice == LabelChoice then
        (Some(prev.(kind := Label, linkedItem := LabelOnly)), None)
      else
        var firstFolder := if |folders| > 0 then Some(folders[0]) else None;
        var folderId := if firstFolder.Some? && firstFolder.value.id != "" then Some(firstFolder.value.id) else None;
        (Some(prev.(kind := Normal, linkedItem := FirstRangeId(firstFolder))), folderId)
  }

  /**
   * The folder select: the folder is chosen whether or not there is a draft,
   * and the draft's link becomes that folder's first range, or "" when the
   * folder is empty or unknown.
   */
  function ChooseFolder(draft: Option<Button>, folderId: string, folders: seq<Folder>): (r: (Option<Button>, Option<string>))
    ensures r.1 == Some(folderId)
    ensures r.0.Some? <==> draft.Some?
    ensures r.0.Some? ==> r.0.value == draft.value.(linkedItem := r.0.value.linkedItem)
    ensures r.0.Some? && (forall f :: f in folders ==> f.id != folderId) ==> r.0.value.linkedItem == ""
    ensures r.0.Some? ==> forall i :: 0 <= i < |folders| && folders[i].id == folderId && FirstWithId(folders, folderId, i) ==>
      r.0.value.linkedItem == (if folders[i].ranges == [] then "" else folders[i].ranges[0].id)
  {
    var folder := FindFolder(folders, folderId);
    var firstRangeId := FirstRangeId(folder);
    assert forall i :: 0 <= i < |folders| && folders[i].id == folderId && FirstWithId(folders, folderId, i) ==>
      folder == Some(folders[i]) by {
      forall i | 0 <= i < |folders| && folders[i].id == folderId && FirstWithId(folders, folderId, i) {
        FindFolderFindsFirst(folders, folderId, i);
      }
    }
    match draft
    case None => (None, Some(folderId))
    case Some(prev) =>
      (Some(prev.(linkedItem := firstRangeId)), Some(folderId))
  }

  /** No folder before index `i` has the id. */
  predicate FirstWithId(folders: seq<Folder>, id: string, i: int)
    requires 0 <= i <= |folders|
  {
    forall j :: 0 <= j < i ==> folders[j].id != id
  }

  /** The edits of a single draft field, one per control of the dialog. */
  datatype FieldEdit =
    | Rename(name: string)
    | Recolor(color: string)
    | PickRange(rangeId: string)
    | SetFontAdaptive(adaptive: bool)
    | SetFontSize(parsedSize: Numeric)
    | SetFontColor(fontColor: FontColor)
    | SetWidth(parsedWidth: Numeric)
    | SetHeight(parsedHeight: Numeric)
    | SetShowLegend(show: bool)

  /** `b` equals `a` except, at most, in the one field the edit names. */
  predicate OnlyNamedFieldChanged(e: FieldEdit, a: Button, b: Button) {
    match e
    case Rename(_) => b == a.(name := b.name)
    case Recolor(_) => b == a.(color := b.color)
    case PickRange(_) => b == a.(linkedItem := b.linkedItem)
    case SetFontAdaptive(_) => b == a.(isFontAdaptive := b.isFontAdaptive)
    case SetFontSize(_) => b == a.(fontSize := b.fontSize)
    case SetFontColor(_) => b == a.(fontColor := b.fontColor)
    case SetWidth(_) => b == a.(width := b.width)
    case SetHeight(_) => b == a.(height := b.height)
    case SetShowLegend(_) => b == a.(showLegend := b.showLegend)
  }

  /**
   * One control's updater. A font size that parses to NaN or 0 becomes 16; a
   * width or height that parses to NaN becomes 0 (the dialog itself does not
   * floor sizes).
   */
  function ApplyEdit(draft: Option<Button>, e: FieldEdit): (r: Option<Button>)
    ensures r.Some? <==> draft.Some?
    ensures r.Some? ==> OnlyNamedFieldChanged(e, draft.value, r.value)
    ensures r.Some? && e.SetFontSize? ==> r.value.fontSize == Some(if e.parsedSize.NaN? || e.parsedSize.n == 0 then 16 else e.parsedSize.n)
    ensures r.Some? && e.SetWidth? ==> r.value.width == (if e.parsedWidth.NaN? then 0 else e.parsedWidth.n)
    ensures r.Some? && e.SetHeight? ==> r.value.height == (if e.parsedHeight.NaN? then 0 else e.parsedHeight.n)
    ensures r.Some? && e.PickRange? ==> r.value.linkedItem == e.rangeId
    ensures r.Some? && e.Recolor? ==> r.value.color == e.color
    ensures r.Some? && e.Rename? ==> r.value.name == e.name
    ensures r.Some? && e.SetFontAdaptive? ==> r.value.isFontAdaptive == Some(e.adaptive)
    ensures r.Some? && e.SetFontColor? ==> r.value.fontColor == Some(e.fontColor)
    ensures r.Some? && e.SetShowLegend? ==> r.value.showLegend == Some(e.show)
  {
    match draft
    case None => None
    case Some(prev) =>
      Some(match e
        case Rename(name) => prev.(name := name)
        case Recolor(color) => prev.(color := color)
        case PickRange(rangeId) => prev.(linkedItem := rangeId)
        case SetFontAdaptive(on) => prev.(isFontAdaptive := Some(on))
        case SetFontSize(parsed) =>
          prev.(fontSize := Some(if parsed.NaN? || parsed.n == 0 then 16 else parsed.n))
        case SetFontColor(c) => prev.(fontColor := Some(c))
        case SetWidth(parsed) => prev.(width := if parsed.NaN? then 0 else parsed.n)
        case SetHeight(parsed) => prev.(height := if parsed.NaN? then 0 else parsed.n)
        case SetShowLegend(on) => prev.(showLegend := Some(on)))
  }

  /** A range with the id is among the folder's ranges. */
  predicate HoldsRange(f: Folder, rangeId: string) {
    exists rg :: rg in f.ranges && rg.id == rangeId
  }

  /** `folders.find(f => f.ranges.some(r => r.id === rangeId))`. */
  function FolderHolding(folders: seq<Folder>, rangeId: string): (r: Option<Folder>)
    ensures r.Some? ==> r.value in folders && HoldsRange(r.value, rangeId)
    ensures r.None? <==> forall f :: f in folders ==> !HoldsRange(f, rangeId)
  {
    if folders == [] then None
    else if HoldsRange(folders[0], rangeId) then Some(folders[0])
    else FolderHolding(folders[1..], rangeId)
  }

  /** The lookup returns the first folder holding the range. */
  lemma {:induction false} FolderHoldingFindsFirst(folders: seq<Folder>, rangeId: string, i: int)
    requires 0 <= i < |folders| && HoldsRange(folders[i], rangeId)
    requires forall j :: 0 <= j < i ==> !HoldsRange(folders[j], rangeId)
    ensures FolderHolding(folders, rangeId) == Some(folders[i])
  {
    if i > 0 {
      var tail := folders[1..];
      assert tail[i - 1] == folders[i];
      forall j | 0 <= j < i - 1 ensures !HoldsRange(tail[j], rangeId) {
        assert tail[j] == folders[j + 1];
      }
      FolderHoldingFindsFirst(tail, rangeId, i - 1);
    }
  }

  /**
   * The folder the dialog shows for a draft: for a range button with a
   * link, the first folder holding the linked range; none for any other
   * draft, for a link no folder holds, or for a folder whose id is empty
   * (`parentFolder?.id || null`).
   */
  function ParentFolderId(draft: Button, folders: seq<Folder>): (r: Option<string>)
    ensures r.Some? ==>
      && draft.kind == Normal && draft.linkedItem != "" && r.value != ""
      && exists f :: f in folders && f.id == r.value && HoldsRange(f, draft.linkedItem)
    ensures draft.kind != Normal || draft.linkedItem == "" ==> r.None?
    ensures (forall f :: f in folders ==> !HoldsRange(f, draft.linkedItem)) ==> r.None?
  {
    var parent := if draft.kind == Normal && draft.linkedItem != "" then FolderHolding(folders, draft.linkedItem) else None;
    if parent.Some? && parent.value.id != "" then Some(parent.value.id) else None
  }

  /** The folder shown is the first one holding the linked range. */
  lemma ParentFolderIdFindsFirst(draft: Button, folders: seq<Folder>, i: int)
    requires draft.kind == Normal && draft.linkedItem != ""
    requires 0 <= i < |folders| && HoldsRange(folders[i], draft.linkedItem) && folders[i].id != ""
    requires forall j :: 0 <= j < i ==> !HoldsRange(folders[j], draft.linkedItem)
    ensures ParentFolderId(draft, folders) == Some(folders[i].id)
  {
    FolderHoldingFindsFirst(folders, draft.linkedItem, i);
  }

  /**
   * The folder select followed by the effect that re-derives the folder
   * from the new link: a folder whose first range no earlier folder holds
   * stays chosen; an empty folder leaves the link empty and clears the
   * choice.
   */
  lemma ChosenFolderAfterSync(draft: Button, folders: seq<Folder>, i: int)
    requires 0 <= i < |folders| && FirstWithId(folders, folders[i].id, i)
    requires draft.kind == Normal
    ensures var next := ChooseFolder(Some(draft), folders[i].id, folders).0.value;
      && (folders[i].ranges == [] ==> ParentFolderId(next, folders).None?)
      && (folders[i].ranges != [] && folders[i].id != "" && folders[i].ranges[0].id != ""
          && (forall j :: 0 <= j < i ==> !HoldsRange(folders[j], folders[i].ranges[0].id)) ==>
            ParentFolderId(next, folders) == Some(folders[i].id))
  {
    var next := ChooseFolder(Some(draft), folders[i].id, folders).0.value;
    if folders[i].ranges != [] {
      var first := folders[i].ranges[0];
      assert next.linkedItem == first.id;
      if folders[i].id != "" && first.id != "" && forall j :: 0 <= j < i ==> !HoldsRange(folders[j], first.id) {
        assert first in folders[i].ranges;
        FolderHoldingFindsFirst(folders, first.id, i);
      }
    }
  }

  /**
   * The radio follows what it sets: after choosing a type the radio shows
   * that type and is not disabled.
   */
  lemma RadioShowsChosenType(draft: Option<Button>, choice: TypeChoice, folders: seq<Folder>, selectedFolder: Option<string>)
    requires draft.Some?
    ensures var next := ChooseType(draft, choice, folders, selectedFolder).0;
      RadioValue(next) == choice && !RadioDisabled(next)
  {
  }

  /** The controls of the dialog: a field control, the type radio and the folder select. */
  datatype Control =
    | Field(e: FieldEdit)
    | TypeRadio(choice: TypeChoice)
    | FolderSelect(folderId: string)

  /**
   * Whether the dialog lets the user operate the control. The type radio is
   * disabled for an exit draft; the folder and range selects are shown only
   * for a range button, and the range select needs a chosen folder; the
   * font size and font colour are disabled unless adaptive fonts are
   * explicitly off; the legend switch is disabled for text and exit
   * buttons. Every other control is always enabled.
   */
  function Enabled(draft: Option<Button>, selectedFolder: Option<string>, c: Control): (r: bool)
    ensures r && (c.FolderSelect? || (c.Field? && (c.e.PickRange? || c.e.SetShowLegend?))) ==>
      draft.Some? && draft.value.kind == Normal
    ensures r && c.Field? && c.e.PickRange? ==> selectedFolder.Some? && selectedFolder.value != ""
    ensures r && c.Field? && (c.e.SetFontSize? || c.e.SetFontColor?) ==>
      draft.Some? && draft.value.isFontAdaptive == Some(false)
    ensures c.TypeRadio? ==> (r <==> !RadioDisabled(draft))
    ensures c.Field? && (c.e.Rename? || c.e.Recolor? || c.e.SetFontAdaptive? || c.e.SetWidth? || c.e.SetHeight?) ==> r
    ensures RadioDisabled(draft) && r ==> c.Field?
  {
    var isNormal := draft.Some? && draft.value.kind == Normal;
    match c
    case TypeRadio(_) => !RadioDisabled(draft)
    case FolderSelect(_) => isNormal
    case Field(e) =>
      match e
      case PickRange(_) => isNormal && selectedFolder.Some? && selectedFolder.value != ""
      case SetFontSize(_) => draft.Some? && draft.value.isFontAdaptive == Some(false)
      case SetFontColor(_) => draft.Some? && draft.value.isFontAdaptive == Some(false)
      case SetShowLegend(_) => isNormal
      case _ => true
  }

  /**
   * One use of a control on the open dialog: a disabled control does
   * nothing; an enabled one runs its handler, and then the folder effect
   * re-derives the chosen folder from the draft's link.
   */
  function Operate(draft: Option<Button>, selectedFolder: Option<string>, c: Control, folders: seq<Folder>): (r: (Option<Button>, Option<string>))
    ensures !Enabled(draft, selectedFolder, c) ==> r == (draft, selectedFolder)
    ensures Enabled(draft, selectedFolder, c) && r.0.Some? ==> r.1 == ParentFolderId(r.0.value, folders)
    ensures r.0.Some? <==> draft.Some?
    ensures RadioDisabled(draft) ==> RadioDisabled(r.0) && SameIdentity(draft.value, r.0.value)
    ensures Enabled(draft, selectedFolder, c) && c.Field? ==> r.0 == ApplyEdit(draft, c.e)
    ensures Enabled(draft, selectedFolder, c) && c.TypeRadio? ==> r.0 == ChooseType(draft, c.choice, folders, selectedFolder).0
    ensures Enabled(draft, selectedFolder, c) && c.FolderSelect? ==> r.0 == ChooseFolder(draft, c.folderId, folders).0
  {
    if !Enabled(draft, selectedFolder, c) then (draft, selectedFolder)
    else
      var handled := match c
        case Field(e) => (ApplyEdit(draft, e), selectedFolder)
        case TypeRadio(choice) => ChooseType(draft, choice, folders, selectedFolder)
        case FolderSelect(folderId) => ChooseFolder(draft, folderId, folders);
      if handled.0.Some? then (handled.0, ParentFolderId(handled.0.value, folders)) else handled
  }

  /** `b` has `a`'s id, kind and link. */
  predicate SameIdentity(a: Button, b: Button) {
    b.id == a.id && b.kind == a.kind && b.linkedItem == a.linkedItem
  }

  /** A session of the open dialog: the controls used, in order. */
  function Session(draft: Option<Button>, selectedFolder: Option<string>, cs: seq<Control>, folders: seq<Folder>): (r: (Option<Button>, Option<string>))
    ensures r.0.Some? <==> draft.Some?
    decreases |cs|
  {
    if cs == [] then (draft, selectedFolder)
    else
      var next := Operate(draft, selectedFolder, cs[0], folders);
      Session(next.0, next.1, cs[1..], folders)
  }

  /**
   * An exit draft stays an exit draft over every session of the dialog,
   * whatever controls are used: the radio stays disabled on "label" and
   * the draft keeps its id, its kind and its link.
   */
  lemma {:induction false} ExitDraftStaysExit(draft: Option<Button>, selectedFolder: Option<string>, cs: seq<Control>, folders: seq<Folder>)
    requires RadioDisabled(draft)
    ensures var next := Session(draft, selectedFolder, cs, folders).0;
      RadioDisabled(next) && RadioValue(next) == LabelChoice && SameIdentity(draft.value, next.value)
    decreases |cs|
  {
    if cs != [] {
      var step := Operate(draft, selectedFolder, cs[0], folders);
      ExitDraftStaysExit(step.0, step.1, cs[1..], folders);
    }
  }

  /** No control of the dialog changes a draft's id or kind. */
  lemma ApplyEditKeepsIdentity(draft: Option<Button>, e: FieldEdit)
    requires draft.Some?
    ensures ApplyEdit(draft, e).value.id == draft.value.id && ApplyEdit(draft, e).value.kind == draft.value.kind
  {
  }

  /** After the type radio, a text label is linked to "label-only" and a range button never is (given range ids other than it). */
  lemma ChooseTypeLinkIsCoherent(draft: Option<Button>, choice: TypeChoice, folders: seq<Folder>, selectedFolder: Option<string>)
    requires draft.Some?
    requires forall f, rg :: f in folders && rg in f.ranges ==> rg.id != LabelOnly
    ensures var b := ChooseType(draft, choice, folders, selectedFolder).0.value;
      (b.kind == Label <==> b.linkedItem == LabelOnly) && (b.kind == Label || b.kind == Normal)
  {
    if choice == NormalChoice && folders != [] && folders[0].ranges != [] {
      assert folders[0] in folders && folders[0].ranges[0] in folders[0].ranges;
    }
  }
}
