/**
 * The edit lifecycle of a button, as functions of the previous state: the
 * new-button defaults, save (replace by id), cancel (drop a button that was
 * never saved), copy, the canvas-size blur rule and the cleaning of legend
 * overrides. Both editor copies use these rules; the older copy's own
 * add-button default and link-select updater are here too.
 */
module EditorOps {
  import opened Common
  import opened Strings
  import opened ChartModel

  /** Smallest canvas width or height a blurred size field is raised to. */
  const MinCanvasDimension: int := 100

  /** The button "add" creates in the hook: a text label, 120 x 40 at (50, 50). */
  function NewLabelButton(id: string): (r: Button)
    ensures r.id == id && r.kind == Label && r.linkedItem == LabelOnly
    ensures r.x == 50 && r.y == 50 && r.width == 120 && r.height == 40
    ensures r.legendOverrides == Some(map[])
  {
    Button(id, "New", "#60A5FA", LabelOnly, 50, 50, 120, 40, Label,
           Some(true), Some(16), Some(White), Some(false), Some(map[]))
  }

  /**
   * The button "add" creates in the older editor: linked to the first range of
   * the catalogue when there is one, a text label otherwise.
   */
  function NewDefaultButton(id: string, folders: seq<Folder>): (r: Button)
    ensures r.id == id && r.x == 50 && r.y == 50 && r.width == 120 && r.height == 40
    ensures AllRanges(folders) != [] ==> r.kind == Normal && r.linkedItem == AllRanges(folders)[0].id
    ensures AllRanges(folders) == [] ==> r.kind == Label && r.linkedItem == LabelOnly
  {
    var ranges := AllRanges(folders);
    Button(id, "Новая кнопка", "#60A5FA",
           if |ranges| > 0 then ranges[0].id else LabelOnly,
           50, 50, 120, 40,
           if |ranges| > 0 then Normal else Label,
           Some(true), Some(16), Some(White), Some(false), Some(map[]))
  }

  /** Save: every entry whose id is the edited button's id becomes the edited button. */
  function ReplaceById(buttons: seq<Button>, edited: Button): (r: seq<Button>)
    ensures |r| == |buttons|
    ensures forall i :: 0 <= i < |r| ==> r[i] == if buttons[i].id == edited.id then edited else buttons[i]
    ensures Ids(r) == Ids(buttons)
  {
    var r := seq(|buttons|, i requires 0 <= i < |buttons| => if buttons[i].id == edited.id then edited else buttons[i]);
    assert forall i :: 0 <= i < |r| ==> r[i].id == buttons[i].id;
    assert Ids(r) == Ids(buttons) by {
      forall id | id in Ids(buttons) ensures id in Ids(r) {
        var i :| 0 <= i < |buttons| && buttons[i].id == id;
        assert r[i].id == id;
      }
    }
    r
  }

  /** The list without the entries that carry the id, order kept (`filter`). */
  function RemoveId(buttons: seq<Button>, id: string): (r: seq<Button>)
    ensures id !in Ids(r)
    ensures forall b :: b in r <==> b in buttons && b.id != id
    ensures |r| <= |buttons|
    ensures id !in Ids(buttons) ==> r == buttons
  {
    if buttons == [] then []
    else
      var rest := RemoveId(buttons[1..], id);
      assert Ids(buttons[1..]) <= Ids(buttons) by {
        forall k | 0 <= k < |buttons| - 1 ensures buttons[1..][k] == buttons[k + 1] {}
      }
      if buttons[0].id == id then rest
      else
        IdsCons(buttons[0], rest);
        assert buttons == [buttons[0]] + buttons[1..];
        [buttons[0]] + rest
  }

  /** The filter distributes over concatenation: the kept buttons keep their order. */
  lemma {:induction false} RemoveIdAppend(a: seq<Button>, b: seq<Button>, id: string)
    ensures RemoveId(a + b, id) == RemoveId(a, id) + RemoveId(b, id)
  {
    if a == [] {
      assert a + b == b;
    } else {
      assert (a + b)[0] == a[0];
      assert (a + b)[1..] == a[1..] + b;
      RemoveIdAppend(a[1..], b, id);
    }
  }

  lemma IdsCons(b: Button, rest: seq<Button>)
    ensures Ids([b] + rest) == {b.id} + Ids(rest)
  {
    var s := [b] + rest;
    assert s[0] == b;
    forall id | id in Ids(rest) ensures id in Ids(s) {
      var k :| 0 <= k < |rest| && rest[k].id == id;
      assert s[k + 1] == rest[k];
    }
    forall id | id in Ids(s) ensures id in {b.id} + Ids(rest) {
      var k :| 0 <= k < |s| && s[k].id == id;
      if k > 0 { assert s[k] == rest[k - 1]; }
    }
  }

  /**
   * Cancel: a draft whose id is not among the buttons the chart was loaded
   * with was added in this session and is removed; otherwise the list stays.
   */
  function CancelEdit(buttons: seq<Button>, loaded: seq<Button>, editing: Option<Button>): (r: seq<Button>)
    ensures editing.Some? && editing.value.id !in Ids(loaded) ==> r == RemoveId(buttons, editing.value.id)
    ensures editing.None? || editing.value.id in Ids(loaded) ==> r == buttons
  {
    if editing.Some? && editing.value.id !in Ids(loaded) then RemoveId(buttons, editing.value.id) else buttons
  }

  /** Adding a button and cancelling its draft at once leaves the list as it was. */
  lemma AddThenCancelRestores(buttons: seq<Button>, loaded: seq<Button>, added: Button)
    requires added.id !in Ids(buttons) && added.id !in Ids(loaded)
    ensures CancelEdit(buttons + [added], loaded, Some(added)) == buttons
  {
    RemoveAppended(buttons, added);
  }

  lemma {:induction false} RemoveAppended(buttons: seq<Button>, added: Button)
    requires added.id !in Ids(buttons)
    ensures RemoveId(buttons + [added], added.id) == buttons
  {
    if buttons == [] {
      assert [added][1..] == [];
    } else {
      assert buttons[0] in buttons;
      assert (buttons + [added])[1..] == buttons[1..] + [added];
      assert added.id !in Ids(buttons[1..]) by {
        forall k | 0 <= k < |buttons| - 1 ensures buttons[1..][k] == buttons[k + 1] {}
      }
      RemoveAppended(buttons[1..], added);
      assert buttons[0].id != added.id;
    }
  }

  /** Copy: the draft with a fresh id, moved 10 px right and 10 px down. */
  function CopyOf(editing: Button, freshId: string): (r: Button)
    ensures r.id == freshId && r.x == editing.x + 10 && r.y == editing.y + 10
    ensures SameButInGeometry(r.(id := editing.id), editing) && r.width == editing.width && r.height == editing.height
  {
    editing.(id := freshId, x := editing.x + 10, y := editing.y + 10)
  }

  /**
   * The blur rule of the canvas width and height fields: a NaN or a value
   * under 100 is replaced by exactly 100 (Some); any other value is left as it
   * is (None, the setter is not called).
   */
  function DimensionBlur(current: Numeric): (r: Option<int>)
    ensures r.Some? ==> r.value == MinCanvasDimension
    ensures r.None? <==> current.Num? && current.n >= MinCanvasDimension
  {
    if current.NaN? || current.n < MinCanvasDimension then Some(MinCanvasDimension) else None
  }

  /** The value the field holds after a blur: at least 100, and a second blur changes nothing. */
  lemma DimensionBlurSettles(current: Numeric)
    ensures var after := match DimensionBlur(current) case Some(v) => Num(v) case None => current;
      after.Num? && after.n >= MinCanvasDimension && DimensionBlur(after).None?
  {
  }

  /** Every override value, trimmed. */
  function TrimmedValues(overrides: map<string, string>): map<string, string> {
    map k | k in overrides :: Trim(overrides[k])
  }

  /** The entries among `keys` whose value is not empty. */
  function NonEmptyOn(values: map<string, string>, keys: set<string>): map<string, string> {
    map k | k in keys && k in values && values[k] != [] :: values[k]
  }

  /** The override map the legend preview saves. */
  function CleanedOverrides(overrides: map<string, string>): map<string, string> {
    NonEmptyOn(TrimmedValues(overrides), overrides.Keys)
  }

  /** Blank entries are dropped, every other entry is kept with its value trimmed. */
  lemma CleanedOverridesMeaning(overrides: map<string, string>)
    ensures var cleaned := CleanedOverrides(overrides);
      && (forall k :: k in cleaned <==> k in overrides && !AllWhitespace(overrides[k]))
      && (forall k :: k in cleaned ==> cleaned[k] == Trim(overrides[k]) && cleaned[k] != [])
  {
    forall k | k in overrides ensures Trim(overrides[k]) != [] <==> !AllWhitespace(overrides[k]) {
      TrimEmptyIff(overrides[k]);
    }
  }

  /** Visiting one more key adds it exactly when its value is not empty. */
  lemma NonEmptyOnStep(values: map<string, string>, done: set<string>, key: string)
    requires key in values && key !in done
    ensures NonEmptyOn(values, done + {key})
      == if values[key] != [] then NonEmptyOn(values, done)[key := values[key]] else NonEmptyOn(values, done)
  {
    var before := NonEmptyOn(values, done);
    var after := NonEmptyOn(values, done + {key});
    var expected := if values[key] != [] then before[key := values[key]] else before;
    assert after.Keys == expected.Keys;
    forall k | k in after ensures after[k] == expected[k] {
      if k != key { assert k in before; }
    }
  }

  /**
   * The cleaning loop of the legend preview: visit every key once, and store
   * the trimmed value of those whose trimmed value is not empty.
   */
  method CleanOverrides(overrides: map<string, string>) returns (cleaned: map<string, string>)
    ensures cleaned == CleanedOverrides(overrides)
  {
    ghost var trimmed := TrimmedValues(overrides);
    ghost var done: set<string> := {};
    cleaned := map[];
    var todo := overrides.Keys;
    while todo != {}
      invariant done !! todo && done + todo == overrides.Keys
      invariant cleaned == NonEmptyOn(trimmed, done)
      decreases todo
    {
      var key :| key in todo;
      var value := Trim(overrides[key]);
      assert value == trimmed[key];
      NonEmptyOnStep(trimmed, done, key);
      if value != [] {
        cleaned := cleaned[key := value];
      }
      done := done + {key};
      todo := todo - {key};
    }
    assert done == overrides.Keys;
  }

  /**
   * The older editor's link select: "label-only" turns the draft into a text
   * label, any other value links it as a range button; no draft stays none.
   */
  function LinkedItemChange(draft: Option<Button>, value: string): (r: Option<Button>)
    ensures r.Some? <==> draft.Some?
    ensures r.Some? ==> r.value.linkedItem == value
    ensures r.Some? ==> (r.value.kind == Label <==> value == LabelOnly)
    ensures r.Some? ==> (r.value.kind == Normal <==> value != LabelOnly)
    ensures r.Some? ==> r.value.(linkedItem := draft.value.linkedItem, kind := draft.value.kind) == draft.value
  {
    match draft
    case None => None
    case Some(prev) =>
      if value == LabelOnly then Some(prev.(linkedItem := LabelOnly, kind := Label))
      else Some(prev.(linkedItem := value, kind := Normal))
  }
}
