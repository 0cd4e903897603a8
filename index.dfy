/**
 * The list of stored charts kept by the main page: create, delete, save,
 * the chart currently selected, and the choice between the mobile and the
 * desktop layout.
 */
module ChartIndex {
  import opened Common
  import opened Strings
  import opened ChartModel

  const NewChartWidth: int := 800
  const NewChartHeight: int := 500

  /** The exit button every new chart starts with; its id is derived from the chart's. */
  function ExitButton(chartId: string): (r: Button)
    ensures r.id == "exit-" + chartId && r.kind == Exit && r.linkedItem == ""
    ensures r.x == 10 && r.y == 10 && r.width == 150 && r.height == 40
    ensures r.isFontAdaptive.None? && r.fontSize.None? && r.fontColor.None?
    ensures r.showLegend.None? && r.legendOverrides.None?
  {
    Button("exit-" + chartId, "Выход", "#EF4444", "", 10, 10, 150, 40, Exit, None, None, None, None, None)
  }

  /** A new chart named after the trimmed name, 800 x 500, holding only its exit button. */
  function NewChart(chartName: string, chartId: string): (r: StoredChart)
    ensures r.id == chartId && r.name == Trim(chartName)
    ensures r.buttons == [ExitButton(chartId)]
    ensures r.canvasWidth == Some(NewChartWidth) && r.canvasHeight == Some(NewChartHeight)
  {
    StoredChart(chartId, Trim(chartName), [ExitButton(chartId)], Some(NewChartWidth), Some(NewChartHeight))
  }

  /** Create: the new chart is appended; the charts before it are kept as they were. */
  function CreateChart(charts: seq<StoredChart>, chartName: string, chartId: string): (r: seq<StoredChart>)
    ensures |r| == |charts| + 1
    ensures r[..|charts|] == charts
    ensures r[|charts|] == NewChart(chartName, chartId)
  {
    charts + [NewChart(chartName, chartId)]
  }

  /**
   * The chart-list dialog and the page together: a name that is not blank
   * produces a chart named by its trimmed text, which is not empty and has
   * no surrounding white space.
   */
  lemma CreateFromDialogNamesChart(charts: seq<StoredChart>, typed: string, chartId: string)
    requires CreateChartRequest(typed).Some?
    ensures var created := CreateChart(charts, CreateChartRequest(typed).value, chartId)[|charts|];
      && created.name == Trim(typed)
      && created.name != []
      && !IsWhitespace(created.name[0]) && !IsWhitespace(created.name[|created.name| - 1])
  {
    TrimIdempotent(typed);
  }

  /** Delete: every chart with the id is dropped, the others keep their order (`filter`). */
  function DeleteChart(charts: seq<StoredChart>, id: string): (r: seq<StoredChart>)
    ensures forall c :: c in r <==> c in charts && c.id != id
    ensures |r| <= |charts|
    ensures (forall c :: c in charts ==> c.id != id) ==> r == charts
  {
    if charts == [] then []
    else if charts[0].id == id then DeleteChart(charts[1..], id)
    else [charts[0]] + DeleteChart(charts[1..], id)
  }

  /** Delete distributes over concatenation: it keeps the relative order of what it keeps. */
  lemma {:induction false} DeleteChartAppend(a: seq<StoredChart>, b: seq<StoredChart>, id: string)
    ensures DeleteChart(a + b, id) == DeleteChart(a, id) + DeleteChart(b, id)
  {
    if a == [] {
      assert a + b == b;
    } else {
      assert (a + b)[0] == a[0];
      assert (a + b)[1..] == a[1..] + b;
      DeleteChartAppend(a[1..], b, id);
    }
  }

  /** Deleting a chart that was just created removes exactly it. */
  lemma DeleteUndoesCreate(charts: seq<StoredChart>, chartName: string, chartId: string)
    requires forall c :: c in charts ==> c.id != chartId
    ensures DeleteChart(CreateChart(charts, chartName, chartId), chartId) == charts
  {
    DeleteChartAppend(charts, [NewChart(chartName, chartId)], chartId);
    assert [NewChart(chartName, chartId)][1..] == [];
  }

  /** Save: every chart with the updated chart's id becomes the updated chart; the rest are untouched. */
  function SaveChart(charts: seq<StoredChart>, updated: StoredChart): (r: seq<StoredChart>)
    ensures |r| == |charts|
    ensures forall i :: 0 <= i < |r| ==> r[i] == if charts[i].id == updated.id then updated else charts[i]
  {
    seq(|charts|, i requires 0 <= i < |charts| => if charts[i].id == updated.id then updated else charts[i])
  }

  /** Saving the same chart twice is saving it once; the set of ids never changes. */
  lemma SaveChartIdempotent(charts: seq<StoredChart>, updated: StoredChart)
    ensures SaveChart(SaveChart(charts, updated), updated) == SaveChart(charts, updated)
    ensures forall i :: 0 <= i < |charts| ==> SaveChart(charts, updated)[i].id == charts[i].id
  {
  }

  /** Saving a chart that is not in the list leaves the list as it was. */
  lemma SaveUnknownChartChangesNothing(charts: seq<StoredChart>, updated: StoredChart)
    requires forall c :: c in charts ==> c.id != updated.id
    ensures SaveChart(charts, updated) == charts
  {
    var r := SaveChart(charts, updated);
    forall i | 0 <= i < |charts| ensures r[i] == charts[i] {
      assert charts[i] in charts;
    }
  }

  /** The selected chart follows a save only when it is the chart saved. */
  function SelectedAfterSave(selected: Option<StoredChart>, updated: StoredChart): (r: Option<StoredChart>)
    ensures selected.Some? && selected.value.id == updated.id ==> r == Some(updated)
    ensures selected.None? || selected.value.id != updated.id ==> r == selected
    ensures r.Some? <==> selected.Some?
  {
    if selected.Some? && selected.value.id == updated.id then Some(updated) else selected
  }

  /** The selection stays in step with the list: a listed selected chart is still listed after a save. */
  lemma SelectionFollowsSave(charts: seq<StoredChart>, selected: Option<StoredChart>, updated: StoredChart)
    requires selected.Some? && selected.value in charts
    ensures SelectedAfterSave(selected, updated).Some?
    ensures SelectedAfterSave(selected, updated).value in SaveChart(charts, updated)
  {
    var k :| 0 <= k < |charts| && charts[k] == selected.value;
    assert SaveChart(charts, updated)[k] == SelectedAfterSave(selected, updated).value;
  }

  /**
   * The layout: a mobile device uses the mobile layout unless the desktop
   * layout is forced; a desktop uses it only when asked to.
   */
  function IsMobileLayout(mobileDevice: bool, forcedDesktop: bool, forceMobileOnDesktop: bool): (r: bool)
    ensures mobileDevice ==> (r <==> !forcedDesktop)
    ensures !mobileDevice ==> (r <==> forceMobileOnDesktop)
  {
    (mobileDevice && !forcedDesktop) || (!mobileDevice && forceMobileOnDesktop)
  }

  /**
   * The layout button: on a mobile device it toggles the forced desktop
   * layout, on a desktop the forced mobile layout. Result: the new pair of
   * flags.
   */
  function ToggleLayout(mobileDevice: bool, forcedDesktop: bool, forceMobileOnDesktop: bool): (r: (bool, bool))
    ensures mobileDevice ==> r == (!forcedDesktop, forceMobileOnDesktop)
    ensures !mobileDevice ==> r == (forcedDesktop, !forceMobileOnDesktop)
  {
    if mobileDevice then (!forcedDesktop, forceMobileOnDesktop) else (forcedDesktop, !forceMobileOnDesktop)
  }

  /** The layout button always switches the layout, and pressing it twice restores the flags. */
  lemma ToggleLayoutSwitches(mobileDevice: bool, forcedDesktop: bool, forceMobileOnDesktop: bool)
    ensures var r := ToggleLayout(mobileDevice, forcedDesktop, forceMobileOnDesktop);
      IsMobileLayout(mobileDevice, r.0, r.1) == !IsMobileLayout(mobileDevice, forcedDesktop, forceMobileOnDesktop)
    ensures var r := ToggleLayout(mobileDevice, forcedDesktop, forceMobileOnDesktop);
      ToggleLayout(mobileDevice, r.0, r.1) == (forcedDesktop, forceMobileOnDesktop)
  {
  }
}
