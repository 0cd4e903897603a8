/**
 * The chart records (a chart is a named canvas of buttons), the range
 * catalogue they link to, the Russian plural of "button" shown in the chart
 * list, and the guard of the chart-list "create" dialog.
 */
module ChartModel {
  import opened Common
  import opened Strings
  import opened Geometry

  /** What a button does: open a linked range, show text only, or leave the chart. */
  datatype Kind = Normal | Label | Exit
  datatype FontColor = White | Black

  /** One placeable button; the fields after `kind` are optional display settings. */
  datatype Button = Button(
    id: string,
    name: string,
    color: string,
    linkedItem: string,
    x: int,
    y: int,
    width: int,
    height: int,
    kind: Kind,
    isFontAdaptive: Option<bool>,
    fontSize: Option<int>,
    fontColor: Option<FontColor>,
    showLegend: Option<bool>,
    legendOverrides: Option<map<string, string>>)

  /** A stored chart; a missing canvas size means the 800 x 500 default. */
  datatype StoredChart = StoredChart(
    id: string,
    name: string,
    buttons: seq<Button>,
    canvasWidth: Option<int>,
    canvasHeight: Option<int>)

  datatype Range = Range(id: string, name: string)
  datatype Folder = Folder(id: string, name: string, ranges: seq<Range>)

  /** The link value of a text-only button. */
  const LabelOnly: string := "label-only"

  function BoxOf(b: Button): Box {
    Box(b.x, b.y, b.width, b.height)
  }

  /** The button with its geometry replaced and every other field kept. */
  function WithBox(b: Button, box: Box): (r: Button)
    ensures BoxOf(r) == box
    ensures r == b.(x := box.x, y := box.y, width := box.width, height := box.height)
  {
    b.(x := box.x, y := box.y, width := box.width, height := box.height)
  }

  /** Equal up to geometry: everything except x, y, width and height agrees. */
  predicate SameButInGeometry(a: Button, b: Button) {
    a == WithBox(b, BoxOf(a))
  }

  /** The ids of a button list, as a set. */
  function Ids(buttons: seq<Button>): set<string> {
    set i | 0 <= i < |buttons| :: buttons[i].id
  }

  predicate UniqueIds(buttons: seq<Button>) {
    forall i, j :: 0 <= i < j < |buttons| ==> buttons[i].id != buttons[j].id
  }

  /** Every range of every folder, folder by folder (`folders.flatMap(f => f.ranges)`). */
  function AllRanges(folders: seq<Folder>): (r: seq<Range>)
    ensures |r| == 0 <==> forall f :: f in folders ==> f.ranges == []
    ensures folders != [] && folders[0].ranges != [] ==> r != [] && r[0] == folders[0].ranges[0]
  {
    if folders == [] then [] else folders[0].ranges + AllRanges(folders[1..])
  }

  // ----------------------------------------------------- plural of "button"

  const One: string := "кнопка"
  const Few: string := "кнопки"
  const Many: string := "кнопок"

  /**
   * The word shown after a chart's button count (the count is a list
   * length). It is the word of the count's CLDR plural category.
   */
  function ButtonLabel(count: nat): (r: string)
    ensures r == WordFor(RussianPlural(count))
  {
    var lastDigit := count % 10;
    var lastTwoDigits := count % 100;
    if 11 <= lastTwoDigits <= 19 then Many
    else if lastDigit == 1 then One
    else if 2 <= lastDigit <= 4 then Few
    else Many
  }

  /** The integer plural categories of Russian in the Unicode CLDR plural rules. */
  datatype PluralCategory = CategoryOne | CategoryFew | CategoryMany

  /**
   * CLDR's rules for Russian, for integers: "one" is i % 10 = 1 and
   * i % 100 != 11; "few" is i % 10 = 2..4 and i % 100 != 12..14; every other
   * integer is "many".
   */
  function RussianPlural(i: nat): PluralCategory {
    if i % 10 == 1 && i % 100 != 11 then CategoryOne
    else if 2 <= i % 10 <= 4 && !(12 <= i % 100 <= 14) then CategoryFew
    else CategoryMany
  }

  function WordFor(c: PluralCategory): string {
    match c
    case CategoryOne => One
    case CategoryFew => Few
    case CategoryMany => Many
  }

  /** The label depends on the last two digits only. */
  lemma ButtonLabelDependsOnLastTwoDigits(a: nat, b: nat)
    requires a % 100 == b % 100
    ensures ButtonLabel(a) == ButtonLabel(b)
  {
    LastDigitOfLastTwo(a);
    LastDigitOfLastTwo(b);
    assert a % 10 == b % 10;
    assert RussianPlural(a) == RussianPlural(b);
  }

  /** The last digit is the last digit of the last two digits. */
  lemma LastDigitOfLastTwo(n: nat)
    ensures n % 10 == (n % 100) % 10
  {
    var q, r := n / 100, n % 100;
    assert n == 10 * (10 * q) + r;
    assert (10 * (10 * q) + r) % 10 == r % 10;
  }

  /** The three words are distinct, so the label tells the categories apart. */
  lemma ButtonLabelSeparatesCategories(a: nat, b: nat)
    ensures ButtonLabel(a) == ButtonLabel(b) <==> RussianPlural(a) == RussianPlural(b)
  {
    assert One != Few && One != Many && Few != Many by {
      assert One[5] != Few[5] && One[5] != Many[5] && Few[5] != Many[5];
    }
  }

  // ---------------------------------------------------- chart-list create

  /**
   * The chart-list "create" button: a blank or white-space name does nothing
   * (None); otherwise the trimmed name is handed to the create callback.
   */
  function CreateChartRequest(newChartName: string): (r: Option<string>)
    ensures r.None? <==> AllWhitespace(newChartName)
    ensures r.Some? ==> r.value == Trim(newChartName) && r.value != []
  {
    TrimEmptyIff(newChartName);
    var t := Trim(newChartName);
    if t != [] then Some(t) else None
  }
}
