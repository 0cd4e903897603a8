/**
 * The 13 x 13 matrix of starting hands, the number of card combinations each
 * hand stands for, and the click-and-drag selection rule of the matrix.
 */
module PokerMatrix {
  import opened Common

  /** The ranks from ace down to two; row and column i of the matrix are rank i. */
  const Ranks: seq<char> := ['A', 'K', 'Q', 'J', 'T', '9', '8', '7', '6', '5', '4', '3', '2']

  const Size: int := 13

  /**
   * The cell in row i and column j: a pair on the diagonal, a suited hand
   * above it and an offsuit hand below it, the higher rank always first.
   */
  function HandAt(i: int, j: int): (h: string)
    requires 0 <= i < Size && 0 <= j < Size
    ensures |h| == 2 <==> i == j
    ensures |h| == 3 && h[2] == 's' <==> i < j
    ensures |h| == 3 && h[2] == 'o' <==> i > j
    ensures h[0] == Ranks[if i < j then i else j] && h[1] == Ranks[if i < j then j else i]
  {
    if i == j then [Ranks[i], Ranks[i]]
    else if i < j then [Ranks[i], Ranks[j], 's']
    else [Ranks[j], Ranks[i], 'o']
  }

  /** The whole matrix, row by row: 13 rows of 13 cells, no hand in two cells. */
  function HandsGrid(): (g: seq<seq<string>>)
    ensures |g| == Size && forall i :: 0 <= i < Size ==> |g[i]| == Size
    ensures forall i, j, k, l ::
      0 <= i < Size && 0 <= j < Size && 0 <= k < Size && 0 <= l < Size && g[i][j] == g[k][l] ==> i == k && j == l
  {
    var g := seq(Size, i requires 0 <= i < Size => seq(Size, j requires 0 <= j < Size => HandAt(i, j)));
    assert forall i, j, k, l ::
      0 <= i < Size && 0 <= j < Size && 0 <= k < Size && 0 <= l < Size && g[i][j] == g[k][l] ==> i == k && j == l by {
      forall i, j, k, l | 0 <= i < Size && 0 <= j < Size && 0 <= k < Size && 0 <= l < Size && g[i][j] == g[k][l]
        ensures i == k && j == l
      {
        HandAtInjective(i, j, k, l);
      }
    }
    g
  }

  /** The nested loops that build the matrix. */
  method BuildHands() returns (hands: seq<seq<string>>)
    ensures |hands| == Size
    ensures forall i :: 0 <= i < Size ==> |hands[i]| == Size
    ensures forall i, j :: 0 <= i < Size && 0 <= j < Size ==> hands[i][j] == HandAt(i, j)
    ensures hands == HandsGrid()
  {
    hands := [];
    var i := 0;
    while i < |Ranks|
      invariant 0 <= i <= Size
      invariant |hands| == i
      invariant forall k :: 0 <= k < i ==> hands[k] == HandsGrid()[k]
    {
      var row: seq<string> := [];
      var j := 0;
      while j < |Ranks|
        invariant 0 <= j <= Size
        invariant |row| == j
        invariant forall l :: 0 <= l < j ==> row[l] == HandAt(i, l)
      {
        var rank1 := Ranks[i];
        var rank2 := Ranks[j];
        if i == j {
          row := row + [[rank1, rank1]];
        } else if i < j {
          row := row + [[rank1, rank2, 's']];
        } else {
          row := row + [[rank2, rank1, 'o']];
        }
        j := j + 1;
      }
      assert row == HandsGrid()[i];
      hands := hands + [row];
      i := i + 1;
    }
  }

  lemma RanksDistinct()
    ensures forall i, j :: 0 <= i < j < Size ==> Ranks[i] != Ranks[j]
  {
  }

  /** Mirror cells off the diagonal name the same two ranks and differ only in the suited/offsuit mark. */
  lemma MirrorCellsShareRanks(i: int, j: int)
    requires 0 <= i < Size && 0 <= j < Size && i != j
    ensures HandAt(i, j)[..2] == HandAt(j, i)[..2]
    ensures HandAt(i, j)[2] != HandAt(j, i)[2]
  {
  }

  /** No hand appears in two cells. */
  lemma HandAtInjective(i: int, j: int, k: int, l: int)
    requires 0 <= i < Size && 0 <= j < Size && 0 <= k < Size && 0 <= l < Size
    requires HandAt(i, j) == HandAt(k, l)
    ensures i == k && j == l
  {
    RanksDistinct();
  }

  /**
   * The number of card combinations a hand name stands for: 6 for a pair,
   * 4 for a name ending in 's', 12 for one ending in 'o', 0 for anything else.
   */
  function Combinations(hand: string): (r: nat)
    ensures r == 6 <==> |hand| == 2 && hand[0] == hand[1]
    ensures r == 4 <==> !(|hand| == 2 && hand[0] == hand[1]) && |hand| > 0 && hand[|hand| - 1] == 's'
    ensures r == 12 <==> !(|hand| == 2 && hand[0] == hand[1]) && |hand| > 0 && hand[|hand| - 1] == 'o'
    ensures r == 0 || r == 4 || r == 6 || r == 12
  {
    if |hand| == 2 && hand[0] == hand[1] then 6
    else if |hand| > 0 && hand[|hand| - 1] == 's' then 4
    else if |hand| > 0 && hand[|hand| - 1] == 'o' then 12
    else 0
  }

  /** The combination count of every cell: 6 on the diagonal, 4 above, 12 below. */
  lemma CellCombinations(i: int, j: int)
    requires 0 <= i < Size && 0 <= j < Size
    ensures Combinations(HandAt(i, j)) == if i == j then 6 else if i < j then 4 else 12
  {
    RanksDistinct();
  }

  /** `flat()`: the rows one after another. */
  function Flatten(grid: seq<seq<string>>): (r: seq<string>)
    ensures |grid| > 0 ==> r == Flatten(grid[..|grid| - 1]) + grid[|grid| - 1]
  {
    if grid == [] then [] else Flatten(grid[..|grid| - 1]) + grid[|grid| - 1]
  }

  /** `reduce((sum, hand) => sum + getCombinations(hand), 0)`. */
  function SumCombinations(hands: seq<string>): nat {
    if hands == [] then 0 else SumCombinations(hands[..|hands| - 1]) + Combinations(hands[|hands| - 1])
  }

  lemma {:induction false} SumCombinationsAppend(a: seq<string>, b: seq<string>)
    ensures SumCombinations(a + b) == SumCombinations(a) + SumCombinations(b)
  {
    if b != [] {
      assert (a + b)[..|a + b| - 1] == a + b[..|b| - 1];
      SumCombinationsAppend(a, b[..|b| - 1]);
    } else {
      assert a + b == a;
    }
  }

  /**
   * The first n cells of row i: one pair if the diagonal is among them, 4
   * for each cell right of the diagonal and 12 for each cell left of it.
   */
  lemma {:induction false} RowPrefixSum(i: int, n: int)
    requires 0 <= i < Size && 0 <= n <= Size
    ensures SumCombinations(HandsGrid()[i][..n])
      == (if i < n then 6 else 0) + 4 * (if n > i + 1 then n - i - 1 else 0) + 12 * (if i < n then i else n)
  {
    var row := HandsGrid()[i];
    if n > 0 {
      assert row[..n][..n - 1] == row[..n - 1];
      RowPrefixSum(i, n - 1);
      CellCombinations(i, n - 1);
    }
  }

  /** The first m rows together: row i contributes 54 + 8i. */
  lemma {:induction false} GridPrefixSum(m: int)
    requires 0 <= m <= Size
    ensures SumCombinations(Flatten(HandsGrid()[..m])) == 54 * m + 4 * m * (m - 1)
  {
    if m > 0 {
      var grid := HandsGrid();
      assert grid[..m][..m - 1] == grid[..m - 1];
      GridPrefixSum(m - 1);
      SumCombinationsAppend(Flatten(grid[..m - 1]), grid[m - 1]);
      RowPrefixSum(m - 1, Size);
      assert grid[m - 1][..Size] == grid[m - 1];
      assert SumCombinations(grid[m - 1]) == 54 + 8 * (m - 1);
      GridStepArithmetic(m);
    }
  }

  lemma GridStepArithmetic(m: int)
    ensures 54 * m + 4 * m * (m - 1) == (54 * (m - 1) + 4 * (m - 1) * (m - 2)) + (54 + 8 * (m - 1))
  {
  }

  /** The total over the matrix is 1326, the number of two-card starting hands. */
  lemma TotalCombinationsIs1326()
    ensures SumCombinations(Flatten(HandsGrid())) == 1326
  {
    GridPrefixSum(Size);
    assert HandsGrid()[..Size] == HandsGrid();
  }

  // -------------------------------------------------------- drag selection

  datatype Mode = Select | Deselect

  /** A drag that starts on a hand already holding the active action removes it; otherwise it assigns it. */
  function DragModeFor(selectedHands: map<string, string>, hand: string, activeAction: string): (r: Mode)
    ensures r == Deselect <==> hand in selectedHands && selectedHands[hand] == activeAction
  {
    if hand in selectedHands && selectedHands[hand] == activeAction then Deselect else Select
  }

  /** The hand currently holds the action. */
  predicate HoldsAction(selectedHands: map<string, string>, hand: string, action: string) {
    hand in selectedHands && selectedHands[hand] == action
  }

  /**
   * What a reported mode asks of the selection: "select" gives the hand the
   * active action, "deselect" clears the hand's entry.
   */
  function ApplyMode(selectedHands: map<string, string>, hand: string, mode: Mode, activeAction: string): (r: map<string, string>)
    ensures mode == Select ==> r == selectedHands[hand := activeAction]
    ensures mode == Deselect ==> r == selectedHands - {hand}
  {
    match mode
    case Select => selectedHands[hand := activeAction]
    case Deselect => selectedHands - {hand}
  }

  /** The hand a drag starts on flips: it holds the active action afterwards exactly when it did not before. */
  lemma DragStartFlipsHand(selectedHands: map<string, string>, hand: string, activeAction: string)
    ensures var after := ApplyMode(selectedHands, hand, DragModeFor(selectedHands, hand, activeAction), activeAction);
      HoldsAction(after, hand, activeAction) <==> !HoldsAction(selectedHands, hand, activeAction)
  {
  }

  /**
   * Every later hand of the drag ends in the state of the first: it holds
   * the active action exactly when the drag selects; other hands keep their entries.
   */
  lemma DragModeIsUniform(selectedHands: map<string, string>, hand: string, mode: Mode, activeAction: string, other: string)
    requires other != hand
    ensures HoldsAction(ApplyMode(selectedHands, hand, mode, activeAction), hand, activeAction) <==> mode == Select
    ensures other in ApplyMode(selectedHands, hand, mode, activeAction) <==> other in selectedHands
    ensures other in selectedHands ==> ApplyMode(selectedHands, hand, mode, activeAction)[other] == selectedHands[other]
  {
  }

  /**
   * The matrix's drag state. Each handler returns the hand it reports to the
   * selection callback, with the mode, or None when it reports nothing.
   */
  class MatrixDrag {
    var isDragging: bool
    var dragMode: Option<Mode>
    /** The last hand reported during the current drag. */
    var lastHand: Option<string>

    /** A drag always has a mode. */
    predicate Consistent()
      reads this
    {
      isDragging ==> dragMode.Some?
    }

    constructor()
      ensures !isDragging && dragMode.None? && lastHand.None?
      ensures Consistent()
    {
      isDragging := false;
      dragMode := None;
      lastHand := None;
    }

    /**
     * Pointer-down on a hand: nothing in a read-only or background matrix;
     * otherwise a drag starts in the mode the hand's current action decides,
     * and the hand itself is reported at once.
     */
    method PointerDown(hand: string, selectedHands: map<string, string>, activeAction: string,
                       readOnly: bool, backgroundMode: bool) returns (reported: Option<(string, Mode)>)
      modifies this
      ensures readOnly || backgroundMode ==>
        reported.None? && isDragging == old(isDragging) && dragMode == old(dragMode) && lastHand == old(lastHand)
      ensures !readOnly && !backgroundMode ==>
        && reported == Some((hand, DragModeFor(selectedHands, hand, activeAction)))
        && isDragging && dragMode == Some(reported.value.1) && lastHand == Some(hand)
      ensures old(Consistent()) ==> Consistent()
    {
      if readOnly || backgroundMode {
        return None;
      }
      lastHand := None;
      isDragging := true;
      var mode := DragModeFor(selectedHands, hand, activeAction);
      dragMode := Some(mode);
      reported := Some((hand, mode));
      lastHand := Some(hand);
    }

    /**
     * The pointer enters a hand: during a drag, a hand other than the last
     * one reported is reported in the drag's mode and becomes the last one.
     */
    method PointerEnter(hand: string, readOnly: bool, backgroundMode: bool) returns (reported: Option<(string, Mode)>)
      modifies this`lastHand
      ensures reported.Some? <==>
        !readOnly && !backgroundMode && isDragging && dragMode.Some? && old(lastHand) != Some(hand)
      ensures reported.Some? ==> reported.value == (hand, dragMode.value) && lastHand == Some(hand)
      ensures reported.None? ==> lastHand == old(lastHand)
    {
      reported := None;
      if readOnly || backgroundMode || !isDragging || dragMode.None? {
        return;
      }
      if lastHand != Some(hand) {
        reported := Some((hand, dragMode.value));
        lastHand := Some(hand);
      }
    }

    /**
     * A touch move: during a drag outside background mode, the hand under
     * the finger (None when the element there is not a hand) is entered.
     */
    method TouchMove(handUnderFinger: Option<string>, readOnly: bool, backgroundMode: bool)
      returns (reported: Option<(string, Mode)>)
      modifies this`lastHand
      ensures !isDragging || backgroundMode || handUnderFinger.None? ==> reported.None? && lastHand == old(lastHand)
      ensures reported.Some? <==>
        isDragging && !backgroundMode && !readOnly && handUnderFinger.Some? && dragMode.Some? && old(lastHand) != handUnderFinger
      ensures reported.None? ==> lastHand == old(lastHand)
      ensures reported.Some? ==>
        && handUnderFinger.Some? && dragMode.Some?
        && reported.value == (handUnderFinger.value, dragMode.value)
        && old(lastHand) != handUnderFinger && lastHand == handUnderFinger
    {
      reported := None;
      if !isDragging || backgroundMode {
        return;
      }
      if handUnderFinger.Some? {
        reported := PointerEnter(handUnderFinger.value, readOnly, backgroundMode);
      }
    }

    /** Mouse-up, touch-end or touch-cancel anywhere: the drag ends. */
    method DragEnd()
      modifies this`isDragging, this`dragMode
      ensures !isDragging && dragMode.None? && Consistent()
    {
      isDragging := false;
      dragMode := None;
    }

    /** Switching the matrix to background mode ends any drag. */
    method EnterBackgroundMode()
      modifies this`isDragging, this`dragMode
      ensures !isDragging && dragMode.None? && Consistent()
    {
      DragEnd();
    }
  }
}
