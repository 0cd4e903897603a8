/**
 * The "create training" dialog: the range checklist, the validation of the
 * form, the training record it builds and the reset of the form afterwards.
 */
module CreateTraining {
  import opened Common
  import opened Strings
  import opened ChartModel

  datatype TrainingType = Classic | BorderRepeat
  datatype ClassicSubtype = AllHands | BorderCheck

  /**
   * A created training. The subtype exists only for a classic training and
   * the expansion level only for a classic border check. `createdAt` is the
   * creation time as a parameter; the statistics start empty and are not
   * modelled.
   */
  datatype Training = Training(
    id: string,
    name: string,
    trainingType: TrainingType,
    subtype: Option<ClassicSubtype>,
    borderExpansionLevel: Option<int>,
    ranges: seq<string>,
    createdAt: int)

  // ------------------------------------------------------------- checklist

  /** The list without any occurrence of the id, order kept (`filter`). */
  function RemoveAll(xs: seq<string>, id: string): (r: seq<string>)
    ensures forall x :: x in r <==> x in xs && x != id
    ensures |r| <= |xs|
    ensures id !in xs ==> r == xs
  {
    if xs == [] then []
    else if xs[0] == id then RemoveAll(xs[1..], id)
    else [xs[0]] + RemoveAll(xs[1..], id)
  }

  /** The filter distributes over concatenation: the kept ids keep their order. */
  lemma {:induction false} RemoveAllAppend(a: seq<string>, b: seq<string>, id: string)
    ensures RemoveAll(a + b, id) == RemoveAll(a, id) + RemoveAll(b, id)
  {
    if a == [] {
      assert a + b == b;
    } else {
      assert (a + b)[0] == a[0];
      assert (a + b)[1..] == a[1..] + b;
      RemoveAllAppend(a[1..], b, id);
    }
  }

  /** Checking or unchecking a range: a present id is removed, an absent one is appended. */
  function Toggle(xs: seq<string>, id: string): (r: seq<string>)
    ensures id in r <==> id !in xs
    ensures forall x :: x != id ==> (x in r <==> x in xs)
    ensures id !in xs ==> r == xs + [id]
  {
    if id in xs then RemoveAll(xs, id) else xs + [id]
  }

  predicate NoDuplicates(xs: seq<string>) {
    forall i, j :: 0 <= i < j < |xs| ==> xs[i] != xs[j]
  }

  /** Removing the id takes away exactly its occurrences. */
  lemma {:induction false} RemoveAllMultiset(xs: seq<string>, id: string)
    ensures multiset(RemoveAll(xs, id)) == multiset(xs)[id := 0]
  {
    if xs != [] {
      RemoveAllMultiset(xs[1..], id);
      assert xs == [xs[0]] + xs[1..];
    }
  }

  lemma {:induction false} RemoveAllKeepsNoDuplicates(xs: seq<string>, id: string)
    requires NoDuplicates(xs)
    ensures NoDuplicates(RemoveAll(xs, id))
  {
    if xs != [] {
      assert NoDuplicates(xs[1..]) by {
        forall i, j | 0 <= i < j < |xs| - 1 ensures xs[1..][i] != xs[1..][j] {
          assert xs[1..][i] == xs[i + 1] && xs[1..][j] == xs[j + 1];
        }
      }
      RemoveAllKeepsNoDuplicates(xs[1..], id);
      if xs[0] != id {
        var rest := RemoveAll(xs[1..], id);
        assert xs[0] !in xs[1..] by {
          forall k | 0 <= k < |xs| - 1 ensures xs[1..][k] != xs[0] {
            assert xs[1..][k] == xs[k + 1];
          }
        }
        assert xs[0] !in rest;
        var r := [xs[0]] + rest;
        forall i, j | 0 <= i < j < |r| ensures r[i] != r[j] {
          if i == 0 {
            assert r[j] == rest[j - 1];
          } else {
            assert r[i] == rest[i - 1] && r[j] == rest[j - 1];
          }
        }
      }
    }
  }

  /** A checklist without repetitions stays without repetitions. */
  lemma ToggleKeepsNoDuplicates(xs: seq<string>, id: string)
    requires NoDuplicates(xs)
    ensures NoDuplicates(Toggle(xs, id))
  {
    if id in xs {
      RemoveAllKeepsNoDuplicates(xs, id);
    }
  }

  /** Checking an unchecked range and unchecking it again restores the list exactly. */
  lemma ToggleTwiceRestoresAbsent(xs: seq<string>, id: string)
    requires id !in xs
    ensures Toggle(Toggle(xs, id), id) == xs
  {
    RemoveAllAppended(xs, id);
  }

  lemma {:induction false} RemoveAllAppended(xs: seq<string>, id: string)
    requires id !in xs
    ensures RemoveAll(xs + [id], id) == xs
  {
    if xs == [] {
      assert [id][1..] == [];
    } else {
      assert (xs + [id])[0] == xs[0];
      assert (xs + [id])[1..] == xs[1..] + [id];
      assert id !in xs[1..] by {
        forall k | 0 <= k < |xs| - 1 ensures xs[1..][k] == xs[k + 1] {}
      }
      RemoveAllAppended(xs[1..], id);
    }
  }

  /**
   * Unchecking a checked range and checking it again keeps the same ranges
   * (the range moves to the end of a list without repetitions).
   */
  lemma ToggleTwiceKeepsRanges(xs: seq<string>, id: string)
    requires NoDuplicates(xs) && id in xs
    ensures multiset(Toggle(Toggle(xs, id), id)) == multiset(xs)
  {
    var removed := RemoveAll(xs, id);
    assert Toggle(xs, id) == removed;
    assert id !in removed;
    assert Toggle(removed, id) == removed + [id];
    RemoveAllMultiset(xs, id);
    var k :| 0 <= k < |xs| && xs[k] == id;
    OccursOnce(xs, k);
    assert multiset(removed + [id]) == multiset(removed) + multiset{id};
  }

  /** In a list without repetitions every element occurs once. */
  lemma OccursOnce(xs: seq<string>, k: int)
    requires NoDuplicates(xs) && 0 <= k < |xs|
    ensures multiset(xs)[xs[k]] == 1
  {
    var id := xs[k];
    var front, back := xs[..k], xs[k + 1..];
    assert xs == front + [id] + back;
    assert id !in front by {
      forall m | 0 <= m < |front| ensures front[m] != id { assert front[m] == xs[m]; }
    }
    assert id !in back by {
      forall m | 0 <= m < |back| ensures back[m] != id { assert back[m] == xs[k + 1 + m]; }
    }
  }

  // ---------------------------------------------------------------- create

  /** Some folder has at least one range. */
  predicate HasRanges(folders: seq<Folder>) {
    exists f :: f in folders && f.ranges != []
  }

  /** The record the dialog builds from its fields. */
  function TrainingRecord(id: string, name: string, trainingType: TrainingType, classicSubtype: ClassicSubtype,
                          borderExpansionLevel: int, ranges: seq<string>, createdAt: int): (r: Training)
    ensures r.id == id && r.name == Trim(name) && r.trainingType == trainingType
    ensures r.ranges == ranges && r.createdAt == createdAt
    ensures r.subtype.Some? <==> trainingType == Classic
    ensures r.subtype.Some? ==> r.subtype.value == classicSubtype
    ensures r.borderExpansionLevel.Some? <==> trainingType == Classic && classicSubtype == BorderCheck
    ensures r.borderExpansionLevel.Some? ==> r.borderExpansionLevel.value == borderExpansionLevel
  {
    Training(id, Trim(name), trainingType,
             if trainingType == Classic then Some(classicSubtype) else None,
             if trainingType == Classic && classicSubtype == BorderCheck then Some(borderExpansionLevel) else None,
             ranges, createdAt)
  }

  /** The form's fields. */
  class CreateTrainingForm {
    var name: string
    var trainingType: TrainingType
    var classicSubtype: ClassicSubtype
    /** The border expansion level, one of 0, 1 and 2. */
    var borderExpansionLevel: int
    var selectedRanges: seq<string>

    /** Every field holds its default. */
    predicate IsReset()
      reads this
    {
      name == "" && trainingType == Classic && classicSubtype == AllHands
      && borderExpansionLevel == 0 && selectedRanges == []
    }

    constructor()
      ensures IsReset()
    {
      name := "";
      trainingType := Classic;
      classicSubtype := AllHands;
      borderExpansionLevel := 0;
      selectedRanges := [];
    }

    method SetName(newName: string)
      modifies this`name
      ensures name == newName
    {
      name := newName;
    }

    method SetTrainingType(t: TrainingType)
      modifies this`trainingType
      ensures trainingType == t
    {
      trainingType := t;
    }

    method SetClassicSubtype(s: ClassicSubtype)
      modifies this`classicSubtype
      ensures classicSubtype == s
    {
      classicSubtype := s;
    }

    /** The level radio offers 0, 1 and 2 only. */
    method SetBorderExpansionLevel(level: int)
      requires 0 <= level <= 2
      modifies this`borderExpansionLevel
      ensures borderExpansionLevel == level
    {
      borderExpansionLevel := level;
    }

    /** A range's checkbox. */
    method ToggleRange(rangeId: string)
      modifies this`selectedRanges
      ensures selectedRanges == Toggle(old(selectedRanges), rangeId)
      ensures NoDuplicates(old(selectedRanges)) ==> NoDuplicates(selectedRanges)
    {
      if NoDuplicates(selectedRanges) {
        ToggleKeepsNoDuplicates(selectedRanges, rangeId);
      }
      if rangeId in selectedRanges {
        selectedRanges := RemoveAll(selectedRanges, rangeId);
      } else {
        selectedRanges := selectedRanges + [rangeId];
      }
    }

    /**
     * "Create": with a blank name, no range checked or no range in any
     * folder nothing happens (None); otherwise the training built from the
     * fields is handed over and every field returns to its default.
     */
    method Create(folders: seq<Folder>, freshId: string, createdAt: int) returns (created: Option<Training>)
      modifies this
      ensures created.None? <==> Trim(old(name)) == [] || old(selectedRanges) == [] || !HasRanges(folders)
      ensures created.None? ==>
        && name == old(name) && trainingType == old(trainingType) && classicSubtype == old(classicSubtype)
        && borderExpansionLevel == old(borderExpansionLevel) && selectedRanges == old(selectedRanges)
      ensures created.Some? ==>
        && created.value == TrainingRecord(freshId, old(name), old(trainingType), old(classicSubtype),
                                           old(borderExpansionLevel), old(selectedRanges), createdAt)
        && IsReset()
    {
      if Trim(name) == [] || |selectedRanges| == 0 || !HasRanges(folders) {
        return None;
      }
      created := Some(TrainingRecord(freshId, name, trainingType, classicSubtype,
                                     borderExpansionLevel, selectedRanges, createdAt));
      name := "";
      trainingType := Classic;
      classicSubtype := AllHands;
      borderExpansionLevel := 0;
      selectedRanges := [];
    }
  }

  /** A created training always has a non-empty, trimmed name and at least one range. */
  lemma CreatedTrainingIsValid(name: string, trainingType: TrainingType, classicSubtype: ClassicSubtype,
                               level: int, ranges: seq<string>, id: string, createdAt: int)
    requires Trim(name) != [] && ranges != []
    ensures var t := TrainingRecord(id, name, trainingType, classicSubtype, level, ranges, createdAt);
      t.name != [] && Trim(t.name) == t.name && t.ranges != []
  {
    TrimIdempotent(name);
  }
}
