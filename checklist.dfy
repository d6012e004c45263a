/**
 * The multi-select checkbox rule both filter dialogs use: checking a box
 * appends its value to a string list (with no membership test), unchecking
 * it filters every copy of the value out, and a box is drawn checked when
 * its value is in the list.
 */
module Checklist {

  import opened Seqs

  /** The list after a checkbox change: `[...list, value]` or `list.filter((v) => v !== value)`. */
  function Toggled(list: seq<string>, value: string, checked: bool): (r: seq<string>)
    ensures checked ==> |r| == |list| + 1 && r[..|list|] == list && r[|list|] == value
    ensures !checked ==> value !in r && IsSubsequence(r, list)
    ensures !checked ==> multiset(r) == multiset(list)[value := 0]
    ensures !checked ==> forall i :: 0 <= i < |list| && list[i] != value ==> list[i] in r
  {
    if checked then list + [value] else RemoveAll(list, value)
  }

  /** `list.includes(value)`: the box for `value` is drawn checked. */
  predicate IsChecked(list: seq<string>, value: string)
  {
    value in list
  }

  /** After a change the box shows exactly the state it was set to. */
  lemma ToggledShowsNewState(list: seq<string>, value: string, checked: bool)
    ensures IsChecked(Toggled(list, value, checked), value) == checked
  {
    if checked {
      var r := Toggled(list, value, checked);
      assert r[|list|] == value;
    }
  }

  /** A change to one box leaves every other box as it was. */
  lemma ToggledLeavesOtherBoxes(list: seq<string>, value: string, checked: bool, other: string)
    requires other != value
    ensures IsChecked(Toggled(list, value, checked), other) == IsChecked(list, other)
  {
    var r := Toggled(list, value, checked);
    if checked {
      if other in list {
        var i :| 0 <= i < |list| && list[i] == other;
        assert r[i] == other;
      }
    } else {
      if other in list {
        var i :| 0 <= i < |list| && list[i] == other;
        assert list[i] != value;
      }
      if other in r {
        assert multiset(r)[other] > 0;
      }
    }
  }

  /**
   * Because checking does not test membership, a value checked twice is
   * stored twice; one uncheck then removes both copies.
   */
  lemma CheckTwiceThenUncheck(list: seq<string>, value: string)
    requires value !in list
    ensures multiset(Toggled(Toggled(list, value, true), value, true))[value] == 2
    ensures Toggled(Toggled(Toggled(list, value, true), value, true), value, false) == list
  {
    var twice := Toggled(Toggled(list, value, true), value, true);
    assert twice == list + [value] + [value];
    RemoveAllAppend(list + [value], [value], value);
    RemoveAllAppend(list, [value], value);
    assert RemoveAll([value], value) == [];
  }

  /** Unchecking a box that was just checked restores the list when the value was absent before. */
  lemma UncheckUndoesCheck(list: seq<string>, value: string)
    requires value !in list
    ensures Toggled(Toggled(list, value, true), value, false) == list
  {
    RemoveAllAppend(list, [value], value);
    assert RemoveAll([value], value) == [];
  }
}
