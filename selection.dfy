/** Itinerary candidates and which of them is selected for display.

    A routing response yields a list of paths; each carries a feasibility
    flag and a selection flag.  On receipt the first feasible path is marked
    selected; afterwards the user may move the selection to another index.
    The functions here specify both operations on sequences; the method
    `SelectPathOnReceive` performs the first one in place on an array, the
    way the component does. */
module Selection {

  /** One itinerary candidate: only the two flags the component reads or writes. */
  datatype Path = Path(isPossible: bool, isSelected: bool)

  /** The index of the first feasible path, or -1 when none is feasible. */
  function FirstPossible(paths: seq<Path>): (r: int)
    ensures -1 <= r < |paths|
    ensures 0 <= r ==> paths[r].isPossible
    ensures forall j :: 0 <= j < |paths| && (r < 0 || j < r) ==> !paths[j].isPossible
  {
    if |paths| == 0 then -1
    else if paths[0].isPossible then 0
    else
      var rest := FirstPossible(paths[1..]);
      if rest < 0 then -1 else rest + 1
  }

  /** The paths after the first feasible one has been flagged as selected. */
  function MarkFirstPossible(paths: seq<Path>): (r: seq<Path>)
    ensures |r| == |paths|
    ensures FirstPossible(paths) >= 0 ==> r[FirstPossible(paths)] == paths[FirstPossible(paths)].(isSelected := true)
    ensures forall j :: 0 <= j < |paths| && j != FirstPossible(paths) ==> r[j] == paths[j]
  {
    var i := FirstPossible(paths);
    if i < 0 then paths else paths[i := paths[i].(isSelected := true)]
  }

  /** The paths after the selection moved from `prev` (none when negative) to `k`. */
  function Reselect(paths: seq<Path>, prev: int, k: int): (r: seq<Path>)
    requires 0 <= k < |paths| && prev < |paths|
    ensures |r| == |paths|
    ensures r[k] == paths[k].(isSelected := true)
    ensures 0 <= prev && prev != k ==> r[prev] == paths[prev].(isSelected := false)
    ensures forall j :: 0 <= j < |paths| && j != k && j != prev ==> r[j] == paths[j]
  {
    var cleared := if prev >= 0 then paths[prev := paths[prev].(isSelected := false)] else paths;
    cleared[k := cleared[k].(isSelected := true)]
  }

  /** No path other than the one at `index` is flagged as selected
      (with a negative `index`, none is). */
  ghost predicate SelectedOnlyAt(paths: seq<Path>, index: int)
  {
    forall j :: 0 <= j < |paths| && paths[j].isSelected ==> j == index
  }

  ghost predicate NoneSelected(paths: seq<Path>)
  {
    forall j :: 0 <= j < |paths| ==> !paths[j].isSelected
  }

  /** How many paths carry the selection flag. */
  ghost function SelectedCount(paths: seq<Path>): nat
  {
    if |paths| == 0 then 0
    else (if paths[0].isSelected then 1 else 0) + SelectedCount(paths[1..])
  }

  /** Selection confined to one index means at most one path is selected,
      and exactly one when that index holds a selected path. */
  lemma {:induction false} SelectedOnlyAtCount(paths: seq<Path>, index: int)
    requires SelectedOnlyAt(paths, index)
    ensures SelectedCount(paths) <= 1
    ensures SelectedCount(paths) == 1 <==> 0 <= index < |paths| && paths[index].isSelected
  {
    if |paths| > 0 {
      var tail := paths[1..];
      forall j | 0 <= j < |tail| && tail[j].isSelected
        ensures j == index - 1
      {
        assert paths[j + 1] == tail[j];
      }
      SelectedOnlyAtCount(tail, index - 1);
    }
  }

  /** Marking a freshly received, unselected list selects exactly the first
      feasible path, and nothing when no path is feasible. */
  lemma MarkFirstPossibleSelects(paths: seq<Path>)
    requires NoneSelected(paths)
    ensures SelectedOnlyAt(MarkFirstPossible(paths), FirstPossible(paths))
    ensures SelectedCount(MarkFirstPossible(paths)) == (if FirstPossible(paths) >= 0 then 1 else 0)
  {
    var r := MarkFirstPossible(paths);
    var i := FirstPossible(paths);
    assert SelectedOnlyAt(r, i);
    SelectedOnlyAtCount(r, i);
  }

  /** Moving the selection keeps it confined to one path: the new one. */
  lemma ReselectSelects(paths: seq<Path>, prev: int, k: int)
    requires 0 <= k < |paths| && prev < |paths|
    requires SelectedOnlyAt(paths, prev)
    ensures SelectedOnlyAt(Reselect(paths, prev, k), k)
    ensures SelectedCount(Reselect(paths, prev, k)) == 1
  {
    var r := Reselect(paths, prev, k);
    assert SelectedOnlyAt(r, k);
    SelectedOnlyAtCount(r, k);
  }

  /** The pick from the routing scenario with feasibility flags
      [false, true, true]: the second path is chosen. */
  lemma FirstPossibleExample()
    ensures FirstPossible([Path(false, false), Path(true, false), Path(true, false)]) == 1
  {
  }

  /** Scans the received paths in order and flags the first feasible one as
      selected, returning its index, or -1 when none is feasible. */
  method SelectPathOnReceive(paths: array<Path>) returns (index: int)
    modifies paths
    ensures index == FirstPossible(old(paths[..]))
    ensures paths[..] == MarkFirstPossible(old(paths[..]))
  {
    index := 0;
    while index < paths.Length
      invariant 0 <= index <= paths.Length
      invariant paths[..] == old(paths[..])
      invariant forall j :: 0 <= j < index ==> !paths[j].isPossible
    {
      if paths[index].isPossible {
        paths[index] := paths[index].(isSelected := true);
        return;
      }
      index := index + 1;
    }
    index := -1;
  }
}
