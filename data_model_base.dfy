/** The observable indexed collection every data model of the plugin is
    built from: parallel lists of datasets and names, a cursor on the
    active entry, a creation counter, and the change notifications. */
module DataModelBase {
  import opened Builtins

  /** A change notification, in the order a store emits them. */
  datatype Signal<T> = ItemsChanged(items: seq<T>) | NamesChanged(names: seq<string>) | IndexChanged(index: int)

  /** The pickled form of a store (`__getstate__`). */
  datatype State<T> = State(count: nat, datasets: seq<T>, names: seq<string>, index: int)

  /** A state that `__setstate__` can restore without breaking the store's invariant. */
  predicate Restorable<T>(s: State<T>) {
    |s.names| == |s.datasets| && s.index < |s.datasets|
  }

  /** The names `str(i)` a bulk-set collection gets when none are given. */
  function PositionNames(n: nat): (r: seq<string>)
    ensures |r| == n
    ensures forall i :: 0 <= i < n ==> r[i] == NatToString(i)
  {
    seq(n, i requires 0 <= i < n => NatToString(i))
  }

  /** The position names are pairwise different and each reads back as its position. */
  lemma PositionNamesDistinct(n: nat)
    ensures forall i, j :: 0 <= i < j < n ==> PositionNames(n)[i] != PositionNames(n)[j]
    ensures forall i :: 0 <= i < n ==> DigitsValue(PositionNames(n)[i]) == i
  {
    forall i, j | 0 <= i < j < n
      ensures PositionNames(n)[i] != PositionNames(n)[j]
    {
      NatToStringInjective(i, j);
    }
    forall i | 0 <= i < n
      ensures DigitsValue(PositionNames(n)[i]) == i
    {
      DigitsValueOfNatToString(i);
    }
  }

  /** The cursor after `delete_item` took out the entry at `deleted` and
      `remaining` entries are left: none left selects nothing, the first
      position stays first, any other position moves one to the left. */
  function CursorAfterDelete(remaining: nat, deleted: int): (k: int)
    ensures 0 <= deleted <= remaining ==> -1 <= k < remaining && (k == -1 <==> remaining == 0)
    ensures 0 < deleted <= remaining ==> k == deleted - 1
    ensures deleted == 0 && remaining > 0 ==> k == 0
  {
    if remaining == 0 then -1 else if deleted == 0 then 0 else deleted - 1
  }

  class DataModel<T> {
    var datasets: seq<T>
    var names: seq<string>
    var index: int
    /** Counts the datasets ever added; deleting does not lower it. */
    var count: nat
    ghost var signals: seq<Signal<T>>

    /** Kept by every operation: one name per dataset, cursor not past the end. */
    ghost predicate Valid()
      reads this
    {
      |names| == |datasets| && index < |datasets|
    }

    /** The selection invariant: no selection (-1) or a valid position. */
    predicate CursorValid()
      reads this
    {
      -1 <= index < |datasets|
    }

    /** The fields as `__init__` sets them before filling the store. */
    constructor ()
      ensures Valid() && CursorValid()
      ensures datasets == [] && names == [] && index == -1 && count == 0 && signals == []
    {
      datasets, names, index, count := [], [], -1, 0;
      signals := [];
    }

    /** `DataModel(datasets, names)`: an empty store filled by a bulk set;
        the exception of the bulk set is the exception of the construction. */
    static method Create(datasets: Option<seq<T>>, names: Option<seq<string>>) returns (r: Result<DataModel<T>>)
      ensures r.Err? <==> (datasets.None? && names.Some?) || (datasets.Some? && names.Some? && |datasets.value| != |names.value|)
      ensures r.Ok? ==> fresh(r.value) && r.value.Valid() && r.value.CursorValid()
      ensures r.Ok? ==> r.value.datasets == datasets.GetOr([]) && r.value.index == |r.value.datasets| - 1
      ensures r.Ok? ==> r.value.names == (if names.Some? then names.value else PositionNames(|r.value.datasets|))
      ensures r.Ok? ==> r.value.count == |r.value.datasets|
      ensures r.Ok? ==> r.value.signals == [ItemsChanged(r.value.datasets), NamesChanged(r.value.names), IndexChanged(r.value.index)]
    {
      var m := new DataModel<T>();
      var res := m.SetDatasetsAndNames(datasets, names);
      if res.Fail? {
        return Err(res.error);
      }
      return Ok(m);
    }

    /** `set_datasets_and_names`: replaces both lists and selects the last
        entry; names default to the positions. */
    method SetDatasetsAndNames(newDatasets: Option<seq<T>>, newNames: Option<seq<string>>) returns (res: Outcome)
      requires Valid()
      modifies this
      ensures Valid()
      ensures res == (if newDatasets.None? && newNames.Some? then Fail(AssertionError)
                      else if newDatasets.Some? && newNames.Some? && |newDatasets.value| != |newNames.value| then Fail(ValueError)
                      else Pass)
      ensures res.Fail? ==> unchanged(this)
      ensures res.Pass? ==>
        && datasets == newDatasets.GetOr([])
        && names == (if newNames.Some? then newNames.value else PositionNames(|datasets|))
        && index == |datasets| - 1
        && count == old(count) + |datasets|
        && signals == old(signals) + [ItemsChanged(datasets), NamesChanged(names), IndexChanged(index)]
      ensures res.Pass? ==> CursorValid() && (datasets == [] <==> index == -1)
    {
      if newDatasets.None? && newNames.None? {
        datasets, names, index := [], [], -1;
      } else if newNames.None? {
        datasets := newDatasets.value;
        names := PositionNames(|datasets|);
        index := |datasets| - 1;
      } else if newDatasets.Some? && |newDatasets.value| != |newNames.value| {
        return Fail(ValueError);
      } else if newDatasets.None? {
        // the `assert datasets is not None` narrowing fails
        return Fail(AssertionError);
      } else {
        datasets, names := newDatasets.value, newNames.value;
        index := |datasets| - 1;
      }
      count := count + |datasets|;
      signals := signals + [ItemsChanged(datasets), NamesChanged(names), IndexChanged(index)];
      return Pass;
    }

    /** The `index` setter: too large raises IndexError, any negative value
        means "no selection". */
    method SetIndex(value: int) returns (res: Outcome)
      requires Valid()
      modifies this
      ensures Valid()
      ensures res == (if value > old(|datasets|) - 1 then Fail(IndexError) else Pass)
      ensures res.Fail? ==> unchanged(this)
      ensures res.Pass? ==>
        && datasets == old(datasets) && names == old(names) && count == old(count)
        && index == (if value < 0 then -1 else value)
        && signals == old(signals) + [IndexChanged(index)]
      ensures res.Pass? ==> CursorValid()
    {
      if value > |datasets| - 1 {
        return Fail(IndexError);
      } else if value < 0 {
        index := -1;
      } else {
        index := value;
      }
      signals := signals + [IndexChanged(index)];
      return Pass;
    }

    /** The `dataset` getter. While the selection invariant holds it never
        raises, and it gives None exactly when nothing is selected. */
    function Dataset(): (r: Result<Option<T>>)
      reads this
      requires Valid()
      ensures CursorValid() ==> r == (if index == -1 then Ok(None) else Ok(Some(datasets[index])))
      ensures r.Ok? && r.value.Some? ==> r.value.value in datasets
      ensures r.Err? ==> index < -1
    {
      Selected(datasets, index)
    }

    /** The `name` getter: "" when nothing is selected. */
    function Name(): (r: Result<string>)
      reads this
      requires Valid()
      ensures CursorValid() ==> r == (if index == -1 then Ok("") else Ok(names[index]))
      ensures r.Err? ==> index < -1
    {
      SelectedName(names, index)
    }

    /** The `dataset` setter: replaces the active entry only and counts it
        as a newly created dataset. */
    method SetDataset(item: T) returns (res: Outcome)
      requires Valid()
      modifies this
      ensures Valid()
      ensures res == (if old(index) == -1 then Fail(ValueError)
                      else if Position(old(|datasets|), old(index)).None? then Fail(IndexError)
                      else Pass)
      ensures res.Fail? ==> unchanged(this)
      ensures res.Pass? ==>
        && datasets == old(datasets)[Position(old(|datasets|), old(index)).value := item]
        && names == old(names) && index == old(index) && count == old(count) + 1
        && signals == old(signals) + [ItemsChanged(datasets), IndexChanged(index)]
      ensures res.Pass? && CursorValid() ==> datasets[index] == item
      ensures old(CursorValid()) ==> CursorValid()
    {
      if index == -1 {
        return Fail(ValueError);
      }
      var p := Position(|datasets|, index);
      if p.None? {
        return Fail(IndexError);
      }
      datasets := datasets[p.value := item];
      count := count + 1;
      signals := signals + [ItemsChanged(datasets), IndexChanged(index)];
      return Pass;
    }

    /** The `name` setter: renames the active entry only. */
    method SetName(text: string) returns (res: Outcome)
      requires Valid()
      modifies this
      ensures Valid()
      ensures res == (if old(index) == -1 then Fail(ValueError)
                      else if Position(old(|names|), old(index)).None? then Fail(IndexError)
                      else Pass)
      ensures res.Fail? ==> unchanged(this)
      ensures res.Pass? ==>
        && names == old(names)[Position(old(|names|), old(index)).value := text]
        && datasets == old(datasets) && index == old(index) && count == old(count)
        && signals == old(signals) + [NamesChanged(names)]
      ensures res.Pass? && CursorValid() ==> names[index] == text
      ensures old(CursorValid()) ==> CursorValid()
    {
      if index == -1 {
        return Fail(ValueError);
      }
      var p := Position(|names|, index);
      if p.None? {
        return Fail(IndexError);
      }
      names := names[p.value := text];
      signals := signals + [NamesChanged(names)];
      return Pass;
    }

    /** `append_item`: adds one entry at the end, named `str(new length)`
        unless a name is given, and selects it unless `setIndex` is false. */
    method AppendItem(dataset: Option<T>, name: Option<string>, setIndex: bool) returns (res: Outcome)
      requires Valid()
      modifies this
      ensures Valid()
      ensures res == (if dataset.None? && name.Some? then Fail(AssertionError) else Pass)
      ensures dataset.None? ==> unchanged(this)
      ensures dataset.Some? ==>
        && datasets == old(datasets) + [dataset.value]
        && names == old(names) + [if name.Some? then name.value else NatToString(|datasets|)]
        && index == (if setIndex then |datasets| - 1 else old(index))
        && count == old(count) + 1
        && signals == old(signals) + [ItemsChanged(datasets), NamesChanged(names), IndexChanged(index)]
      ensures old(CursorValid()) ==> CursorValid()
    {
      var currentIndex := index;
      if dataset.None? && name.None? {
        return Pass;
      } else if name.None? {
        datasets := datasets + [dataset.value];
        names := names + [NatToString(|datasets|)];
      } else if dataset.None? {
        // the `assert dataset is not None` narrowing fails
        return Fail(AssertionError);
      } else {
        datasets := datasets + [dataset.value];
        names := names + [name.value];
      }
      index := if setIndex then |datasets| - 1 else currentIndex;
      count := count + 1;
      signals := signals + [ItemsChanged(datasets), NamesChanged(names), IndexChanged(index)];
      return Pass;
    }

    /** `delete_item`: pops the entry the cursor addresses from both lists
        and moves the cursor left. From the unselected state (-1) Python's
        `pop(-1)` takes the LAST entry, and with two or more entries the
        cursor ends at -2, outside the selection invariant. */
    method DeleteItem() returns (res: Outcome)
      requires Valid()
      modifies this
      ensures Valid()
      ensures res == (if Position(old(|datasets|), old(index)).None? then Fail(IndexError) else Pass)
      ensures old(datasets) == [] ==> res == Fail(IndexError)
      ensures res.Fail? ==> unchanged(this)
      ensures res.Pass? ==>
        && var p := Position(old(|datasets|), old(index)).value;
        && datasets == RemoveAt(old(datasets), p) && names == RemoveAt(old(names), p)
        && index == CursorAfterDelete(|datasets|, old(index))
        && count == old(count)
        && signals == old(signals) + [NamesChanged(names), IndexChanged(index)]
      ensures old(CursorValid()) && old(index) >= 0 ==> res.Pass? && CursorValid()
      ensures old(index) == -1 && old(|datasets|) >= 2 ==>
        res.Pass? && index == -2 && !CursorValid()
    {
      var currentIndex := index;
      var p := Position(|datasets|, currentIndex);
      if p.None? {
        return Fail(IndexError);
      }
      datasets := RemoveAt(datasets, p.value);
      names := RemoveAt(names, p.value);
      if |datasets| == 0 {
        index := -1;
      } else if currentIndex == 0 {
        index := 0;
      } else {
        index := currentIndex - 1;
      }
      signals := signals + [NamesChanged(names), IndexChanged(index)];
      return Pass;
    }

    /** `delete_all`: empties the store; the counter keeps its value. */
    method DeleteAll()
      requires Valid()
      modifies this
      ensures Valid() && CursorValid()
      ensures datasets == [] && names == [] && index == -1 && count == old(count)
      ensures signals == old(signals) + [NamesChanged([]), IndexChanged(-1)]
    {
      datasets, names, index := [], [], -1;
      signals := signals + [NamesChanged(names), IndexChanged(index)];
    }

    /** `__getstate__`: the counter, both lists and the cursor. */
    function GetState(): (s: State<T>)
      reads this
      requires Valid()
      ensures Restorable(s)
      ensures s.count == count && s.index == index
      ensures s.datasets == datasets && s.names == names
    {
      State(count, datasets, names, index)
    }

    /** `__setstate__`: restores what `GetState` saved. */
    method SetState(s: State<T>)
      requires Restorable(s)
      modifies this
      ensures Valid() && GetState() == s
      ensures signals == old(signals)
    {
      count, datasets, names, index := s.count, s.datasets, s.names, s.index;
    }
  }
}
