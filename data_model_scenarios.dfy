/** Client runs of `DataModel`: the situations the repository's tests and
    design describe, derived from the operations' contracts alone. */
module DataModelScenarios {
  import opened Builtins
  import opened DataModelBase

  /** Two datasets without names are named "0" and "1" and the last is active. */
  method DefaultNamesRun() returns (names: seq<string>, index: int, name: Result<string>)
    ensures names == ["0", "1"] && index == 1 && name == Ok("1")
  {
    var r := DataModel<int>.Create(Some([1, 2]), None);
    var m := r.value;
    names, index, name := m.names, m.index, m.Name();
  }

  /** Too large a cursor is refused; -1 clears the selection. */
  method IndexRun() returns (tooLarge: Outcome, dataset: Result<Option<int>>, name: Result<string>)
    ensures tooLarge == Fail(IndexError) && dataset == Ok(None) && name == Ok("")
  {
    var r := DataModel<int>.Create(Some([1, 2]), None);
    var m := r.value;
    var ok := m.SetIndex(0);
    tooLarge := m.SetIndex(3);
    ok := m.SetIndex(-1);
    dataset, name := m.Dataset(), m.Name();
  }

  /** Renaming the active entry touches that entry only. */
  method RenameRun() returns (names: seq<string>)
    ensures names == ["0_1", "1_2"]
  {
    var r := DataModel<int>.Create(Some([1, 2]), None);
    var m := r.value;
    assert NatToString(0) == "0" && NatToString(1) == "1";
    assert m.names == ["0", "1"];
    var res := m.SetIndex(0);
    var name := m.Name();
    assert name == Ok("0");
    res := m.SetName(name.value + "_1");
    assert m.names[0] == "0_1" && m.names[1] == "1";
    res := m.SetIndex(1);
    name := m.Name();
    res := m.SetName(name.value + "_2");
    assert m.names[0] == "0_1" && m.names[1] == "1_2";
    names := m.names;
  }

  /** Repeated deletion walks left from the end and then raises; `delete_all`
      on an empty store is harmless; the counter never moves back. */
  method DeleteWalkRun<T>(a: T, b: T, c: T) returns (cursors: seq<int>, last: seq<T>, fourth: Outcome, count: nat)
    ensures cursors == [2, 1, 0, -1] && last == []
    ensures fourth == Fail(IndexError) && count == 3
  {
    var r := DataModel<T>.Create(Some([a, b, c]), None);
    var m := r.value;
    var i0 := m.index;
    var res := m.DeleteItem();
    assert |m.datasets| == 2 && m.index == 1;
    var i1 := m.index;
    res := m.DeleteItem();
    assert |m.datasets| == 1 && m.index == 0;
    var i2 := m.index;
    res := m.DeleteItem();
    assert m.datasets == [] && m.index == -1;
    cursors := [i0, i1, i2, m.index];
    last := m.datasets;
    fourth := m.DeleteItem();
    m.DeleteAll();
    m.DeleteAll();
    count := m.count;
  }

  /** Appending without moving the focus keeps the cursor; the default
      append selects the new entry and names it by the new length. */
  method KeepIndexRun<T>(a: T, b: T, c: T, d: T) returns (index1: int, index2: int, names: seq<string>)
    ensures index1 == 0 && index2 == 3 && names == ["0", "1", "3", "4"]
  {
    var r := DataModel<T>.Create(Some([a, b]), None);
    var m := r.value;
    var res := m.SetIndex(0);
    res := m.AppendItem(Some(c), None, false);
    index1 := m.index;
    res := m.AppendItem(Some(d), None, true);
    index2, names := m.index, m.names;
  }

  /** `delete_item` with nothing selected pops the last entry and leaves the
      cursor at -2, where the getters read the second entry from the end. */
  method DeleteUnselectedRun<T>(a: T, b: T, c: T) returns (left: seq<T>, index: int, active: Result<Option<T>>)
    ensures left == [a, b] && index == -2 && active == Ok(Some(a))
  {
    var r := DataModel<T>.Create(Some([a, b, c]), None);
    var m := r.value;
    var res := m.SetIndex(-1);
    assert m.datasets == [a, b, c] && m.index == -1;
    res := m.DeleteItem();
    assert m.datasets == [a, b, c][..2] == [a, b];
    left, index, active := m.datasets, m.index, m.Dataset();
  }

  /** A name given with no dataset trips the narrowing assertion; nothing changes. */
  method NameWithoutDatasetRun() returns (res: Outcome, size: nat)
    ensures res == Fail(AssertionError) && size == 0
  {
    var m := new DataModel<int>();
    res := m.AppendItem(None, Some("x"), true);
    size := |m.datasets|;
  }

  /** Pickling round trip: restoring the saved state into an emptied store
      gives back the counter, both lists and the cursor. */
  method StateRoundTripRun<T>(a: T, b: T) returns (saved: State<T>, restored: State<T>)
    ensures saved.count == 2 && saved.datasets == [a, b] && saved.index == 1
    ensures restored == saved
  {
    var r := DataModel<T>.Create(Some([a, b]), None);
    var m := r.value;
    saved := m.GetState();
    m.DeleteAll();
    m.SetState(saved);
    restored := m.GetState();
  }
}
