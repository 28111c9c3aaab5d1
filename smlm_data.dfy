/** The store of localization datasets (`SmlmData`), a hand-written twin
    of `DataModel`: no creation counter, default names from each dataset's
    own identifier, and notifications for names and cursor only. */
module SmlmDataModel {
  import opened Builtins
  import opened DataModelBase

  /** The pickled form of an SMLM store: both lists and the cursor. */
  datatype SmlmState<L> = SmlmState(locdatas: seq<L>, locdataNames: seq<string>, index: int)

  /** The names given to datasets that come without names: their identifiers. */
  function IdentifierNames<L>(locdatas: seq<L>, identifier: L -> string): (r: seq<string>)
    ensures |r| == |locdatas|
    ensures forall i :: 0 <= i < |locdatas| ==> r[i] == identifier(locdatas[i])
  {
    seq(|locdatas|, i requires 0 <= i < |locdatas| => identifier(locdatas[i]))
  }

  class SmlmData<L> {
    var locdatas: seq<L>
    var locdataNames: seq<string>
    var index: int
    ghost var signals: seq<Signal<L>>

    ghost predicate Valid()
      reads this
    {
      |locdataNames| == |locdatas| && index < |locdatas|
    }

    /** The selection invariant: no selection (-1) or a valid position. */
    predicate CursorValid()
      reads this
    {
      -1 <= index < |locdatas|
    }

    /** Fills the fields; used by `Create`, which decides what they hold. */
    constructor Init(locdatas: seq<L>, locdataNames: seq<string>, index: int)
      requires |locdataNames| == |locdatas| && index < |locdatas|
      ensures Valid() && this.locdatas == locdatas && this.locdataNames == locdataNames
      ensures this.index == index && signals == []
    {
      this.locdatas, this.locdataNames, this.index := locdatas, locdataNames, index;
      signals := [];
    }

    /** `SmlmData(locdatas, locdata_names)`: empty without arguments, names
        from the identifiers when only datasets are given, the last entry
        selected; unequal lengths raise ValueError. */
    static method Create(locdatas: Option<seq<L>>, locdataNames: Option<seq<string>>, identifier: L -> string)
      returns (r: Result<SmlmData<L>>)
      ensures r == Err(AssertionError) <==> locdatas.None? && locdataNames.Some?
      ensures r == Err(ValueError) <==> locdatas.Some? && locdataNames.Some? && |locdatas.value| != |locdataNames.value|
      ensures r.Err? ==> r.error in {AssertionError, ValueError}
      ensures r.Ok? ==> fresh(r.value) && r.value.Valid() && r.value.CursorValid()
      ensures r.Ok? ==> r.value.locdatas == locdatas.GetOr([]) && r.value.index == |r.value.locdatas| - 1
      ensures r.Ok? ==> r.value.locdataNames == (if locdataNames.Some? then locdataNames.value
                                                 else IdentifierNames(r.value.locdatas, identifier))
      ensures r.Ok? ==> r.value.signals == []
    {
      if locdatas.None? && locdataNames.None? {
        var s := new SmlmData.Init([], [], -1);
        return Ok(s);
      } else if locdataNames.None? {
        var ds := locdatas.value;
        var s := new SmlmData.Init(ds, IdentifierNames(ds, identifier), |ds| - 1);
        return Ok(s);
      } else if locdatas.Some? && |locdatas.value| != |locdataNames.value| {
        return Err(ValueError);
      } else if locdatas.None? {
        // the `assert locdatas is not None` narrowing fails
        return Err(AssertionError);
      } else {
        var s := new SmlmData.Init(locdatas.value, locdataNames.value, |locdatas.value| - 1);
        return Ok(s);
      }
    }

    /** The `index` setter: too large raises IndexError, any negative value
        means "no selection". */
    method SetIndex(value: int) returns (res: Outcome)
      requires Valid()
      modifies this
      ensures Valid()
      ensures res == (if value > old(|locdatas|) - 1 then Fail(IndexError) else Pass)
      ensures res.Fail? ==> unchanged(this)
      ensures res.Pass? ==>
        && locdatas == old(locdatas) && locdataNames == old(locdataNames)
        && index == (if value < 0 then -1 else value)
        && signals == old(signals) + [IndexChanged(index)]
      ensures res.Pass? ==> CursorValid()
    {
      if value > |locdatas| - 1 {
        return Fail(IndexError);
      } else if value < 0 {
        index := -1;
      } else {
        index := value;
      }
      signals := signals + [IndexChanged(index)];
      return Pass;
    }

    /** The `locdata` getter. While the selection invariant holds it never
        raises, and it gives None exactly when nothing is selected. */
    function Locdata(): (r: Result<Option<L>>)
      reads this
      requires Valid()
      ensures CursorValid() ==> r == (if index == -1 then Ok(None) else Ok(Some(locdatas[index])))
      ensures r.Ok? && r.value.Some? ==> r.value.value in locdatas
      ensures r.Err? ==> index < -1
    {
      Selected(locdatas, index)
    }

    /** The `locdata_name` getter: "" when nothing is selected. */
    function LocdataName(): (r: Result<string>)
      reads this
      requires Valid()
      ensures CursorValid() ==> r == (if index == -1 then Ok("") else Ok(locdataNames[index]))
      ensures r.Err? ==> index < -1
    {
      SelectedName(locdataNames, index)
    }

    /** The `locdata` setter: replaces the active dataset only; it announces
        the cursor, not the datasets. */
    method SetLocdata(item: L) returns (res: Outcome)
      requires Valid()
      modifies this
      ensures Valid()
      ensures res == (if old(index) == -1 then Fail(ValueError)
                      else if Position(old(|locdatas|), old(index)).None? then Fail(IndexError)
                      else Pass)
      ensures res.Fail? ==> unchanged(this)
      ensures res.Pass? ==>
        && locdatas == old(locdatas)[Position(old(|locdatas|), old(index)).value := item]
        && locdataNames == old(locdataNames) && index == old(index)
        && signals == old(signals) + [IndexChanged(index)]
      ensures res.Pass? && CursorValid() ==> locdatas[index] == item
      ensures old(CursorValid()) ==> CursorValid()
    {
      if index == -1 {
        return Fail(ValueError);
      }
      var p := Position(|locdatas|, index);
      if p.None? {
        return Fail(IndexError);
      }
      locdatas := locdatas[p.value := item];
      signals := signals + [IndexChanged(index)];
      return Pass;
    }

    /** The `locdata_name` setter: renames the active dataset only. */
    method SetLocdataName(text: string) returns (res: Outcome)
      requires Valid()
      modifies this
      ensures Valid()
      ensures res == (if old(index) == -1 then Fail(ValueError)
                      else if Position(old(|locdataNames|), old(index)).None? then Fail(IndexError)
                      else Pass)
      ensures res.Fail? ==> unchanged(this)
      ensures res.Pass? ==>
        && locdataNames == old(locdataNames)[Position(old(|locdataNames|), old(index)).value := text]
        && locdatas == old(locdatas) && index == old(index)
        && signals == old(signals) + [NamesChanged(locdataNames)]
      ensures res.Pass? && CursorValid() ==> locdataNames[index] == text
      ensures old(CursorValid()) ==> CursorValid()
    {
      if index == -1 {
        return Fail(ValueError);
      }
      var p := Position(|locdataNames|, index);
      if p.None? {
        return Fail(IndexError);
      }
      locdataNames := locdataNames[p.value := text];
      signals := signals + [NamesChanged(locdataNames)];
      return Pass;
    }

    /** `append_item`: adds one dataset at the end, named by its identifier
        unless a name is given, and selects it unless `setIndex` is false. */
    method AppendItem(locdata: Option<L>, locdataName: Option<string>, setIndex: bool, identifier: L -> string)
      returns (res: Outcome)
      requires Valid()
      modifies this
      ensures Valid()
      ensures res == (if locdata.None? && locdataName.Some? then Fail(AssertionError) else Pass)
      ensures locdata.None? ==> unchanged(this)
      ensures locdata.Some? ==>
        && locdatas == old(locdatas) + [locdata.value]
        && locdataNames == old(locdataNames) + [locdataName.GetOr(identifier(locdata.value))]
        && index == (if setIndex then |locdatas| - 1 else old(index))
        && signals == old(signals) + [NamesChanged(locdataNames), IndexChanged(index)]
      ensures old(CursorValid()) ==> CursorValid()
    {
      var currentIndex := index;
      if locdata.None? && locdataName.None? {
        return Pass;
      } else if locdataName.None? {
        locdatas := locdatas + [locdata.value];
        locdataNames := locdataNames + [identifier(locdata.value)];
      } else if locdata.None? {
        // the `assert locdata is not None` narrowing fails
        return Fail(AssertionError);
      } else {
        locdatas := locdatas + [locdata.value];
        locdataNames := locdataNames + [locdataName.value];
      }
      index := if setIndex then |locdatas| - 1 else currentIndex;
      signals := signals + [NamesChanged(locdataNames), IndexChanged(index)];
      return Pass;
    }

    /** `delete_item`: the same pop-and-move-left rule as `DataModel`, with
        the same behaviour from the unselected state. */
    method DeleteItem() returns (res: Outcome)
      requires Valid()
      modifies this
      ensures Valid()
      ensures res == (if Position(old(|locdatas|), old(index)).None? then Fail(IndexError) else Pass)
      ensures old(locdatas) == [] ==> res == Fail(IndexError)
      ensures res.Fail? ==> unchanged(this)
      ensures res.Pass? ==>
        && var p := Position(old(|locdatas|), old(index)).value;
        && locdatas == RemoveAt(old(locdatas), p) && locdataNames == RemoveAt(old(locdataNames), p)
        && index == CursorAfterDelete(|locdatas|, old(index))
        && signals == old(signals) + [NamesChanged(locdataNames), IndexChanged(index)]
      ensures old(CursorValid()) && old(index) >= 0 ==> res.Pass? && CursorValid()
      ensures old(index) == -1 && old(|locdatas|) >= 2 ==> res.Pass? && index == -2 && !CursorValid()
    {
      var currentIndex := index;
      var p := Position(|locdatas|, currentIndex);
      if p.None? {
        return Fail(IndexError);
      }
      locdatas := RemoveAt(locdatas, p.value);
      locdataNames := RemoveAt(locdataNames, p.value);
      if |locdatas| == 0 {
        index := -1;
      } else if currentIndex == 0 {
        index := 0;
      } else {
        index := currentIndex - 1;
      }
      signals := signals + [NamesChanged(locdataNames), IndexChanged(index)];
      return Pass;
    }

    /** `delete_all`: empties the store. */
    method DeleteAll()
      requires Valid()
      modifies this
      ensures Valid() && CursorValid()
      ensures locdatas == [] && locdataNames == [] && index == -1
      ensures signals == old(signals) + [NamesChanged([]), IndexChanged(-1)]
    {
      locdatas, locdataNames, index := [], [], -1;
      signals := signals + [NamesChanged(locdataNames), IndexChanged(index)];
    }

    /** `__getstate__`: both lists and the cursor, in a restorable state. */
    function GetState(): (s: SmlmState<L>)
      reads this
      requires Valid()
      ensures |s.locdataNames| == |s.locdatas| && s.index < |s.locdatas|
      ensures s.locdatas == locdatas && s.locdataNames == locdataNames && s.index == index
    {
      SmlmState(locdatas, locdataNames, index)
    }

    /** `__setstate__`: restores what `GetState` saved. */
    method SetState(s: SmlmState<L>)
      requires |s.locdataNames| == |s.locdatas| && s.index < |s.locdatas|
      modifies this
      ensures Valid() && GetState() == s
      ensures signals == old(signals)
    {
      locdatas, locdataNames, index := s.locdatas, s.locdataNames, s.index;
    }
  }

  /** Datasets appended without focus keep the cursor; the default append
      moves it to the new entry (the SMLM widget's append sequence). */
  method AppendFocusRun<L>(x: L, y: L, z: L, identifier: L -> string) returns (cursors: seq<int>, names: seq<string>)
    ensures cursors == [0, 0, 2]
    ensures names == [identifier(x), identifier(y), identifier(z)]
  {
    var r := SmlmData<L>.Create(None, None, identifier);
    var s := r.value;
    var res := s.AppendItem(Some(x), None, true, identifier);
    var c0 := s.index;
    res := s.AppendItem(Some(y), None, false, identifier);
    var c1 := s.index;
    res := s.AppendItem(Some(z), None, true, identifier);
    cursors, names := [c0, c1, s.index], s.locdataNames;
  }

  /** Deleting from a store of two named datasets: first the active (last)
      one goes and the first is selected, then the store is empty. */
  method DeleteRun<L>(x: L, y: L, identifier: L -> string) returns (names1: seq<string>, index1: int, index2: int, empty: bool)
    ensures names1 == ["1"] && index1 == 0 && index2 == -1 && empty
  {
    var r := SmlmData<L>.Create(Some([x, y]), Some(["1", "2"]), identifier);
    var s := r.value;
    var res := s.DeleteItem();
    names1, index1 := s.locdataNames, s.index;
    res := s.DeleteItem();
    index2, empty := s.index, s.locdatas == [];
  }
}
