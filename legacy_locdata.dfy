/** The oldest SMLM store (`_locdata.py`): the names are derived from each
    dataset's identifier and file name, the first entry is selected on a bulk
    set, and the cursor setter checks nothing. */
module LegacyLocdata {
  import opened Builtins
  import opened DataModelBase

  /** The name of one dataset: its identifier, "-", and the last component
      of its file path (both read from the dataset's metadata, so
      parameters here). */
  function LocdataName<L>(item: L, identifier: L -> string, fileName: L -> string): (s: string)
    ensures |s| > |identifier(item)| && s[|identifier(item)|] == '-'
    ensures s[..|identifier(item)|] == identifier(item) && s[|identifier(item)| + 1..] == fileName(item)
  {
    identifier(item) + "-" + fileName(item)
  }

  /** The names the `locdatas` setter derives, one per dataset. */
  function DerivedNames<L>(locdatas: seq<L>, identifier: L -> string, fileName: L -> string): (r: seq<string>)
    ensures |r| == |locdatas|
    ensures forall i :: 0 <= i < |locdatas| ==> r[i] == LocdataName(locdatas[i], identifier, fileName)
  {
    seq(|locdatas|, i requires 0 <= i < |locdatas| => LocdataName(locdatas[i], identifier, fileName))
  }

  class LocdataStore<L> {
    var locdatas: seq<L>
    var locdataNames: seq<string>
    var index: int
    ghost var signals: seq<Signal<L>>

    /** Kept by every operation: one name per dataset. The cursor is not
        constrained: its setter stores any value. */
    ghost predicate Valid()
      reads this
    {
      |locdataNames| == |locdatas|
    }

    predicate CursorValid()
      reads this
    {
      -1 <= index < |locdatas|
    }

    /** `SmlmData(locdatas)`: the `locdatas` setter applied to an empty store. */
    constructor (initial: Option<seq<L>>, identifier: L -> string, fileName: L -> string)
      ensures Valid() && CursorValid()
      ensures locdatas == initial.GetOr([]) && locdataNames == DerivedNames(locdatas, identifier, fileName)
      ensures index == (if locdatas == [] then -1 else 0)
      ensures signals == [ItemsChanged(locdatas), NamesChanged(locdataNames), IndexChanged(index)]
    {
      locdatas := initial.GetOr([]);
      locdataNames := DerivedNames(initial.GetOr([]), identifier, fileName);
      index := if initial.GetOr([]) == [] then -1 else 0;
      new;
      signals := [ItemsChanged(locdatas), NamesChanged(locdataNames), IndexChanged(index)];
    }

    /** The `locdatas` setter: None means none; one derived name per
        dataset; the first entry is selected; then `change_event`. */
    method SetLocdatas(value: Option<seq<L>>, identifier: L -> string, fileName: L -> string)
      modifies this
      ensures Valid() && CursorValid()
      ensures locdatas == value.GetOr([]) && locdataNames == DerivedNames(locdatas, identifier, fileName)
      ensures index == (if locdatas == [] then -1 else 0)
      ensures signals == old(signals) + [ItemsChanged(locdatas), NamesChanged(locdataNames), IndexChanged(index)]
    {
      locdatas := value.GetOr([]);
      if locdatas != [] {
        locdataNames := DerivedNames(locdatas, identifier, fileName);
        index := 0;
      } else {
        locdataNames := [];
        index := -1;
      }
      ChangeEvent();
    }

    /** `change_event`: announces datasets, names and cursor, in this order. */
    method ChangeEvent()
      modifies this
      ensures locdatas == old(locdatas) && locdataNames == old(locdataNames) && index == old(index)
      ensures signals == old(signals) + [ItemsChanged(locdatas), NamesChanged(locdataNames), IndexChanged(index)]
    {
      signals := signals + [ItemsChanged(locdatas), NamesChanged(locdataNames), IndexChanged(index)];
    }

    /** The `index` setter: stores any value, in range or not. */
    method SetIndex(value: int)
      requires Valid()
      modifies this
      ensures Valid()
      ensures locdatas == old(locdatas) && locdataNames == old(locdataNames) && index == value
      ensures signals == old(signals) + [IndexChanged(value)]
      ensures CursorValid() <==> -1 <= value < |locdatas|
    {
      index := value;
      signals := signals + [IndexChanged(value)];
    }

    /** The `locdata` getter: None at -1; a cursor outside the list raises
        IndexError here, at the first read. */
    function Locdata(): (r: Result<Option<L>>)
      reads this
      requires Valid()
      ensures CursorValid() ==> r == (if index == -1 then Ok(None) else Ok(Some(locdatas[index])))
      ensures r.Err? <==> index != -1 && !(-|locdatas| <= index < |locdatas|)
    {
      Selected(locdatas, index)
    }

    /** The `locdata_name` getter: "" at -1. */
    function LocdataNameOf(): (r: Result<string>)
      reads this
      requires Valid()
      ensures CursorValid() ==> r == (if index == -1 then Ok("") else Ok(locdataNames[index]))
      ensures r.Err? <==> index != -1 && !(-|locdatas| <= index < |locdatas|)
    {
      SelectedName(locdataNames, index)
    }
  }

  /** A cursor set past the end is accepted and only the next read fails. */
  method UncheckedIndexRun<L>(a: L, identifier: L -> string, fileName: L -> string)
    returns (index: int, read: Result<Option<L>>, name: string)
    ensures index == 5 && read == Err(IndexError)
    ensures name == identifier(a) + "-" + fileName(a)
  {
    var store := new LocdataStore<L>(Some([a]), identifier, fileName);
    name := store.locdataNames[0];
    store.SetIndex(5);
    index, read := store.index, store.Locdata();
  }
}
