/** The oldest filter store (`data_model/_filter.py`): filters are lists of
    selectors, kept with position names; the first entry is selected on a
    bulk set; appending renumbers every entry. It has no delete. */
module LegacyFilterList {
  import opened Builtins
  import opened DataModelBase

  class FilterList<F> {
    var filters: seq<F>
    var filterNames: seq<string>
    var index: int
    ghost var signals: seq<Signal<F>>

    ghost predicate Valid()
      reads this
    {
      |filterNames| == |filters| && index < |filters|
    }

    predicate CursorValid()
      reads this
    {
      -1 <= index < |filters|
    }

    /** `FilterSpecifications(filters)`: the `filters` setter applied to an
        empty store. */
    constructor (initial: Option<seq<F>>)
      ensures Valid() && CursorValid()
      ensures filters == initial.GetOr([]) && filterNames == PositionNames(|filters|)
      ensures index == (if filters == [] then -1 else 0)
      ensures signals == [ItemsChanged(filters), NamesChanged(filterNames), IndexChanged(index)]
    {
      filters := initial.GetOr([]);
      filterNames := PositionNames(|initial.GetOr([])|);
      index := if initial.GetOr([]) == [] then -1 else 0;
      new;
      signals := [ItemsChanged(filters), NamesChanged(filterNames), IndexChanged(index)];
    }

    /** The `filters` setter: None means none; names become the positions
        and the first entry is selected; then `change_event`. */
    method SetFilters(value: Option<seq<F>>)
      modifies this
      ensures Valid() && CursorValid()
      ensures filters == value.GetOr([]) && filterNames == PositionNames(|filters|)
      ensures index == (if filters == [] then -1 else 0)
      ensures signals == old(signals) + [ItemsChanged(filters), NamesChanged(filterNames), IndexChanged(index)]
    {
      filters := value.GetOr([]);
      if filters != [] {
        filterNames := PositionNames(|filters|);
        index := 0;
      } else {
        filterNames := [];
        index := -1;
      }
      ChangeEvent();
    }

    /** `change_event`: announces filters, names and cursor, in this order. */
    method ChangeEvent()
      modifies this
      ensures filters == old(filters) && filterNames == old(filterNames) && index == old(index)
      ensures signals == old(signals) + [ItemsChanged(filters), NamesChanged(filterNames), IndexChanged(index)]
    {
      signals := signals + [ItemsChanged(filters), NamesChanged(filterNames), IndexChanged(index)];
    }

    /** The `index` setter: too large raises IndexError; any other value is
        stored as given. */
    method SetIndex(value: int) returns (res: Outcome)
      requires Valid()
      modifies this
      ensures Valid()
      ensures res == (if value > old(|filters|) - 1 then Fail(IndexError) else Pass)
      ensures res.Fail? ==> unchanged(this)
      ensures res.Pass? ==>
        && filters == old(filters) && filterNames == old(filterNames) && index == value
        && signals == old(signals) + [IndexChanged(value)]
    {
      if value > |filters| - 1 {
        return Fail(IndexError);
      }
      index := value;
      signals := signals + [IndexChanged(value)];
      return Pass;
    }

    /** The `filter` getter: None at -1, otherwise the addressed entry. */
    function Filter(): (r: Result<Option<F>>)
      reads this
      requires Valid()
      ensures CursorValid() ==> r == (if index == -1 then Ok(None) else Ok(Some(filters[index])))
      ensures r.Err? <==> index < -1 && Position(|filters|, index).None?
    {
      Selected(filters, index)
    }

    /** The `filter_name` getter: "" at -1. */
    function FilterName(): (r: Result<string>)
      reads this
      requires Valid()
      ensures CursorValid() ==> r == (if index == -1 then Ok("") else Ok(filterNames[index]))
      ensures r.Err? <==> index < -1 && Position(|filters|, index).None?
    {
      SelectedName(filterNames, index)
    }

    /** `append_filter`: appends, re-applies the `filters` setter and then
        selects the new last entry. */
    method AppendFilter(filter: Option<F>)
      requires Valid()
      modifies this
      ensures Valid()
      ensures filter.None? ==> unchanged(this)
      ensures filter.Some? ==>
        && filters == old(filters) + [filter.value]
        && filterNames == PositionNames(|filters|)
        && index == |filters| - 1
        && signals == old(signals) + [ItemsChanged(filters), NamesChanged(filterNames), IndexChanged(0), IndexChanged(index)]
      ensures filter.Some? ==> CursorValid()
    {
      if filter.Some? {
        SetFilters(Some(filters + [filter.value]));
        var res := SetIndex(|filters| - 1);
      }
    }
  }

  /** An empty construction selects nothing; a non-empty one names the
      entries "0", "1" and selects the first; a too-large cursor is refused;
      appending selects the new entry and renumbers. */
  method FilterListRun<F>(a: F, b: F, c: F)
    returns (empty: (seq<F>, seq<string>, int), names: seq<string>, index: int, tooLarge: Outcome, appended: (seq<string>, int))
    ensures empty == ([], [], -1)
    ensures names == ["0", "1"] && index == 0 && tooLarge == Fail(IndexError)
    ensures appended == (["0", "1", "2"], 2)
  {
    var store := new FilterList<F>(None);
    empty := (store.filters, store.filterNames, store.index);
    store := new FilterList<F>(Some([a, b]));
    assert NatToString(0) == "0" && NatToString(1) == "1" && NatToString(2) == "2";
    names, index := store.filterNames, store.index;
    tooLarge := store.SetIndex(2);
    store.AppendFilter(Some(c));
    assert PositionNames(3) == ["0", "1", "2"];
    appended := (store.filterNames, store.index);
  }
}
