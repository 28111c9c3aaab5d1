/** The earlier filter store (`data_model/filter.py`): a list of filter maps
    with position names. Unlike `DataModel` it selects the FIRST entry on a
    bulk set, renames every entry on append, accepts any cursor below the
    end, and always moves the cursor one left on delete. */
module LegacyFilter {
  import opened Builtins
  import opened DataModelBase
  import opened FilterSpecifications

  /** The pickled form: `_filters`, `_filter_names` and `_index`. */
  datatype FilterState = FilterState(filters: seq<FilterMap>, filterNames: seq<string>, index: int)

  class FilterSpecificationsStore {
    var filters: seq<FilterMap>
    var filterNames: seq<string>
    var index: int
    ghost var signals: seq<Signal<FilterMap>>

    /** Kept by every operation: one name per filter, cursor not past the end. */
    ghost predicate Valid()
      reads this
    {
      |filterNames| == |filters| && index < |filters|
    }

    predicate CursorValid()
      reads this
    {
      -1 <= index < |filters|
    }

    /** `FilterSpecifications(filters)`: the `filters` setter applied to an
        empty store. */
    constructor (initial: Option<seq<FilterMap>>)
      ensures Valid() && CursorValid()
      ensures filters == initial.GetOr([]) && filterNames == PositionNames(|filters|)
      ensures index == (if filters == [] then -1 else 0)
      ensures signals == [ItemsChanged(filters), NamesChanged(filterNames), IndexChanged(index)]
    {
      filters := initial.GetOr([]);
      filterNames := PositionNames(|initial.GetOr([])|);
      index := if initial.GetOr([]) == [] then -1 else 0;
      new;
      signals := [ItemsChanged(filters), NamesChanged(filterNames), IndexChanged(index)];
    }

    /** The `filters` setter: None means no filters; the names become the
        positions and the FIRST entry is selected; then `change_event`. */
    method SetFilters(value: Option<seq<FilterMap>>)
      modifies this
      ensures Valid() && CursorValid()
      ensures filters == value.GetOr([]) && filterNames == PositionNames(|filters|)
      ensures index == (if filters == [] then -1 else 0)
      ensures signals == old(signals) + [ItemsChanged(filters), NamesChanged(filterNames), IndexChanged(index)]
    {
      filters := value.GetOr([]);
      if filters != [] {
        filterNames := PositionNames(|filters|);
        index := 0;
      } else {
        filterNames := [];
        index := -1;
      }
      ChangeEvent();
    }

    /** `change_event`: announces filters, names and cursor, in this order. */
    method ChangeEvent()
      modifies this
      ensures filters == old(filters) && filterNames == old(filterNames) && index == old(index)
      ensures signals == old(signals) + [ItemsChanged(filters), NamesChanged(filterNames), IndexChanged(index)]
    {
      signals := signals + [ItemsChanged(filters), NamesChanged(filterNames), IndexChanged(index)];
    }

    /** The `index` setter: too large raises IndexError; any other value,
        even below -1, is stored as given. */
    method SetIndex(value: int) returns (res: Outcome)
      requires Valid()
      modifies this
      ensures Valid()
      ensures res == (if value > old(|filters|) - 1 then Fail(IndexError) else Pass)
      ensures res.Fail? ==> unchanged(this)
      ensures res.Pass? ==>
        && filters == old(filters) && filterNames == old(filterNames) && index == value
        && signals == old(signals) + [IndexChanged(value)]
      ensures res.Pass? && value < -1 ==> !CursorValid()
    {
      if value > |filters| - 1 {
        return Fail(IndexError);
      }
      index := value;
      signals := signals + [IndexChanged(value)];
      return Pass;
    }

    /** The `filter` getter: None at -1, otherwise the addressed entry. */
    function Filter(): (r: Result<Option<FilterMap>>)
      reads this
      requires Valid()
      ensures CursorValid() ==> r == (if index == -1 then Ok(None) else Ok(Some(filters[index])))
      ensures r.Err? <==> index < -1 && Position(|filters|, index).None?
    {
      Selected(filters, index)
    }

    /** The `filter_name` getter: "" at -1. */
    function FilterName(): (r: Result<string>)
      reads this
      requires Valid()
      ensures CursorValid() ==> r == (if index == -1 then Ok("") else Ok(filterNames[index]))
      ensures r.Err? <==> index < -1 && Position(|filters|, index).None?
    {
      SelectedName(filterNames, index)
    }

    /** The `filter_condition` getter: "" at -1, otherwise the rendering
        (`lc.filter_condition`, a parameter here) of the active map's values. */
    function FilterConditionOf(render: seq<Selector> -> string): (r: Result<string>)
      reads this
      requires Valid()
      ensures index == -1 ==> r == Ok("")
      ensures r.Err? <==> Filter().Err?
      ensures 0 <= index ==> r == Ok(render(Values(filters[index])))
    {
      match Filter()
      case Err(e) => Err(e)
      case Ok(None) => Ok("")
      case Ok(Some(m)) => Ok(render(Values(m)))
    }

    /** `append_item`: appends, re-applies the `filters` setter (which
        renumbers every name and selects the first entry) and then moves
        the cursor to the new entry. */
    method AppendItem(filter: Option<FilterMap>)
      requires Valid()
      modifies this
      ensures Valid()
      ensures filter.None? ==> unchanged(this)
      ensures filter.Some? ==>
        && filters == old(filters) + [filter.value]
        && filterNames == PositionNames(|filters|)
        && index == |filters| - 1
        && signals == old(signals) + [ItemsChanged(filters), NamesChanged(filterNames), IndexChanged(0), IndexChanged(index)]
      ensures filter.Some? ==> CursorValid()
    {
      if filter.Some? {
        SetFilters(Some(filters + [filter.value]));
        var res := SetIndex(|filters| - 1);
      }
    }

    /** `delete_item`: pops the addressed entry and sets the cursor to one
        less than before, whatever that was; so deleting the first of
        several entries leaves nothing selected. */
    method DeleteItem() returns (res: Outcome)
      requires Valid()
      modifies this
      ensures Valid()
      ensures res == (if Position(old(|filters|), old(index)).None? then Fail(IndexError) else Pass)
      ensures res.Fail? ==> unchanged(this)
      ensures res.Pass? ==>
        && var p := Position(old(|filters|), old(index)).value;
        && filters == RemoveAt(old(filters), p) && filterNames == RemoveAt(old(filterNames), p)
        && index == old(index) - 1
        && signals == old(signals) + [NamesChanged(filterNames), IndexChanged(index)]
      ensures old(index) == 0 && old(|filters|) >= 2 ==> res.Pass? && index == -1 && filters != []
    {
      var currentIndex := index;
      var p := Position(|filters|, currentIndex);
      if p.None? {
        return Fail(IndexError);
      }
      filters := RemoveAt(filters, p.value);
      filterNames := RemoveAt(filterNames, p.value);
      index := currentIndex - 1;
      signals := signals + [NamesChanged(filterNames), IndexChanged(index)];
      return Pass;
    }

    /** `delete_all`: empties the store. */
    method DeleteAll()
      requires Valid()
      modifies this
      ensures Valid() && CursorValid()
      ensures filters == [] && filterNames == [] && index == -1
      ensures signals == old(signals) + [NamesChanged([]), IndexChanged(-1)]
    {
      filters, filterNames, index := [], [], -1;
      signals := signals + [NamesChanged(filterNames), IndexChanged(index)];
    }

    /** `__getstate__`: exactly the filters, the names and the cursor. */
    function GetState(): (s: FilterState)
      reads this
      requires Valid()
      ensures |s.filterNames| == |s.filters| && s.index < |s.filters|
      ensures s.filters == filters && s.filterNames == filterNames && s.index == index
    {
      FilterState(filters, filterNames, index)
    }

    /** `__setstate__`: restores what `GetState` saved. */
    method SetState(s: FilterState)
      requires |s.filterNames| == |s.filters| && s.index < |s.filters|
      modifies this
      ensures Valid() && GetState() == s
      ensures signals == old(signals)
    {
      filters, filterNames, index := s.filters, s.filterNames, s.index;
    }
  }

  /** After any number of appends the names are the positions again, so they
      are pairwise different and read back as their positions. */
  method AppendRenumbersRun(a: FilterMap, b: FilterMap, c: FilterMap) returns (names: seq<string>, index: int)
    ensures |names| == 3 && index == 2
    ensures forall i, j :: 0 <= i < j < 3 ==> names[i] != names[j]
    ensures forall i :: 0 <= i < 3 ==> IsDigits(names[i]) && DigitsValue(names[i]) == i
  {
    var store := new FilterSpecificationsStore(Some([a]));
    var res := store.SetIndex(0);
    store.AppendItem(Some(b));
    store.AppendItem(Some(c));
    PositionNamesDistinct(3);
    names, index := store.filterNames, store.index;
  }

  /** Deleting the first of three filters leaves two, with nothing selected. */
  method DeleteFirstRun(a: FilterMap, b: FilterMap, c: FilterMap)
    returns (left: seq<FilterMap>, index: int, active: Result<Option<FilterMap>>)
    ensures left == [b, c] && index == -1 && active == Ok(None)
  {
    var store := new FilterSpecificationsStore(Some([a, b, c]));
    var res := store.DeleteItem();
    left, index, active := store.filters, store.index, store.Filter();
  }
}
