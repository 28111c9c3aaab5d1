/** Filter specifications: a `DataModel` whose datasets are maps from a
    property name to a `Selector`, plus the derived `filter_condition` of the
    active map. */
module FilterSpecifications {
  import opened Builtins
  import opened DataModelBase

  /** A bound on one localization property (`lc.Selector`); the bounds are
      integers here. */
  datatype Selector = Selector(locProperty: string, activate: bool, lowerBound: int, upperBound: int)

  /** One filter specification: a dict from a property name to its
      selector, in insertion order. */
  type FilterMap = seq<(string, Selector)>

  /** The store the filter widgets share: `FilterSpecifications(DataModel)`
      adds no state and no override, so it is the base store itself. */
  type FilterStore = DataModel<FilterMap>

  /** `d.values()`: the selectors of a filter map, in map order. */
  function Values(m: FilterMap): (r: seq<Selector>)
    ensures |r| == |m|
    ensures forall i :: 0 <= i < |m| ==> r[i] == m[i].1
  {
    seq(|m|, i requires 0 <= i < |m| => m[i].1)
  }

  /** `str(i)` for any integer: a minus sign exactly for a negative number,
      followed by digits that read back as its magnitude. */
  function IntToString(i: int): (s: string)
    ensures |s| >= 1
    ensures s[0] == '-' <==> i < 0
    ensures var digits := if i < 0 then s[1..] else s;
      IsDigits(digits) && DigitsValue(digits) == if i < 0 then -i else i
  {
    DigitsValueOfNatToString(if i < 0 then -i else i);
    if i < 0 then "-" + NatToString(-i) else NatToString(i)
  }

  /** The condition text of one selector: "lower < property < upper"; the
      lower bound, the property and the upper bound each read back from
      their place in the text. */
  function Clause(s: Selector): (c: string)
    ensures |c| >= 5
    ensures IntToString(s.lowerBound) + " < " <= c
  {
    IntToString(s.lowerBound) + " < " + s.locProperty + " < " + IntToString(s.upperBound)
  }

  /** No selector before position `i` is activated. */
  predicate NoneActiveBefore(selectors: seq<Selector>, i: int)
    requires 0 <= i <= |selectors|
  {
    forall j :: 0 <= j < i ==> !selectors[j].activate
  }

  /** The reference rendering of `lc.filter_condition`: the clauses of the
      activated selectors, in order, joined by " and ". */
  function SelectorCondition(selectors: seq<Selector>): (r: string)
    ensures r == "" || |r| >= 5
  {
    if selectors == [] then ""
    else
      var rest := SelectorCondition(selectors[1..]);
      if !selectors[0].activate then rest
      else if rest == "" then Clause(selectors[0])
      else Clause(selectors[0]) + " and " + rest
  }

  /** Two condition texts joined the way `SelectorCondition` joins clauses:
      "" is its unit, and the result is "" only when both parts are. */
  function Conjoin(a: string, b: string): (r: string)
    ensures a == "" ==> r == b
    ensures b == "" ==> r == a
    ensures r == "" <==> a == "" && b == ""
    ensures a != "" && b != "" ==> a + " and " <= r
  {
    if a == "" then b else if b == "" then a else a + " and " + b
  }

  /** The condition starts with the clause of the first activated selector. */
  lemma {:induction false} SelectorConditionFirstClause(selectors: seq<Selector>, i: nat)
    requires i < |selectors| && selectors[i].activate && NoneActiveBefore(selectors, i)
    ensures Clause(selectors[i]) <= SelectorCondition(selectors)
  {
    if i > 0 {
      assert selectors[1..][i - 1] == selectors[i];
      assert NoneActiveBefore(selectors[1..], i - 1) by {
        assert forall j :: 0 <= j < i - 1 ==> selectors[1..][j] == selectors[j + 1];
      }
      SelectorConditionFirstClause(selectors[1..], i - 1);
    }
  }

  /** The condition is empty exactly when no selector is activated. */
  lemma {:induction false} SelectorConditionEmpty(selectors: seq<Selector>)
    ensures SelectorCondition(selectors) == "" <==> forall i :: 0 <= i < |selectors| ==> !selectors[i].activate
  {
    if selectors != [] {
      SelectorConditionEmpty(selectors[1..]);
      assert forall i :: 1 <= i < |selectors| ==> selectors[i] == selectors[1..][i - 1];
    }
  }

  /** The condition of a concatenation is the conjunction of the parts'
      conditions: clauses keep map order. */
  lemma {:induction false} SelectorConditionConcat(a: seq<Selector>, b: seq<Selector>)
    ensures SelectorCondition(a + b) == Conjoin(SelectorCondition(a), SelectorCondition(b))
  {
    if a == [] {
      assert a + b == b;
    } else {
      assert (a + b)[1..] == a[1..] + b;
      SelectorConditionConcat(a[1..], b);
    }
  }

  /** A deactivated selector does not contribute to the condition, wherever
      it stands. */
  lemma SelectorConditionSkipsInactive(a: seq<Selector>, x: Selector, b: seq<Selector>)
    requires !x.activate
    ensures SelectorCondition(a + [x] + b) == SelectorCondition(a + b)
  {
    SelectorConditionConcat(a + [x], b);
    SelectorConditionConcat(a, [x]);
    assert SelectorCondition([x]) == "" by {
      assert [x][1..] == [];
    }
    assert a + [x] + b == (a + [x]) + b;
    SelectorConditionConcat(a, b);
  }

  /** `filter_condition`: "" when nothing is selected, otherwise the
      rendering (`lc.filter_condition`, a parameter here) of the active
      map's values; an out-of-range cursor raises like the `dataset` getter. */
  function FilterCondition(store: FilterStore, render: seq<Selector> -> string): (r: Result<string>)
    reads store
    requires store.Valid()
    ensures store.index == -1 ==> r == Ok("")
    ensures r.Err? <==> store.Dataset().Err?
    ensures store.Dataset().Ok? && store.Dataset().value.Some? ==> r == Ok(render(Values(store.Dataset().value.value)))
    ensures 0 <= store.index ==> r == Ok(render(Values(store.datasets[store.index])))
  {
    match store.Dataset()
      case Err(e) => Err(e)
      case Ok(None) => Ok("")
      case Ok(Some(m)) => Ok(render(Values(m)))
  }

  /** Two activated selectors render as their clauses joined by " and ". */
  lemma TwoActiveSelectors(x: Selector, y: Selector)
    requires x.activate && y.activate
    ensures SelectorCondition([x, y]) == Clause(x) + " and " + Clause(y)
  {
    assert [x, y][1..] == [y];
    assert [y][1..] == [];
  }

  /** The clause of a selector bounding a property to the open unit interval. */
  lemma UnitClause(property: string)
    ensures Clause(Selector(property, true, 0, 1)) == "0 < " + property + " < 1"
  {
    assert IntToString(0) == "0" && IntToString(1) == "1";
  }

  /** Proof step of `UnitSquareCondition`: the literal concatenation on its
      own, so that the solver evaluates it once. */
  lemma UnitSquareText()
    ensures ("0 < " + "position_x" + " < 1") + " and " + ("0 < " + "position_y" + " < 1")
         == "0 < position_x < 1 and 0 < position_y < 1"
  {
  }

  /** Two activated selectors on the unit square render as
      "0 < position_x < 1 and 0 < position_y < 1". */
  lemma UnitSquareCondition()
    ensures SelectorCondition([Selector("position_x", true, 0, 1), Selector("position_y", true, 0, 1)])
         == "0 < position_x < 1 and 0 < position_y < 1"
  {
    TwoActiveSelectors(Selector("position_x", true, 0, 1), Selector("position_y", true, 0, 1));
    UnitClause("position_x");
    UnitClause("position_y");
    UnitSquareText();
  }

  /** An empty store has no selection and an empty condition; a store of
      two unit-square maps named "1" and "2" selects the second and renders
      its condition. */
  method ConstructionRun() returns (empty: (seq<FilterMap>, seq<string>, int), emptyCondition: Result<string>,
                                    index: int, name: Result<string>, condition: Result<string>)
    ensures empty == ([], [], -1) && emptyCondition == Ok("")
    ensures index == 1 && name == Ok("2")
    ensures condition == Ok("0 < position_x < 1 and 0 < position_y < 1")
  {
    var r := FilterStore.Create(None, None);
    var store := r.value;
    empty, emptyCondition := (store.datasets, store.names, store.index), FilterCondition(store, SelectorCondition);
    var selectors := [("position_x", Selector("position_x", true, 0, 1)), ("position_y", Selector("position_y", true, 0, 1))];
    r := FilterStore.Create(Some([selectors, selectors]), Some(["1", "2"]));
    store := r.value;
    index, name := store.index, store.Name();
    assert Values(selectors) == [selectors[0].1, selectors[1].1];
    UnitSquareCondition();
    condition := FilterCondition(store, SelectorCondition);
  }
}
