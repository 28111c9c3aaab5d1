# napari-locan data stores, modelled in Dafny

napari-locan is a napari plugin for single-molecule localization microscopy
(SMLM). Its widgets share a small family of **selectable indexed
collections**. Each one holds two parallel lists, the items and their names.
It also holds a cursor on the active item (`-1` when nothing is selected) and,
in the newer stores, a creation counter. Every change is announced through
Qt signals.

This project models these stores and the two coordinators on top of them:

- `DataModel` (`data_model_base.py`) is the canonical store. Its subclasses
  `FilterSpecifications`, `RegionSpecifications` and `RoiSpecifications` are
  thin instantiations of it. `FilterSpecifications` adds the derived
  `filter_condition`. Modules: `DataModelBase`, `FilterSpecifications`,
  `RegionSpecifications`, `RoiSpecifications`, plus the client runs in
  `DataModelScenarios`.
- `SmlmData` (`smlm_data.py`) is the dataset store. It is a hand-written twin
  of `DataModel` with no counter. Its default names come from the datasets'
  identifiers. Module: `SmlmDataModel`.
- Three legacy stores select the first entry on a bulk set and renumber
  their names on append:
  - `data_model/filter.py`, module `LegacyFilter`;
  - `data_model/_filter.py`, module `LegacyFilterList`;
  - `_locdata.py`, module `LegacyLocdata`.
- The ROI widget's handlers (`widget_roi.py`, modules `RoiWidget` and
  `RoiWidgetScenarios`) name regions and ROIs from the ROI store's counter.
  They create ROIs from the active region and apply the active ROI to the
  dataset store.
- The project widget (`widget_napari_locan_project.py`, module
  `ProjectWidget`) handles "New", packing and unpacking of the four shared
  stores.

Each mutable store is a Dafny `class`. Its fields are the Python object's
private fields. Its methods carry `modifies this` and state the whole new
state. A ghost field `signals` logs the change notifications in the order
they are emitted. Python's own semantics are spelled out:

- A raised exception is a `Fail(error)` outcome or an `Err(error)` result,
  with `Error` naming the Python exception class.
- `list.pop(i)` and `xs[i]` follow Python's negative indexing (`Position`).
- `str(n)` is written out as a decimal function (`NatToString`).
- `assert x is not None` narrowing fails with `AssertionError`.

Items are type parameters: datasets, regions and filter maps are never
inspected by the stores.

Two kinds of invariant are kept apart. `Valid()` says there is one name per
item and the cursor is not past the end. Every operation of `DataModel`,
`SmlmData` and the two legacy filter stores keeps it, and so does every ROI
widget handler. Unpacking a project keeps it only for states that satisfy it
themselves (see "Left out"). The legacy `_locdata.py` store accepts any
cursor, so its `Valid()` bounds only the name list.
`CursorValid()` says the cursor is `-1` or a real position. The model proves
that `delete_item` breaks `CursorValid()` when it is called with nothing
selected on two or more items. In that case Python's `pop(-1)` removes the
last item and the cursor ends at `-2`.

## Model

| member | source | states |
|---|---|---|
| Builtins.Position | src/napari_locan/data_model/data_model_base.py:220-223 | a Python list index is valid exactly when `-n <= i < n`; the position it addresses is `i mod n` |
| Builtins.RemoveAt | src/napari_locan/data_model/data_model_base.py:222-223 | `pop(p)` leaves one entry fewer; the entries before `p` stay and those after it shift left by one; popping the last position leaves the prefix |
| Builtins.RemoveAtMultiset | src/napari_locan/data_model/data_model_base.py:222-223 | popping loses exactly the popped entry (multiset equality) |
| Builtins.Selected | src/napari_locan/data_model/data_model_base.py:144-149 | the active-item getter: None exactly at `-1`, the item when the cursor is a position, IndexError when the cursor is out of Python's index range |
| Builtins.SelectedName | src/napari_locan/data_model/data_model_base.py:165-170 | the active-name getter: "" at `-1`, the name at a valid cursor, and an error exactly when the active-item getter errs |
| Builtins.NatToString | src/napari_locan/data_model/data_model_base.py:106 | `str(i)` of a natural is a non-empty digit string without a leading zero |
| Builtins.DigitsValue | src/napari_locan/data_model/data_model_base.py:106 | the number a digit string denotes (`int(s)`), 0 exactly when every digit is 0; it is the reading that `DigitsValueOfNatToString` inverts |
| Builtins.DigitsValueOfNatToString | src/napari_locan/data_model/data_model_base.py:106 | `int(str(n)) == n` |
| Builtins.NatToStringInjective | src/napari_locan/data_model/data_model_base.py:106 | different numbers have different decimal texts |
| Builtins.BeforeFirst | src/napari_locan/widgets/widget_roi.py:511 | `s.split(sep)[0]` is a prefix of `s` without `sep`, followed in `s` by `sep` when it is shorter |
| DataModelBase.PositionNames | src/napari_locan/data_model/data_model_base.py:103-107 | the default names are `str(i)` for each position `i` |
| DataModelBase.PositionNamesDistinct | src/napari_locan/data_model/data_model_base.py:106 | default names are pairwise different and read back as their positions |
| DataModelBase.CursorAfterDelete | src/napari_locan/data_model/data_model_base.py:229-234 | after a delete the cursor is -1 exactly when the store is empty; deleting position 0 keeps 0; any other position moves one left |
| DataModelBase.DataModel.constructor | src/napari_locan/data_model/data_model_base.py:64-67 | a fresh store before the bulk set: empty lists, cursor -1, counter 0, no notification, both invariants hold |
| DataModelBase.DataModel.Create | src/napari_locan/data_model/data_model_base.py:59-68 | construction fails exactly when names come without datasets or the lengths differ; otherwise the datasets, the names given or defaulted, cursor on the last entry, counter = item count, and one items/names/index notification each |
| DataModelBase.DataModel.SetDatasetsAndNames | src/napari_locan/data_model/data_model_base.py:93-122 | all four branches: both None empties; names None gives position names; unequal lengths raise ValueError with nothing changed; cursor = n-1; counter rises by n; items, names, index notified |
| DataModelBase.DataModel.SetIndex | src/napari_locan/data_model/data_model_base.py:128-138 | above n-1 raises IndexError with nothing changed; a negative value becomes -1; else the value; lists and counter unchanged; index notified |
| DataModelBase.DataModel.Dataset | src/napari_locan/data_model/data_model_base.py:144-149 | at a valid cursor: None at -1, else the item under the cursor; any item returned is an item of the store; an error only for a cursor below -1 |
| DataModelBase.DataModel.Name | src/napari_locan/data_model/data_model_base.py:165-170 | at a valid cursor: "" at -1, else the name under the cursor; an error only for a cursor below -1 |
| DataModelBase.DataModel.SetDataset | src/napari_locan/data_model/data_model_base.py:151-163 | ValueError at -1 with nothing changed; otherwise only the active slot is replaced, the counter rises by one, names and cursor stay; items then index notified |
| DataModelBase.DataModel.SetName | src/napari_locan/data_model/data_model_base.py:172-182 | ValueError at -1 with nothing changed; otherwise only the active name is replaced; names notified |
| DataModelBase.DataModel.AppendItem | src/napari_locan/data_model/data_model_base.py:184-214 | both None is a no-op; a name without a dataset fails the narrowing; otherwise exactly one entry is added to each list, named `str(new length)` by default, the cursor moves to it only if `setIndex`, the counter rises by one, and the selection invariant is kept |
| DataModelBase.DataModel.DeleteItem | src/napari_locan/data_model/data_model_base.py:216-237 | IndexError exactly when `pop(index)` has nothing to pop (an empty store among them), with nothing changed; otherwise the entry at the cursor goes from both lists, the cursor follows `CursorAfterDelete`, the counter stays; from -1 on two or more entries the last entry goes and the cursor ends at -2 |
| DataModelBase.DataModel.DeleteAll | src/napari_locan/data_model/data_model_base.py:239-247 | leaves `([], [], -1)`, counter unchanged, names then index notified |
| DataModelBase.DataModel.GetState | src/napari_locan/data_model/data_model_base.py:70-77 | the pickled state holds exactly the counter, both lists and the cursor, and is restorable |
| DataModelBase.DataModel.SetState | src/napari_locan/data_model/data_model_base.py:79-83 | restoring a state makes `GetState()` return it |
| DataModelScenarios.DefaultNamesRun | src/napari_locan/_tests/data_model/test_data_model.py:19-25 | two unnamed datasets are named "0", "1", the cursor is 1 and the active name is "1" |
| DataModelScenarios.IndexRun | src/napari_locan/_tests/data_model/test_data_model.py:35-50 | cursor 3 on two items raises IndexError; -1 reads as None and "" |
| DataModelScenarios.RenameRun | src/napari_locan/_tests/data_model/test_data_model.py:52-58 | renaming the active entry twice gives `["0_1", "1_2"]` |
| DataModelScenarios.DeleteWalkRun | src/napari_locan/data_model/data_model_base.py:216-247 | repeated deletes walk the cursor 2, 1, 0, -1 and then raise IndexError; `delete_all` twice is harmless; the counter stays 3 |
| DataModelScenarios.KeepIndexRun | src/napari_locan/data_model/data_model_base.py:184-214 | appending without focus keeps cursor 0; the next default append selects position 3; default names count from 1 past the length |
| DataModelScenarios.DeleteUnselectedRun | src/napari_locan/data_model/data_model_base.py:220-234 | delete with nothing selected on three items removes the last, leaves cursor -2, and the getter then reads the first item |
| DataModelScenarios.NameWithoutDatasetRun | src/napari_locan/data_model/data_model_base.py:202-204 | appending a name without a dataset raises AssertionError and adds nothing |
| DataModelScenarios.StateRoundTripRun | src/napari_locan/data_model/data_model_base.py:70-83 | `setstate(getstate())` into an emptied store restores counter, lists and cursor |
| FilterSpecifications.Values | src/napari_locan/data_model/filter_specifications.py:59-61 | `d.values()` lists the selectors in map order |
| FilterSpecifications.IntToString | src/napari_locan/_tests/data_model/test_filter_specifications.py:36-39 | `str(i)` of a bound: a minus sign exactly for a negative number, then digits that read back as its magnitude |
| FilterSpecifications.Clause | tests/widgets/test_widget_select.py:59-61 | one selector's text: at least five characters, starting with the lower bound's text and " < " |
| FilterSpecifications.SelectorCondition | src/napari_locan/data_model/filter_specifications.py:58-61 | the reference rendering of the selectors is "" or holds at least one whole clause; its laws are the lemmas below |
| FilterSpecifications.Conjoin | src/napari_locan/data_model/filter_specifications.py:58-61 | joining two condition texts: "" is the unit on both sides, the result is "" only when both are, and otherwise it starts with the first text and " and " |
| FilterSpecifications.SelectorConditionFirstClause | tests/widgets/test_widget_select.py:82-85 | the condition starts with the clause of the first activated selector, wherever it stands |
| FilterSpecifications.SelectorConditionEmpty | tests/widgets/test_widget_select.py:111-119 | the reference condition is "" exactly when no selector is activated |
| FilterSpecifications.SelectorConditionConcat | src/napari_locan/data_model/filter_specifications.py:58-62 | the condition of a concatenation is the " and "-join of the parts' conditions, so clauses keep map order |
| FilterSpecifications.SelectorConditionSkipsInactive | tests/widgets/test_widget_select.py:38-61 | a deactivated selector contributes nothing wherever it stands |
| FilterSpecifications.FilterCondition | src/napari_locan/data_model/filter_specifications.py:54-62 | "" at -1; otherwise the rendering of the active map's values, and an error exactly when the `dataset` getter errs |
| FilterSpecifications.TwoActiveSelectors | src/napari_locan/_tests/data_model/test_filter_specifications.py:36-39 | two activated selectors render as their clauses joined by " and " |
| FilterSpecifications.UnitClause | src/napari_locan/_tests/data_model/test_filter_specifications.py:18-25 | a selector bounded by 0 and 1 renders as "0 < p < 1" |
| FilterSpecifications.UnitSquareCondition | src/napari_locan/_tests/data_model/test_filter_specifications.py:18-39 | the unit square renders as "0 < position_x < 1 and 0 < position_y < 1" |
| FilterSpecifications.ConstructionRun | src/napari_locan/_tests/data_model/test_filter_specifications.py:8-39 | an empty store has condition ""; two unit-square maps named "1", "2" select the second and render its condition |
| RegionSpecifications.RegionConstructionRun | src/napari_locan/_tests/data_model/test_region_specifications.py:9-25 | empty construction gives `([], [], -1)`, None and ""; two named regions select the second, named "empty" |
| RoiSpecifications.RoiConstructionRun | src/napari_locan/_tests/data_model/test_roi_specifications.py:11-29 | empty construction gives `([], [], -1)`, None and ""; two ROIs named "1", "2" select the second |
| RoiSpecifications.RoiNotificationRun | src/napari_locan/_tests/data_model/test_roi_specifications.py:30-50 | setting the cursor, renaming and appending each notify; the exact notification log |
| SmlmDataModel.IdentifierNames | src/napari_locan/data_model/smlm_data.py:61 | default names are the datasets' identifiers, one per dataset |
| SmlmDataModel.SmlmData.Init | src/napari_locan/data_model/smlm_data.py:54-71 | the three fields as one branch of `__init__` sets them, the invariant kept, no notification |
| SmlmDataModel.SmlmData.Create | src/napari_locan/data_model/smlm_data.py:48-71 | no arguments give an empty store; datasets alone are named by identifier; unequal lengths raise ValueError; names without datasets fail the narrowing; cursor on the last; no notification |
| SmlmDataModel.SmlmData.SetIndex | src/napari_locan/data_model/smlm_data.py:99-109 | above n-1 raises IndexError with nothing changed; negative becomes -1; else the value |
| SmlmDataModel.SmlmData.Locdata | src/napari_locan/data_model/smlm_data.py:115-120 | at a valid cursor: None at -1, else the active dataset; any dataset returned is in the store; an error only for a cursor below -1 |
| SmlmDataModel.SmlmData.LocdataName | src/napari_locan/data_model/smlm_data.py:134-139 | at a valid cursor: "" at -1, else the active name; an error only for a cursor below -1 |
| SmlmDataModel.SmlmData.SetLocdata | src/napari_locan/data_model/smlm_data.py:122-132 | ValueError at -1; otherwise only the active slot changes; only the index is notified |
| SmlmDataModel.SmlmData.SetLocdataName | src/napari_locan/data_model/smlm_data.py:141-151 | ValueError at -1; otherwise only the active name changes |
| SmlmDataModel.SmlmData.AppendItem | src/napari_locan/data_model/smlm_data.py:153-177 | no dataset is a no-op, and a name without a dataset fails the narrowing; otherwise one entry per list, default name the identifier, cursor moved only if `setIndex`, names then index notified |
| SmlmDataModel.SmlmData.DeleteItem | src/napari_locan/data_model/smlm_data.py:179-197 | IndexError when nothing can be popped; otherwise the active entry goes and the cursor moves left; -1 on two or more entries leaves -2 |
| SmlmDataModel.SmlmData.DeleteAll | src/napari_locan/data_model/smlm_data.py:199-204 | leaves `([], [], -1)` |
| SmlmDataModel.SmlmData.GetState | src/napari_locan/data_model/smlm_data.py:73-79 | the pickled state is exactly both lists and the cursor |
| SmlmDataModel.SmlmData.SetState | src/napari_locan/data_model/smlm_data.py:81-85 | restoring a state makes `GetState()` return it |
| SmlmDataModel.AppendFocusRun | tests/widgets/test_widget_smlm_data.py:50-66 | appends with, without, with focus leave cursors 0, 0, 2; names are the identifiers |
| SmlmDataModel.DeleteRun | tests/widgets/test_widget_smlm_data.py:76-90 | deleting from `["1", "2"]` leaves `["1"]` at 0, then an empty store at -1 |
| LegacyFilter.FilterSpecificationsStore.constructor | src/napari_locan/data_model/filter.py:50-56 | construction is the `filters` setter on an empty store |
| LegacyFilter.FilterSpecificationsStore.SetFilters | src/napari_locan/data_model/filter.py:76-88 | None means []; names "0".."n-1"; cursor 0 when non-empty, -1 when empty; then the change event |
| LegacyFilter.FilterSpecificationsStore.ChangeEvent | src/napari_locan/data_model/filter.py:135-139 | notifies filters, names, index in that order, changing nothing |
| LegacyFilter.FilterSpecificationsStore.SetIndex | src/napari_locan/data_model/filter.py:98-105 | above n-1 raises IndexError; otherwise the raw value is stored, so values below -1 break the selection invariant |
| LegacyFilter.FilterSpecificationsStore.Filter | src/napari_locan/data_model/filter.py:111-116 | at a valid cursor: None at -1, else the active map; an error exactly for a cursor below -1 that Python cannot index |
| LegacyFilter.FilterSpecificationsStore.FilterName | src/napari_locan/data_model/filter.py:118-123 | at a valid cursor: "" at -1, else the active name; an error exactly for a cursor below -1 that Python cannot index |
| LegacyFilter.FilterSpecificationsStore.FilterConditionOf | src/napari_locan/data_model/filter.py:125-133 | "" at -1, else the rendering of the active map's values |
| LegacyFilter.FilterSpecificationsStore.AppendItem | src/napari_locan/data_model/filter.py:141-145 | None is a no-op; otherwise appends, renames all entries to positions and selects the last |
| LegacyFilter.FilterSpecificationsStore.DeleteItem | src/napari_locan/data_model/filter.py:147-158 | IndexError when nothing can be popped; otherwise the active entry goes and the cursor becomes old-1, so deleting position 0 of several selects nothing |
| LegacyFilter.FilterSpecificationsStore.DeleteAll | src/napari_locan/data_model/filter.py:160-165 | leaves `([], [], -1)` |
| LegacyFilter.FilterSpecificationsStore.GetState | src/napari_locan/data_model/filter.py:58-64 | the pickled state is exactly filters, names and cursor |
| LegacyFilter.FilterSpecificationsStore.SetState | src/napari_locan/data_model/filter.py:66-70 | restoring a state makes `GetState()` return it |
| LegacyFilter.AppendRenumbersRun | src/napari_locan/data_model/filter.py:141-145 | after appends the names are distinct and read back as their positions; the last is selected |
| LegacyFilter.DeleteFirstRun | src/napari_locan/data_model/filter.py:147-158 | deleting the first of three leaves the other two with nothing selected |
| LegacyFilterList.FilterList.constructor | src/napari_locan/data_model/_filter.py:39-45 | construction is the `filters` setter on an empty store |
| LegacyFilterList.FilterList.SetFilters | src/napari_locan/data_model/_filter.py:51-63 | None means []; names "0".."n-1"; cursor 0 or -1; then the change event |
| LegacyFilterList.FilterList.ChangeEvent | src/napari_locan/data_model/_filter.py:100-104 | notifies filters, names, index in that order |
| LegacyFilterList.FilterList.SetIndex | src/napari_locan/data_model/_filter.py:73-80 | above n-1 raises IndexError; otherwise stores the raw value |
| LegacyFilterList.FilterList.Filter | src/napari_locan/data_model/_filter.py:86-91 | at a valid cursor: None at -1, else the active filter; an error exactly for a cursor below -1 that Python cannot index |
| LegacyFilterList.FilterList.FilterName | src/napari_locan/data_model/_filter.py:93-98 | at a valid cursor: "" at -1, else the active name; an error exactly for a cursor below -1 that Python cannot index |
| LegacyFilterList.FilterList.AppendFilter | src/napari_locan/data_model/_filter.py:106-110 | None is a no-op; otherwise appends, renumbers and selects the last |
| LegacyFilterList.FilterListRun | src/napari_locan/_tests/test_filter_specifications.py:10-91 | empty construction is `([], [], -1)`; two filters are "0", "1" at cursor 0; cursor 2 raises; appending gives "0".."2" at 2 |
| LegacyLocdata.LocdataName | src/napari_locan/_locdata.py:60-63 | a derived name is the identifier, "-", and the file name, each reading back from its part |
| LegacyLocdata.DerivedNames | src/napari_locan/_locdata.py:59-63 | one derived name per dataset |
| LegacyLocdata.LocdataStore.constructor | src/napari_locan/_locdata.py:41-47 | construction is the `locdatas` setter on an empty store |
| LegacyLocdata.LocdataStore.SetLocdatas | src/napari_locan/_locdata.py:53-68 | None means []; derived names; cursor 0 when non-empty, -1 when empty; then the change event |
| LegacyLocdata.LocdataStore.ChangeEvent | src/napari_locan/_locdata.py:101-105 | notifies datasets, names, index in that order |
| LegacyLocdata.LocdataStore.SetIndex | src/napari_locan/_locdata.py:78-81 | stores any value unchecked; the selection invariant holds afterwards exactly when the value is in range |
| LegacyLocdata.LocdataStore.Locdata | src/napari_locan/_locdata.py:87-92 | at a valid cursor: None at -1, else the active dataset; an error exactly for a cursor outside Python's index range |
| LegacyLocdata.LocdataStore.LocdataNameOf | src/napari_locan/_locdata.py:94-99 | at a valid cursor: "" at -1, else the active name; an error exactly for a cursor outside Python's index range |
| LegacyLocdata.UncheckedIndexRun | src/napari_locan/_locdata.py:78-92 | cursor 5 on one dataset is accepted and only the next read raises IndexError |
| RoiWidget.RegionNames | src/napari_locan/widgets/widget_roi.py:522-527 | the k-th region taken together is named `{first+k}-{repr prefix}` |
| RoiWidget.BeforeFirstOfPrefix | src/napari_locan/widgets/widget_roi.py:511 | splitting `prefix + sep + rest` at the first `sep` gives `prefix` when `prefix` has no `sep` |
| RoiWidget.RegionNameIdentifier | src/napari_locan/widgets/widget_roi.py:510-512 | the identifier of a region name reads back from the text before its first "-" |
| RoiWidget.RegionNamesDiffer | src/napari_locan/widgets/widget_roi.py:510-512 | regions numbered differently get different names whatever their shapes |
| RoiWidget.RegionNamesDistinct | src/napari_locan/widgets/widget_roi.py:522-527 | the names of regions taken together are pairwise different |
| RoiWidget.RoiNameDigits | src/napari_locan/widgets/widget_roi.py:697-699 | a ROI name is "roi_" followed by digits that read back as its number |
| RoiWidget.RoiNameInjective | src/napari_locan/widgets/widget_roi.py:697-699 | `roi_{a} == roi_{b}` exactly when `a == b` |
| RoiWidget.ReferenceFor | src/napari_locan/widgets/widget_roi.py:651-685 | "None" gives no reference; "SmlmData" the active dataset (or none); "File reference" its metadata, AttributeError without one; "File dialog" a path reference when the type choice is confirmed with a known type, KeyError otherwise; anything else ValueError |
| RoiWidget.RoiQWidget.constructor | src/napari_locan/widgets/widget_roi.py:40-51 | the widget holds three distinct valid stores |
| RoiWidget.RoiQWidget.RegionsFromShapes | src/napari_locan/widgets/widget_roi.py:515-529 | the shapes are appended in order, named from the ROI counter plus one plus their position; the last is selected; the region counter rises by their number; each append notifies items, names and cursor in turn |
| RoiWidget.RoiQWidget.RegionFromSmlmData | src/napari_locan/widgets/widget_roi.py:447-513 | no active dataset raises; a dialog with no region changes nothing; otherwise one region named `{ROI count+1}-{repr prefix}` is appended and selected, the counter rises by one, items, names and cursor notified |
| RoiWidget.RoiQWidget.DeleteRegion | src/napari_locan/widgets/widget_roi.py:435-436 | the region store's `delete_item`: IndexError when nothing can be popped; otherwise the active region goes, the cursor follows `CursorAfterDelete`, the counter stays, names then index notified |
| RoiWidget.RoiQWidget.DeleteAllRegions | src/napari_locan/widgets/widget_roi.py:424-433 | empties the region store only when confirmed, counter kept, names then index notified |
| RoiWidget.RoiQWidget.CreateRoi | src/napari_locan/widgets/widget_roi.py:638-699 | LookupError without an active region; the reference's error; otherwise one ROI of the active region, the reference and the two properties is appended as `roi_{count+1}` and selected, the counter rises by one, items, names and cursor notified |
| RoiWidget.RoiQWidget.LoadRoi | src/napari_locan/widgets/widget_roi.py:545-563 | the loaded ROI is appended as `roi_{count+1}` and selected, the counter rises by one, items, names and cursor notified |
| RoiWidget.RoiQWidget.ApplyRoi | src/napari_locan/widgets/widget_roi.py:622-636 | KeyError without an active ROI; the selection's error; otherwise exactly one dataset is appended to the SMLM store under `{identifier}-{ROI text}` without moving its cursor, names then index notified |
| RoiWidget.RoiQWidget.DeleteRoi | src/napari_locan/widgets/widget_roi.py:542-543 | the ROI store's `delete_item`; the counter stays; names then index notified |
| RoiWidget.RoiQWidget.DeleteAllRois | src/napari_locan/widgets/widget_roi.py:531-540 | empties the ROI store only when confirmed; the counter stays; names then index notified |
| RoiWidgetScenarios.PolygonNames | src/napari_locan/_tests/widgets/test_widget_roi.py:98-102 | a "Polygon(c)" shape numbered 1 or 3 is named "1-Polygon" or "3-Polygon" |
| RoiWidgetScenarios.ShapesRun | src/napari_locan/_tests/widgets/test_widget_roi.py:98-111 | three shapes give three regions at cursor 2 named by identifiers 1..3; deleting leaves the first two at cursor 1 |
| RoiWidgetScenarios.RepeatedShapesRun | src/napari_locan/widgets/widget_roi.py:522-529 | two takes of one shape with no ROI in between both get identifier 1, so the region store holds the same name twice |
| RoiWidgetScenarios.RoiNames | src/napari_locan/widgets/widget_roi.py:697-699 | the first ROIs are named "roi_1", "roi_2", "roi_3", and the fifth "roi_5" |
| RoiWidgetScenarios.CreateRoiRun | src/napari_locan/_tests/widgets/test_widget_roi.py:187-253 | "None", "SmlmData" and "File reference" give ROIs without reference, of the dataset and of its metadata, named "roi_1".."roi_3" at cursor 2; an unknown choice raises ValueError |
| RoiWidgetScenarios.CreateWithoutRegionRun | src/napari_locan/widgets/widget_roi.py:638-642 | creating a ROI without a region raises LookupError and adds nothing |
| RoiWidgetScenarios.ApplyRoiRun | src/napari_locan/_tests/widgets/test_widget_roi.py:255-270 | applying an unreferenced ROI raises AttributeError and adds nothing; a dataset-referenced one adds one dataset and keeps the SMLM cursor |
| RoiWidgetScenarios.ApplyWithoutRoiRun | src/napari_locan/widgets/widget_roi.py:622-624 | applying without an active ROI raises KeyError and adds nothing |
| RoiWidgetScenarios.DeleteRoiRun | src/napari_locan/_tests/widgets/test_widget_roi.py:255-264 | deleting the last of four ROIs leaves three at cursor 2; the next ROI is "roi_5" |
| ProjectWidget.Copied | src/napari_locan/widgets/widget_napari_locan_project.py:132-185 | loading overwrites the stores in the order filter, region, ROI, SMLM up to the first missing or foreign entry |
| ProjectWidget.StopError | src/napari_locan/widgets/widget_napari_locan_project.py:132-185 | loading stops with KeyError exactly for a missing key, AttributeError otherwise |
| ProjectWidget.CopyInto | src/napari_locan/widgets/widget_napari_locan_project.py:134-148 | one store's datasets, names and cursor are overwritten, the counter is kept, names then index are notified |
| ProjectWidget.CopySmlmInto | src/napari_locan/widgets/widget_napari_locan_project.py:180-185 | the same for the SMLM store |
| ProjectWidget.NapariLocanProject.constructor | src/napari_locan/widgets/widget_napari_locan_project.py:45-58 | the project holds four distinct stores |
| ProjectWidget.NapariLocanProject.New | src/napari_locan/widgets/widget_napari_locan_project.py:86-90 | all four stores become `([], [], -1)`; counters are kept; each store notifies names then index |
| ProjectWidget.NapariLocanProject.Pack | src/napari_locan/widgets/widget_napari_locan_project.py:124-130 | exactly the four keys, each holding its store's pickled state; loading it copies all four |
| ProjectWidget.NapariLocanProject.Unpack | src/napari_locan/widgets/widget_napari_locan_project.py:132-185 | per store in the fixed order: datasets, names and cursor copied unchecked, counter kept, names then index notified; a missing or foreign entry raises after the earlier stores were overwritten and leaves the later ones unchanged |
| ProjectWidget.SaveLoadRun | tests/widgets/test_widget_napari_locan_project.py:119-162 | packing one project and unpacking into another gives it the first one's datasets, names and cursors |
| ProjectWidget.PartialLoadRun | src/napari_locan/widgets/widget_napari_locan_project.py:180-185 | a project file without the SMLM key overwrites the other three stores, raises KeyError and leaves the SMLM store unchanged |

## Left out

- Qt is not modelled: widgets, layouts, comboboxes and their synchronisation slots. Signals become the ghost log `signals`, which records emitted values but not connected slots.
- Dialogs and message boxes become parameters: the confirmation of "delete all", the region chosen from a dataset, the file-dialog answer.
- Pickle and YAML I/O are left out. The pickled project is a value (`ProjectState`): saving then loading a file is `Pack` followed by `Unpack`.
- The `locan` library is left out: `lc.filter_condition`, `roi.locdata()`, dataset identifiers, file names and `repr` of regions are parameters. `SelectorCondition` is a reference rendering with integer bounds. The float formatting of `lc.filter_condition` (for example "10.0") is not modelled.
- Python aliasing is left out. Constructors and unpacking share the caller's list objects in Python. Here every list is a value, so a later in-place change through another reference is not reflected.
- ProjectWidget.NapariLocanProject.Unpack: Python reads the private fields by duck typing, so a store of another class under a key would be copied if it has the same fields. Here an entry of the wrong kind stops with AttributeError.
- ProjectWidget.NapariLocanProject.Unpack: the copied triples are not validated. `Valid()` afterwards is proved only for restorable triples.
- DataModelBase.DataModel.SetState: `__setstate__` updates the attribute dictionary with whatever the state holds and reinitialises the QObject. Here it requires a restorable state of the four modelled fields.
- SmlmDataModel.SmlmData.SetState and LegacyFilter.FilterSpecificationsStore.SetState: the same restriction as above.
- RoiWidget.RoiQWidget.ApplyRoi: the ROI combobox's current text is the parameter `roiText`. The Qt slots that keep it equal to the ROI store's active name are not modelled.
- Items are never None here: appending `None` as a dataset is the `Option` value `None`, and a stored item cannot itself be None.
- `_scale_layer_button_on_click`, `_save_roi_button_on_click` and `_get_current_shapes_layer` concern napari layers and files only, and are not modelled.
- RoiWidget.ReferenceFor: the "File dialog" answer is given as a path, a confirmation flag and a type name; the list of `lc.FileType` names is not modelled beyond "UNKNOWN_FILE_TYPE".
