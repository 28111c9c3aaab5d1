/** Region specifications: `RegionSpecifications(DataModel)` defines nothing
    beyond its constructor, so a region store is the base store over
    regions, and every operation and guarantee is the base store's. */
module RegionSpecifications {
  import opened Builtins
  import opened DataModelBase

  /** The store of regions `R` (the geometry itself is opaque here). */
  type RegionStore<R> = DataModel<R>

  /** An empty construction holds nothing and selects nothing; two named
      regions select the second, whose name is the getter's answer. */
  method RegionConstructionRun<R>(rectangle: R, empty: R)
    returns (emptyState: (seq<R>, seq<string>, int), emptyRead: (Result<Option<R>>, Result<string>),
             size: nat, index: int, active: Result<Option<R>>, name: Result<string>)
    ensures emptyState == ([], [], -1) && emptyRead == (Ok(None), Ok(""))
    ensures size == 2 && index == 1 && active == Ok(Some(empty)) && name == Ok("empty")
  {
    var r := RegionStore<R>.Create(None, None);
    var store := r.value;
    emptyState, emptyRead := (store.datasets, store.names, store.index), (store.Dataset(), store.Name());
    r := RegionStore<R>.Create(Some([rectangle, empty]), Some(["rectange", "empty"]));
    store := r.value;
    size, index, active, name := |store.datasets|, store.index, store.Dataset(), store.Name();
  }
}
